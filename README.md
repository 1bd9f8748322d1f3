# Catalog back end: a Dafny model

The back end is an Express and Mongoose service. It keeps a product catalog of categories,
subcategories and products, and a set of user accounts with two roles, `admin` and
`coordinador`. Requests are authenticated with a JSON Web Token. Route-level guards then decide
who may write what.

This project models the parts of it that change state or decide access:

- the three catalog schemas, with their validators, setters, slug hooks and hierarchy hooks;
- what `document.save()` does to a collection: validators first, then the pre-save hooks,
  then the unique indexes;
- the catalog write handlers: create, update, delete, toggle status, the deactivation cascade,
  reorder, and the stock update;
- the user schema and the user-management handlers;
- login, change of password and logout;
- the `verifyToken`, `verifyRole` and `verifyAdminOrOwner` middleware, and the route table
  that chains them;
- the error middleware.

## Layout

| file | module | models |
|---|---|---|
| `common.dfy` | `Common` | ids, optional fields, handler outcomes, HTTP statuses |
| `text.dfy` | `Text` | `trim`, ASCII `toLowerCase`/`toUpperCase`, the case-insensitive name lookup, the slug expression |
| `error_handler.dfy` | `ErrorHandler` | `errorHandler`, `notFound`, the error kinds the handlers throw |
| `slug_hooks.dfy` | `SlugHooks` | the `pre('save')` and `pre('findOneAndUpdate')` slug hooks |
| `category_schema.dfy`, `subcategory_schema.dfy`, `product_schema.dfy` | `CategorySchema`, `SubcategorySchema`, `ProductSchema` | records, validators, hooks and virtuals of the three catalog models |
| `dependents.dfy` | `Dependents` | the two `canBeDeleted` methods |
| `store.dfy` | `Store` | class `Catalog` (the three collections as maps), the store invariant, one `save()` per collection |
| `category_controller.dfy`, `subcategory_controller.dfy`, `product_controller.dfy` | the three catalog controllers | the write handlers as methods on a `Catalog` |
| `identity.dfy` | `Identity` | roles, the user record and its validators, class `Directory` (the users collection), `user.save()` |
| `user_controller.dfy` | `UserController` | create, update, delete and toggle of accounts |
| `auth_controller.dfy` | `AuthController` | login, change of password, logout |
| `access_guard.dfy` | `AccessGuard` | `verifyToken`, `verifyRole` and its two instances, `verifyAdminOrOwner` |
| `route_policy.dfy` | `RoutePolicy` | which guards stand in front of which write route |

## How it is modelled

Each handler is a method. It returns an `Outcome`: the HTTP status and, on success, the record
sent back.

- The catalog handlers modify a `Catalog` object. Its invariant `Valid()` says three things:
  - every stored record passed its validators;
  - every stored record carries the slug of its name;
  - the unique indexes hold.
- The user handlers modify a `Directory` object, under the same kind of invariant.
- Most handlers decide their answer in a pure function, `...Outcome`. The method then applies
  that answer to the store, and a `...KeepsStoreOk` or `...KeepsUsersOk` lemma shows that the
  invariant survives the write.

A save follows Mongoose's order:

1. every path's validators run (a ValidationError, 400);
2. the pre-save hooks run in registration order (a hook that passes an `Error` gives 500);
3. the unique indexes are checked (duplicate key 11000, 400).

Every status comes from `ErrorHandler.HandleError`. Callers outside the model become parameters:

- the bcrypt hash is a 60-character parameter of the saves that change a password;
- `comparePassword` is an oracle `check(candidate, hash)`;
- `jwt.verify` is a function from the token to a decoded payload or a named error;
- `Date.now()` is a parameter `now`;
- the id a new document receives is a parameter `newId`.

The model follows the code as written, including where it departs from what it evidently
means. Each such behaviour is stated and proved:

- **Double hyphens in slugs.** The slug expression replaces each single space with a hyphen, so
  two spaces give `--` (`Text.SlugOfDoubleSpace`): `"Home  Garden!!"` becomes `home--garden`,
  not `home-garden` as a slug that collapses each run of white space would. The model follows
  the code.
- **`add` replaces the stock.** In `updateProductStock`, the `add` operation assigns the
  quantity instead of adding it (`ProductController.AddReplacesStock`).
- **Subcategory deactivation touches no product.** The cascade in `toggleSubcategoryStatus`
  runs `updateMany({ subcategory: id })` on the Subcategory collection, which has no such path.
  No product is deactivated (`SubcategoryController.ToggleSubcategoryStatus`).
- **A category cannot be deleted.** `deleteCategory` calls `category.canDelete()`, which does
  not exist. Every existing category answers 500 (`CategoryController.DeleteCategory`). The
  intended `canBeDeleted` is modelled on its own (`Dependents.CategoryCanBeDeletedSpec`).
- **The subcategory slug index is global.** The duplicate-name checks look within one
  category, but the slug index does not. A subcategory name already used under another category
  is refused by the index (`SubcategoryController.NameUsedAnywhereRefused`).
- **Responses carry the password hash.** The schema defines `toJson`, not `toJSON`, so the
  responses of createUser, updateUser and toggleUserStatus contain the bcrypt hash. The
  outcomes return the whole stored record.
- **Mixed-case usernames cannot log in by username.** Login lower-cases the login field, but
  usernames are stored as typed (`AuthController.MixedCaseUsernameNeverMatches`).
- **An administrator can lock themselves out.** `toggleUserStatus` only refuses
  self-*activation*. An administrator can deactivate their own account, and every guarded route
  then refuses their token with 403 (`RoutePolicy.SelfDeactivationLocksOut`).
- **An unknown route answers 500.** `notFound` sets 404, but `errorHandler` re-sets the status
  to `err.status || 500` (`ErrorHandler.UnknownRouteAnswers500`).
- **`CastError` answers 500.** The error handler tests for the name `castError`, while
  Mongoose's error is named `CastError`. A malformed `:id` in the path never gets that far:
  `validateObjectId` answers it with 400 first. But a malformed id inside a request body, such as
  `category` or `subcategory` in `createProduct` or in an update body, reaches Mongoose's cast
  and answers 500 (`ErrorHandler.UnclassifiedIsServerError`).
- **`role == !undefined` in updateUser.** This compares the role with `true`, which is loosely
  equal only to a string that is numerically 1. It is modelled as the literal `"1"`.

## Model

| member | source | states |
|---|---|---|
| Common.FailingPaths | Backend/src/middlewares/errorHandler.js:4-11 | a ValidationError lists at most one message per checked path |
| Common.FailingPathsSpec | Backend/src/middlewares/errorHandler.js:4-11 | validation passes iff every path's check holds; a path is listed iff its check fails |
| Text.TrimStart | Backend/src/models/Category.js:7 | the result is a suffix of the input, starts with no white space, and only white space was removed |
| Text.TrimEnd | Backend/src/models/Category.js:7 | the result is a prefix of the input, ends with no white space, and only white space was removed |
| Text.TrimOption | Backend/src/models/Category.js:14 | the trim setter keeps an absent field absent; a present one comes out no longer and with no white space at either end |
| Text.TrimSlice | Backend/src/models/Category.js:7 | the trimmed string is the piece of the input after the leading white space |
| Text.TrimCutsWhite | Backend/src/models/Category.js:7 | everything trimming cuts off after the result is white space |
| Text.TrimSpec | Backend/src/models/Category.js:7 | `trim` yields the largest piece of the input without surrounding white space |
| Text.TrimStartOfTrimmed | Backend/src/models/Category.js:7 | a string that does not start with white space is unchanged by the leading trim |
| Text.TrimEndOfTrimmed | Backend/src/models/Category.js:7 | a string that does not end with white space is unchanged by the trailing trim |
| Text.TrimOfTrimmed | Backend/src/models/Category.js:7 | trimming a trimmed string changes nothing |
| Text.TrimIdempotent | Backend/src/models/Category.js:7 | trimming twice is trimming once |
| Text.Lower | Backend/src/models/User.js:20 | lower-casing keeps the length |
| Text.Upper | Backend/src/controller/productController.js:212 | upper-casing keeps the length |
| Text.LowerSpec | Backend/src/models/User.js:20 | lower-casing leaves no upper-case letter, keeps every other character, and is idempotent |
| Text.UpperSpec | Backend/src/controller/productController.js:212 | upper-casing leaves no lower-case letter, keeps every other character (the digits and hyphens of a SKU) and is idempotent |
| Text.EqualsIgnoreCaseSpec | Backend/src/controller/CategoryController.js:89-97 | the anchored `/^name$/i` match is letter-by-letter equality up to case, and is an equivalence |
| Text.ReplaceSpaces | Backend/src/models/Category.js:56 | replacing spaces keeps the length |
| Text.StripNonWordSpec | Backend/src/models/Category.js:56 | `.replace(/[^\w-]+/g, '')` keeps only word characters and hyphens, invents no character, never lengthens, and leaves a clean string unchanged |
| Text.SlugifyIsSlug | Backend/src/models/Category.js:56 | every slug character is a lower-case letter, a digit, `_` or `-` |
| Text.SlugifyIdempotent | Backend/src/models/Category.js:56 | the slug of a slug is itself |
| Text.SlugIgnoresCase | Backend/src/models/Category.js:56 | names equal up to case have the same slug |
| Text.StripNonWordAppend | Backend/src/models/Category.js:56 | the character filter distributes over concatenation |
| Text.SlugifyAppend | Backend/src/models/Category.js:56 | the slug of a concatenation is the concatenation of the slugs |
| Text.SlugOfOneChar | Backend/src/models/Category.js:56 | a space becomes `-`, a letter its lower case, a word character itself, anything else disappears |
| Text.SlugOfDoubleSpace | Backend/src/models/Category.js:56 | two spaces between words give a double hyphen; punctuation is dropped |
| ErrorHandler.HandleError | Backend/src/middlewares/errorHandler.js:1-50 | every answer has a message; only a validation error lists per-path messages; an error without its own status is answered 400, 401 or 500 |
| ErrorHandler.StatusOf | Backend/src/middlewares/errorHandler.js:45 | the answered status is never 0, and 404 only for an error that carries 404 |
| ErrorHandler.HandleErrorOrder | Backend/src/middlewares/errorHandler.js:1-50 | ValidationError first with its per-path messages, then duplicate key with its field, then the token errors (401), then `err.status` |
| ErrorHandler.BadRequestExactly | Backend/src/middlewares/errorHandler.js:4-28 | 400 iff validation error, duplicate key, an error named `castError`, or an error carrying status 400 |
| ErrorHandler.UnclassifiedIsServerError | Backend/src/middlewares/errorHandler.js:45-48 | an unrecognised error without a status is 500, including Mongoose's `CastError` (raised by a malformed id inside a body; a malformed `:id` is answered 400 by `validateObjectId` first) and a TypeError |
| ErrorHandler.NotFound | Backend/src/middlewares/errorHandler.js:53-57 | `notFound` passes on a plain Error with no status and no code |
| ErrorHandler.UnknownRouteAnswers500 | Backend/src/middlewares/errorHandler.js:45-57 | an unknown route is answered 500 with the "Ruta no encontrada" message |
| SlugHooks.SlugOnSave | Backend/src/models/Category.js:54-59 | the slug is recomputed from the name exactly when the name was modified |
| SlugHooks.PreFindOneAndUpdate | Backend/src/models/Category.js:61-67 | an update with a truthy name gains that name's slug; any other update is unchanged |
| SlugHooks.PreFindOneAndUpdateSpec | Backend/src/models/Subcategory.js:75-81 | the hook is idempotent, never adds a slug to a name-less update, and its slug is a valid slug |
| SlugHooks.PaddedNameSlug | Backend/src/models/Producto.js:199-205 | the update hook slugifies the untrimmed name, so a leading space gives a leading hyphen |
| CategorySchema.CategoryErrorsSpec | Backend/src/models/Category.js:3-36 | a category is valid iff its name has 2 to 100 characters, its description at most 500, and its colour matches; each failing path is listed |
| CategorySchema.CategoryErrors | Backend/src/models/Category.js:3-36 | at most one entry per validated path; an empty list means the name has an allowed length and the colour matches |
| CategorySchema.ColorOkSpec | Backend/src/models/Category.js:35 | a given colour passes iff it is empty, or `#` followed by exactly three or exactly six hex digits of either case (the pattern's two alternatives) |
| CategorySchema.HexRunAll | Backend/src/models/Category.js:35 | a run of n hex digits read one by one is a string of length n made only of hex digits |
| CategorySchema.SaveHook | Backend/src/models/Category.js:54-59 | the save hook changes only the slug, and only when the name was modified |
| SubcategorySchema.SubcategoryErrors | Backend/src/models/Subcategory.js:3-66 | at most one entry per validated path; an empty list means the parent category exists and is active |
| SubcategorySchema.SubcategoryErrorsSpec | Backend/src/models/Subcategory.js:3-66 | a subcategory is valid iff its own fields are valid and its category exists and is active (the async validator) |
| SubcategorySchema.SlugHook | Backend/src/models/Subcategory.js:68-73 | the slug hook changes only the slug, and only when the name was modified |
| SubcategorySchema.ParentHook | Backend/src/models/Subcategory.js:83-95 | the hook passes whenever the category was not modified, and an error it passes on is answered 500 |
| SubcategorySchema.ParentHookSpec | Backend/src/models/Subcategory.js:83-95 | the parent hook refuses exactly a modified category that is missing or inactive, and never refuses a record that passed validation |
| SubcategorySchema.FullPathSpec | Backend/src/models/Subcategory.js:126-129 | the path exists iff the category does, and is `<category> > <subcategory>` |
| ProductSchema.ProductErrors | Backend/src/models/Producto.js:4-190 | at most one entry per checked path; a product that passes has a price, and no negative price, compare price, cost, quantity or minimum stock |
| ProductSchema.ProductErrorsSpec | Backend/src/models/Producto.js:4-190 | a product is valid iff its own fields are valid and both parents are active; each failing path is listed |
| ProductSchema.SlugHook | Backend/src/models/Producto.js:192-197 | the slug hook changes only the slug, and only when the name was modified |
| ProductSchema.HierarchyHook | Backend/src/models/Producto.js:207-219 | the hook passes whenever neither reference was modified, and an error it passes on is answered 500 |
| ProductSchema.HierarchyHookSpec | Backend/src/models/Producto.js:207-219 | the hook refuses exactly a modified pair whose subcategory is missing or belongs to another category |
| ProductSchema.StockFrom | Backend/src/controller/productController.js:218 | a missing stock object becomes quantity 0, minimum 0, tracked; given fields are kept, missing ones take the schema defaults |
| ProductSchema.IsOutOfStock | Backend/src/models/Producto.js:228-231 | an untracked product is never out of stock; a tracked one with a valid stock is out of stock iff its quantity is 0 |
| ProductSchema.StockAfterDelta | Backend/src/models/Producto.js:279-287 | with tracking, the signed amount is added and clamped at 0, so the quantity is never negative; without tracking nothing changes; only the quantity changes and the stock stays valid |
| ProductSchema.FirstPrimary | Backend/src/models/Producto.js:233-235 | the index found is the first image marked primary, or none is marked |
| ProductSchema.PrimaryImage | Backend/src/models/Producto.js:233-235 | the first primary image, else the first image, and none only for an empty list |
| ProductSchema.ProductFullPath | Backend/src/models/Producto.js:268-277 | the path exists iff both parents do, and joins the three names with `>` |
| Dependents.CategoryCanBeDeleted | Backend/src/models/Category.js:88-96 | a category that can be deleted has no subcategory and no product referring to it |
| Dependents.SubcategoryCanBeDeleted | Backend/src/models/Subcategory.js:120-124 | a subcategory that can be deleted has no product referring to it |
| Dependents.CategoryCanBeDeletedSpec | Backend/src/models/Category.js:88-96 | a category can be deleted iff no subcategory and no product refers to it |
| Dependents.SubcategoryCanBeDeletedSpec | Backend/src/models/Subcategory.js:120-124 | a subcategory can be deleted iff no product refers to it |
| Store.Catalog.constructor | Backend/src/models/Category.js:103 | an empty store satisfies the invariant |
| Store.CategorySave | Backend/src/models/Category.js:3-59 | validation errors first (400); a save succeeds iff the record is valid and its name and slug are free; the stored record is the hooked one |
| Store.SubcategorySave | Backend/src/models/Subcategory.js:3-95 | validation (including an active parent), then the parent hook, then the global slug index; a successful save has an active parent |
| Store.ProductSave | Backend/src/models/Producto.js:4-219 | validation (400), then the hierarchy hook (500), then the SKU and slug indexes (400); a save succeeds iff all three pass |
| Store.CategorySaveKeepsValid | Backend/src/models/Category.js:3-59 | a successful category save keeps the collection valid, with names and slugs unique |
| Store.CategoryNamesUniqueIgnoringCase | Backend/src/models/Category.js:17-21 | because case variants share a slug, the slug index makes stored names unique up to case |
| Store.SubcategoryNamesUniqueIgnoringCase | Backend/src/models/Subcategory.js:3-66 | stored subcategory names are unique up to case across all categories |
| Store.SubcategorySaveKeepsValid | Backend/src/models/Subcategory.js:3-95 | a successful subcategory save keeps the collection valid |
| Store.ProductSaveKeepsValid | Backend/src/models/Producto.js:4-219 | a successful product save keeps the collection valid, with SKUs and slugs unique |
| Store.RestampKeepsCategoriesValid | Backend/src/controller/CategoryController.js:185-233 | changing only status, order and updater keeps the categories valid |
| Store.RestampKeepsSubcategoriesValid | Backend/src/controller/subcategoryController.js:247-302 | changing only status, order and updater keeps the subcategories valid |
| Store.RestampKeepsProductsValid | Backend/src/controller/CategoryController.js:200-203 | changing only status and updater keeps the products valid |
| Store.Resequenced | Backend/src/controller/CategoryController.js:213-233 | renumbering keeps the same ids and leaves every record that is not listed unchanged |
| Store.ResequencedStep | Backend/src/controller/CategoryController.js:222-227 | one more listed id stamps one more existing record with its one-based position |
| Store.Renumber | Backend/src/controller/CategoryController.js:222-227 | the update loop, one update per listed id in order, computes the renumbered collection |
| Store.ResequencedSpec | Backend/src/controller/CategoryController.js:213-233 | with distinct ids, the record listed at index i gets position i + 1 |
| Store.MoreCategoriesKeepValid | Backend/src/models/Subcategory.js:23-35 | adding categories keeps every subcategory and product valid |
| Store.SubcategoryKeysKeepProductsValid | Backend/src/models/Producto.js:207-219 | adding or replacing subcategories, or removing one nobody uses, keeps every product valid |
| CategoryController.CreateOutcome | Backend/src/controller/CategoryController.js:79-113 | 400 for a missing name or a name taken up to case; 201 iff the save goes through, with the trimmed name and its slug, the defaults and the creator |
| CategoryController.CreateKeepsStoreOk | Backend/src/controller/CategoryController.js:79-113 | a created category keeps the store invariant |
| CategoryController.CreateCategory | Backend/src/controller/CategoryController.js:79-113 | answers `CreateOutcome`, stores the record under the new id on 201 only, and leaves the other collections unchanged |
| CategoryController.UpdateOutcome | Backend/src/controller/CategoryController.js:116-155 | 404 iff the id is unknown; 400 for a new name taken up to case, including a case variant of the category's own name; on 200 the updated fields, the slug of a changed name, and a record that validates |
| CategoryController.UpdatedExactly | Backend/src/controller/CategoryController.js:116-155 | an update answers 200 iff the category exists, the duplicate check lets the name through and the save of the assigned record succeeds |
| CategoryController.OwnNameNeverTaken | Backend/src/controller/CategoryController.js:128-139 | sending the stored name again, or no name, is never refused as taken; with otherwise valid fields the update succeeds |
| CategoryController.SameNameSaves | Backend/src/models/Category.js:3-59 | a valid record keeping the stored name and slug always saves, unchanged |
| CategoryController.UpdateKeepsStoreOk | Backend/src/controller/CategoryController.js:116-155 | a successful update keeps the store invariant |
| CategoryController.UpdateCategory | Backend/src/controller/CategoryController.js:116-155 | answers `UpdateOutcome` and stores its record on 200 only |
| CategoryController.DeleteCategory | Backend/src/controller/CategoryController.js:158-182 | 404 for an unknown id; 500 for every existing category (the called method does not exist); nothing changes |
| CategoryController.Toggled | Backend/src/controller/CategoryController.js:195-196 | the flip negates `isActive`, sets the updater and touches nothing else |
| CategoryController.SubcategoriesDeactivated | Backend/src/controller/CategoryController.js:200-203 | exactly the subcategories of the category are deactivated; every other one is unchanged |
| CategoryController.ProductsDeactivated | Backend/src/controller/CategoryController.js:200-203 | exactly the products of the category are deactivated; every other one is unchanged |
| CategoryController.ToggleKeepsValid | Backend/src/controller/CategoryController.js:185-211 | the flipped category always saves, and the cascade keeps the store invariant |
| CategoryController.ToggleCategoryStatus | Backend/src/controller/CategoryController.js:185-211 | 404 for an unknown id; activating touches only the category; deactivating also deactivates its subcategories and products |
| CategoryController.Reordered | Backend/src/controller/CategoryController.js:223 | the reorder update sets the position and the updater only |
| CategoryController.ReorderKeepsStoreOk | Backend/src/controller/CategoryController.js:213-233 | renumbering only restamps the categories, so the store invariant holds |
| CategoryController.ReorderCategories | Backend/src/controller/CategoryController.js:213-233 | 400 for a body that is not an array; otherwise each listed existing category gets its 1-based position and the rest are unchanged |
| SubcategoryController.SaveKeepsStoreOk | Backend/src/controller/subcategoryController.js:102-155 | storing a successfully saved subcategory keeps the store invariant |
| SubcategoryController.NameUsedAnywhereRefused | Backend/src/models/Subcategory.js:3-66 | a name already used in any category is refused by the global slug index |
| SubcategoryController.CreateOutcome | Backend/src/controller/subcategoryController.js:102-155 | 400 for a missing name or parent, an inactive parent, or a name taken in that category up to case; 201 iff the save goes through, with the trimmed name, its slug and the parent |
| SubcategoryController.CreateKeepsStoreOk | Backend/src/controller/subcategoryController.js:102-155 | a created subcategory keeps the store invariant |
| SubcategoryController.CreateSubcategory | Backend/src/controller/subcategoryController.js:102-155 | answers `CreateOutcome`, stores the record under the new id on 201 only, and leaves the other collections unchanged |
| SubcategoryController.UpdateOutcome | Backend/src/controller/subcategoryController.js:158-217 | 404 for an unknown id; a move to a missing or inactive category is refused; a new name taken anywhere up to case is 400; on 200 the record is the updated one |
| SubcategoryController.UpdatedExactly | Backend/src/controller/subcategoryController.js:158-217 | an update answers 200 iff the subcategory exists, a new parent is active, the whole-collection duplicate check lets the name through and the save succeeds |
| SubcategoryController.UpdateKeepsStoreOk | Backend/src/controller/subcategoryController.js:158-217 | a successful update keeps the store invariant |
| SubcategoryController.UpdateSubcategory | Backend/src/controller/subcategoryController.js:158-217 | answers `UpdateOutcome` and stores its record on 200 only |
| SubcategoryController.DeleteKeepsStoreOk | Backend/src/controller/subcategoryController.js:220-244 | removing a subcategory no product uses keeps the store invariant |
| SubcategoryController.DeleteSubcategory | Backend/src/controller/subcategoryController.js:220-244 | 404 for an unknown id; 400 while a product refers to it; otherwise it is removed |
| SubcategoryController.Toggled | Backend/src/controller/subcategoryController.js:257-258 | the flip negates `isActive`, sets the updater and touches nothing else |
| SubcategoryController.ToggleSave | Backend/src/controller/subcategoryController.js:247-274 | the flipped subcategory saves iff its category is active |
| SubcategoryController.ToggleKeepsStoreOk | Backend/src/controller/subcategoryController.js:247-274 | storing the flipped record keeps the store invariant |
| SubcategoryController.ToggleSubcategoryStatus | Backend/src/controller/subcategoryController.js:247-274 | 404 for an unknown id; 400 under an inactive category; otherwise only this subcategory flips (the cascade reaches no product) |
| SubcategoryController.Reordered | Backend/src/controller/subcategoryController.js:286-291 | the reorder update sets the position and the updater only |
| SubcategoryController.ReorderKeepsStoreOk | Backend/src/controller/subcategoryController.js:276-302 | renumbering only restamps the subcategories, so the store invariant holds |
| SubcategoryController.ReorderSubcategories | Backend/src/controller/subcategoryController.js:276-302 | 400 for a body that is not an array; otherwise each listed existing subcategory gets its 1-based position |
| ProductController.NormalizeTagSpec | Backend/src/models/Producto.js:150-155 | a stored tag is trimmed with no upper-case letter, and normalising it again changes nothing |
| ProductController.LowerKeepsTrimmed | Backend/src/models/Producto.js:150-155 | lower-casing a trimmed string keeps it trimmed |
| ProductController.CreateOutcome | Backend/src/controller/productController.js:160-240 | 400 unless the category exists and the subcategory is active and belongs to it; 500 iff those pass but no SKU is given |
| ProductController.CreatedRecord | Backend/src/controller/productController.js:208-229 | a created product has the trimmed name and its slug, the upper-cased SKU, the given parents, the default stock and flags |
| ProductController.CreatedExactly | Backend/src/controller/productController.js:160-240 | a product is created iff the checks pass, a SKU is given and the save goes through |
| ProductController.CreateKeepsStoreOk | Backend/src/controller/productController.js:160-240 | a created product keeps the store invariant |
| ProductController.CreateProduct | Backend/src/controller/productController.js:160-240 | for a fresh id (as `new Producto(...)` gets), answers `CreateOutcome`, stores the record under that id on 201 only, and leaves the categories and subcategories unchanged |
| ProductController.UpdateOutcome | Backend/src/controller/productController.js:243-342 | 404 for an unknown id or bad target parents; 400 for a new SKU already used; on 200 the record is the updated one |
| ProductController.UpdatedExactly | Backend/src/controller/productController.js:243-342 | an update answers 200 iff the product exists, the target parents check out, a new SKU is free and the save succeeds |
| ProductController.UpdateKeepsStoreOk | Backend/src/controller/productController.js:243-342 | a successful update keeps the store invariant |
| ProductController.UpdateProduct | Backend/src/controller/productController.js:243-342 | answers `UpdateOutcome` and stores its record on 200 only |
| ProductController.DeleteKeepsStoreOk | Backend/src/controller/productController.js:345-359 | nothing refers to a product, so removing one keeps the store invariant |
| ProductController.DeleteProduct | Backend/src/controller/productController.js:345-359 | 404 for an unknown id; otherwise exactly that product is removed |
| ProductController.SameIdentitySave | Backend/src/models/Producto.js:4-219 | a save keeping name, slug, SKU and parents succeeds iff the record is valid, and keeps the store invariant |
| ProductController.Toggled | Backend/src/controller/productController.js:372-373 | the flip negates `isActive`, sets the updater and touches nothing else |
| ProductController.ToggleOutcome | Backend/src/controller/productController.js:362-382 | 404 for an unknown id; otherwise the flip is saved unless a parent is inactive |
| ProductController.ToggleKeepsStoreOk | Backend/src/controller/productController.js:362-382 | storing the flipped product keeps the store invariant |
| ProductController.ToggleProductStatus | Backend/src/controller/productController.js:362-382 | answers `ToggleOutcome` and stores the flipped record on 200 only |
| ProductController.StockQuantityAfter | Backend/src/controller/productController.js:409-424 | `set` and `add` assign the quantity; `subtract` removes it, clamped at 0; any other operation is refused |
| ProductController.AddReplacesStock | Backend/src/controller/productController.js:413-415 | `add` behaves as `set`, so adding to a non-zero stock loses what was there |
| ProductController.Restocked | Backend/src/controller/productController.js:409-427 | only the stock quantity and the updater change |
| ProductController.StockOutcome | Backend/src/controller/productController.js:384-444 | 400 for a missing quantity, an unknown or untracked product, or an unknown operation; on 200 the quantity is `StockQuantityAfter` |
| ProductController.StockKeepsStoreOk | Backend/src/controller/productController.js:384-444 | storing the restocked product keeps the store invariant |
| ProductController.UpdateProductStock | Backend/src/controller/productController.js:384-444 | answers `StockOutcome` and stores its record on 200 only |
| ProductController.DeltaOutcome | Backend/src/models/Producto.js:279-287 | on a valid store the save succeeds iff both parents are active, storing the stock with the amount added and clamped at 0; otherwise it is the parents' validation error |
| ProductController.DeltaKeepsStoreOk | Backend/src/models/Producto.js:279-287 | a successful stock save keeps the store invariant |
| ProductController.UpdateStock | Backend/src/models/Producto.js:279-287 | answers `DeltaOutcome` and stores the saved product only when the save succeeds |
| Identity.RoleName | Backend/src/models/User.js:41-48 | each role's stored name parses back to that role |
| Identity.ParseRoleInverse | Backend/src/models/User.js:41-48 | a string that parses is its role's name; one that does not parse is no role's name |
| Identity.UserErrors | Backend/src/models/User.js:5-74 | a user that passes validation has one of the two roles and a password of at least 6 characters |
| Identity.UserErrorsSpec | Backend/src/models/User.js:5-74 | a user is valid iff username has 3 to 50 characters, an email is given, the password has at least 6, names fit, the role is in the enum and the phone is empty or 10 digits |
| Identity.EmailSetter | Backend/src/models/User.js:15-22 | the stored email has no upper-case letter and is no longer than what was sent |
| Identity.Directory.constructor | Backend/src/models/User.js:127 | an empty users collection satisfies the invariant |
| Identity.UsersOk | Backend/src/models/User.js:5-74 | in a valid collection every account has one of the two roles, and an email or a username names at most one account |
| Identity.Hashed | Backend/src/models/User.js:76-86 | the hook replaces only the password, and only when it was modified |
| Identity.UserSave | Backend/src/models/User.js:5-86 | validation (on the plaintext) first; a save succeeds iff the record is valid and the username and email are free; the stored record is hashed |
| Identity.UserSaveKeepsValid | Backend/src/models/User.js:5-86 | a successful save keeps every stored user valid, hashed and unique |
| Identity.SameIdentitySaves | Backend/src/models/User.js:5-86 | a save keeping username, email and password always succeeds and keeps the collection valid |
| UserController.NewUser | Backend/src/controller/UserController.js:97-107 | the created account has the given password and role, a lower-case email, `isActive` defaulting to true and its creator |
| UserController.CreateOutcome | Backend/src/controller/UserController.js:73-112 | 400 for a missing field or a username or email already used; on 201 the stored record has a valid role and the hash |
| UserController.CreatedExactly | Backend/src/controller/UserController.js:73-112 | a request with all fields and unused names is created iff the save goes through |
| UserController.CreateKeepsUsersOk | Backend/src/controller/UserController.js:73-112 | the created account keeps the collection valid |
| UserController.CreateUser | Backend/src/controller/UserController.js:73-112 | answers `CreateOutcome` and stores the account under the new id on 201 only |
| UserController.UpdatedUser | Backend/src/controller/UserController.js:176-189 | password and creation stay; role and activation change only for an administrator; the updater is set; the email stays lower-case |
| UserController.UpdatePermitted | Backend/src/controller/UserController.js:137-153 | an administrator may always update; anyone else only their own account, sending no role that is loosely `true` and no activation |
| UserController.UpdateOutcome | Backend/src/controller/UserController.js:116-196 | 404 iff the id is unknown; 403 iff a non-administrator targets another account or sends a role or activation; 400 for a taken username or email |
| UserController.UpdatedExactly | Backend/src/controller/UserController.js:116-196 | an update answers 200 iff the account exists, the caller may update it, the new username and email are free and the save succeeds |
| UserController.NonAdminCannotEscalate | Backend/src/controller/UserController.js:138-154 | a non-administrator's successful update is to their own account and keeps its role and activation |
| UserController.UpdateKeepsUsersOk | Backend/src/controller/UserController.js:116-196 | a successful update keeps the collection valid |
| UserController.UpdateUser | Backend/src/controller/UserController.js:116-196 | answers `UpdateOutcome` and stores its record on 200 only |
| UserController.DeleteUser | Backend/src/controller/UserController.js:199-222 | 404 for an unknown id; 403 for one's own account; otherwise exactly that account is removed |
| UserController.Toggled | Backend/src/controller/UserController.js:243-244 | the flip negates `isActive`, sets the updater and touches nothing else |
| UserController.ToggleOutcome | Backend/src/controller/UserController.js:225-253 | 404 iff unknown; 403 iff a caller would re-activate their own account; otherwise the flipped record |
| UserController.ToggleUserStatus | Backend/src/controller/UserController.js:225-253 | answers `ToggleOutcome` and stores the flipped record on 200 only |
| UserController.SelfToggleDeactivates | Backend/src/controller/UserController.js:236 | an active caller toggling their own account is let through and deactivated |
| AuthController.FoundBy | Backend/src/controller/AuthController.js:16-32 | a found account matches the lower-cased login field by username or email; when none is found, no account matches |
| AuthController.LoginOutcome | Backend/src/controller/AuthController.js:8-94 | 400 iff a field is missing; 404 iff no account matches; 403 for an inactive one; 401 for a wrong password; on 200 a session for the found account |
| AuthController.LoginNeverFailsToSave | Backend/src/controller/AuthController.js:60-61 | on a valid collection the last-login save never fails, so login never answers 500 |
| AuthController.MixedCaseUsernameNeverMatches | Backend/src/controller/AuthController.js:27-32 | a username with an upper-case letter never equals the lower-cased login field |
| AuthController.EmailMatchesInAnyCase | Backend/src/controller/AuthController.js:27-32 | an account is found by its email typed in any case |
| AuthController.Login | Backend/src/controller/AuthController.js:8-94 | answers `LoginOutcome` for an account `findOne` may return, never 500, and on 200 stores only the new last login |
| AuthController.ChangePasswordOutcome | Backend/src/controller/AuthController.js:106-140 | 400 for a missing or short password; 500 iff the caller no longer exists; 401 iff the current password is wrong; on 200 the new hash |
| AuthController.ChangePasswordExactly | Backend/src/controller/AuthController.js:106-140 | 400 iff a field is missing or the new password is short; with valid fields and an existing caller, 200 iff the current password checks and 401 iff it does not |
| AuthController.ChangePasswordSaves | Backend/src/controller/AuthController.js:133-134 | the new password is validated as plaintext, stored as its hash, and keeps the collection valid |
| AuthController.ChangePassword | Backend/src/controller/AuthController.js:106-140 | answers `ChangePasswordOutcome` and stores only the new hash on 200 |
| AuthController.ChangeThenLogin | Backend/src/controller/AuthController.js:51-59 | after a change, logging in with the new password succeeds and with the old one is 401 |
| AuthController.Logout | Backend/src/controller/AuthController.js:143-150 | logout answers 200 and changes nothing |
| AccessGuard.SpaceIndex | Backend/src/middlewares/auth.js:14 | the index is the first space, or the length when there is none |
| AccessGuard.SecondField | Backend/src/middlewares/auth.js:14 | `split(' ')[1]` is undefined iff there is no space; otherwise it is exactly the text after the first space up to the next space or the end |
| AccessGuard.BearerField | Backend/src/middlewares/auth.js:14 | `Bearer <token>` gives back a token that has no space |
| AccessGuard.VerifyToken | Backend/src/middlewares/auth.js:4-63 | 401 for a missing header or token, a `JsonWebTokenError` or `TokenExpiredError`, or a payload naming no account; 500 for any other error name; 403 iff the named account is inactive; an authenticated principal is the stored active account whose id the token decodes to |
| AccessGuard.BearerTokenAuthenticates | Backend/src/middlewares/auth.js:4-63 | a good token of an active account authenticates it; of an inactive account is 403 |
| AccessGuard.VerifyRole | Backend/src/middlewares/auth.js:65-90 | 401 without a user; `next()` iff the user's role is one of the allowed ones; a user with any other role gets 403 |
| AccessGuard.VerifyAdmin | Backend/src/middlewares/auth.js:91 | `next()` iff the user is an administrator |
| AccessGuard.VerifyAdminOrCoordinador | Backend/src/middlewares/auth.js:92 | `next()` iff the user is an administrator or a coordinator |
| AccessGuard.StoredCallerPassesAdminOrCoordinador | Backend/src/middlewares/auth.js:91-92 | every stored account passes the admin-or-coordinator guard; only administrators pass the admin guard |
| AccessGuard.VerifyAdminOrOwner | Backend/src/middlewares/auth.js:94-122 | 401 without a user; `next()` iff administrator or the target id is the caller's; 403 for a non-administrator naming another account; 500 iff a non-administrator names no target |
| RoutePolicy.GuardOf | Backend/src/routes/user.js:25-46 | only login is public; exactly the deletions and account creation, deletion and toggle are for administrators only; only the account update admits the owner; change of password and logout need just a token |
| RoutePolicy.Admit | Backend/src/routes/user.js:25-46 | only login is public; an admitted caller is the principal `verifyToken` authenticated from the header; a refusal by `verifyToken` is answered with its status on every guarded route; a refusal is 401, 403 or 500 |
| RoutePolicy.AdmittedCallers | Backend/src/routes/category.js:52 | deletions and account management admit administrators only; an account update admits an administrator or the owner |
| RoutePolicy.CoordinatorReach | Backend/src/routes/product.js:57-69 | a coordinator reaches every catalog write but the deletions, which answer 403 |
| RoutePolicy.LoginTokenAuthenticates | Backend/src/routes/auth.js:20-29 | the token a login returns authenticates the logged-in account on every guarded route |
| RoutePolicy.SelfDeactivationLocksOut | Backend/src/routes/user.js:46 | an administrator who deactivates themselves is refused with 403 on every guarded route |

## Left out

- Read routes, statistics, statics, `getMe`, the `/verify` route and the health and index routes: they change no state and decide no access.
- The `profitMargin` virtual and the `productCount` virtual: computed read-only fields.
- `populate` of parent names in responses: the outcome carries the stored record.
- Timestamps (`createdAt`, `updatedAt`) and `console` logging.
- The email `match` pattern of the user schema: regular-expression matching is not modelled, only `required`.
- Query setters: `findOne` lookups compare with the values as sent, where Mongoose applies the `trim` and `lowercase` setters to the filter. So when `updateUser` receives a user's own email in another case, or their own username padded with spaces, the source finds the user's own record and answers 400 where the model answers 200; and a login field padded with spaces is found by the source but answered 404 by the model.
- Escaping of regular-expression characters in the names used by the `/^name$/i` lookups: names are compared as literal text.
- ObjectId casting and the `validateObjectId` middleware: ids are natural numbers and always well formed.
- `Promise.all` in the reorder handlers: the updates are applied in list order, with distinct ids required.
- The `strictQuery` setting: the filter `{ subcategory: id }` of the subcategory cascade names a path the Subcategory schema lacks. Under Mongoose 7's default (`strictQuery: false`) it matches no document, which is what the model does. Under Mongoose 6's default (`strictQuery` follows `strict`) the unknown path is stripped, the filter becomes `{}`, and the `updateMany` deactivates every subcategory; that behaviour is not modelled.
- Partially given stock objects on update and `null` values in request bodies: a field is either absent or a value.
- Unicode case mapping: `toLowerCase` and `toUpperCase` map ASCII letters only; lengths are counted in characters, not UTF-16 code units.
- The `isLowStock` virtual: it reads a path the schema does not define.
- The password hook on `findOneAndUpdate` and bcrypt itself: the hash is a parameter and `comparePassword` an oracle.
- Token signing, expiry and `JWT_EXPIRES`: a login's token is represented by the id it is signed for, and `jwt.verify` is a parameter.
- `select('-password')` on the user that `verifyToken` loads: the principal carries the stored record.
- UserController.UpdatePermitted, UserController.UpdatedUser: `role == !undefined` is true only for `"1"` among the role strings; other strings loosely equal to `true` (such as `"01"`) are not modelled.
- ProductController.StockQuantityAfter, ProductController.StockOutcome, ProductSchema.ProductErrorsSpec, Store.Resequenced: stock quantities, stock amounts and sort positions are JavaScript numbers but are modelled as integers (prices are reals), so a fractional quantity such as `2.5`, which passes `min: 0`, and Mongoose's casting of a numeric string such as `"5"` are not modelled.
- ProductSchema.ProductErrors, ProductSchema.ProductErrorsSpec: a failing validator inside `dimensions`, `images` or `tags` is reported under that one path, where Mongoose lists each failing subpath (such as `dimensions.weight` or `images.0.url`); the status (400) is the same.
- AuthController.Login: which of several matching accounts `findOne` returns is left open (any matching one).
