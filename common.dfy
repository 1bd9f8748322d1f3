/** Shared vocabulary: record identifiers, optional request fields and handler outcomes. */
module Common {

  /** A MongoDB ObjectId, compared by value. Any nat stands for a well-formed id. */
  type Id = nat

  datatype Option<+T> = None | Some(value: T) {
    function GetOr(default: T): T {
      match this
      case Some(v) => v
      case None => default
    }
  }

  /** JavaScript truthiness of an optional string taken from a request body:
      `if (name)` admits a present, non-empty string only. */
  predicate Truthy(s: Option<string>) {
    s.Some? && s.value != ""
  }

  /** `a || b` for two optional identifiers: the first one that is present. */
  function FirstPresent(a: Option<Id>, b: Option<Id>): Option<Id> {
    if a.Some? then a else b
  }

  /** The paths whose validator failed, in order: Mongoose runs every path's validators and
      collects one message per failing path into a single ValidationError. */
  function FailingPaths(checks: seq<(bool, string)>): (r: seq<string>)
    ensures |r| <= |checks|
  {
    if checks == [] then []
    else (if checks[0].0 then [] else [checks[0].1]) + FailingPaths(checks[1..])
  }

  /** Validation passes (no path fails) exactly when every check holds, and a path is
      reported exactly when one of its checks fails. */
  lemma {:induction false} FailingPathsSpec(checks: seq<(bool, string)>)
    ensures FailingPaths(checks) == [] <==> forall i :: 0 <= i < |checks| ==> checks[i].0
    ensures forall x :: x in FailingPaths(checks) <==>
      exists i :: 0 <= i < |checks| && !checks[i].0 && checks[i].1 == x
  {
    if checks != [] {
      FailingPathsSpec(checks[1..]);
      var head: seq<string> := if checks[0].0 then [] else [checks[0].1];
      assert FailingPaths(checks) == head + FailingPaths(checks[1..]);
      forall x | x in FailingPaths(checks)
        ensures exists i :: 0 <= i < |checks| && !checks[i].0 && checks[i].1 == x
      {
        if x in head {
          assert !checks[0].0 && checks[0].1 == x;
        } else {
          var i :| 0 <= i < |checks[1..]| && !checks[1..][i].0 && checks[1..][i].1 == x;
          assert checks[i + 1] == checks[1..][i];
        }
      }
      forall x | exists i :: 0 <= i < |checks| && !checks[i].0 && checks[i].1 == x
        ensures x in FailingPaths(checks)
      {
        var i :| 0 <= i < |checks| && !checks[i].0 && checks[i].1 == x;
        if i > 0 {
          assert checks[1..][i - 1] == checks[i];
        }
      }
      if forall i :: 0 <= i < |checks| ==> checks[i].0 {
        assert forall i :: 0 <= i < |checks[1..]| ==> checks[1..][i].0 by {
          forall i | 0 <= i < |checks[1..]| ensures checks[1..][i].0 {
            assert checks[1..][i] == checks[i + 1];
          }
        }
      }
    }
  }

  /** What a handler answers: the HTTP status and, on success, the record it sends back. */
  datatype Outcome<+R> = Outcome(status: int, data: Option<R>)

  /** The HTTP statuses the handlers use. */
  const OK: int := 200
  const CREATED: int := 201
  const BAD_REQUEST: int := 400
  const UNAUTHORIZED: int := 401
  const FORBIDDEN: int := 403
  const NOT_FOUND: int := 404
  const SERVER_ERROR: int := 500
}
