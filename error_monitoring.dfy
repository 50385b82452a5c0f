/**
 * lib/client-error-monitoring.ts: the in-memory list of recent errors,
 * newest first and bounded in length.  The clock reading `new Date()`
 * takes is a parameter; the console output and the window listeners are
 * not part of this model.
 */
module ErrorMonitoring {
  import opened Wrappers

  /** `MAX_STORED_ERRORS`. */
  const MaxStoredErrors: nat := 10

  /** The fields of a thrown `Error` the store copies. */
  datatype ThrownError = ThrownError(message: string, stack: Option<string>)

  datatype ErrorEntry = ErrorEntry(message: string, source: string, timestampMs: int, stack: Option<string>)

  function Min(a: int, b: int): int {
    if a < b then a else b
  }

  /**
   * `[entry, ...recent.slice(0, MAX_STORED_ERRORS - 1)]`: the new entry in
   * front of the first nine old ones, kept in their order, so at capacity
   * the oldest is dropped.
   */
  function Pushed(recent: seq<ErrorEntry>, entry: ErrorEntry): (r: seq<ErrorEntry>)
    ensures |r| == Min(|recent| + 1, MaxStoredErrors) && |r| <= MaxStoredErrors
    ensures r[0] == entry
    ensures r[1..] == recent[..|r| - 1]
  {
    [entry] + recent[..Min(|recent|, MaxStoredErrors - 1)]
  }

  /** The store after adding each of `added`, first to last. */
  function PushAll(recent: seq<ErrorEntry>, added: seq<ErrorEntry>): seq<ErrorEntry> {
    if |added| == 0 then recent else Pushed(PushAll(recent, added[..|added| - 1]), added[|added| - 1])
  }

  /**
   * After several additions the newest entries come first, in the reverse
   * order of their addition, as long as at most ten were added.
   */
  lemma {:induction false} NewestFirst(recent: seq<ErrorEntry>, added: seq<ErrorEntry>)
    requires |added| <= MaxStoredErrors
    ensures var r := PushAll(recent, added);
      |r| >= |added| && forall i :: 0 <= i < |added| ==> r[i] == added[|added| - 1 - i]
  {
    if |added| > 0 {
      var init := added[..|added| - 1];
      NewestFirst(recent, init);
      var r0 := PushAll(recent, init);
      var r := Pushed(r0, added[|added| - 1]);
      assert PushAll(recent, added) == r;
      forall i | 0 <= i < |added|
        ensures r[i] == added[|added| - 1 - i]
      {
        if i > 0 {
          assert r[i] == r0[i - 1];
          assert init[|init| - 1 - (i - 1)] == added[|added| - 1 - i];
        }
      }
    }
  }

  /** Starting from an empty store, any sequence of additions keeps at most ten entries. */
  lemma {:induction false} PushAllBounded(added: seq<ErrorEntry>)
    ensures |PushAll([], added)| == Min(|added|, MaxStoredErrors)
  {
    if |added| > 0 {
      PushAllBounded(added[..|added| - 1]);
    }
  }

  /** The module-level `recentErrors`. */
  class ErrorStore {
    var recent: seq<ErrorEntry>

    constructor()
      ensures recent == []
    {
      recent := [];
    }

    /** `addError`: record the error's message and stack with the source and the time. */
    method AddError(error: ThrownError, source: string, nowMs: int)
      modifies this
      ensures recent == Pushed(old(recent), ErrorEntry(error.message, source, nowMs, error.stack))
    {
      var entry := ErrorEntry(error.message, source, nowMs, error.stack);
      recent := [entry] + recent[..Min(|recent|, MaxStoredErrors - 1)];
    }

    /** `getRecentErrors`: a copy of the list, which is left as it was. */
    method GetRecentErrors() returns (errors: seq<ErrorEntry>)
      ensures errors == recent
    {
      errors := recent[..];
    }

    /** `clearErrorHistory`. */
    method ClearErrorHistory()
      modifies this
      ensures recent == []
    {
      recent := [];
    }
  }
}
