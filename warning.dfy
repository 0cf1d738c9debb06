/**
 * The process-wide warning channel and the write-once `warned` flag that the
 * "already closed" warning keeps on its own function object. There is one
 * Process per process, shared by every manager that quits.
 */
module Warning {
  import opened Lifecycle

  const DefaultMessage := "Already closed event manager"

  /** A warning emitted on the process. */
  datatype ProcessWarning =
    | AlreadyClosed(message: string)  // emitAlreadyClosed
    | CloseFailed(error: Error)       // the link's close threw during quit

  /** How many "already closed" warnings a log holds. */
  function CountAlreadyClosed(ws: seq<ProcessWarning>): (n: nat)
    ensures n <= |ws|
  {
    if ws == [] then 0
    else CountAlreadyClosed(ws[..|ws| - 1]) + (if ws[|ws| - 1].AlreadyClosed? then 1 else 0)
  }

  /** Appending a close failure never adds an "already closed" warning. */
  lemma {:induction false} CountAppend(ws: seq<ProcessWarning>, w: ProcessWarning)
    ensures CountAlreadyClosed(ws + [w]) == CountAlreadyClosed(ws) + (if w.AlreadyClosed? then 1 else 0)
  {
    assert (ws + [w])[..|ws + [w]| - 1] == ws;
  }

  /** A log with exactly one "already closed" warning holds it at exactly one position. */
  lemma {:induction false} OnlyOneAlreadyClosed(ws: seq<ProcessWarning>, i: nat, j: nat)
    requires CountAlreadyClosed(ws) == 1
    requires i < |ws| && j < |ws| && ws[i].AlreadyClosed? && ws[j].AlreadyClosed?
    ensures i == j
  {
    var last := |ws| - 1;
    var init := ws[..last];
    if ws[last].AlreadyClosed? {
      if i != last { AtLeastOne(init, i); }
      if j != last { AtLeastOne(init, j); }
    } else {
      OnlyOneAlreadyClosed(init, i, j);
    }
  }

  lemma {:induction false} AtLeastOne(ws: seq<ProcessWarning>, i: nat)
    requires i < |ws| && ws[i].AlreadyClosed?
    ensures CountAlreadyClosed(ws) >= 1
  {
    var last := |ws| - 1;
    if i != last {
      AtLeastOne(ws[..last], i);
    }
  }

  class Process {
    /** `emitAlreadyClosed.warned`: set once, never cleared. */
    var warned: bool
    /** Every warning emitted on the process, in order. */
    var warnings: seq<ProcessWarning>

    /** The flag is set exactly when the one "already closed" warning has been emitted. */
    ghost predicate Valid()
      reads this
    {
      CountAlreadyClosed(warnings) == (if warned then 1 else 0)
    }

    constructor ()
      ensures Valid() && !warned && warnings == []
    {
      warned := false;
      warnings := [];
    }

    /** The first call sets the flag and warns; every later call does nothing. */
    method EmitAlreadyClosed(message: Option<string>)
      requires Valid()
      modifies this
      ensures Valid() && warned
      ensures warnings == if old(warned) then old(warnings)
                          else old(warnings) + [AlreadyClosed(if message.Some? then message.value else DefaultMessage)]
    {
      if !warned {
        warned := true;
        var text := if message.Some? then message.value else DefaultMessage;
        CountAppend(warnings, AlreadyClosed(text));
        warnings := warnings + [AlreadyClosed(text)];
      }
    }

    /** `process.emitWarning(err)` for a link close that threw; the flag is untouched. */
    method EmitCloseFailure(e: Error)
      requires Valid()
      modifies this`warnings
      ensures Valid()
      ensures warnings == old(warnings) + [CloseFailed(e)]
    {
      CountAppend(warnings, CloseFailed(e));
      warnings := warnings + [CloseFailed(e)];
    }
  }
}
