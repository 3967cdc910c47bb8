/**
 * What the consumers ask of the world outside and cannot foresee the answer of:
 * checkpoint files, dispatchers and dead-letter logs. Each keeps a ledger of
 * what it was asked and how it answered, for contracts to be stated against.
 */
module Environment {
  /** One attempt to replace the checkpoint file of a runner. */
  datatype Saving = Saving(runner: nat, done: bool)

  class Disk {
    /** A disk that works never fails a save. */
    const works: bool
    ghost var saves: seq<Saving>

    constructor (works: bool)
      ensures this.works == works && saves == []
    {
      this.works := works;
      saves := [];
    }

    method Save(runner: nat) returns (done: bool)
      modifies this
      ensures saves == old(saves) + [Saving(runner, done)]
      ensures works ==> done
    {
      done := *;
      done := done || works;
      saves := saves + [Saving(runner, done)];
    }
  }

  /** One request to a dispatcher, or one dead letter. */
  datatype Entry<X> = Tried(envelope: X, accepted: bool) | Filed(envelope: X, written: bool)

  /** The dispatchers and the dead-letter logs. */
  class Outlet<X> {
    /** Whether a dead letter can always be written. */
    const buries: bool
    ghost var log: seq<Entry<X>>

    constructor (buries: bool)
      ensures this.buries == buries && log == []
    {
      this.buries := buries;
      log := [];
    }

    method Submit(envelope: X) returns (accepted: bool)
      modifies this
      ensures log == old(log) + [Tried(envelope, accepted)]
    {
      accepted := *;
      log := log + [Tried(envelope, accepted)];
    }

    method DeadLetter(envelope: X) returns (written: bool)
      modifies this
      ensures log == old(log) + [Filed(envelope, written)]
      ensures buries ==> written
    {
      written := *;
      written := written || buries;
      log := log + [Filed(envelope, written)];
    }
  }

  /** The envelopes that were dispatched at all, with success, and those dead-lettered, in order. */
  function Attempts<X>(log: seq<Entry<X>>): seq<X> {
    if log == [] then []
    else
      var last := log[|log| - 1];
      Attempts(log[..|log| - 1]) + if last.Tried? then [last.envelope] else []
  }

  function Accepted<X>(log: seq<Entry<X>>): seq<X> {
    if log == [] then []
    else
      var last := log[|log| - 1];
      Accepted(log[..|log| - 1]) + if last.Tried? && last.accepted then [last.envelope] else []
  }

  function Buried<X>(log: seq<Entry<X>>): seq<X> {
    if log == [] then []
    else
      var last := log[|log| - 1];
      Buried(log[..|log| - 1]) + if last.Filed? && last.written then [last.envelope] else []
  }

  /** A dead letter follows every refusal of its envelope, and nothing else. */
  ghost predicate Paired<X>(log: seq<Entry<X>>) {
    && (forall i :: 0 <= i < |log| && log[i].Tried? && !log[i].accepted ==>
          i + 1 < |log| && log[i + 1].Filed? && log[i + 1].envelope == log[i].envelope)
    && forall i :: 0 <= i < |log| && log[i].Filed? ==>
         i > 0 && log[i - 1] == Tried(log[i].envelope, false)
  }

  /** Entry by entry. */
  lemma OneEntryMore<X>(log: seq<Entry<X>>, last: Entry<X>)
    ensures Attempts(log + [last]) == Attempts(log) + if last.Tried? then [last.envelope] else []
    ensures Accepted(log + [last]) == Accepted(log) + if last.Tried? && last.accepted then [last.envelope] else []
    ensures Buried(log + [last]) == Buried(log) + if last.Filed? && last.written then [last.envelope] else []
  {
    assert (log + [last])[..|log|] == log;
  }

  /** What one envelope leaves in the ledger: accepted, or refused and then dead-lettered if that works. */
  function Entries<X>(envelope: X, accepted: bool, written: bool): seq<Entry<X>> {
    if accepted then [Tried(envelope, true)] else [Tried(envelope, false), Filed(envelope, written)]
  }

  lemma OneOutcomeMore<X>(log: seq<Entry<X>>, envelope: X, accepted: bool, written: bool)
    requires Paired(log)
    ensures var more := Entries(envelope, accepted, written);
            && Paired(log + more)
            && Attempts(log + more) == Attempts(log) + [envelope]
            && Accepted(log + more) == Accepted(log) + (if accepted then [envelope] else [])
            && Buried(log + more) == Buried(log) + if !accepted && written then [envelope] else []
  {
    hide Attempts, Accepted, Buried;
    OneEntryMore(log, Tried(envelope, accepted));
    if !accepted {
      OneEntryMore(log + [Tried(envelope, false)], Filed(envelope, written));
      assert log + [Tried(envelope, false), Filed(envelope, written)]
          == log + [Tried(envelope, false)] + [Filed(envelope, written)];
    }
  }
}
