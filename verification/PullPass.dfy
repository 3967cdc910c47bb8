/**
 * `AggregateStore::run_process_managers`: one pull pass over every process
 * manager. The store carries the state of `PullSystem` it has reached, so the
 * results about all the runs of that system hold of it.
 */
module PullPass {
  import opened Prelude
  import opened Codec
  import opened Consumers
  import opened Environment
  import opened LiveSystem
  import PullRefinement
  import PullSystem

  /** One envelope handled: dispatched, or written to its process manager's dead-letter log. */
  datatype Handling<O> = Handling(envelope: Envelope<O>, dispatched: bool)

  datatype Report = Report(dispatched: nat, deadLettered: nat)

  /** The commands of runner k that could not be dispatched. */
  function Dead<O>(k: nat, history: seq<Handling<O>>): seq<O> {
    if history == [] then []
    else
      var last := history[|history| - 1];
      Dead(k, history[..|history| - 1])
      + if last.envelope.runner == k && !last.dispatched then [last.envelope.command] else []
  }

  /** What the ledger of the outside says was handled: accepted, or refused and written to a dead-letter log. */
  function Handled<O>(log: seq<Entry<Envelope<O>>>): seq<Handling<O>> {
    if log == [] then []
    else
      var last := log[|log| - 1];
      Handled(log[..|log| - 1])
      + if last.Tried? then if last.accepted then [Handling(last.envelope, true)] else []
        else if last.written then [Handling(last.envelope, false)] else []
  }

  lemma HandledOneMore<O>(log: seq<Entry<Envelope<O>>>, envelope: Envelope<O>, accepted: bool, written: bool)
    ensures Handled(log + Entries(envelope, accepted, written))
         == Handled(log) + if accepted || written then [Handling(envelope, accepted)] else []
  {
    var more := Entries(envelope, accepted, written);
    assert (log + more)[..|log + more| - 1] == log + more[..|more| - 1];
    if !accepted {
      assert (log + [more[0]])[..|log|] == log;
    } else {
      assert log + [] == log;
    }
  }

  /** The first n saves, the last of which fails unless `ok`. */
  function Savings(n: nat, ok: bool): seq<Saving> {
    seq(n, k requires 0 <= k < n => Saving(k, ok || k < n - 1))
  }

  lemma SavingsFail(saves: seq<Saving>, n: nat, ok: bool)
    requires n > 0 || ok
    ensures !ok <==> exists i :: |saves| <= i < |saves + Savings(n, ok)| && !(saves + Savings(n, ok))[i].done
  {
    if !ok {
      assert !(saves + Savings(n, ok))[|saves| + n - 1].done;
    }
  }

  /** A report went from `from` to `to` while the ledger grew: it counts what was accepted and what was filed. */
  predicate Counted<O>(from: Report, to: Report, log: seq<Entry<Envelope<O>>>, grown: seq<Entry<Envelope<O>>>) {
    && to.dispatched - from.dispatched == |Accepted(grown)| - |Accepted(log)|
    && to.deadLettered - from.deadLettered == |Buried(grown)| - |Buried(log)|
  }

  /** Whatever was handled was accepted or dead-lettered, and counted once. */
  lemma {:induction false} CountsAddUp<O>(log: seq<Entry<Envelope<O>>>)
    ensures |Handled(log)| == |Accepted(log)| + |Buried(log)|
  {
    if log != [] {
      CountsAddUp(log[..|log| - 1]);
    }
  }

  /** The envelopes of a work list, runner by runner. */
  function Listed<O>(work: seq<seq<O>>): seq<Envelope<O>> {
    if work == [] then []
    else Listed(work[..|work| - 1]) + Wrap(|work| - 1, work[|work| - 1])
  }

  /** Read back by runner, the list is each process manager's own envelopes in log order. */
  lemma {:induction false} ListedByRunner<O>(work: seq<seq<O>>, k: nat)
    ensures Of(k, Listed(work)) == if k < |work| then work[k] else []
  {
    if work != [] {
      var front, last := work[..|work| - 1], work[|work| - 1];
      ListedByRunner(front, k);
      OfConcat(k, Listed(front), Wrap(|front|, last));
      OfWrap(k, |front|, last);
    }
  }

  lemma ListedMore<O>(work: seq<seq<O>>, more: seq<O>)
    ensures Listed(work + [more]) == Listed(work) + Wrap(|work|, more)
  {
    assert (work + [more])[..|work|] == work;
  }

  /** The list starts with what the first runners emitted. */
  lemma {:induction false} ListedPrefix<O>(work: seq<seq<O>>, k: nat)
    requires k < |work|
    ensures Listed(work[..k]) + Wrap(k, work[k]) <= Listed(work)
    ensures |Listed(work[..k + 1])| == |Listed(work[..k])| + |work[k]|
  {
    assert work[..k + 1][..k] == work[..k];
    if k + 1 < |work| {
      ListedPrefix(work[..|work| - 1], k);
      assert work[..|work| - 1][..k] == work[..k];
    } else {
      assert work[..k] == work[..|work| - 1];
    }
  }

  /** How many subscriptions are drained before one fails, and all if none does. */
  function Drained(feeds: seq<seq<Message>>): nat {
    if feeds == [] then 0
    else
      var before := Drained(feeds[..|feeds| - 1]);
      if before < |feeds| - 1 || Fails(feeds[|feeds| - 1]) then before else before + 1
  }

  lemma {:induction false} DrainedStops(feeds: seq<seq<Message>>)
    ensures Drained(feeds) <= |feeds|
    ensures forall k :: 0 <= k < Drained(feeds) ==> !Fails(feeds[k])
    ensures Drained(feeds) < |feeds| ==> Fails(feeds[Drained(feeds)])
  {
    if feeds != [] {
      DrainedStops(feeds[..|feeds| - 1]);
    }
  }

  function Envelopes<O>(history: seq<Handling<O>>): seq<Envelope<O>> {
    seq(|history|, i requires 0 <= i < |history| => history[i].envelope)
  }

  /** The process managers of a store. A runner's stream is drained as `Consumers.Runner.ProcessStream` proves it. */
  class ProcessManagers<T(!new), O(!new)> {
    const consumers: Registry<T, O>
    /** Whether the files come from a run that `PullSystem` knows. */
    ghost const tracked: bool
    ghost const before: PullSystem.Pull<T, O>
    /** The dispatchers and dead-letter logs, and the disk. */
    const outlet: Outlet<Envelope<O>>
    const disk: Disk
    /** Whether a live loop of the same store runs beside the passes: it saves whenever it likes. */
    const liveBeside: bool
    var checkpoints: seq<Checkpoint<T>>
    var files: seq<Option<Checkpoint<T>>>
    /** One dead-letter log per process manager. */
    var deadLetters: seq<seq<O>>
    /** Every envelope handled so far, in order. */
    ghost var history: seq<Handling<O>>
    /** The state of the transition system that the store is in, and whether every save so far was safe. */
    ghost var model: PullSystem.Pull<T, O>
    ghost var safe: bool

    constructor (consumers: Registry<T, O>, files: seq<Option<Checkpoint<T>>>, outlet: Outlet<Envelope<O>>,
                 disk: Disk, liveBeside: bool, ghost tracked: bool, ghost before: PullSystem.Pull<T, O>)
      requires |files| == |consumers| && outlet.log == []
      requires tracked ==>
                 PullRefinement.Alive(consumers, before, true) && (before.pass.Down? || before.pass.Failed?)
                     && before.disk == files
      ensures Valid() && this.consumers == consumers && this.files == files && history == []
      ensures this.outlet == outlet && this.disk == disk
      ensures this.tracked == tracked && this.before == before && this.liveBeside == liveBeside && safe
      ensures tracked ==> Ready() && model.log == before.log
      ensures forall k :: 0 <= k < |consumers| ==>
                checkpoints[k] == if files[k].Some? then files[k].value else Checkpoint(consumers[k].initial, 0)
    {
      this.consumers := consumers;
      this.files := files;
      this.tracked := tracked;
      this.before := before;
      this.liveBeside := liveBeside;
      this.outlet := outlet;
      this.disk := disk;
      safe := true;
      checkpoints := seq(|consumers|, k requires 0 <= k < |consumers| => Load(consumers[k], files[k]));
      deadLetters := seq(|consumers|, k => []);
      history := [];
      model := before;
      new;
      if tracked {
        model := PullRefinement.Reload(consumers, before, true);
        assert model.handled[|before.handled|..] == [];
      }
    }

    /** Each dead-letter log holds exactly its own process manager's failures, in order, as the outside knows them. */
    ghost predicate Valid()
      reads this, outlet
    {
      && history == Handled(outlet.log) && Paired(outlet.log)
      && |checkpoints| == |files| == |deadLetters| == |consumers|
      && (forall k :: 0 <= k < |consumers| ==> deadLetters[k] == Dead(k, history))
      && (!liveBeside ==> safe)
      && (tracked ==> Follows())
    }

    ghost predicate Follows()
      reads this`model, this`checkpoints, this`files, this`history, this`safe
    {
      && PullRefinement.Alive(consumers, model, safe) && !model.pass.Down?
      && model.mem == checkpoints && model.disk == files
      && before.handled <= model.handled
      && PullRefinement.Plain(model.handled[|before.handled|..]) == Envelopes(history)
    }

    /** No pass is under way, and none failed with something left unhandled. */
    ghost predicate Ready()
      reads this`model, this`safe
    {
      || model.pass.Idle?
      || (model.pass.Failed? && |model.mem| == |consumers|
          && (safe ==> PullSystem.Settled(consumers, model)))
    }

    /** Without a live loop no file changed; with one, a file holds what its runner had or has in memory. */
    twostate predicate Ticked()
      requires |old(files)| == |old(checkpoints)| == |files| == |checkpoints| == |consumers|
      reads this`files, this`checkpoints
    {
      && (!liveBeside ==> files == old(files))
      && forall k :: 0 <= k < |consumers| ==>
           files[k] == old(files[k]) || files[k] == Some(checkpoints[k]) || files[k] == Some(old(checkpoints[k]))
    }

    /** A tick of the live loop saves every runner that it can. */
    method MaybeTick()
      requires Valid()
      modifies this`files, this`model, this`safe
      ensures Valid() && Ticked()
      ensures tracked ==> model == old(model).(disk := model.disk)
    {
      hide Dead, PullRefinement.Alive, PullSystem.ClearOf, PullRefinement.Plain, Envelopes;
      if !liveBeside {
        return;
      }
      for k := 0 to |consumers|
        invariant Valid() && Ticked()
        invariant tracked ==> model == old(model).(disk := model.disk)
      {
        var ticks: bool := *;
        if ticks {
          if tracked {
            model, safe := PullRefinement.TickOne(consumers, model, safe, k);
          }
          files := files[k := Some(checkpoints[k])];
        }
      }
    }

    /** Every runner is at one pass over the log below its cursor. */
    ghost predicate InStep(log: seq<Recorded>)
      reads this, outlet
      requires Valid()
    {
      Ordered(log) && forall k :: 0 <= k < |consumers| ==> Correct(consumers[k], log, checkpoints[k])
    }

    /** Catch every runner up; a failed stream drops what was collected but not how far the runners got. */
    method Collect(ghost log: seq<Recorded>, feeds: seq<seq<Message>>) returns (work: Option<seq<seq<O>>>)
      requires Valid() && InStep(log) && |feeds| == |consumers|
      requires forall k :: 0 <= k < |consumers| ==> Subscribed(log, checkpoints[k].cursor, feeds[k])
      requires tracked ==> model.log == log && model.pass == PullSystem.Collecting(0, [])
      modifies this`checkpoints, this`files, this`model, this`safe
      ensures Valid() && InStep(log) && Ticked()
      ensures work.Some? <==> Drained(feeds) == |feeds|
      ensures work.Some? ==> |work.value| == |consumers|
      ensures forall k :: 0 <= k < |consumers| ==>
                checkpoints[k] ==
                if k <= Drained(feeds) then AdvanceAll(consumers[k], old(checkpoints[k]), Yield(feeds[k])).0
                else old(checkpoints[k])
      ensures work.Some? ==>
                forall k :: 0 <= k < |consumers| ==>
                  Pulled(consumers[k], log, old(checkpoints[k]), checkpoints[k], feeds[k], work.value[k])
      ensures tracked ==> model.log == log && model.handled == old(model.handled)
      ensures tracked ==> if work.None? then model.pass.Failed?
                          else model.pass.Dispatching? && PullRefinement.Plain(model.pass.work) == Listed(work.value)
    {
      hide AdvanceAll, Behind, Correct, Yield, Fails, Dead, Subscribed, Pulled, Follows, PullRefinement.Plain, Wrap,
          Drained, Listed;
      DrainedStops(feeds);
      var collected: seq<seq<O>> := [];
      NothingListed(collected, []);
      PlainSlice([], 0);
      for k := 0 to |consumers|
        invariant Valid() && InStep(log) && Ticked() && |collected| == k <= Drained(feeds)
        invariant forall j :: k <= j < |consumers| ==> checkpoints[j] == old(checkpoints[j])
        invariant forall j :: 0 <= j < k ==>
                    checkpoints[j] == AdvanceAll(consumers[j], old(checkpoints[j]), Yield(feeds[j])).0
        invariant forall j :: 0 <= j < k ==>
                    Pulled(consumers[j], log, old(checkpoints[j]), checkpoints[j], feeds[j], collected[j])
        invariant tracked ==>
                    && model.log == log && model.handled == old(model.handled)
                    && model.pass == PullSystem.Collecting(k, PullSystem.Work(model.pass))
                    && PullRefinement.Plain(PullSystem.Work(model.pass)) == Listed(collected)
      {
        var emitted := Drain(log, k, feeds[k]);
        if emitted.None? {
          return None;
        }
        ListedMore(collected, emitted.value);
        collected := collected + [emitted.value];
      }
      CollectedAll();
      return Some(collected);
    }

    /** Every runner has been caught up. */
    ghost method CollectedAll()
      requires Valid() && (tracked ==> model.pass == PullSystem.Collecting(|consumers|, PullSystem.Work(model.pass)))
      modifies this`model
      ensures Valid()
      ensures tracked ==> model == old(model).(pass := PullSystem.Dispatching(PullSystem.Work(old(model.pass))))
    {
      if tracked {
        model := PullRefinement.EndCollect(consumers, model, safe);
      }
    }

    /** One runner drains its subscription. */
    method Drain(ghost log: seq<Recorded>, k: nat, messages: seq<Message>) returns (emitted: Option<seq<O>>)
      requires Valid() && InStep(log) && k < |consumers| && Subscribed(log, checkpoints[k].cursor, messages)
      requires tracked ==> model.log == log && model.pass.Collecting? && model.pass.next == k
      modifies this`checkpoints, this`files, this`model, this`safe
      ensures Valid() && InStep(log) && Ticked()
      ensures checkpoints == old(checkpoints)[k := AdvanceAll(consumers[k], old(checkpoints[k]), Yield(messages)).0]
      ensures emitted.None? <==> Fails(messages)
      ensures emitted.Some? ==> Pulled(consumers[k], log, old(checkpoints[k]), checkpoints[k], messages, emitted.value)
      ensures tracked ==> model.log == log && model.handled == old(model.handled)
      ensures tracked ==>
                if emitted.None? then model.pass.Failed?
                else
                  && model.pass == PullSystem.Collecting(k + 1, PullSystem.Work(model.pass))
                  && PullRefinement.Plain(PullSystem.Work(model.pass))
                     == PullRefinement.Plain(old(model.pass.work)) + Wrap(k, emitted.value)
    {
      hide Advance, Then, AdvanceAll, Behind, Correct, Pass, Yield, Fails, Dead, Pulled, PullRefinement.Alive;
      MaybeTick();
      var runner := new Runner.At(consumers[k], checkpoints[k]);
      var drained, produced := runner.CatchUp(log, messages);
      if tracked {
        model := PullRefinement.CollectOne(consumers, model, safe, runner.checkpoint, messages, produced);
      }
      checkpoints := checkpoints[k := runner.checkpoint];
      return if drained.Ok? then Some(drained.value) else None;
    }

    /** Dispatch one envelope, and only if it is refused dead-letter it; nothing when neither worked. */
    method Handle(k: nat, command: O) returns (dispatched: Option<bool>)
      requires Valid() && k < |consumers|
      requires tracked ==> model.pass.Dispatching? && model.pass.work != []
                           && PullRefinement.Plain(model.pass.work[..1]) == [Envelope(k, command)]
      modifies this`deadLetters, this`history, this`files, this`model, this`safe, outlet
      ensures Valid() && Ticked()
      ensures outlet.log == old(outlet.log) + Entries(Envelope(k, command), dispatched == Some(true), dispatched.Some?)
      ensures deadLetters == if dispatched == Some(false) then old(deadLetters)[k := old(deadLetters)[k] + [command]]
                             else old(deadLetters)
      ensures history == if dispatched.None? then old(history)
                else old(history) + [Handling(Envelope(k, command), dispatched.value)]
      ensures tracked ==> model.log == old(model.log) && if dispatched.None? then model.pass.Failed?
                          else model.pass == PullSystem.Dispatching(old(model.pass.work)[1..])
    {
      hide PullRefinement.Alive, PullRefinement.Plain, Envelopes, Dead, Handled, Paired, Attempts, Accepted, Buried;
      MaybeTick();
      var accepted := outlet.Submit(Envelope(k, command));
      var written := false;
      if !accepted {
        written := outlet.DeadLetter(Envelope(k, command));
      }
      assert outlet.log == old(outlet.log) + Entries(Envelope(k, command), accepted, written);
      OneOutcomeMore(old(outlet.log), Envelope(k, command), accepted, written);
      HandledOneMore(old(outlet.log), Envelope(k, command), accepted, written);
      if tracked {
        FirstOf(model.pass.work);
        model := PullRefinement.HandleOne(consumers, model, safe, accepted || written);
      }
      if !accepted && !written {
        return None;
      }
      history := history + [Handling(Envelope(k, command), accepted)];
      DeadOneMore(old(history), Envelope(k, command), accepted);
      if !accepted {
        deadLetters := deadLetters[k := deadLetters[k] + [command]];
      }
      if tracked {
        SameHistory(old(model.handled), |before.handled|, old(model.pass.work)[0], old(history),
                    history[|history| - 1]);
      }
      return Some(accepted);
    }

    lemma DeadOneMore(history: seq<Handling<O>>, envelope: Envelope<O>, dispatched: bool)
      ensures forall j :: Dead(j, history + [Handling(envelope, dispatched)])
                       == Dead(j, history) + if envelope.runner == j && !dispatched then [envelope.command] else []
    {
      assert (history + [Handling(envelope, dispatched)])[..|history|] == history;
    }

    lemma FirstOf(tags: seq<PullSystem.Tag<O>>)
      requires tags != []
      ensures PullRefinement.Plain(tags[..1]) == [Envelope(tags[0].runner, tags[0].command)]
    {
    }

    /** What the system handled and what the store handled grow alike. */
    lemma SameHistory(handled: seq<PullSystem.Tag<O>>, start: nat, tag: PullSystem.Tag<O>, history: seq<Handling<O>>,
                      last: Handling<O>)
      requires start <= |handled| && PullRefinement.Plain(handled[start..]) == Envelopes(history)
      requires last.envelope == Envelope(tag.runner, tag.command)
      ensures PullRefinement.Plain((handled + [tag])[start..]) == Envelopes(history + [last])
    {
      assert (handled + [tag])[start..] == handled[start..] + [tag];
      PullRefinement.PlainConcat(handled[start..], [tag]);
      assert PullRefinement.Plain([tag]) == [last.envelope];
      EnvelopesOneMore(history, last);
    }

    /**
     * One process manager's envelopes, in order; all of them, or up to the one that
     * could not even be dead-lettered.
     */
    method HandleAll(k: nat, commands: seq<O>, report: Report) returns (r: Option<Report>)
      requires Valid() && k < |consumers|
      requires tracked ==> model.pass.Dispatching? && Wrap(k, commands) <= PullRefinement.Plain(model.pass.work)
      modifies this`deadLetters, this`history, this`files, this`model, this`safe, outlet
      ensures Valid() && Ticked() && old(history) <= history && old(outlet.log) <= outlet.log
      ensures Envelopes(history[|old(history)|..]) <= Wrap(k, commands)
      ensures r.None? ==> |history| < |old(history)| + |commands|
      ensures r.None? <==>
              exists i :: |old(outlet.log)| <= i < |outlet.log| && outlet.log[i].Filed? && !outlet.log[i].written
      ensures r.Some? ==>
                && Envelopes(history[|old(history)|..]) == Wrap(k, commands)
                && Attempts(outlet.log) == Attempts(old(outlet.log)) + Wrap(k, commands)
                && Counted(report, r.value, old(outlet.log), outlet.log)
      ensures tracked ==> model.log == old(model.log) && if r.None? then model.pass.Failed?
                          else model.pass == PullSystem.Dispatching(old(model.pass.work)[|commands|..])
    {
      hide Dead, Follows, Wrap, Envelopes, Attempts, Accepted, Buried, Handled, Paired, PullRefinement.Plain;
      var sum := report;
      ghost var tags := PullSystem.Work(model.pass);
      WrapParts(k, commands);
      HistoryParts(history, |old(history)|, |old(history)|);
      NothingListed([], history[|old(history)|..]);
      PlainSlice(tags, 0);
      for i := 0 to |commands|
        invariant Valid() && Ticked() && old(history) <= history && |history| == |old(history)| + i
        invariant Envelopes(history[|old(history)|..]) == Wrap(k, commands[..i])
        invariant old(outlet.log) <= outlet.log && Counted(report, sum, old(outlet.log), outlet.log)
        invariant Attempts(outlet.log) == Attempts(old(outlet.log)) + Wrap(k, commands[..i])
        invariant forall j :: |old(outlet.log)| <= j < |outlet.log| ==>
                    !(outlet.log[j].Filed? && !outlet.log[j].written)
        invariant tracked ==>
                    model.log == old(model.log) && i <= |tags| && model.pass == PullSystem.Dispatching(tags[i..])
      {
        ghost var earlier, log := history, outlet.log;
        if tracked {
          PlainAt(tags, k, commands, i);
        }
        var dispatched := Handle(k, commands[i]);
        if dispatched.None? {
          assert outlet.log[|log| + 1] == Filed(Envelope(k, commands[i]), false);
          return None;
        }
        OneOutcomeMore(log, Envelope(k, commands[i]), dispatched.value, true);
        HistoryOneMore(earlier, |old(history)|, Handling(Envelope(k, commands[i]), dispatched.value));
        sum := if dispatched.value then sum.(dispatched := sum.dispatched + 1)
            else sum.(deadLettered := sum.deadLettered + 1);
      }
      assert commands[..|commands|] == commands;
      return Some(sum);
    }

    /** The envelopes of the first commands are the first envelopes. */
    lemma WrapParts(k: nat, commands: seq<O>)
      ensures Wrap(k, commands[..0]) == [] && |Wrap(k, commands)| == |commands|
      ensures forall i :: 0 <= i < |commands| ==>
                Wrap(k, commands[..i + 1]) == Wrap(k, commands[..i]) + [Envelope(k, commands[i])]
      ensures forall i :: 0 <= i <= |commands| ==> Wrap(k, commands[..i]) <= Wrap(k, commands)
    {
    }

    lemma PlainAt(tags: seq<PullSystem.Tag<O>>, k: nat, commands: seq<O>, i: nat)
      requires i < |commands| && Wrap(k, commands) <= PullRefinement.Plain(tags)
      ensures i < |tags| && PullRefinement.Plain(tags[i..][..1]) == [Envelope(k, commands[i])]
    {
      assert PullRefinement.Plain(tags)[i] == Wrap(k, commands)[i];
    }

    lemma HistoryOneMore(history: seq<Handling<O>>, start: nat, last: Handling<O>)
      requires start <= |history|
      ensures Envelopes((history + [last])[start..]) == Envelopes(history[start..]) + [last.envelope]
    {
      hide Envelopes;
      assert (history + [last])[start..] == history[start..] + [last];
      EnvelopesOneMore(history[start..], last);
    }

    lemma EnvelopesOneMore(history: seq<Handling<O>>, last: Handling<O>)
      ensures Envelopes(history + [last]) == Envelopes(history) + [last.envelope]
    {
    }

    /** Every process manager's envelopes, one process manager after the other. */
    method HandleWork(work: seq<seq<O>>) returns (r: Option<Report>)
      requires Valid() && |work| == |consumers|
      requires tracked ==> model.pass.Dispatching? && PullRefinement.Plain(model.pass.work) == Listed(work)
      modifies this`deadLetters, this`history, this`files, this`model, this`safe, outlet
      ensures Valid() && Ticked() && old(history) <= history && old(outlet.log) <= outlet.log
      ensures Envelopes(history[|old(history)|..]) <= Listed(work)
      ensures r.None? <==>
              exists i :: |old(outlet.log)| <= i < |outlet.log| && outlet.log[i].Filed? && !outlet.log[i].written
      ensures r.Some? ==>
                && Envelopes(history[|old(history)|..]) == Listed(work)
                && Attempts(outlet.log) == Attempts(old(outlet.log)) + Listed(work)
                && Counted(Report(0, 0), r.value, old(outlet.log), outlet.log)
      ensures tracked ==> model.log == old(model.log) && if r.None? then model.pass.Failed?
                          else model.pass == PullSystem.Saving(0)
    {
      hide Dead, Follows, Listed, Wrap, Envelopes, Attempts, Accepted, Buried, Handled, Paired, PullRefinement.Plain;
      var report := Report(0, 0);
      ghost var tags := PullSystem.Work(model.pass);
      PlainSlice(tags, 0);
      NothingListed(work[..0], history[|old(history)|..]);
      for k := 0 to |work|
        invariant Valid() && Ticked() && old(history) <= history
        invariant Envelopes(history[|old(history)|..]) == Listed(work[..k]) && Listed(work[..k]) <= Listed(work)
        invariant old(outlet.log) <= outlet.log && Counted(Report(0, 0), report, old(outlet.log), outlet.log)
        invariant Attempts(outlet.log) == Attempts(old(outlet.log)) + Listed(work[..k])
        invariant forall j :: |old(outlet.log)| <= j < |outlet.log| ==>
                    !(outlet.log[j].Filed? && !outlet.log[j].written)
        invariant tracked ==>
                    && model.log == old(model.log)
                    && PullRefinement.Plain(tags) == Listed(work) && |Listed(work[..k])| <= |tags|
                    && model.pass == PullSystem.Dispatching(tags[|Listed(work[..k])|..])
      {
        ghost var earlier := history;
        NextPart(work, k);
        PlainSlice(tags, |Listed(work[..k])|);
        var handled := HandleAll(k, work[k], report);
        HistoryParts(history, |old(history)|, |earlier|);
        assert history[|old(history)|..|earlier|] == earlier[|old(history)|..];
        if handled.None? {
          return None;
        }
        report := handled.value;
      }
      assert work[..|work|] == work;
      Finish();
      return Some(report);
    }

    /** The work list is empty. */
    ghost method Finish()
      requires Valid() && (tracked ==> model.pass == PullSystem.Dispatching([]))
      modifies this`model
      ensures Valid() && (tracked ==> model.log == old(model.log) && model.pass == PullSystem.Saving(0))
    {
      if tracked {
        model := PullRefinement.EndDispatch(consumers, model, safe);
      }
    }

    lemma NothingListed(work: seq<seq<O>>, history: seq<Handling<O>>)
      requires work == [] && history == []
      ensures Listed(work) == [] && Envelopes(history) == []
    {
    }

    /** The next process manager's part of the work list. */
    lemma NextPart(work: seq<seq<O>>, k: nat)
      requires k < |work|
      ensures Listed(work[..k + 1]) == Listed(work[..k]) + Wrap(k, work[k]) <= Listed(work)
      ensures |Wrap(k, work[k])| == |work[k]| && Listed(work[..k]) <= Listed(work)
      ensures Wrap(k, work[k]) <= Listed(work)[|Listed(work[..k])|..]
    {
      ListedPrefix(work, k);
      assert work[..k + 1][..k] == work[..k];
      assert (Listed(work[..k]) + Wrap(k, work[k]))[|Listed(work[..k])|..] == Wrap(k, work[k]);
    }

    lemma PlainSlice(tags: seq<PullSystem.Tag<O>>, n: nat)
      ensures |PullRefinement.Plain(tags)| == |tags|
      ensures n <= |tags| ==> PullRefinement.Plain(tags[n..]) == PullRefinement.Plain(tags)[n..]
    {
    }

    lemma HistoryParts(history: seq<Handling<O>>, start: nat, mid: nat)
      requires start <= mid <= |history|
      ensures Envelopes(history[start..]) == Envelopes(history[start..mid]) + Envelopes(history[mid..])
      ensures |Envelopes(history[start..])| == |history| - start
    {
      assert history[start..] == history[start..mid] + history[mid..];
    }

    /** The files one after the other, up to the first save that fails. */
    method SaveAll() returns (ok: bool)
      requires Valid() && (tracked ==> model.pass == PullSystem.Saving(0))
      modifies this`files, this`model, this`safe, disk
      ensures Valid() && old(disk.saves) <= disk.saves
      ensures var asked := |disk.saves| - |old(disk.saves)|;
              && disk.saves == old(disk.saves) + Savings(asked, ok)
              && asked <= |consumers| && (if ok then asked == |consumers| else asked > 0)
              && forall k :: 0 <= k < (if ok then asked else asked - 1) ==> files[k] == Some(checkpoints[k])
      ensures !ok <==> exists i :: |old(disk.saves)| <= i < |disk.saves| && !disk.saves[i].done
      ensures forall k :: 0 <= k < |consumers| ==> files[k] == Some(checkpoints[k]) || files[k] == old(files[k])
      ensures tracked ==> model.log == old(model.log) && if ok then model.pass.Idle? else model.pass.Failed?
    {
      hide Dead, PullRefinement.Alive, Handled, Paired, Follows;
      assert old(disk.saves) + Savings(0, true) == old(disk.saves);
      for k := 0 to |consumers|
        invariant Valid()
        invariant forall j :: 0 <= j < k ==> files[j] == Some(checkpoints[j])
        invariant forall j :: k <= j < |consumers| ==>
                    files[j] == old(files[j]) || (liveBeside && files[j] == Some(checkpoints[j]))
        invariant disk.saves == old(disk.saves) + Savings(k, true)
        invariant tracked ==> model.log == old(model.log) && model.pass == PullSystem.Saving(k)
      {
        var saved := SaveOne(k);
        assert Savings(k, true) + [Saving(k, saved)] == Savings(k + 1, saved);
        if !saved {
          SavingsFail(old(disk.saves), k + 1, false);
          return false;
        }
      }
      SavingsFail(old(disk.saves), |consumers|, true);
      AllSaved();
      return true;
    }

    /** One file is replaced, or the pass fails. */
    method SaveOne(k: nat) returns (saved: bool)
      requires Valid() && k < |consumers| && (tracked ==> model.pass == PullSystem.Saving(k))
      modifies this`files, this`model, this`safe, disk
      ensures Valid() && disk.saves == old(disk.saves) + [Saving(k, saved)]
      ensures saved ==> files[k] == Some(checkpoints[k])
      ensures forall j :: 0 <= j < |consumers| && !(saved && j == k) ==>
                files[j] == old(files[j]) || (liveBeside && files[j] == Some(checkpoints[j]))
      ensures tracked ==>
                model.log == old(model.log)
                && if saved then model.pass == PullSystem.Saving(k + 1) else model.pass.Failed?
    {
      hide Dead, PullRefinement.Alive, Handled, Paired, PullRefinement.Plain, Envelopes;
      MaybeTick();
      saved := disk.Save(k);
      if tracked {
        model := PullRefinement.SaveOne(consumers, model, safe, saved);
      }
      if saved {
        files := files[k := Some(checkpoints[k])];
      }
    }

    /** Every file has been saved. */
    ghost method AllSaved()
      requires Valid() && (tracked ==> model.pass == PullSystem.Saving(|consumers|))
      modifies this`model
      ensures Valid() && (tracked ==> model.log == old(model.log) && model.pass.Idle?)
    {
      if tracked {
        model := PullRefinement.EndSave(consumers, model, safe);
      }
    }

    ghost method StartPass(log: seq<Recorded>)
      requires Valid() && Ordered(log) && (tracked ==> Ready() && model.log <= log)
      modifies this`model
      ensures Valid() && (tracked ==> model.log == log && model.pass == PullSystem.Collecting(0, []))
      ensures tracked ==> model.handled == old(model.handled)
    {
      if tracked {
        model := PullRefinement.BeginPass(consumers, model, safe, log);
      }
    }

    /**
     * The whole pass. On success the envelopes handled are exactly those the
     * catch-ups returned, each once, one process manager after the other and in
     * log order; the report counts what the dispatchers accepted and what went to
     * its own process manager's dead-letter log (`Valid`). It fails exactly when a
     * stream, a dead letter or a save did, and then they are a prefix of those.
     * Whatever the result, without a live loop beside it no file changes before
     * every envelope of the pass is handled; with one, a tick may save any runner
     * in between. Either way the pass is a run of the transition system (`Valid`).
     */
    method RunPass(ghost log: seq<Recorded>, feeds: seq<seq<Message>>)
      returns (r: Result<Report, ()>, ghost work: seq<seq<O>>)
      requires Valid() && InStep(log) && |feeds| == |consumers|
      requires forall k :: 0 <= k < |consumers| ==> Subscribed(log, checkpoints[k].cursor, feeds[k])
      requires tracked ==> Ready() && model.log <= log
      modifies this, outlet, disk
      ensures Valid() && InStep(log) && old(history) <= history
      ensures old(outlet.log) <= outlet.log && old(disk.saves) <= disk.saves
      ensures r.Err? <==>
              || (exists k :: 0 <= k < |feeds| && Fails(feeds[k]))
              || (exists i :: |old(outlet.log)| <= i < |outlet.log| && outlet.log[i].Filed? && !outlet.log[i].written)
              || exists i :: |old(disk.saves)| <= i < |disk.saves| && !disk.saves[i].done
      ensures Drained(feeds) == |feeds| ==>
                && |work| == |consumers|
                && (forall k :: 0 <= k < |consumers| ==>
                      Pulled(consumers[k], log, old(checkpoints[k]), checkpoints[k], feeds[k], work[k]))
                && Envelopes(history[|old(history)|..]) <= Listed(work)
      ensures Drained(feeds) < |feeds| ==>
                r.Err? && history == old(history) && outlet.log == old(outlet.log) && disk.saves == old(disk.saves)
      ensures r.Ok? || (!liveBeside && files != old(files)) ==>
                Drained(feeds) == |feeds| && Envelopes(history[|old(history)|..]) == Listed(work)
      ensures r.Ok? ==>
                && (forall k :: 0 <= k < |consumers| ==> files[k] == Some(checkpoints[k]))
                && r.value.dispatched + r.value.deadLettered == |Listed(work)|
                && Attempts(outlet.log) == Attempts(old(outlet.log)) + Listed(work)
                && r.value.dispatched == |Accepted(outlet.log)| - |Accepted(old(outlet.log))|
                && r.value.deadLettered == |Buried(outlet.log)| - |Buried(old(outlet.log))|
      ensures forall k :: 0 <= k < |consumers| ==>
                || files[k] == old(files[k])
                || files[k] == Some(checkpoints[k])
                || (liveBeside && files[k] == Some(old(checkpoints[k])))
      ensures tracked ==> model.log == log && if r.Ok? then model.pass.Idle? else model.pass.Failed?
    {
      hide Dead, Correct, Behind, Pulled, Subscribed, Drained, PullRefinement.Alive, PullSystem.Settled, AdvanceAll;
      hide Handled, Paired, Envelopes, Attempts, Accepted, Buried, Listed, Fails, Follows, Savings;
      DrainedStops(feeds);
      NothingListed([], []);
      assert history[|old(history)|..] == [];
      work := [];
      StartPass(log);
      var collected := Collect(log, feeds);
      if collected.None? {
        return Err(()), work;
      }
      work := collected.value;
      var report := HandleWork(collected.value);
      if report.None? {
        return Err(()), work;
      }
      HistoryParts(history, |old(history)|, |old(history)|);
      CountsAddUp(outlet.log);
      CountsAddUp(old(outlet.log));
      var saved := SaveAll();
      return if saved then Ok(report.value) else Err(()), work;
    }

    /** What crash safety says of the store, at every point where it is valid and every save so far was safe. */
    lemma Guaranteed(k: nat, e: nat, j: nat)
      requires Valid() && tracked && safe && k < |consumers| && files[k].Some?
      requires e < Behind(model.log, files[k].value.cursor) && j < |Emits(consumers[k], model.log, e)|
      ensures PullSystem.Tag(k, e, j, Emits(consumers[k], model.log, e)[j]) in model.handled
      ensures Correct(consumers[k], model.log, files[k].value)
    {
      hide Emits, Behind;
      var run, steps :| PullSystem.Run(consumers, run, steps) && run[|steps|] == model;
      PullSystem.CrashSafe(consumers, run, steps, |steps|, k, e, j);
      PullSystem.FilesAreCorrect(consumers, run, steps, |steps|, k);
    }
  }
}
