/**
 * `run_live_loop` as the program runs it: connect, process a stream, save,
 * back off, connect again; saves fail only when the disk does. The loop carries
 * the state of `LiveSystem` it has reached, so the results about all the runs
 * of that system hold of it.
 */
module LiveLoops {
  import opened Prelude
  import opened Codec
  import opened Consumers
  import opened Environment
  import opened LiveScripts
  import LiveRefinement
  import LiveSystem

  class LiveLoop<T(!new), O(!new)> {
    const consumers: seq<Consumer<T, O>>
    const base: nat
    const max: nat
    const disk: Disk
    /** The dispatchers and the dead-letter logs. */
    const outlet: Outlet<Envelope<O>>
    /** Whether the server keeps the subscription contract. */
    ghost const orderly: bool
    /** The process before this one, as `LiveSystem` sees it. */
    ghost const before: LiveSystem.Live<T, O>
    var runners: seq<Checkpoint<T>>
    var files: seq<Option<Checkpoint<T>>>
    var attempted: seq<Envelope<O>>
    var dispatched: seq<Envelope<O>>
    var deadLetters: seq<Envelope<O>>
    var sent: seq<nat>
    var caughtUp: bool
    var backoff: nat
    /** Where each connection subscribed. */
    var requests: seq<nat>
    /** Attempts that ended dispatched or dead-lettered. */
    ghost var settled: seq<Envelope<O>>
    /** The state of the transition system that the loop is in. */
    ghost var model: LiveSystem.Live<T, O>

    constructor (consumers: seq<Consumer<T, O>>, files: seq<Option<Checkpoint<T>>>, base: nat, max: nat,
                 disk: Disk, outlet: Outlet<Envelope<O>>, ghost orderly: bool,
                 ghost before: LiveSystem.Live<T, O>)
      requires |files| == |consumers| && outlet.log == []
      requires orderly ==> LiveRefinement.Alive(consumers, before) && before.phase.Down? && before.disk == files
      ensures Valid() && this.consumers == consumers && this.base == base && this.max == max
                && this.disk == disk
      ensures this.outlet == outlet && this.orderly == orderly && this.before == before
      ensures this.files == files && attempted == [] && sent == [] && requests == []
      ensures !caughtUp && backoff == base
      ensures forall k :: 0 <= k < |consumers| ==>
                runners[k] == if files[k].Some? then files[k].value else Checkpoint(consumers[k].initial, 0)
      ensures orderly ==> Waiting() && model.log == before.log
    {
      this.consumers := consumers;
      this.base := base;
      this.max := max;
      this.disk := disk;
      this.outlet := outlet;
      this.orderly := orderly;
      this.before := before;
      this.files := files;
      runners := seq(|consumers|, k requires 0 <= k < |consumers| => LiveSystem.Load(consumers[k], files[k]));
      attempted, dispatched, deadLetters, sent, requests := [], [], [], [], [];
      caughtUp, backoff := false, base;
      settled := [];
      model := before;
      new;
      if orderly {
        model := LiveRefinement.Begin(consumers, before);
      }
    }

    /**
     * What was attempted, dispatched and dead-lettered is what the outside knows
     * of, and only what was refused is dead-lettered; with a writable dead-letter
     * log every attempt ended one way or the other. And on a server that keeps its
     * contract the loop is in a reachable state of the transition system.
     */
    ghost predicate Valid()
      reads this, outlet
    {
      && |runners| == |files| == |consumers|
      && Accounted()
      && (orderly ==> Follows())
    }

    ghost predicate Accounted()
      reads this`attempted, this`settled, this`dispatched, this`deadLetters, outlet
    {
      && attempted == Attempts(outlet.log) && Paired(outlet.log)
      && dispatched == Accepted(outlet.log) && deadLetters == Buried(outlet.log)
      && multiset(settled) == multiset(dispatched) + multiset(deadLetters)
      && (outlet.buries ==> settled == attempted)
    }

    ghost predicate Follows()
      reads this`model, this`runners, this`files, this`attempted, this`settled, this`sent
    {
      && LiveRefinement.Alive(consumers, model)
      && !model.phase.Down? && !model.phase.Off? && model.pulled == {}
      && model.mem == runners && model.disk == files
      && model.attempted == before.attempted + attempted && model.mark == |before.attempted|
      && model.settled == before.settled + settled
      && model.sent == sent
    }

    ghost predicate Waiting()
      reads this`model
    {
      model.phase == LiveSystem.Scanning(0, LiveSystem.U64_MAX)
    }

    /** Every file holds what its runner has in memory. */
    ghost predicate Flushed()
      reads this`files, this`runners
    {
      |files| == |runners| && forall k :: 0 <= k < |files| ==> files[k] == Some(runners[k])
    }

    /**
     * The last thing asked of the disk was a save of every runner, as it still is;
     * each that succeeded is in its file, and on a disk that works all did.
     */
    ghost predicate Saved()
      reads this`files, this`runners, disk
    {
      var earlier := |disk.saves| - |consumers|;
      && earlier >= 0 && |files| == |runners| == |consumers|
      && (forall i :: earlier <= i < |disk.saves| ==>
            && disk.saves[i].runner == i - earlier
            && (disk.saves[i].done ==> files[i - earlier] == Some(runners[i - earlier])))
      && (disk.works ==> Flushed())
    }

    /** Runner k has been handed these events on top of what it was. */
    twostate predicate Handled(happenings: seq<Happening>)
      requires old(Valid()) && Valid()
      reads this, outlet
    {
      forall k :: 0 <= k < |consumers| ==> runners[k] == After(consumers[k], old(runners[k]), happenings, k)
    }

    /** A save that fails is logged and the next runner is saved all the same. */
    method SaveAllCheckpoints()
      requires Valid()
      modifies this`files, this`model, disk
      ensures Valid() && Saved() && |disk.saves| == |old(disk.saves)| + |consumers|
      ensures forall i :: |old(disk.saves)| <= i < |disk.saves| ==>
                var k := i - |old(disk.saves)|;
                files[k] == if disk.saves[i].done then Some(runners[k]) else old(files[k])
      ensures orderly ==> model == old(model).(disk := files, archive := model.archive)
    {
      assert orderly ==> model == old(model).(disk := files, archive := model.archive);
      hide LiveRefinement.Alive, Accounted, Follows;
      ghost var earlier := |disk.saves|;
      for k := 0 to |consumers|
        invariant Valid() && |disk.saves| == earlier + k
        invariant forall j :: earlier <= j < earlier + k ==>
                    && disk.saves[j].runner == j - earlier && (disk.works ==> disk.saves[j].done)
                    && files[j - earlier] ==
                       if disk.saves[j].done then Some(runners[j - earlier]) else old(files[j - earlier])
        invariant forall j :: k <= j < |files| ==> files[j] == old(files[j])
        invariant orderly ==> model == old(model).(disk := files, archive := model.archive)
      {
        SaveOne(k);
      }
      if disk.works {
        forall k | 0 <= k < |consumers| ensures files[k] == Some(runners[k]) {
          assert disk.saves[earlier + k].done;
        }
      }
    }

    method SaveOne(k: nat)
      requires Valid() && k < |consumers|
      modifies this`files, this`model, disk
      ensures Valid() && |disk.saves| == |old(disk.saves)| + 1 && old(disk.saves) <= disk.saves
      ensures var saving := disk.saves[|old(disk.saves)|];
              && saving.runner == k && (disk.works ==> saving.done)
              && files == if saving.done then old(files)[k := Some(runners[k])] else old(files)
      ensures orderly ==> model == old(model).(disk := files, archive := model.archive)
    {
      hide LiveRefinement.Alive, Accounted;
      var saved := disk.Save(k);
      if saved {
        files := files[k := Some(runners[k])];
        if orderly {
          model := LiveRefinement.SaveOne(consumers, model, k);
        }
      }
    }

    /** The least cursor, or 0 when there is none to compare (or only the sentinel). */
    method MinGlobalPosition() returns (from: nat)
      requires Valid()
      ensures from == LiveSystem.From(LiveRefinement.Lowest(runners, |runners|))
      ensures forall k :: 0 <= k < |runners| ==> from <= runners[k].cursor
      ensures from != 0 ==> exists k :: 0 <= k < |runners| && runners[k].cursor == from
      ensures from == 0 ==> (forall k :: 0 <= k < |runners| ==> runners[k].cursor >= 0xFFFF_FFFF_FFFF_FFFF)
                            || exists k :: 0 <= k < |runners| && runners[k].cursor == 0
    {
      var low := LiveSystem.U64_MAX;
      for k := 0 to |runners|
        invariant low == LiveRefinement.Lowest(runners, k) <= LiveSystem.U64_MAX
        invariant forall j :: 0 <= j < k ==> low <= runners[j].cursor
        invariant low == LiveSystem.U64_MAX || exists j :: 0 <= j < k && runners[j].cursor == low
      {
        low := Min(low, runners[k].cursor);
      }
      from := LiveSystem.From(low);
    }

    /** A tick may come whenever the loop awaits something. */
    method MaybeTick()
      requires Valid()
      modifies this`files, this`model, disk
      ensures Valid() && (orderly ==> model == old(model).(disk := files, archive := model.archive))
    {
      var ticks: bool := *;
      if ticks {
        SaveAllCheckpoints();
      }
    }

    /** Hand one event to the first `reached` runners, collecting what they emit. */
    method FanOut(r: Recorded, reached: nat) returns (collected: seq<Envelope<O>>)
      requires Valid() && reached <= |runners|
      requires orderly ==> model.phase.Streaming? && model.phase.next < |model.log| && model.log[model.phase.next] == r
      modifies this`runners, this`files, this`model, disk
      ensures Valid() && collected == Collected(consumers, old(runners), r, reached)
      ensures forall k :: 0 <= k < |runners| ==>
                runners[k] == if k < reached then Advance(consumers[k], old(runners[k]), r).0 else old(runners[k])
      ensures orderly ==>
                model.phase == LiveSystem.FanOut(old(model.phase.next), reached, collected)
                    && model.log == old(model.log)
    {
      hide Advance, LiveSystem.Wrap, LiveRefinement.Alive, Accounted;
      collected := [];
      if orderly {
        model := LiveRefinement.DeliverNext(consumers, model);
      }
      assert Valid();
      for k := 0 to reached
        invariant Valid() && collected == Collected(consumers, old(runners), r, k)
        invariant forall j :: 0 <= j < |runners| ==>
                    runners[j] == if j < k then Advance(consumers[j], old(runners[j]), r).0 else old(runners[j])
        invariant orderly ==>
                    model.phase == LiveSystem.FanOut(old(model.phase.next), k, collected) && model.log == old(model.log)
      {
        hide Follows;
        var produced := HandTo(k, r);
        collected := collected + LiveSystem.Wrap(k, produced);
      }
    }

    /** One runner takes the event. */
    method HandTo(k: nat, r: Recorded) returns (produced: seq<O>)
      requires Valid() && k < |runners|
      requires orderly ==>
                 model.phase.FanOut? && model.phase.event < |model.log| && model.log[model.phase.event] == r
                     && model.phase.reached == k
      modifies this`runners, this`files, this`model, disk
      ensures Valid() && runners == old(runners)[k := Advance(consumers[k], old(runners[k]), r).0]
      ensures produced == Advance(consumers[k], old(runners[k]), r).1
      ensures orderly ==>
                && model.phase == LiveSystem.FanOut(old(model.phase.event), k + 1,
                   old(model.phase.queue) + LiveSystem.Wrap(k, produced))
                && model.log == old(model.log)
    {
      hide Advance, LiveSystem.Wrap, LiveRefinement.Alive, Accounted;
      MaybeTick();
      var runner := new Runner.At(consumers[k], runners[k]);
      produced := runner.ApplyEvent(r);
      runners := runners[k := runner.checkpoint];
      if orderly {
        model := LiveRefinement.FanOutOne(consumers, model);
      }
    }

    /** Dispatch in order; a failed dispatch, and even a failed dead letter, does not stop the loop. */
    method DispatchAll(envelopes: seq<Envelope<O>>)
      requires Valid() && (orderly ==> model.phase.Dispatching? && envelopes <= model.phase.queue)
      modifies this`attempted, this`dispatched, this`deadLetters, this`settled, this`files, this`model, disk,
               outlet
      ensures Valid() && attempted == old(attempted) + envelopes
      ensures orderly ==>
                && model.phase == LiveSystem.Dispatching(old(model.phase.event), old(model.phase.queue)[|envelopes|..])
                && model.log == old(model.log)
    {
      hide LiveRefinement.Alive, Accounted;
      for i := 0 to |envelopes|
        invariant Valid() && attempted == old(attempted) + envelopes[..i]
        invariant orderly ==>
                    && model.phase == LiveSystem.Dispatching(old(model.phase.event), old(model.phase.queue)[i..])
                    && model.log == old(model.log)
      {
        MaybeTick();
        DispatchOne(envelopes[i]);
        assert envelopes[..i + 1] == envelopes[..i] + [envelopes[i]];
      }
    }

    method DispatchOne(envelope: Envelope<O>)
      requires Valid()
      requires orderly ==> model.phase.Dispatching? && model.phase.queue != [] && model.phase.queue[0] == envelope
      modifies this`attempted, this`dispatched, this`deadLetters, this`settled, this`model, outlet
      ensures Valid() && attempted == old(attempted) + [envelope]
      ensures orderly ==>
                && model.phase == LiveSystem.Dispatching(old(model.phase.event), old(model.phase.queue)[1..])
                && model.log == old(model.log)
    {
      hide LiveRefinement.Alive, Accounted;
      ghost var outcome := Settle(envelope);
      if orderly {
        model := LiveRefinement.DispatchOne(consumers, model, outcome);
        assert model.attempted == before.attempted + attempted;
        assert model.settled == before.settled + settled;
      }
    }

    /** Dispatch it, and if it is refused dead-letter it; neither may work. */
    method Settle(envelope: Envelope<O>) returns (ghost outcome: LiveSystem.Outcome)
      requires Accounted()
      modifies this`attempted, this`dispatched, this`deadLetters, this`settled, outlet
      ensures Accounted() && attempted == old(attempted) + [envelope]
      ensures outlet.log == old(outlet.log) + Entries(envelope, outcome.Dispatched?, outcome.DeadLettered?)
      ensures settled == if outcome.DeadLetterFailed? then old(settled) else old(settled) + [envelope]
      ensures deadLetters == if outcome.DeadLettered? then old(deadLetters) + [envelope] else old(deadLetters)
      ensures dispatched == if outcome.Dispatched? then old(dispatched) + [envelope] else old(dispatched)
    {
      hide Attempts, Accepted, Buried, Paired;
      attempted := attempted + [envelope];
      outcome := LiveSystem.DeadLetterFailed;
      var accepted := outlet.Submit(envelope);
      var written := false;
      if accepted {
        dispatched, settled, outcome := dispatched + [envelope], settled + [envelope], LiveSystem.Dispatched;
      } else {
        written := outlet.DeadLetter(envelope);
        if written {
          deadLetters, settled, outcome := deadLetters + [envelope], settled + [envelope], LiveSystem.DeadLettered;
        }
      }
      OneOutcomeMore(old(outlet.log), envelope, accepted, written);
      assert outlet.log == old(outlet.log) + Entries(envelope, accepted, written);
    }

    /** One event all the way: every runner, every envelope, then the announcement. */
    method Process(r: Recorded)
      requires Valid()
      requires orderly ==> model.phase.Streaming? && model.phase.next < |model.log| && model.log[model.phase.next] == r
      modifies this`runners, this`files, this`attempted, this`dispatched, this`deadLetters, this`sent,
               this`settled, this`model, disk, outlet
      ensures Valid() && sent == old(sent) + [r.position]
      ensures attempted == old(attempted) + Collected(consumers, old(runners), r, |consumers|)
      ensures forall k :: 0 <= k < |runners| ==> runners[k] == Advance(consumers[k], old(runners[k]), r).0
      ensures orderly ==> model.phase == LiveSystem.Streaming(old(model.phase.next) + 1) && model.log == old(model.log)
    {
      hide Advance, Collected, LiveRefinement.Alive, Accounted, Saved;
      var collected := FanOut(r, |runners|);
      if orderly {
        model := LiveRefinement.EndFanOut(consumers, model);
      }
      DispatchAll(collected);
      sent := sent + [r.position];
      if orderly {
        model := LiveRefinement.Announce(consumers, model);
      }
    }

    /**
     * An event that a shutdown cuts short: some runners, or all of them and some
     * envelopes; then everything is saved.
     */
    method Interrupt(r: Recorded, reached: nat, dispatches: nat)
      requires Valid()
      requires orderly ==> model.phase.Streaming? && model.phase.next < |model.log| && model.log[model.phase.next] == r
      modifies this`runners, this`files, this`attempted, this`dispatched, this`deadLetters, this`settled,
               this`model, disk, outlet
      ensures Valid() && Saved()
      ensures attempted == old(attempted) + if reached < |consumers| then []
                                            else Begun(Collected(consumers, old(runners), r, |consumers|), dispatches)
      ensures forall k :: 0 <= k < |runners| ==>
                runners[k] == if k < reached then Advance(consumers[k], old(runners[k]), r).0 else old(runners[k])
      ensures orderly ==> model.phase.Stopped? && model.log == old(model.log)
    {
      hide Advance, Collected, LiveRefinement.Alive, Accounted, Saved;
      var collected := FanOut(r, Min(reached, |runners|));
      if reached >= |runners| {
        if orderly {
          model := LiveRefinement.EndFanOut(consumers, model);
        }
        DispatchAll(Begun(collected, dispatches));
      }
      Leave();
    }

    /** Save everything and stop. */
    method Leave()
      requires Valid() && (orderly ==> !model.phase.Stopped?)
      modifies this`files, this`model, disk
      ensures Valid() && Saved()
      ensures orderly ==> model.phase.Stopped? && model.log == old(model.log)
    {
      hide LiveRefinement.Alive, Accounted, Saved;
      SaveAllCheckpoints();
      Quit();
    }

    /** One thing that happens while a stream is open; whether and how it ends the stream. */
    method React(h: Happening) returns (ended: Option<End>)
      requires Valid() && (orderly ==> model.phase.Streaming? && FeedsBy(model.log, model.phase.next, h))
      modifies this`runners, this`files, this`attempted, this`dispatched, this`deadLetters, this`sent,
               this`caughtUp, this`settled, this`model, disk, outlet
      ensures Valid() && ended == Ends(h) && runners == AfterAll(consumers, old(runners), h)
      ensures sent == old(sent) + AnnouncedBy(h) && attempted == old(attempted) + ProducedBy(consumers, old(runners), h)
      ensures caughtUp == (old(caughtUp) || h == Received(CaughtUp))
      ensures (ended == Some(Stopped) || h.Tick? ==> Saved()) && ended != Some(Clean)
      ensures orderly ==> model.log == old(model.log)
      ensures orderly ==> if ended == Some(Stopped) then model.phase.Stopped?
                          else model.phase == LiveSystem.Streaming(old(model.phase.next) + |AnnouncedBy(h)|)
    {
      hide Advance, Collected, LiveRefinement.Alive, Accounted, Saved;
      match h {
        case Received(Event(r)) =>
          Process(r);
          return None;
        case Received(CaughtUp) =>
          caughtUp := true;
          return None;
        case Received(Empty) =>
          return None;
        case Received(Failure) =>
          return Some(Error);
        case Tick =>
          SaveAllCheckpoints();
          return None;
        case Shutdown =>
          Leave();
          return Some(Stopped);
        case Interrupted(r, reached, dispatches) =>
          Interrupt(r, reached, dispatches);
          return Some(Stopped);
      }
    }

    /** A stream until it ends, with ticks and shutdown in between. */
    method ProcessStream(happenings: seq<Happening>) returns (end: End)
      requires Valid()
      requires orderly ==> model.phase.Streaming? && Feeds(model.log, model.phase.next, happenings)
      modifies this`runners, this`files, this`attempted, this`dispatched, this`deadLetters, this`sent,
               this`caughtUp, this`settled, this`model, disk, outlet
      ensures Valid() && end == EndOf(happenings) && Handled(happenings)
      ensures sent == old(sent) + Announced(happenings)
      ensures attempted == old(attempted) + Produced(consumers, old(runners), happenings)
      ensures caughtUp == (old(caughtUp) || SaysCaughtUp(happenings))
      ensures end.Stopped? ==> Saved()
      ensures end.Clean? && happenings != [] && happenings[|happenings| - 1].Tick? ==> Saved()
      ensures orderly ==>
                model.log == old(model.log)
                && if end.Stopped? then model.phase.Stopped? else model.phase.Streaming?
    {
      hide Follows, Accounted, Ends, ProducedBy, AnnouncedBy, FeedsBy, AfterAll, Saved;
      hide EndOf, After, Announced, Produced, SaysCaughtUp;
      Nothing(happenings[|happenings|..]);
      for i := 0 to |happenings|
        invariant Valid() && (i > 0 && happenings[i - 1].Tick? ==> Saved())
        invariant EndOf(happenings[i..]) == EndOf(happenings)
        invariant forall k :: 0 <= k < |consumers| ==>
                    After(consumers[k], runners[k], happenings[i..], k)
                    == After(consumers[k], old(runners[k]), happenings, k)
        invariant sent + Announced(happenings[i..]) == old(sent) + Announced(happenings)
        invariant attempted + Produced(consumers, runners, happenings[i..])
               == old(attempted) + Produced(consumers, old(runners), happenings)
        invariant (caughtUp || SaysCaughtUp(happenings[i..])) == (old(caughtUp) || SaysCaughtUp(happenings))
        invariant orderly ==>
                    model.log == old(model.log) && model.phase.Streaming?
                        && Feeds(model.log, model.phase.next, happenings[i..])
      {
        assert happenings[i..][0] == happenings[i] && happenings[i..][1..] == happenings[i + 1..];
        OneHappening(consumers, runners, happenings[i..], attempted, sent);
        var ended := React(happenings[i]);
        if ended.Some? {
          return ended.value;
        }
      }
      return Clean;
    }

    /** A stream on which nothing more happens. */
    lemma Nothing(rest: seq<Happening>)
      requires Valid() && rest == []
      ensures EndOf(rest) == Clean && !SaysCaughtUp(rest) && Announced(rest) == []
      ensures forall a: seq<Checkpoint<T>> :: |a| == |consumers| ==> Produced(consumers, a, rest) == []
      ensures forall k, cp :: 0 <= k < |consumers| ==> After(consumers[k], cp, rest, k) == cp
    {
    }

    /** Subscribe from the least cursor and process the stream. */
    method Connect(happenings: seq<Happening>) returns (end: End)
      requires Valid()
      requires orderly ==> Waiting() && Feeds(model.log, FirstWanted(model.log, runners), happenings)
      modifies this`runners, this`files, this`attempted, this`dispatched, this`deadLetters, this`sent,
               this`caughtUp, this`requests, this`settled, this`model, disk, outlet
      ensures Valid() && end == EndOf(happenings) && Handled(happenings)
      ensures forall k :: 0 <= k < |consumers| ==>
                && runners[k] == AdvanceAll(consumers[k], old(runners[k]), Handed(happenings, k)).0
                && old(runners[k]).cursor <= runners[k].cursor
      ensures |requests| == |old(requests)| + 1 && old(requests) <= requests
      ensures requests[|requests| - 1] == LiveSystem.From(LiveRefinement.Lowest(old(runners), |consumers|))
      ensures forall k :: 0 <= k < |consumers| ==> requests[|requests| - 1] <= runners[k].cursor
      ensures sent == old(sent) + Announced(happenings)
      ensures attempted == old(attempted) + Produced(consumers, old(runners), happenings)
      ensures caughtUp == (old(caughtUp) || SaysCaughtUp(happenings))
      ensures end.Stopped? ==> Saved()
      ensures orderly ==>
                model.log == old(model.log)
                && if end.Stopped? then model.phase.Stopped? else model.phase.Streaming?
    {
      hide After, Produced, Announced, Handed, LiveRefinement.Alive, Saved, Accounted;
      var from := MinGlobalPosition();
      requests := requests + [from];
      if orderly {
        model := LiveRefinement.ConnectAt(consumers, model);
      }
      end := ProcessStream(happenings);
      forall k | 0 <= k < |consumers|
        ensures runners[k] == AdvanceAll(consumers[k], old(runners[k]), Handed(happenings, k)).0
        ensures old(runners[k]).cursor <= runners[k].cursor
      {
        AfterIsAdvanceAll(consumers[k], old(runners[k]), happenings, k);
      }
    }

    /** One turn of the outer loop; true when it returns. */
    method Turn(session: Session) returns (stopped: bool)
      requires Valid() && (orderly ==> Waiting() && FeedsIn(model.log, runners, session))
      modifies this, disk, outlet
      ensures Valid() && (stopped || session.Connected? ==> Saved())
      ensures stopped <==> Returns(session)
      ensures session.Refused? ==> stopped == session.quit && requests == old(requests)
      ensures session.Refused? && !stopped ==> backoff == Min(old(backoff) * 2, max)
      ensures session.Connected? && !stopped ==>
                backoff == if !StaysOpen(session.happenings) then Min(old(backoff) * 2, max)
                           else if caughtUp then base else old(backoff)
      ensures session.Connected? ==>
                && sent == old(sent) + Announced(session.happenings)
                && attempted == old(attempted) + Produced(consumers, old(runners), session.happenings)
                && forall k :: 0 <= k < |consumers| ==>
                     runners[k] == AdvanceAll(consumers[k], old(runners[k]), Handed(session.happenings, k)).0
      ensures backoff == if stopped then old(backoff)
                         else if !EndsCleanly(session) then Min(old(backoff) * 2, max)
                         else if caughtUp then base else old(backoff)
      ensures caughtUp == (old(caughtUp) || (session.Connected? && SaysCaughtUp(session.happenings)))
      ensures runners == AfterIn(consumers, old(runners), session)
      ensures sent == old(sent) + AnnouncedIn(session)
      ensures attempted == old(attempted) + ProducedIn(consumers, old(runners), session)
      ensures forall k :: 0 <= k < |consumers| ==>
                && runners[k] == AdvanceAll(consumers[k], old(runners[k]), HandedIn(session, k)).0
                && old(runners[k]).cursor <= runners[k].cursor
      ensures old(requests) <= requests && |requests| == |old(requests)| + if session.Connected? then 1 else 0
      ensures forall i, k :: |old(requests)| <= i < |requests| && 0 <= k < |consumers| ==>
                requests[i] <= runners[k].cursor
      ensures orderly ==> model.log == old(model.log) && if stopped then model.phase.Stopped? else Waiting()
    {
      hide After, Produced, Announced, Handed, EndOf, SaysCaughtUp, Feeds, Accounted, Follows, LiveRefinement.Lowest,
           Saved, StaysOpen;
      if session.Connected? {
        EndsExactlyWhen(session.happenings);
      }
      match session {
        case Quit =>
          Leave();
          return true;
        case Refused(quit) =>
          if quit {
            Leave();
            return true;
          }
          backoff := Min(backoff * 2, max);
          return false;
        case Connected(happenings, quit) =>
          stopped := Attend(happenings, quit);
      }
    }

    /** The stream is gone, the loop goes on. */
    ghost method Disconnect()
      requires Valid() && (orderly ==> model.phase.Streaming?)
      modifies this`model
      ensures Valid() && (orderly ==> model.log == old(model.log) && Waiting())
    {
      hide Accounted, LiveRefinement.Alive;
      if orderly {
        model := LiveRefinement.Reconnect(consumers, model);
      }
    }

    /** The loop returns. */
    ghost method Quit()
      requires Valid() && (orderly ==> !model.phase.Stopped?)
      modifies this`model
      ensures Valid() && (orderly ==> model.log == old(model.log) && model.phase.Stopped?)
    {
      hide Accounted, LiveRefinement.Alive;
      if orderly {
        model := LiveRefinement.End(consumers, model);
      }
    }

    /** A connection and what follows its end. */
    method Attend(happenings: seq<Happening>, quit: bool) returns (stopped: bool)
      requires Valid()
      requires orderly ==> Waiting() && Feeds(model.log, FirstWanted(model.log, runners), happenings)
      modifies this, disk, outlet
      ensures Valid() && Handled(happenings) && Saved()
      ensures stopped <==> Returns(Connected(happenings, quit))
      ensures backoff == if stopped then old(backoff)
                         else if !EndOf(happenings).Clean? then Min(old(backoff) * 2, max)
                         else if caughtUp then base else old(backoff)
      ensures caughtUp == (old(caughtUp) || SaysCaughtUp(happenings))
      ensures sent == old(sent) + Announced(happenings)
      ensures attempted == old(attempted) + Produced(consumers, old(runners), happenings)
      ensures forall k :: 0 <= k < |consumers| ==>
                && runners[k] == AdvanceAll(consumers[k], old(runners[k]), Handed(happenings, k)).0
                && old(runners[k]).cursor <= runners[k].cursor
      ensures |requests| == |old(requests)| + 1 && old(requests) <= requests
      ensures forall k :: 0 <= k < |consumers| ==> requests[|requests| - 1] <= runners[k].cursor
      ensures orderly ==> model.log == old(model.log) && if stopped then model.phase.Stopped? else Waiting()
    {
      hide After, Produced, Announced, Handed, EndOf, SaysCaughtUp, Feeds, AdvanceAll, Accounted, LiveRefinement.Alive,
           LiveRefinement.Lowest;
      hide Follows, Saved;
      var end := Connect(happenings);
      if end.Stopped? {
        return true;
      }
      SaveAllCheckpoints();
      if end.Error? && quit {
        Quit();
        return true;
      }
      Disconnect();
      if end.Error? {
        backoff := Min(backoff * 2, max);
      } else if caughtUp {
        backoff := base;
      }
      return false;
    }

    /**
     * The outer loop over a script of sessions. Every return leaves every file
     * equal to memory if the disk works, also a shutdown in the middle of an
     * event or of a backoff; the delay is the closed form of the failures since
     * the last reset; the loop returns in the first session with a shutdown, be it
     * before connecting, in a backoff sleep or while a stream is open; no
     * connection ever asked for more than a runner needed; envelopes and
     * announcements are those of the sessions, in order; and the loop ends in a
     * reachable state of the transition system (`Valid`).
     */
    method Run(sessions: seq<Session>) returns (stopped: bool, ghost turns: nat)
      requires Valid() && !caughtUp && backoff == base && requests == []
      requires orderly ==> Waiting() && FeedsOver(consumers, model.log, runners, sessions)
      modifies this, disk, outlet
      ensures Valid() && turns <= |sessions| && (stopped <==> turns < |sessions|)
      ensures forall i :: 0 <= i < |sessions| && i <= turns ==>
                (i == turns <==>
                 match sessions[i]
                 case Quit => true
                 case Refused(quit) => quit
                 case Connected(happenings, quit) =>
                   exists j :: 0 <= j < |happenings| && StaysOpen(happenings[..j])
                               && (happenings[j].Shutdown? || happenings[j].Interrupted?
                                   || (quit && happenings[j] == Received(Failure))))
      ensures stopped ==> Saved() && (disk.works ==> Flushed())
      ensures backoff == Capped(base, max, Failures(sessions[..turns]))
      ensures !stopped ==> caughtUp == EverCaughtUp(sessions)
      ensures forall k :: 0 <= k < |consumers| ==>
                runners[k] == AdvanceAll(consumers[k], old(runners[k]),
                                         HandedOver(sessions[..if stopped then turns + 1 else turns], k)).0
      ensures attempted == old(attempted) + ProducedOver(consumers, old(runners), sessions)
      ensures sent == old(sent) + AnnouncedOver(sessions)
      ensures forall i, k :: 0 <= i < |requests| && 0 <= k < |consumers| ==> requests[i] <= runners[k].cursor
      ensures orderly ==> model.log == old(model.log) && if stopped then model.phase.Stopped? else Waiting()
    {
      hide StaysOpen, AfterIn, ProducedIn, AnnouncedIn, FeedsIn, HandedIn, Follows, Accounted, EndsCleanly,
           Returns, SaysCaughtUp, Saved, ProducedOver, AnnouncedOver, FeedsOver, HandedOver, Failures,
           EverCaughtUp, Capped, AdvanceAll;
      NoSession(consumers, sessions[..0]);
      NoSession(consumers, sessions[|sessions|..]);
      NothingHanded();
      for i := 0 to |sessions|
        invariant Valid() && forall j :: 0 <= j < i ==> !Returns(sessions[j])
        invariant backoff == Capped(base, max, Failures(sessions[..i]))
        invariant caughtUp == EverCaughtUp(sessions[..i])
        invariant forall k :: 0 <= k < |consumers| ==>
                    runners[k] == AdvanceAll(consumers[k], old(runners[k]), HandedOver(sessions[..i], k)).0
        invariant attempted + ProducedOver(consumers, runners, sessions[i..])
               == old(attempted) + ProducedOver(consumers, old(runners), sessions)
        invariant sent + AnnouncedOver(sessions[i..]) == old(sent) + AnnouncedOver(sessions)
        invariant forall j, k :: 0 <= j < |requests| && 0 <= k < |consumers| ==> requests[j] <= runners[k].cursor
        invariant orderly ==>
                    model.log == old(model.log) && Waiting() && FeedsOver(consumers, model.log, runners, sessions[i..])
      {
        assert sessions[i..][0] == sessions[i] && sessions[i..][1..] == sessions[i + 1..];
        OneSession(consumers, runners, sessions[i..], attempted, sent);
        stopped := Turn(sessions[i]);
        CaughtUpSoFar(sessions, i);
        BackoffSoFar(base, max, sessions, i);
        forall k | 0 <= k < |consumers|
          ensures runners[k] == AdvanceAll(consumers[k], old(runners[k]), HandedOver(sessions[..i + 1], k)).0
        {
          HandedOneMore(sessions, i, k);
          AdvanceConcat(consumers[k], old(runners[k]), HandedOver(sessions[..i], k), HandedIn(sessions[i], k));
        }
        if stopped {
          ReturnsFirst(sessions, i);
          SavedIsFlushed();
          return true, i;
        }
      }
      assert sessions[..|sessions|] == sessions;
      ReturnsFirst(sessions, |sessions|);
      return false, |sessions|;
    }

    lemma SavedIsFlushed()
      requires Saved()
      ensures disk.works ==> Flushed()
    {
    }

    lemma NothingHanded()
      ensures forall k, cp :: 0 <= k < |consumers| ==> AdvanceAll(consumers[k], cp, []).0 == cp
      ensures Capped(base, max, 0) == base
    {
    }

    /** What the transition system's results say of the loop, at every point where it is valid. */
    lemma Guaranteed(k: nat)
      requires Valid() && orderly && k < |consumers|
      ensures runners[k] == Pass(consumers[k], model.log, Behind(model.log, runners[k].cursor))
      ensures files[k].Some? ==> Correct(consumers[k], model.log, files[k].value)
      ensures |model.base| == |consumers| && model.base[k] <= Behind(model.log, runners[k].cursor)
      ensures var waiting := LiveSystem.Of(k, LiveSystem.Queue(model.phase));
              && LiveSystem.Of(k, attempted) + waiting
                 == Emitted(consumers[k], model.log, model.base[k], Behind(model.log, runners[k].cursor))
              && (files[k].Some? && waiting != [] ==>
                    Behind(model.log, files[k].value.cursor) <= LiveSystem.InFlight(model.phase) + 1)
      ensures forall i, j :: 0 <= i < j < |sent| && |consumers| > 0 ==> sent[i] < sent[j]
    {
      hide AdvanceAll, Advance;
      var run, steps :| LiveSystem.Run(consumers, run, steps) && run[|steps|] == model;
      LiveSystem.LiveExactlyOnce(consumers, run, steps, |steps|, k);
      LiveSystem.BoundedLag(consumers, run, steps, |steps|, k);
      LiveSystem.ReachableSent(consumers, run, steps, |steps|);
      assert model.attempted[model.mark..] == attempted;
    }
  }
}
