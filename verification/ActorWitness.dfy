/**
 * What goes wrong when an actor that has seen no event saves a snapshot
 * (`stream_version.unwrap_or(0)`): runs of the actor system that
 * serializability excludes through `Seasoned`.
 */
module ActorWitness {
  import opened Prelude
  import opened Codec
  import opened Aggregates
  import opened Streams
  import opened ActorSystem

  /** Reachable by the code's own steps, early saves included. */
  ghost predicate Reaches<S(!new), C(!new), E(!new), X>(a: Aggregate<S, C, E, X>, s: System<S, C, E>) {
    exists run: seq<System<S, C, E>>, steps: seq<Step<S, C, E>> :: Behaves(a, run, steps) && run[|steps|] == s
  }

  lemma Start<S(!new), C(!new), E(!new), X>(a: Aggregate<S, C, E, X>)
    ensures Reaches(a, Initial<S, C, E>())
  {
    var run: seq<System<S, C, E>> := [Initial()];
    assert Behaves(a, run, []) && run[0] == Initial();
  }

  lemma Take<S(!new), C(!new), E(!new), X>(a: Aggregate<S, C, E, X>, s: System<S, C, E>, t: System<S, C, E>,
                                           step: Step<S, C, E>) returns (next: System<S, C, E>)
    requires Reaches(a, s) && Next(a, s, t, step)
    ensures next == t && Reaches(a, t)
  {
    next := t;
    var run: seq<System<S, C, E>>, steps: seq<Step<S, C, E>> :| Behaves(a, run, steps) && run[|steps|] == s;
    var run', steps' := run + [t], steps + [step];
    forall i | 0 <= i < |steps'| ensures Linked(a, run', steps', i) {
      if i < |steps| {
        assert Linked(a, run, steps, i);
      }
    }
    assert Behaves(a, run', steps') && run'[|steps'|] == t;
  }

  /** An actor was spawned on the empty stream, did nothing, and saved version 0 on its way out. */
  function Abandoned<S, C, E, X>(a: Aggregate<S, C, E, X>): System<S, C, E> {
    Initial<S, C, E>().(snapshots := [Snapshot(a.initial, 0)])
  }

  lemma AbandonedIsReachable<S(!new), C(!new), E(!new), X>(a: Aggregate<S, C, E, X>)
    ensures Reaches(a, Abandoned(a))
  {
    Start(a);
    var s: System<S, C, E> := Initial();
    assert Piece([], 0, 0) == [];
    s := Take(a, s, s.(actors := map[0 := Actor(a.initial, None, Idle)]), Spawn(0, None, 0));
    assert s.actors - {0} == map[];
    s := Take(a, s, Abandoned(a), Exit(0, true));
  }

  // ---------- A stream that can no longer be started ----------

  /** Nothing on the stream, and everyone expects something to be there. */
  ghost predicate Stuck<S, C, E>(s: System<S, C, E>) {
    && s.stream == []
    && (forall id :: id in s.actors ==> s.actors[id].version.Some?)
    && (forall call :: call in s.channel ==>
          !s.channel[call].Landed? && (s.channel[call].Asked? ==> s.channel[call].request.expected.Exact?))
  }

  /** Only Execute calls, and every actor starts from a snapshot file. */
  predicate FromSnapshots<S, C, E>(step: Step<S, C, E>) {
    !step.Inject? && !step.Post? && (step.Spawn? ==> step.snapshot.Some?)
  }

  lemma StuckStays<S, C, E, X>(a: Aggregate<S, C, E, X>, s: System<S, C, E>, t: System<S, C, E>, step: Step<S, C, E>)
    requires Stuck(s) && Next(a, s, t, step) && FromSnapshots(step)
    ensures Stuck(t)
    ensures forall call :: call in t.verdicts && t.verdicts[call].Succeeded? ==>
              call in s.verdicts && s.verdicts[call].Succeeded?
  {
    hide Spawns, Decides, Lands, Hears, Rereads, StateOf;
    match step
    case Spawn(id, snapshot, count) => StuckSpawns(a, s, t, id, snapshot, count);
    case Decide(id, ctx, protos) => StuckDecides(a, s, t, id, ctx, protos);
    case Land(call, records) => StuckLands(s, t, call, records);
    case Hear(id) => StuckHears(a, s, t, id);
    case Reread(id, count) => StuckRereads(a, s, t, id, count);
    case _ =>
  }

  lemma StuckSpawns<S, C, E, X>(a: Aggregate<S, C, E, X>, s: System<S, C, E>, t: System<S, C, E>, id: nat,
                                snapshot: Option<Snapshot<S>>, count: nat)
    requires Stuck(s) && Spawns(a, s, t, id, snapshot, count) && snapshot.Some?
    ensures Stuck(t) && t.verdicts == s.verdicts
  {
    hide Replay;
  }

  lemma StuckLands<S, C, E>(s: System<S, C, E>, t: System<S, C, E>, call: nat, records: seq<Recorded>)
    requires Stuck(s) && Lands(s, t, call, records)
    ensures Stuck(t) && t.verdicts == s.verdicts
  {
    hide RecordsAll, Numbered;
  }

  lemma StuckHears<S, C, E, X>(a: Aggregate<S, C, E, X>, s: System<S, C, E>, t: System<S, C, E>, id: nat)
    requires Stuck(s) && Hears(a, s, t, id)
    ensures Stuck(t) && t.verdicts == s.verdicts
  {
    hide ApplyAll;
  }

  lemma StuckRereads<S, C, E, X>(a: Aggregate<S, C, E, X>, s: System<S, C, E>, t: System<S, C, E>, id: nat, count: nat)
    requires Stuck(s) && Rereads(a, s, t, id, count)
    ensures Stuck(t)
    ensures forall call :: call in t.verdicts && t.verdicts[call].Succeeded? ==>
              call in s.verdicts && s.verdicts[call].Succeeded?
  {
    hide Replay;
    assert Piece(s.stream, Seen(s.actors[id].version), count) == [];
  }

  lemma StuckDecides<S, C, E, X>(a: Aggregate<S, C, E, X>, s: System<S, C, E>, t: System<S, C, E>, id: nat,
                                 ctx: Context, protos: seq<ProtoEvent>)
    requires Stuck(s) && Decides(a, s, t, id, ctx, protos)
    ensures Stuck(t)
    ensures forall call :: call in t.verdicts && t.verdicts[call].Succeeded? ==>
              call in s.verdicts && s.verdicts[call].Succeeded?
  {
    hide Encodes;
  }

  /**
   * From the abandoned instance on, however many actors are spawned from its
   * snapshot and whatever they are asked, the first event is never written and
   * no command ever succeeds.
   */
  lemma {:induction false} NeverStarts<S, C, E, X>(a: Aggregate<S, C, E, X>, run: seq<System<S, C, E>>,
                                                   steps: seq<Step<S, C, E>>, i: nat)
    requires |run| == |steps| + 1 && run[0] == Abandoned(a) && Chain(a, run, steps) && i < |run|
    requires forall k :: 0 <= k < |steps| ==> FromSnapshots(steps[k])
    ensures Stuck(run[i]) && run[i].stream == []
    ensures forall call :: call in run[i].verdicts ==> !run[i].verdicts[call].Succeeded?
  {
    if i > 0 {
      NeverStarts(a, run, steps, i - 1);
      assert Linked(a, run, steps, i - 1);
      StuckStays(a, run[i - 1], run[i], steps[i - 1]);
    }
  }

  // ---------- A command decided on a state that never was ----------

  /** Another client wrote the first event; an actor started from the early snapshot skips it for good. */
  lemma SkipsFirstEvent<S(!new), C(!new), E(!new), X>(a: Aggregate<S, C, E, X>, p: ProtoEvent, r: Recorded)
    returns (s: System<S, C, E>)
    requires Records(p, r) && r.version == 0
    ensures Reaches(a, s) && s.stream == [r] && s.nextCall == 1 && 1 !in s.channel
    ensures 1 in s.actors && s.actors[1] == Actor(a.initial, Some(0), Idle)
  {
    AbandonedIsReachable(a);
    s := Abandoned(a);
    var request: Request<C, E> := Request(Any, [p], Injected);
    s := Take(a, s, s.(channel := map[0 := Asked(request)], asked := multiset{0}, nextCall := 1), Post(Any, [p]));
    s := Take(a, s, s.(stream := [r], blocks := [Block(0, Injected, 0, [r])], landed := {0},
                       channel := map[0 := Landed(0)]), Land(0, [r]));
    assert Piece([r], 1, 0) == [];
    s := Take(a, s, s.(actors := map[1 := Actor(a.initial, Some(0), Idle)]), Spawn(1, Some(Snapshot(a.initial, 0)), 0));
  }

  /** Whoever saves before it has seen an event saves the initial state as version 0. */
  lemma UnseasonedSaveIsEarly<S(!new), C(!new), E(!new), X>(a: Aggregate<S, C, E, X>, s: System<S, C, E>,
                                                            t: System<S, C, E>, id: nat)
    requires Reaches(a, s) && Next(a, s, t, Exit(id, true)) && s.actors[id].version.None?
    ensures Reaches(a, t) && Snapshot(a.initial, 0) in t.snapshots
  {
    hide CacheInv;
    var run: seq<System<S, C, E>>, steps: seq<Step<S, C, E>> :| Behaves(a, run, steps) && run[|steps|] == s;
    ReachableCaches(a, run, steps, |steps|);
    var next := Take(a, s, t, Exit(id, true));
    EarlySnapshot(a, s, t, id);
  }

  lemma EarlySnapshot<S, C, E, X>(a: Aggregate<S, C, E, X>, s: System<S, C, E>, t: System<S, C, E>, id: nat)
    requires CacheInv(a, s) && Exits(s, t, id, true) && s.actors[id].version.None?
    ensures Snapshot(a.initial, 0) in t.snapshots
  {
    assert Cached(a, s.channel, s.actors[id]);
    assert t.snapshots[|s.snapshots|] == Snapshot(a.initial, 0);
  }

  /**
   * From any reachable state with such a snapshot and a stream that is no longer
   * empty: an actor started from it can pass the version check with a command
   * decided without event 0, whenever that event matters to the decision. The
   * block on the stream is then not what the command decides on the prefix before
   * it.
   */
  lemma DecidesOnStaleState<S(!new), C(!new), E(!new), X>(
      a: Aggregate<S, C, E, X>, s: System<S, C, E>, id: nat, cmd: C, ctx: Context,
      events: seq<E>, protos: seq<ProtoEvent>, records: seq<Recorded>)
    returns (t: System<S, C, E>)
    requires Reaches(a, s) && Snapshot(a.initial, 0) in s.snapshots && s.stream != [] && id !in s.actors
    requires a.handle(Replay(a, a.initial, s.stream[1..]), cmd) == Ok(events) && events != []
    requires a.handle(StateOf(a, s.stream), cmd) != Ok(events)
    requires Encodes(a, ctx, events, protos) && RecordsAll(protos, records) && Numbered(s.stream + records)
    ensures Reaches(a, t) && t.stream == s.stream + records && t.blocks != []
    ensures var b := t.blocks[|t.blocks| - 1];
            && b.source == Command(cmd, events) && b.at == |s.stream|
            && a.handle(StateOf(a, t.stream[..b.at]), cmd) != Ok(events)
  {
    hide Reaches, Replay, StateOf, Encodes, RecordsAll, Next;
    var n := |s.stream|;
    assert Numbered(s.stream) by {
      assert forall i :: 0 <= i < n ==> s.stream[i] == (s.stream + records)[i];
    }
    t := EarlyActor(a, s, id);
    t := Ordered(a, t, id, cmd);
    EncodableEvents(a, ctx, events, protos);
    t := Sent(a, t, id, ctx, events, protos);
    RecordsLand(a, ctx, events, protos, records);
    t := Taken(a, t, s.nextCall, records);
    assert t.stream[..n] == s.stream;
  }

  /** An actor is spawned from the early snapshot and reads all that follows. */
  lemma EarlyActor<S(!new), C(!new), E(!new), X>(a: Aggregate<S, C, E, X>, s: System<S, C, E>, id: nat)
    returns (t: System<S, C, E>)
    requires Reaches(a, s) && Snapshot(a.initial, 0) in s.snapshots && s.stream != [] && id !in s.actors
               && Numbered(s.stream)
    ensures Reaches(a, t)
    ensures t == s.(actors := s.actors[id := Actor(Replay(a, a.initial, s.stream[1..]), Some(|s.stream| - 1), Idle)])
  {
    hide Reaches, Replay;
    EarlySpawn(a, s.stream);
    var early := Actor(Replay(a, a.initial, s.stream[1..]), Some(|s.stream| - 1), Idle);
    t := Take(a, s, s.(actors := s.actors[id := early]), Spawn(id, Some(Snapshot(a.initial, 0)), |s.stream|));
  }

  lemma Ordered<S(!new), C(!new), E(!new), X>(a: Aggregate<S, C, E, X>, s: System<S, C, E>, id: nat, cmd: C)
    returns (t: System<S, C, E>)
    requires Reaches(a, s) && id in s.actors && s.actors[id].phase.Idle?
    ensures Reaches(a, t)
    ensures t == s.(actors := s.actors[id := s.actors[id].(phase := Deciding(Call(s.nextCall, cmd, 0)))],
                    received := s.received[s.nextCall := cmd], nextCall := s.nextCall + 1)
  {
    hide Reaches;
    t := Take(a, s, s.(actors := s.actors[id := s.actors[id].(phase := Deciding(Call(s.nextCall, cmd, 0)))],
                       received := s.received[s.nextCall := cmd], nextCall := s.nextCall + 1), Receive(id, cmd));
  }

  lemma Sent<S(!new), C(!new), E(!new), X>(a: Aggregate<S, C, E, X>, s: System<S, C, E>, id: nat, ctx: Context,
                                           events: seq<E>, protos: seq<ProtoEvent>) returns (t: System<S, C, E>)
    requires Reaches(a, s) && id in s.actors && s.actors[id].phase.Deciding?
    requires a.handle(s.actors[id].state, s.actors[id].phase.call.cmd) == Ok(events) && events != []
    requires Encodes(a, ctx, events, protos) && forall e :: e in events ==> a.serialize(e).Some?
    ensures Reaches(a, t)
    ensures var actor, call := s.actors[id], s.actors[id].phase.call;
            t == s.(actors := s.actors[id := actor.(phase := Awaiting(call, events))],
                    channel := s.channel[call.id := Asked(Request(Expect(actor.version), protos,
                        Command(call.cmd, events)))],
                    asked := s.asked + multiset{call.id})
  {
    hide Reaches, Encodes;
    var actor, call := s.actors[id], s.actors[id].phase.call;
    t := Take(a, s, s.(actors := s.actors[id := actor.(phase := Awaiting(call, events))],
                       channel := s.channel[call.id := Asked(Request(Expect(actor.version), protos,
                           Command(call.cmd, events)))],
                       asked := s.asked + multiset{call.id}), Decide(id, ctx, protos));
  }

  lemma Taken<S(!new), C(!new), E(!new), X>(a: Aggregate<S, C, E, X>, s: System<S, C, E>, call: nat,
                                            records: seq<Recorded>) returns (t: System<S, C, E>)
    requires Reaches(a, s) && call in s.channel && s.channel[call].Asked?
    requires Accepts(s.channel[call].request.expected, |s.stream|) && records != []
    requires RecordsAll(s.channel[call].request.protos, records) && Numbered(s.stream + records)
    ensures Reaches(a, t)
    ensures t == s.(stream := s.stream + records,
                    blocks := s.blocks + [Block(call, s.channel[call].request.source, |s.stream|, records)],
                    landed := s.landed + {call}, channel := s.channel[call := Landed(|s.stream| + |records| - 1)])
  {
    hide Reaches, RecordsAll, Numbered;
    t := Take(a, s, s.(stream := s.stream + records,
                       blocks := s.blocks + [Block(call, s.channel[call].request.source, |s.stream|, records)],
                       landed := s.landed + {call}, channel := s.channel[call := Landed(|s.stream| + |records| - 1)]),
              Land(call, records));
  }

  /** What such an actor reads on its start. */
  lemma EarlySpawn<S, C, E, X>(a: Aggregate<S, C, E, X>, stream: seq<Recorded>)
    requires stream != [] && Numbered(stream)
    ensures Piece(stream, 1, |stream|) == stream[1..]
    ensures VersionAfter(Some(0), stream[1..]) == Some(|stream| - 1)
  {
  }

  lemma EncodableEvents<S, C, E, X>(a: Aggregate<S, C, E, X>, ctx: Context, events: seq<E>, protos: seq<ProtoEvent>)
    requires Encodes(a, ctx, events, protos)
    ensures forall e :: e in events ==> a.serialize(e).Some?
  {
    assert forall i :: 0 <= i < |events| ==> EncodesOne(a, ctx, events[i], protos[i]);
  }

  lemma RecordsLand<S, C, E, X>(a: Aggregate<S, C, E, X>, ctx: Context, events: seq<E>, protos: seq<ProtoEvent>,
                                records: seq<Recorded>)
    requires Encodes(a, ctx, events, protos) && RecordsAll(protos, records) && events != []
    ensures records != []
  {
  }

  // ---------- A refusal that is out of date ----------

  /**
   * A command may be refused, or do nothing, although the whole stream would have
   * it append: the actor decides on what it has seen and asks the server nothing.
   * All snapshots are good in this run; there are none.
   */
  lemma RefusesOnStaleState<S(!new), C(!new), E(!new), X>(a: Aggregate<S, C, E, X>, p: ProtoEvent, r: Recorded, cmd: C,
                                                          ctx: Context)
    returns (s: System<S, C, E>)
    requires Records(p, r) && r.version == 0
    requires a.handle(a.initial, cmd).Err? || a.handle(a.initial, cmd) == Ok([])
    ensures Reaches(a, s) && s.stream == [r] && s.snapshots == [] && 1 in s.verdicts
    ensures s.received == map[1 := cmd]
    ensures s.verdicts[1] == if a.handle(a.initial, cmd).Err? then Rejected else NoOp
    ensures a.handle(StateOf(a, s.stream), cmd) == a.handle(ApplyOne(a, a.initial, r), cmd)
  {
    Start(a);
    s := Initial();
    assert Piece([], 0, 0) == [];
    s := Take(a, s, s.(actors := map[0 := Actor(a.initial, None, Idle)]), Spawn(0, None, 0));
    var request: Request<C, E> := Request(Any, [p], Injected);
    s := Take(a, s, s.(channel := map[0 := Asked(request)], asked := multiset{0}, nextCall := 1), Post(Any, [p]));
    s := Take(a, s, s.(stream := [r], blocks := [Block(0, Injected, 0, [r])], landed := {0},
                       channel := map[0 := Landed(0)]), Land(0, [r]));
    s := Take(a, s, s.(actors := map[0 := Actor(a.initial, None, Deciding(Call(1, cmd, 0)))], received := map[1 := cmd],
                       nextCall := 2), Receive(0, cmd));
    var verdict: Verdict<E> := if a.handle(a.initial, cmd).Err? then Rejected else NoOp;
    s := Take(a, s, s.(actors := map[0 := Actor(a.initial, None, Idle)], verdicts := map[1 := verdict]),
              Decide(0, ctx, []));
    assert StateOf(a, [r]) == ApplyOne(a, Replay(a, a.initial, [r][..0]), r);
  }
}
