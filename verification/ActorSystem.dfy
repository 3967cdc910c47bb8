/**
 * Any number of actors, injectors and other clients on one stream, with
 * requests and replies in flight: the transition system behind src/actor.rs.
 *
 * A request is checked by the server when it lands, which may be long after
 * the sender gave up on it. Nothing makes an actor the only one of its
 * instance: two handles may be spawned for one id (src/store.rs, `get`).
 */
module ActorSystem {
  import opened Prelude
  import opened Codec
  import opened Aggregates
  import opened Streams

  /** Why a block is on the stream. Anything not decided by an Execute is injected. */
  datatype Source<C, E> = Command(cmd: C, events: seq<E>) | Injected

  datatype Block<C, E> = Block(call: nat, source: Source<C, E>, at: nat, records: seq<Recorded>)

  datatype Request<C, E> = Request(expected: Expected, protos: seq<ProtoEvent>, source: Source<C, E>)

  /** What is under way between a caller and the server. */
  datatype Packet<C, E> = Asked(request: Request<C, E>) | Landed(last: nat) | Refused

  /** One Execute call in progress: how often it has been refused so far. */
  datatype Call<C> = Call(id: nat, cmd: C, refusals: nat)

  datatype Phase<C, E> =
    | Idle
    | Deciding(call: Call<C>)
    | Awaiting(call: Call<C>, events: seq<E>)
    | Rereading(call: Call<C>)
    | Injecting(id: nat)
    | RereadingInjection

  datatype Actor<S, C, E> = Actor(state: S, version: Option<nat>, phase: Phase<C, E>)

  /** What the caller was told. */
  datatype Verdict<E> = Succeeded(events: seq<E>) | NoOp | Rejected | Unencodable | Exhausted | Lost

  /**
   * `received` holds the command of every Execute call, `asked` how many append
   * requests each call has put on the channel.
   */
  datatype System<S, C, E> = System(
    stream: seq<Recorded>,
    blocks: seq<Block<C, E>>,
    actors: map<nat, Actor<S, C, E>>,
    landed: set<nat>,
    channel: map<nat, Packet<C, E>>,
    verdicts: map<nat, Verdict<E>>,
    received: map<nat, C>,
    asked: multiset<nat>,
    snapshots: seq<Snapshot<S>>,
    nextCall: nat)

  datatype Step<S, C, E> =
    | Spawn(id: nat, snapshot: Option<Snapshot<S>>, count: nat)
    | Receive(id: nat, cmd: C)
    | Decide(id: nat, ctx: Context, protos: seq<ProtoEvent>)
    | Land(call: nat, records: seq<Recorded>)
    | Drop(call: nat)
    | Hear(id: nat)
    | GiveUp(id: nat)
    | Reread(id: nat, count: nat)
    | FailReread(id: nat)
    | Inject(id: nat, proto: ProtoEvent)
    | Post(expected: Expected, protos: seq<ProtoEvent>)
    | Exit(id: nat, saved: bool)
    | Crash(id: nat)

  /** The first `count` events after `from`: what a read returns. */
  function Piece(stream: seq<Recorded>, from: nat, count: nat): seq<Recorded> {
    var tail := Tail(stream, from);
    if count <= |tail| then tail[..count] else tail
  }

  /** The call an actor is busy with. */
  function Busy<C, E>(phase: Phase<C, E>): Option<nat> {
    match phase
    case Deciding(call) => Some(call.id)
    case Awaiting(call, _) => Some(call.id)
    case Rereading(call) => Some(call.id)
    case Injecting(id) => Some(id)
    case _ => None
  }

  ghost predicate Next<S, C, E, X>(a: Aggregate<S, C, E, X>, s: System<S, C, E>, t: System<S, C, E>,
                                   step: Step<S, C, E>) {
    match step
    case Spawn(id, snapshot, count) => Spawns(a, s, t, id, snapshot, count)
    case Receive(id, cmd) => Receives(s, t, id, cmd)
    case Decide(id, ctx, protos) => Decides(a, s, t, id, ctx, protos)
    case Land(call, records) => Lands(s, t, call, records)
    case Drop(call) => t == s.(channel := s.channel - {call})
    case Hear(id) => Hears(a, s, t, id)
    case GiveUp(id) => GivesUp(s, t, id)
    case Reread(id, count) => Rereads(a, s, t, id, count)
    case FailReread(id) => FailsReread(s, t, id)
    case Inject(id, proto) => Injects(s, t, id, proto)
    case Post(expected, protos) => Posts(s, t, expected, protos)
    case Exit(id, saved) => Exits(s, t, id, saved)
    case Crash(id) => t == s.(actors := s.actors - {id})
  }

  /** From any snapshot ever saved, or none; the catch-up read may stop early. */
  ghost predicate Spawns<S, C, E, X>(a: Aggregate<S, C, E, X>, s: System<S, C, E>, t: System<S, C, E>, id: nat,
                                     snapshot: Option<Snapshot<S>>, count: nat)
  {
    var events := Piece(s.stream, Seen(StartVersion(snapshot)), count);
    && id !in s.actors
    && (snapshot.Some? ==> snapshot.value in s.snapshots)
    && t == s.(actors := s.actors[id := Actor(Replay(a, StartState(a, snapshot), events),
                                               VersionAfter(StartVersion(snapshot), events), Idle)])
  }

  ghost predicate Receives<S, C, E>(s: System<S, C, E>, t: System<S, C, E>, id: nat, cmd: C) {
    && id in s.actors && s.actors[id].phase.Idle?
    && t == s.(actors := s.actors[id := s.actors[id].(phase := Deciding(Call(s.nextCall, cmd, 0)))],
               received := s.received[s.nextCall := cmd], nextCall := s.nextCall + 1)
  }

  ghost predicate Decides<S, C, E, X>(a: Aggregate<S, C, E, X>, s: System<S, C, E>, t: System<S, C, E>, id: nat,
                                      ctx: Context, protos: seq<ProtoEvent>)
  {
    && id in s.actors && s.actors[id].phase.Deciding?
    && var actor := s.actors[id];
       var call := actor.phase.call;
       var decision := a.handle(actor.state, call.cmd);
       if decision.Err? then t == Finish(s, id, call.id, Rejected)
       else if decision.value == [] then t == Finish(s, id, call.id, NoOp)
       else if exists e :: e in decision.value && a.serialize(e).None? then t == Finish(s, id, call.id, Unencodable)
       else
         && Encodes(a, ctx, decision.value, protos)
         && t == s.(actors := s.actors[id := actor.(phase := Awaiting(call, decision.value))],
                    channel := s.channel[call.id := Asked(Request(Expect(actor.version), protos,
                        Command(call.cmd, decision.value)))],
                    asked := s.asked + multiset{call.id})
  }

  /** The server takes a request: the version check and the append are one step. */
  ghost predicate Lands<S, C, E>(s: System<S, C, E>, t: System<S, C, E>, call: nat, records: seq<Recorded>) {
    && call in s.channel && s.channel[call].Asked?
    && var request := s.channel[call].request;
       if Accepts(request.expected, |s.stream|) then
         && RecordsAll(request.protos, records) && records != []
         && Numbered(s.stream + records)
         && t == s.(stream := s.stream + records,
                    blocks := s.blocks + [Block(call, request.source, |s.stream|, records)],
                    landed := s.landed + {call},
                    channel := s.channel[call := Landed(|s.stream| + |records| - 1)])
       else
         t == s.(channel := s.channel[call := Refused])
  }

  ghost predicate Hears<S, C, E, X>(a: Aggregate<S, C, E, X>, s: System<S, C, E>, t: System<S, C, E>, id: nat) {
    && id in s.actors && (s.actors[id].phase.Awaiting? || s.actors[id].phase.Injecting?)
    && var actor := s.actors[id];
       var call := Busy(actor.phase).value;
       && call in s.channel && !s.channel[call].Asked?
       && var heard := s.(channel := s.channel - {call});
          if actor.phase.Injecting? then
            t == heard.(actors := s.actors[id := actor.(phase := if s.channel[call].Landed? then RereadingInjection
                else Idle)])
          else if s.channel[call].Landed? then
            t == heard.(actors := s.actors[id := Actor(ApplyAll(a, actor.state, actor.phase.events),
                                                       Some(s.channel[call].last), Idle)],
                        verdicts := s.verdicts[call := Succeeded(actor.phase.events)])
          else
            t == heard.(actors := s.actors[id := actor.(phase := Rereading(actor.phase.call))])
  }

  /** A transport error: the request may be lost, still under way, or answered already. */
  ghost predicate GivesUp<S, C, E>(s: System<S, C, E>, t: System<S, C, E>, id: nat) {
    && id in s.actors
    && ((s.actors[id].phase.Awaiting? && t == Finish(s, id, s.actors[id].phase.call.id, Lost))
        || (s.actors[id].phase.Injecting? && t == s.(actors := s.actors[id := s.actors[id].(phase := Idle)])))
  }

  ghost predicate Rereads<S, C, E, X>(a: Aggregate<S, C, E, X>, s: System<S, C, E>, t: System<S, C, E>, id: nat,
                                      count: nat) {
    && id in s.actors && (s.actors[id].phase.Rereading? || s.actors[id].phase.RereadingInjection?)
    && var actor := s.actors[id];
       var events := Piece(s.stream, Seen(actor.version), count);
       var caughtUp := actor.(state := Replay(a, actor.state, events), version := VersionAfter(actor.version, events));
       if actor.phase.RereadingInjection? then t == s.(actors := s.actors[id := caughtUp.(phase := Idle)])
       else
         var call := actor.phase.call.(refusals := actor.phase.call.refusals + 1);
         if call.refusals < MAX_RETRIES then t == s.(actors := s.actors[id := caughtUp.(phase := Deciding(call))])
         else t == Finish(s.(actors := s.actors[id := caughtUp]), id, call.id, Exhausted)
  }

  ghost predicate FailsReread<S, C, E>(s: System<S, C, E>, t: System<S, C, E>, id: nat) {
    && id in s.actors
    && ((s.actors[id].phase.Rereading? && t == Finish(s, id, s.actors[id].phase.call.id, Lost))
        || (s.actors[id].phase.RereadingInjection? && t == s.(actors := s.actors[id := s.actors[id].(phase := Idle)])))
  }

  ghost predicate Injects<S, C, E>(s: System<S, C, E>, t: System<S, C, E>, id: nat, proto: ProtoEvent) {
    && id in s.actors && s.actors[id].phase.Idle?
    && t == s.(actors := s.actors[id := s.actors[id].(phase := Injecting(s.nextCall))],
               channel := s.channel[s.nextCall := Asked(Request(Any, [proto], Injected))],
               asked := s.asked + multiset{s.nextCall}, nextCall := s.nextCall + 1)
  }

  /** `AggregateStore::inject_event`, or any other client of the server. */
  ghost predicate Posts<S, C, E>(s: System<S, C, E>, t: System<S, C, E>, expected: Expected, protos: seq<ProtoEvent>) {
    && protos != []
    && t == s.(channel := s.channel[s.nextCall := Asked(Request(expected, protos, Injected))],
               asked := s.asked + multiset{s.nextCall}, nextCall := s.nextCall + 1)
  }

  ghost predicate Exits<S, C, E>(s: System<S, C, E>, t: System<S, C, E>, id: nat, saved: bool) {
    && id in s.actors && s.actors[id].phase.Idle?
    && t == s.(actors := s.actors - {id},
               snapshots := if saved then s.snapshots + [SnapshotOf(s.actors[id].state, s.actors[id].version)]
                            else s.snapshots)
  }

  function Finish<S, C, E>(s: System<S, C, E>, id: nat, call: nat, verdict: Verdict<E>): System<S, C, E>
    requires id in s.actors
  {
    s.(actors := s.actors[id := s.actors[id].(phase := Idle)], verdicts := s.verdicts[call := verdict])
  }

  function Initial<S, C, E>(): System<S, C, E> {
    System([], [], map[], {}, map[], map[], map[], multiset{}, [], 0)
  }

  /** No actor saves a snapshot before it has seen an event, unless the first event changes nothing. */
  ghost predicate Seasoned<S, C, E, X>(a: Aggregate<S, C, E, X>, s: System<S, C, E>, step: Step<S, C, E>) {
    step.Exit? && step.saved && step.id in s.actors ==>
      s.actors[step.id].version.Some? || (s.stream != [] && ApplyOne(a, a.initial, s.stream[0]) == a.initial)
  }

  /** A run of the code: states linked by steps, starting with nothing written. */
  ghost predicate Behaves<S, C, E, X>(a: Aggregate<S, C, E, X>, run: seq<System<S, C, E>>, steps: seq<Step<S, C, E>>) {
    && |run| == |steps| + 1
    && run[0] == Initial()
    && Chain(a, run, steps)
  }

  ghost predicate Chain<S, C, E, X>(a: Aggregate<S, C, E, X>, run: seq<System<S, C, E>>, steps: seq<Step<S, C, E>>)
    requires |run| == |steps| + 1
  {
    forall i :: 0 <= i < |steps| ==> Linked(a, run, steps, i)
  }

  ghost predicate Linked<S, C, E, X>(a: Aggregate<S, C, E, X>, run: seq<System<S, C, E>>,
                                     steps: seq<Step<S, C, E>>, i: nat)
    requires |run| == |steps| + 1 && i < |steps|
  {
    Next(a, run[i], run[i + 1], steps[i])
  }

  /** A run in which every saved snapshot is seasoned. */
  ghost predicate Run<S, C, E, X>(a: Aggregate<S, C, E, X>, run: seq<System<S, C, E>>, steps: seq<Step<S, C, E>>) {
    && Behaves(a, run, steps)
    && forall i :: 0 <= i < |steps| ==> Seasoned(a, run[i], steps[i])
  }

  // ---------- What every reachable system satisfies ----------

  /** The reference: execute the commands and injections one at a time, in the order they landed. */
  function Sequential<S, C, E, X>(a: Aggregate<S, C, E, X>, blocks: seq<Block<C, E>>): S {
    if blocks == [] then a.initial
    else
      var before := Sequential(a, blocks[..|blocks| - 1]);
      var last := blocks[|blocks| - 1];
      match last.source
      case Command(cmd, _) => Perform(a, before, cmd)
      case Injected => Replay(a, before, last.records)
  }

  function Perform<S, C, E, X>(a: Aggregate<S, C, E, X>, s: S, cmd: C): S {
    match a.handle(s, cmd)
    case Ok(events) => ApplyAll(a, s, events)
    case Err(_) => s
  }

  /** The block is where it says, and a command's block is its decision on everything before it. */
  ghost predicate Justified<S, C, E, X>(a: Aggregate<S, C, E, X>, stream: seq<Recorded>, b: Block<C, E>) {
    && b.at + |b.records| <= |stream|
    && stream[b.at..b.at + |b.records|] == b.records
    && (b.source.Command? ==>
          && b.source.events != []
          && a.handle(StateOf(a, stream[..b.at]), b.source.cmd) == Ok(b.source.events)
          && DecodesTo(a, b.records, b.source.events))
  }

  /** The blocks cut the stream into consecutive pieces. */
  ghost predicate Tiled<C, E>(stream: seq<Recorded>, blocks: seq<Block<C, E>>) {
    && (forall i :: 0 <= i < |blocks| ==>
       blocks[i].at == if i == 0 then 0 else blocks[i - 1].at + |blocks[i - 1].records|)
    && |stream| == if blocks == [] then 0 else blocks[|blocks| - 1].at + |blocks[|blocks| - 1].records|
  }

  ghost predicate StreamInv<S, C, E, X>(a: Aggregate<S, C, E, X>, s: System<S, C, E>) {
    && Numbered(s.stream)
    && Tiled(s.stream, s.blocks)
    && (forall i :: 0 <= i < |s.blocks| ==> Justified(a, s.stream, s.blocks[i]))
    && Sequential(a, s.blocks) == StateOf(a, s.stream)
  }

  /** A command in flight was decided on the prefix its expected version names. */
  ghost predicate Sound<S, C, E, X>(a: Aggregate<S, C, E, X>, stream: seq<Recorded>, r: Request<C, E>) {
    && r.protos != []
    && (r.source.Command? ==>
          exists version: Option<nat>, ctx: Context ::
            && r.expected == Expect(version)
            && Seen(version) <= |stream|
            && r.source.events != []
            && a.handle(StateOf(a, stream[..Seen(version)]), r.source.cmd) == Ok(r.source.events)
            && Encodes(a, ctx, r.source.events, r.protos))
  }

  ghost predicate ChannelInv<S, C, E, X>(a: Aggregate<S, C, E, X>, s: System<S, C, E>) {
    forall call :: call in s.channel && s.channel[call].Asked? ==> Sound(a, s.stream, s.channel[call].request)
  }

  ghost predicate SnapshotInv<S, C, E, X>(a: Aggregate<S, C, E, X>, s: System<S, C, E>) {
    forall snapshot :: snapshot in s.snapshots ==> GoodSnapshot(a, s.stream, snapshot)
  }

  /** A waiting actor decided on its own cache; what is under way for it is that decision, or its landing. */
  ghost predicate WaitInv<S, C, E, X>(a: Aggregate<S, C, E, X>, stream: seq<Recorded>, actor: Actor<S, C, E>,
                                      packet: Packet<C, E>)
    requires actor.phase.Awaiting?
  {
    match packet
    case Asked(request) =>
      request.expected == Expect(actor.version) && request.source == Command(actor.phase.call.cmd, actor.phase.events)
    case Landed(last) =>
      var from := Seen(actor.version);
      && from + |actor.phase.events| == last + 1 <= |stream|
      && DecodesTo(a, stream[from..last + 1], actor.phase.events)
    case Refused => true
  }

  ghost predicate ActorInv<S, C, E, X>(a: Aggregate<S, C, E, X>, stream: seq<Recorded>, channel: map<nat, Packet<C, E>>,
                                       actor: Actor<S, C, E>)
  {
    && AtPrefix(a, stream, actor.state, actor.version)
    && (actor.phase.Awaiting? ==>
          && actor.phase.events != []
          && a.handle(actor.state, actor.phase.call.cmd) == Ok(actor.phase.events)
          && (actor.phase.call.id in channel ==> WaitInv(a, stream, actor, channel[actor.phase.call.id])))
  }

  ghost predicate ActorsInv<S, C, E, X>(a: Aggregate<S, C, E, X>, s: System<S, C, E>) {
    forall id :: id in s.actors ==> ActorInv(a, s.stream, s.channel, s.actors[id])
  }

  ghost predicate DataInv<S, C, E, X>(a: Aggregate<S, C, E, X>, s: System<S, C, E>) {
    StreamInv(a, s) && ChannelInv(a, s) && SnapshotInv(a, s) && ActorsInv(a, s)
  }

  // ---------- Calls: at most one block each ----------

  /** Nothing of this call is on the stream or under way. */
  predicate Untouched<S, C, E>(s: System<S, C, E>, call: nat) {
    call !in s.channel && call !in s.landed
  }

  ghost predicate LedgerInv<S, C, E>(s: System<S, C, E>) {
    && (forall i :: 0 <= i < |s.blocks| ==> s.blocks[i].call in s.landed)
    && (forall i, j :: 0 <= i < j < |s.blocks| ==> s.blocks[i].call != s.blocks[j].call)
    && (forall call :: call in s.landed ==>
       call < s.nextCall && exists i :: 0 <= i < |s.blocks| && s.blocks[i].call == call)
  }

  ghost predicate PacketInv<S, C, E>(s: System<S, C, E>) {
    forall call :: call in s.channel ==> call < s.nextCall && (s.channel[call].Landed? <==> call in s.landed)
  }

  ghost predicate BusyInv<S, C, E>(s: System<S, C, E>) {
    forall id :: id in s.actors && Busy(s.actors[id].phase).Some? ==>
      var call := Busy(s.actors[id].phase).value;
      && call < s.nextCall
      && call !in s.verdicts
      && (s.actors[id].phase.Deciding? || s.actors[id].phase.Rereading? ==> Untouched(s, call))
  }

  /** No two actors are busy with one call. */
  ghost predicate Apart<S, C, E>(actors: map<nat, Actor<S, C, E>>) {
    forall i, j :: i in actors && j in actors && i != j && Busy(actors[i].phase).Some? ==>
      Busy(actors[i].phase) != Busy(actors[j].phase)
  }

  /** What the caller was told is what happened. */
  ghost predicate VerdictInv<S, C, E>(s: System<S, C, E>) {
    forall call :: call in s.verdicts ==>
      && call < s.nextCall
      && (match s.verdicts[call]
          case Succeeded(_) => call in s.landed && call !in s.channel
          case Lost => true
          case _ => Untouched(s, call))
  }

  ghost predicate CallInv<S, C, E>(s: System<S, C, E>) {
    PacketInv(s) && BusyInv(s) && Apart(s.actors) && VerdictInv(s)
  }

  // ---------- Preservation ----------

  lemma SpawnKeeps<S, C, E, X>(a: Aggregate<S, C, E, X>, s: System<S, C, E>, t: System<S, C, E>, id: nat,
                               snapshot: Option<Snapshot<S>>, count: nat)
    requires DataInv(a, s) && Spawns(a, s, t, id, snapshot, count)
    ensures DataInv(a, t)
  {
    var version := StartVersion(snapshot);
    assert AtPrefix(a, s.stream, StartState(a, snapshot), version);
    ReadKeepsPrefix(a, s.stream, StartState(a, snapshot), version, Piece(s.stream, Seen(version), count));
  }

  /** A decision on a cache at a prefix is sound for that prefix. */
  lemma DecisionIsSound<S, C, E, X>(a: Aggregate<S, C, E, X>, stream: seq<Recorded>, state: S,
                                    version: Option<nat>, ctx: Context, r: Request<C, E>)
    requires AtPrefix(a, stream, state, version) && r.expected == Expect(version) && r.source.Command?
    requires r.source.events != [] && a.handle(state, r.source.cmd) == Ok(r.source.events)
    requires Encodes(a, ctx, r.source.events, r.protos)
    ensures Sound(a, stream, r)
  {
  }

  lemma OthersAreApart<S, C, E>(s: System<S, C, E>, id: nat)
    requires CallInv(s) && id in s.actors && Busy(s.actors[id].phase).Some?
    ensures forall other :: other in s.actors && other != id ==> Busy(s.actors[other].phase) != Busy(s.actors[id].phase)
  {
  }

  lemma DecideKeeps<S, C, E, X>(a: Aggregate<S, C, E, X>, s: System<S, C, E>, t: System<S, C, E>, id: nat, ctx: Context,
                                protos: seq<ProtoEvent>)
    requires DataInv(a, s) && CallInv(s) && Decides(a, s, t, id, ctx, protos)
    ensures DataInv(a, t)
  {
    hide StateOf, ApplyAll, Encodes, Sound, Tiled, Justified, Sequential, CallInv;
    var actor := s.actors[id];
    var call := actor.phase.call.id;
    assert ActorInv(a, s.stream, s.channel, actor);
    CallInHand(s, id);
    OthersAreApart(s, id);
    if call in t.channel {
      DecisionIsSound(a, s.stream, actor.state, actor.version, ctx, t.channel[call].request);
    }
    forall other | other in t.actors ensures ActorInv(a, t.stream, t.channel, t.actors[other]) {
      assert ActorInv(a, s.stream, s.channel, s.actors[other]);
    }
  }

  /** Folding in the decided events moves the cache past the block that landed. */
  lemma HearLanding<S, C, E, X>(a: Aggregate<S, C, E, X>, stream: seq<Recorded>, actor: Actor<S, C, E>, last: nat)
    requires AtPrefix(a, stream, actor.state, actor.version)
    requires actor.phase.Awaiting? && actor.phase.events != [] && WaitInv(a, stream, actor, Landed(last))
    ensures AtPrefix(a, stream, ApplyAll(a, actor.state, actor.phase.events), Some(last))
  {
    var from := Seen(actor.version);
    ReplayDecoded(a, actor.state, stream[from..last + 1], actor.phase.events);
    StateOfExtends(a, stream, from, last + 1);
  }

  lemma HearKeeps<S, C, E, X>(a: Aggregate<S, C, E, X>, s: System<S, C, E>, t: System<S, C, E>, id: nat)
    requires DataInv(a, s) && Hears(a, s, t, id)
    ensures DataInv(a, t)
  {
    var actor := s.actors[id];
    assert ActorInv(a, s.stream, s.channel, actor);
    var packet := s.channel[Busy(actor.phase).value];
    if actor.phase.Awaiting? && packet.Landed? {
      HearLanding(a, s.stream, actor, packet.last);
    }
    assert ActorInv(a, t.stream, t.channel, t.actors[id]);
    forall other | other in t.actors && other != id ensures ActorInv(a, t.stream, t.channel, t.actors[other]) {
      assert ActorInv(a, s.stream, s.channel, s.actors[other]);
    }
  }

  lemma PieceOfTail(stream: seq<Recorded>, from: nat, count: nat)
    ensures Piece(stream, from, count) <= Tail(stream, from)
  {
  }

  lemma StreamIsNumbered<S, C, E, X>(a: Aggregate<S, C, E, X>, s: System<S, C, E>)
    requires StreamInv(a, s)
    ensures Numbered(s.stream)
  {
  }

  lemma RereadKeeps<S, C, E, X>(a: Aggregate<S, C, E, X>, s: System<S, C, E>, t: System<S, C, E>, id: nat, count: nat)
    requires DataInv(a, s) && Rereads(a, s, t, id, count)
    ensures DataInv(a, t)
  {
    hide Tiled, Justified, Sequential, Sound, StateOf, Replay, Piece, WaitInv;
    PieceOfTail(s.stream, Seen(s.actors[id].version), count);
    assert Numbered(s.stream) by {
      StreamIsNumbered(a, s);
    }
    var actor := s.actors[id];
    ReadKeepsPrefix(a, s.stream, actor.state, actor.version, Piece(s.stream, Seen(actor.version), count));
  }

  lemma PostKeeps<S, C, E, X>(a: Aggregate<S, C, E, X>, s: System<S, C, E>, t: System<S, C, E>, expected: Expected,
                              protos: seq<ProtoEvent>)
    requires DataInv(a, s) && CallInv(s) && Posts(s, t, expected, protos)
    ensures DataInv(a, t)
  {
    forall id | id in t.actors ensures ActorInv(a, t.stream, t.channel, t.actors[id]) {
      assert ActorInv(a, s.stream, s.channel, s.actors[id]);
    }
  }

  lemma InjectKeeps<S, C, E, X>(a: Aggregate<S, C, E, X>, s: System<S, C, E>, t: System<S, C, E>, id: nat,
                                proto: ProtoEvent)
    requires DataInv(a, s) && CallInv(s) && Injects(s, t, id, proto)
    ensures DataInv(a, t)
  {
    forall other | other in t.actors ensures ActorInv(a, t.stream, t.channel, t.actors[other]) {
      assert ActorInv(a, s.stream, s.channel, s.actors[other]);
    }
  }

  /** An accepted command found the stream exactly as long as the prefix it was decided on. */
  lemma LandingIsJustified<S, C, E(!new), X>(a: Aggregate<S, C, E, X>, stream: seq<Recorded>, r: Request<C, E>,
                                             records: seq<Recorded>)
    requires Faithful(a) && Sound(a, stream, r) && Accepts(r.expected, |stream|) && RecordsAll(r.protos, records)
    requires r.source.Command?
    ensures a.handle(StateOf(a, stream), r.source.cmd) == Ok(r.source.events) && r.source.events != []
    ensures DecodesTo(a, records, r.source.events)
  {
    var version: Option<nat>, ctx: Context :|
      && r.expected == Expect(version)
      && Seen(version) <= |stream|
      && r.source.events != []
      && a.handle(StateOf(a, stream[..Seen(version)]), r.source.cmd) == Ok(r.source.events)
      && Encodes(a, ctx, r.source.events, r.protos);
    assert stream[..Seen(version)] == stream;
    BlockRoundTrip(a, ctx, r.source.events, r.protos, records);
  }

  lemma JustifiedGrows<S, C, E, X>(a: Aggregate<S, C, E, X>, stream: seq<Recorded>, grown: seq<Recorded>,
                                   b: Block<C, E>)
    requires Justified(a, stream, b) && stream <= grown
    ensures Justified(a, grown, b)
  {
    assert grown[..b.at] == stream[..b.at];
    assert grown[b.at..b.at + |b.records|] == stream[b.at..b.at + |b.records|];
  }

  /** One more block, justified on the whole stream, and the reference run takes one more step. */
  lemma BlockExtends<S, C, E, X>(a: Aggregate<S, C, E, X>, stream: seq<Recorded>, blocks: seq<Block<C, E>>,
                                 b: Block<C, E>)
    requires Sequential(a, blocks) == StateOf(a, stream) && b.at == |stream|
    requires b.source.Command? ==>
               && b.source.events != []
               && a.handle(StateOf(a, stream), b.source.cmd) == Ok(b.source.events)
               && DecodesTo(a, b.records, b.source.events)
    ensures Justified(a, stream + b.records, b)
    ensures Sequential(a, blocks + [b]) == StateOf(a, stream + b.records)
  {
    assert (blocks + [b])[..|blocks|] == blocks;
    assert (stream + b.records)[..|stream|] == stream;
    assert (stream + b.records)[|stream|..|stream| + |b.records|] == b.records;
    ReplayConcat(a, a.initial, stream, b.records);
    if b.source.Command? {
      ReplayDecoded(a, StateOf(a, stream), b.records, b.source.events);
    }
  }

  lemma LandKeepsStream<S, C, E(!new), X>(a: Aggregate<S, C, E, X>, s: System<S, C, E>, t: System<S, C, E>, call: nat,
                                          records: seq<Recorded>)
    requires Faithful(a) && StreamInv(a, s) && ChannelInv(a, s) && Lands(s, t, call, records)
    ensures StreamInv(a, t)
  {
    var r := s.channel[call].request;
    if Accepts(r.expected, |s.stream|) {
      if r.source.Command? {
        LandingIsJustified(a, s.stream, r, records);
      }
      AppendKeepsStream(a, s, t, Block(call, r.source, |s.stream|, records));
    }
  }

  lemma AppendKeepsStream<S, C, E, X>(a: Aggregate<S, C, E, X>, s: System<S, C, E>, t: System<S, C, E>, b: Block<C, E>)
    requires StreamInv(a, s) && t.stream == s.stream + b.records && t.blocks == s.blocks + [b] && Numbered(t.stream)
    requires b.at == |s.stream|
    requires b.source.Command? ==>
               && b.source.events != []
               && a.handle(StateOf(a, s.stream), b.source.cmd) == Ok(b.source.events)
               && DecodesTo(a, b.records, b.source.events)
    ensures StreamInv(a, t)
  {
    BlockExtends(a, s.stream, s.blocks, b);
    forall i | 0 <= i < |s.blocks| ensures Justified(a, t.stream, s.blocks[i]) {
      JustifiedGrows(a, s.stream, t.stream, s.blocks[i]);
    }
  }

  lemma SoundGrows<S, C, E, X>(a: Aggregate<S, C, E, X>, stream: seq<Recorded>, grown: seq<Recorded>, r: Request<C, E>)
    requires Sound(a, stream, r) && stream <= grown
    ensures Sound(a, grown, r)
  {
    forall version: Option<nat> | Seen(version) <= |stream|
      ensures grown[..Seen(version)] == stream[..Seen(version)]
    {
    }
  }

  lemma WaitGrows<S, C, E, X>(a: Aggregate<S, C, E, X>, stream: seq<Recorded>, grown: seq<Recorded>,
                              actor: Actor<S, C, E>, packet: Packet<C, E>)
    requires actor.phase.Awaiting? && WaitInv(a, stream, actor, packet) && stream <= grown
    ensures WaitInv(a, grown, actor, packet)
  {
    if packet.Landed? {
      assert grown[Seen(actor.version)..packet.last + 1] == stream[Seen(actor.version)..packet.last + 1];
    }
  }

  /** The actor's own request landed: it landed right behind what the actor has seen. */
  lemma WaitLands<S, C, E(!new), X>(a: Aggregate<S, C, E, X>, stream: seq<Recorded>, records: seq<Recorded>,
                                    actor: Actor<S, C, E>, r: Request<C, E>)
    requires Faithful(a) && Sound(a, stream, r) && Accepts(r.expected, |stream|) && RecordsAll(r.protos, records)
    requires actor.phase.Awaiting? && WaitInv(a, stream, actor, Asked(r)) && records != []
    ensures WaitInv(a, stream + records, actor, Landed(|stream| + |records| - 1))
  {
    hide StateOf, Encodes;
    LandingIsJustified(a, stream, r, records);
    assert (stream + records)[Seen(actor.version)..|stream| + |records|] == records;
  }

  lemma LandKeepsActor<S, C, E(!new), X>(a: Aggregate<S, C, E, X>, s: System<S, C, E>, t: System<S, C, E>, call: nat,
                                         records: seq<Recorded>, actor: Actor<S, C, E>)
    requires Faithful(a) && ChannelInv(a, s) && Lands(s, t, call, records)
    requires ActorInv(a, s.stream, s.channel, actor)
    ensures ActorInv(a, t.stream, t.channel, actor)
  {
    hide Replay, StateOf, Encodes, DecodesTo, RecordsAll, Sound;
    GrowthKeepsPrefix(a, s.stream, t.stream, actor.state, actor.version);
    if actor.phase.Awaiting? && actor.phase.call.id in t.channel {
      var mine := actor.phase.call.id;
      if mine != call {
        WaitGrows(a, s.stream, t.stream, actor, s.channel[mine]);
      } else if t.channel[call].Landed? {
        WaitLands(a, s.stream, records, actor, s.channel[call].request);
      }
    }
  }

  lemma LandOnlyAppends<S, C, E>(s: System<S, C, E>, t: System<S, C, E>, call: nat, records: seq<Recorded>)
    requires Lands(s, t, call, records)
    ensures s.stream <= t.stream && t.actors == s.actors && t.snapshots == s.snapshots
    ensures forall other :: other in t.channel && t.channel[other].Asked? ==>
              other in s.channel && t.channel[other] == s.channel[other]
  {
  }

  lemma LandKeeps<S, C, E(!new), X>(a: Aggregate<S, C, E, X>, s: System<S, C, E>, t: System<S, C, E>, call: nat,
                                    records: seq<Recorded>)
    requires Faithful(a) && DataInv(a, s) && Lands(s, t, call, records)
    ensures DataInv(a, t)
  {
    hide Sound, ActorInv, StreamInv, AtPrefix, RecordsAll, Numbered, Accepts;
    LandOnlyAppends(s, t, call, records);
    LandKeepsStream(a, s, t, call, records);
    forall other | other in t.channel && t.channel[other].Asked? ensures Sound(a, t.stream, t.channel[other].request) {
      SoundGrows(a, s.stream, t.stream, s.channel[other].request);
    }
    forall snapshot | snapshot in t.snapshots ensures GoodSnapshot(a, t.stream, snapshot) {
      GrowthKeepsPrefix(a, s.stream, t.stream, snapshot.state, Some(snapshot.version));
    }
    forall id | id in t.actors ensures ActorInv(a, t.stream, t.channel, t.actors[id]) {
      LandKeepsActor(a, s, t, call, records, s.actors[id]);
    }
  }

  lemma LandKeepsCalls<S, C, E>(s: System<S, C, E>, t: System<S, C, E>, call: nat, records: seq<Recorded>)
    requires CallInv(s) && LedgerInv(s) && Lands(s, t, call, records)
    ensures CallInv(t) && LedgerInv(t)
  {
    if Accepts(s.channel[call].request.expected, |s.stream|) {
      assert forall i :: 0 <= i < |s.blocks| ==> t.blocks[i] == s.blocks[i];
      assert t.blocks[|s.blocks|].call == call;
    }
  }

  lemma LedgerStays<S, C, E>(s: System<S, C, E>, t: System<S, C, E>)
    requires LedgerInv(s) && t.blocks == s.blocks && t.landed == s.landed && s.nextCall <= t.nextCall
    ensures LedgerInv(t)
  {
  }

  lemma StillApart<S, C, E>(actors: map<nat, Actor<S, C, E>>, id: nat, actor: Actor<S, C, E>)
    requires Apart(actors)
    requires Busy(actor.phase).Some? ==>
               forall other :: other in actors && other != id ==> Busy(actors[other].phase) != Busy(actor.phase)
    ensures Apart(actors[id := actor])
  {
  }

  /** What is known of the call an actor is busy with. */
  lemma CallInHand<S, C, E>(s: System<S, C, E>, id: nat)
    requires CallInv(s) && id in s.actors && Busy(s.actors[id].phase).Some?
    ensures var call := Busy(s.actors[id].phase).value;
            && call < s.nextCall && call !in s.verdicts
            && (call in s.channel ==> (s.channel[call].Landed? <==> call in s.landed))
            && (s.actors[id].phase.Deciding? || s.actors[id].phase.Rereading? ==> Untouched(s, call))
  {
  }

  /** The call is where the phase says, and its answer, if there is one now, is what happened. */
  predicate Consistent<S, C, E>(s: System<S, C, E>, id: nat, call: nat)
    requires id in s.actors
  {
    && (call in s.channel ==> (s.channel[call].Landed? <==> call in s.landed))
    && (Busy(s.actors[id].phase).Some? ==> call !in s.verdicts)
    && (s.actors[id].phase.Deciding? || s.actors[id].phase.Rereading? ==> Untouched(s, call))
    && (call in s.verdicts ==>
          match s.verdicts[call]
          case Succeeded(_) => call in s.landed && call !in s.channel
          case Lost => true
          case _ => Untouched(s, call))
  }

  /** One actor moves on with its call, everything else stands still. */
  lemma CallMoves<S, C, E>(s: System<S, C, E>, t: System<S, C, E>, id: nat)
    requires CallInv(s) && id in s.actors && Busy(s.actors[id].phase).Some? && id in t.actors
    requires var call := Busy(s.actors[id].phase).value;
             && Consistent(t, id, call)
             && (Busy(t.actors[id].phase).None? || Busy(t.actors[id].phase) == Some(call))
             && t.channel - {call} == s.channel - {call} && t.verdicts - {call} == s.verdicts - {call}
    requires t.actors == s.actors[id := t.actors[id]] && t.landed == s.landed && t.nextCall == s.nextCall
    ensures CallInv(t)
  {
    var call := Busy(s.actors[id].phase).value;
    CallInHand(s, id);
    forall other | other != call
      ensures other in t.channel <==> other in s.channel
      ensures other in s.channel ==> t.channel[other] == s.channel[other]
      ensures other in t.verdicts <==> other in s.verdicts
      ensures other in s.verdicts ==> t.verdicts[other] == s.verdicts[other]
    {
      assert other in t.channel <==> other in t.channel - {call};
      assert other in s.channel <==> other in s.channel - {call};
      assert other in t.verdicts <==> other in t.verdicts - {call};
      assert other in s.verdicts <==> other in s.verdicts - {call};
      assert other in s.channel ==> (t.channel - {call})[other] == (s.channel - {call})[other];
      assert other in s.verdicts ==> (t.verdicts - {call})[other] == (s.verdicts - {call})[other];
    }
  }

  lemma DecideKeepsCalls<S, C, E, X>(a: Aggregate<S, C, E, X>, s: System<S, C, E>, t: System<S, C, E>, id: nat,
                                     ctx: Context, protos: seq<ProtoEvent>)
    requires CallInv(s) && Decides(a, s, t, id, ctx, protos)
    ensures CallInv(t)
  {
    hide CallInv, Encodes;
    CallInHand(s, id);
    CallMoves(s, t, id);
  }

  lemma HearKeepsCalls<S, C, E, X>(a: Aggregate<S, C, E, X>, s: System<S, C, E>, t: System<S, C, E>, id: nat)
    requires CallInv(s) && Hears(a, s, t, id)
    ensures CallInv(t)
  {
    hide CallInv, ApplyAll;
    CallInHand(s, id);
    CallMoves(s, t, id);
  }

  lemma RereadKeepsCalls<S, C, E, X>(a: Aggregate<S, C, E, X>, s: System<S, C, E>, t: System<S, C, E>, id: nat,
                                     count: nat)
    requires CallInv(s) && Rereads(a, s, t, id, count)
    ensures CallInv(t)
  {
    hide CallInv, Replay, Piece;
    if s.actors[id].phase.Rereading? {
      CallInHand(s, id);
      CallMoves(s, t, id);
    } else {
      IdleKeepsCalls(s, t, id);
    }
  }

  lemma EndKeepsCalls<S, C, E>(s: System<S, C, E>, t: System<S, C, E>, id: nat)
    requires CallInv(s) && (GivesUp(s, t, id) || FailsReread(s, t, id))
    ensures CallInv(t)
  {
    hide CallInv;
    if Busy(s.actors[id].phase).Some? {
      CallInHand(s, id);
      CallMoves(s, t, id);
    } else {
      IdleKeepsCalls(s, t, id);
    }
  }

  /** An actor without a call goes idle. */
  lemma IdleKeepsCalls<S, C, E>(s: System<S, C, E>, t: System<S, C, E>, id: nat)
    requires CallInv(s) && id in t.actors && t.actors[id].phase.Idle?
    requires t == s.(actors := s.actors[id := t.actors[id]])
    ensures CallInv(t)
  {
  }

  lemma NewCallKeepsCalls<S, C, E>(s: System<S, C, E>, t: System<S, C, E>, step: Step<S, C, E>)
    requires CallInv(s) && LedgerInv(s)
    requires match step
             case Receive(id, cmd) => Receives(s, t, id, cmd)
             case Inject(id, proto) => Injects(s, t, id, proto)
             case Post(expected, protos) => Posts(s, t, expected, protos)
             case _ => false
    ensures CallInv(t)
  {
    if !step.Post? {
      StillApart(s.actors, step.id, t.actors[step.id]);
    }
  }

  lemma ActorsComeAndGo<S, C, E, X>(a: Aggregate<S, C, E, X>, s: System<S, C, E>, t: System<S, C, E>,
                                    step: Step<S, C, E>)
    requires CallInv(s) && Next(a, s, t, step) && (step.Spawn? || step.Drop? || step.Exit? || step.Crash?)
    ensures CallInv(t)
  {
    hide Replay, Piece, StartState;
    if step.Spawn? {
      StillApart(s.actors, step.id, t.actors[step.id]);
    }
  }

  lemma StepKeepsCalls<S, C, E, X>(a: Aggregate<S, C, E, X>, s: System<S, C, E>, t: System<S, C, E>,
                                   step: Step<S, C, E>)
    requires CallInv(s) && LedgerInv(s) && Next(a, s, t, step)
    ensures CallInv(t)
  {
    hide Receives, Decides, Lands, Hears, GivesUp, Rereads, FailsReread, Injects, Posts, CallInv, LedgerInv;
    match step
    case Spawn(_, _, _) => ActorsComeAndGo(a, s, t, step);
    case Receive(_, _) => NewCallKeepsCalls(s, t, step);
    case Decide(id, ctx, protos) => DecideKeepsCalls(a, s, t, id, ctx, protos);
    case Land(call, records) => LandKeepsCalls(s, t, call, records);
    case Drop(_) => ActorsComeAndGo(a, s, t, step);
    case Hear(id) => HearKeepsCalls(a, s, t, id);
    case GiveUp(id) => EndKeepsCalls(s, t, id);
    case Reread(id, count) => RereadKeepsCalls(a, s, t, id, count);
    case FailReread(id) => EndKeepsCalls(s, t, id);
    case Inject(_, _) => NewCallKeepsCalls(s, t, step);
    case Post(_, _) => NewCallKeepsCalls(s, t, step);
    case Exit(_, _) => ActorsComeAndGo(a, s, t, step);
    case Crash(_) => ActorsComeAndGo(a, s, t, step);
  }

  lemma StepKeepsLedger<S, C, E, X>(a: Aggregate<S, C, E, X>, s: System<S, C, E>, t: System<S, C, E>,
                                    step: Step<S, C, E>)
    requires CallInv(s) && LedgerInv(s) && Next(a, s, t, step)
    ensures LedgerInv(t)
  {
    hide Replay, ApplyAll, Encodes, RecordsAll, Piece, StartState, CallInv, LedgerInv;
    if step.Land? {
      LandKeepsCalls(s, t, step.call, step.records);
    } else {
      assert t.blocks == s.blocks && t.landed == s.landed && s.nextCall <= t.nextCall;
      LedgerStays(s, t);
    }
  }

  /** Caches, snapshots and the stream stay; at most an actor stopped waiting, left, or a packet vanished. */
  lemma QuietKeeps<S, C, E, X>(a: Aggregate<S, C, E, X>, s: System<S, C, E>, t: System<S, C, E>)
    requires DataInv(a, s)
    requires t.stream == s.stream && t.blocks == s.blocks && t.snapshots == s.snapshots
    requires forall call :: call in t.channel ==> call in s.channel && t.channel[call] == s.channel[call]
    requires forall id :: id in t.actors ==> id in s.actors && KeepsCache(s.actors[id], t.actors[id])
    ensures DataInv(a, t)
  {
    forall id | id in t.actors ensures ActorInv(a, t.stream, t.channel, t.actors[id]) {
      assert KeepsCache(s.actors[id], t.actors[id]);
      assert ActorInv(a, s.stream, s.channel, s.actors[id]);
    }
  }

  lemma QuietStep<S, C, E, X>(a: Aggregate<S, C, E, X>, s: System<S, C, E>, t: System<S, C, E>, step: Step<S, C, E>)
    requires Next(a, s, t, step)
    requires step.Receive? || step.Drop? || step.GiveUp? || step.FailReread? || step.Crash?
    ensures t.stream == s.stream && t.blocks == s.blocks && t.snapshots == s.snapshots
    ensures forall call :: call in t.channel ==> call in s.channel && t.channel[call] == s.channel[call]
    ensures forall id :: id in t.actors ==> id in s.actors && KeepsCache(s.actors[id], t.actors[id])
  {
  }

  predicate KeepsCache<S(==), C(==), E(==)>(before: Actor<S, C, E>, after: Actor<S, C, E>) {
    after == before || (after.state == before.state && after.version == before.version && !after.phase.Awaiting?)
  }

  lemma ExitKeeps<S, C, E, X>(a: Aggregate<S, C, E, X>, s: System<S, C, E>, t: System<S, C, E>, id: nat, saved: bool)
    requires DataInv(a, s) && Exits(s, t, id, saved) && Seasoned(a, s, Exit(id, saved))
    ensures DataInv(a, t)
  {
    var actor := s.actors[id];
    assert ActorInv(a, s.stream, s.channel, actor);
    SavedSnapshotIsGood(a, s.stream, actor.state, actor.version);
    QuietKeeps(a, s, s.(actors := t.actors));
  }

  /** The condition is exact: a save that is not seasoned breaks the invariant there and then. */
  lemma SeasonedIsExact<S, C, E, X>(a: Aggregate<S, C, E, X>, s: System<S, C, E>, t: System<S, C, E>, id: nat)
    requires DataInv(a, s) && Next(a, s, t, Exit(id, true))
    ensures DataInv(a, t) <==> Seasoned(a, s, Exit(id, true))
    ensures SnapshotInv(a, t) <==> Seasoned(a, s, Exit(id, true))
  {
    var actor := s.actors[id];
    assert ActorInv(a, s.stream, s.channel, actor);
    SavedSnapshotIsGood(a, s.stream, actor.state, actor.version);
    if Seasoned(a, s, Exit(id, true)) {
      ExitKeeps(a, s, t, id, true);
    } else {
      assert SnapshotOf(actor.state, actor.version) in t.snapshots;
    }
  }

  lemma StepKeepsData<S, C, E(!new), X>(a: Aggregate<S, C, E, X>, s: System<S, C, E>, t: System<S, C, E>,
                                        step: Step<S, C, E>)
    requires Faithful(a) && DataInv(a, s) && CallInv(s) && Next(a, s, t, step) && Seasoned(a, s, step)
    ensures DataInv(a, t)
  {
    hide Spawns, Receives, Decides, Lands, Hears, GivesUp, Rereads, FailsReread, Injects, Posts, Exits, DataInv;
    match step
    case Spawn(id, snapshot, count) => SpawnKeeps(a, s, t, id, snapshot, count);
    case Decide(id, ctx, protos) => DecideKeeps(a, s, t, id, ctx, protos);
    case Land(call, records) => LandKeeps(a, s, t, call, records);
    case Hear(id) => HearKeeps(a, s, t, id);
    case Reread(id, count) => RereadKeeps(a, s, t, id, count);
    case Inject(id, proto) => InjectKeeps(a, s, t, id, proto);
    case Post(expected, protos) => PostKeeps(a, s, t, expected, protos);
    case Exit(id, saved) => ExitKeeps(a, s, t, id, saved);
    case _ =>
      QuietStep(a, s, t, step);
      QuietKeeps(a, s, t);
  }

  lemma {:induction false} Reachable<S, C, E(!new), X>(a: Aggregate<S, C, E, X>, run: seq<System<S, C, E>>,
                                                       steps: seq<Step<S, C, E>>, i: nat)
    requires Faithful(a) && Run(a, run, steps) && i < |run|
    ensures DataInv(a, run[i])
  {
    hide Next, CallInv, LedgerInv, Seasoned;
    if i > 0 {
      Reachable(a, run, steps, i - 1);
      ReachableCalls(a, run, steps, i - 1);
      assert Linked(a, run, steps, i - 1);
      StepKeepsData(a, run[i - 1], run[i], steps[i - 1]);
    }
  }

  lemma {:induction false} ReachableCalls<S, C, E, X>(a: Aggregate<S, C, E, X>, run: seq<System<S, C, E>>,
                                                      steps: seq<Step<S, C, E>>, i: nat)
    requires Behaves(a, run, steps) && i < |run|
    ensures CallInv(run[i]) && LedgerInv(run[i])
  {
    if i > 0 {
      ReachableCalls(a, run, steps, i - 1);
      assert Linked(a, run, steps, i - 1);
      StepKeepsCalls(a, run[i - 1], run[i], steps[i - 1]);
      StepKeepsLedger(a, run[i - 1], run[i], steps[i - 1]);
    }
  }

  // ---------- Calls: what they received, how often they asked, what they were told ----------

  /** The block of a call is the command it received; any other block is injected. */
  predicate Fits<C(==), E>(received: map<nat, C>, call: nat, source: Source<C, E>) {
    if call in received then source.Command? && source.cmd == received[call] else source.Injected?
  }

  predicate Received<S, C(==), E>(s: System<S, C, E>, call: Call<C>) {
    call.id in s.received && s.received[call.id] == call.cmd
  }

  /** What is under way or landed for this call has these events. */
  ghost predicate Awaited<S, C, E>(s: System<S, C, E>, call: nat, events: seq<E>) {
    && (call in s.channel && s.channel[call].Asked? && s.channel[call].request.source.Command? ==>
          s.channel[call].request.source.events == events)
    && (forall i :: 0 <= i < |s.blocks| && s.blocks[i].call == call && s.blocks[i].source.Command? ==>
          s.blocks[i].source.events == events)
  }

  ghost predicate Tracked<S, C, E>(s: System<S, C, E>, phase: Phase<C, E>) {
    match phase
    case Deciding(call) => Received(s, call) && s.asked[call.id] == call.refusals < MAX_RETRIES
    case Awaiting(call, events) =>
      Received(s, call) && s.asked[call.id] == call.refusals + 1 <= MAX_RETRIES && Awaited(s, call.id, events)
    case Rereading(call) => Received(s, call) && s.asked[call.id] == call.refusals + 1 <= MAX_RETRIES
    case Injecting(call) => call !in s.received
    case _ => true
  }

  ghost predicate Explained<S, C, E>(s: System<S, C, E>, call: nat, verdict: Verdict<E>) {
    && call in s.received
    && match verdict
       case Exhausted => s.asked[call] == MAX_RETRIES
       case Succeeded(events) => s.asked[call] >= 1 && Awaited(s, call, events)
       case Lost => s.asked[call] >= 1
       case _ => s.asked[call] < MAX_RETRIES
  }

  ghost predicate TraceInv<S, C, E>(s: System<S, C, E>) {
    && (forall call :: call in s.received ==> call < s.nextCall)
    && (forall call: nat :: s.asked[call] <= if call < s.nextCall then MAX_RETRIES else 0)
    && (forall call :: call in s.channel && s.channel[call].Asked? ==>
       Fits(s.received, call, s.channel[call].request.source))
    && (forall i :: 0 <= i < |s.blocks| ==> Fits(s.received, s.blocks[i].call, s.blocks[i].source))
    && (forall id :: id in s.actors ==> Tracked(s, s.actors[id].phase))
    && (forall call :: call in s.verdicts ==> Explained(s, call, s.verdicts[call]))
  }

  /** Nothing new about this call. */
  ghost predicate SameCall<S, C, E>(s: System<S, C, E>, t: System<S, C, E>, call: nat) {
    && (call in t.channel ==> call in s.channel && t.channel[call] == s.channel[call])
    && s.blocks <= t.blocks && (forall i :: |s.blocks| <= i < |t.blocks| ==> t.blocks[i].call != call)
    && t.asked[call] == s.asked[call]
    && (call in t.received <==> call in s.received)
    && (call in s.received ==> t.received[call] == s.received[call])
  }

  lemma SameTracked<S, C, E>(s: System<S, C, E>, t: System<S, C, E>, phase: Phase<C, E>)
    requires Tracked(s, phase) && (Busy(phase).Some? ==> SameCall(s, t, Busy(phase).value))
    ensures Tracked(t, phase)
  {
  }

  lemma SameExplained<S, C, E>(s: System<S, C, E>, t: System<S, C, E>, call: nat, verdict: Verdict<E>)
    requires Explained(s, call, verdict) && SameCall(s, t, call)
    ensures Explained(t, call, verdict)
  {
  }

  /** One actor moves on with its call, nothing lands, everything else stands still. */
  lemma MoveKeepsTrace<S, C, E>(s: System<S, C, E>, t: System<S, C, E>, id: nat, call: nat)
    requires CallInv(s) && TraceInv(s) && id in s.actors && Busy(s.actors[id].phase) == Some(call) && id in t.actors
    requires t.actors == s.actors[id := t.actors[id]] && t.blocks == s.blocks && t.received == s.received
               && t.nextCall == s.nextCall
    requires t.channel - {call} == s.channel - {call} && t.verdicts - {call} == s.verdicts - {call}
    requires forall other :: other != call ==> t.asked[other] == s.asked[other]
    requires t.asked[call] <= MAX_RETRIES && Tracked(t, t.actors[id].phase)
    requires call in t.channel && t.channel[call].Asked? ==> Fits(t.received, call, t.channel[call].request.source)
    requires call in t.verdicts ==> Explained(t, call, t.verdicts[call])
    ensures TraceInv(t)
  {
    hide Tracked, Explained, Fits;
    CallInHand(s, id);
    forall other | other != call
      ensures SameCall(s, t, other)
      ensures other in t.channel ==> other in s.channel && t.channel[other] == s.channel[other]
      ensures other in t.verdicts ==> other in s.verdicts && t.verdicts[other] == s.verdicts[other]
    {
      assert other in t.channel ==>
          other in s.channel - {call}
          && (t.channel - {call})[other] == (s.channel - {call})[other];
      assert other in t.verdicts ==>
          other in s.verdicts - {call}
          && (t.verdicts - {call})[other] == (s.verdicts - {call})[other];
    }
    forall other | other in t.actors ensures Tracked(t, t.actors[other].phase) {
      if other != id {
        SameTracked(s, t, t.actors[other].phase);
      }
    }
    forall other | other in t.verdicts ensures Explained(t, other, t.verdicts[other]) {
      if other != call {
        SameExplained(s, t, other, t.verdicts[other]);
      }
    }
  }

  lemma DecideKeepsTrace<S, C, E, X>(a: Aggregate<S, C, E, X>, s: System<S, C, E>, t: System<S, C, E>, id: nat,
                                     ctx: Context, protos: seq<ProtoEvent>)
    requires CallInv(s) && LedgerInv(s) && TraceInv(s) && Decides(a, s, t, id, ctx, protos)
    ensures TraceInv(t)
  {
    hide Encodes, CallInv, TraceInv;
    var call := s.actors[id].phase.call.id;
    CallInHand(s, id);
    TraceInHand(s, id);
    assert call < s.nextCall && forall i :: 0 <= i < |s.blocks| ==> s.blocks[i].call != call;
    MoveKeepsTrace(s, t, id, call);
  }

  lemma TraceInHand<S, C, E>(s: System<S, C, E>, id: nat)
    requires TraceInv(s) && id in s.actors
    ensures Tracked(s, s.actors[id].phase)
    ensures Busy(s.actors[id].phase).Some? ==>
              var call := Busy(s.actors[id].phase).value;
              && s.asked[call] <= MAX_RETRIES
              && (call in s.channel && s.channel[call].Asked? ==>
                 Fits(s.received, call, s.channel[call].request.source))
  {
  }

  lemma HearKeepsTrace<S, C, E, X>(a: Aggregate<S, C, E, X>, s: System<S, C, E>, t: System<S, C, E>, id: nat)
    requires CallInv(s) && TraceInv(s) && Hears(a, s, t, id)
    ensures TraceInv(t)
  {
    hide CallInv, TraceInv, ApplyAll;
    CallInHand(s, id);
    TraceInHand(s, id);
    MoveKeepsTrace(s, t, id, Busy(s.actors[id].phase).value);
  }

  /** The end of a wait or of a re-read. */
  lemma EndKeepsTrace<S, C, E, X>(a: Aggregate<S, C, E, X>, s: System<S, C, E>, t: System<S, C, E>, id: nat, count: nat)
    requires CallInv(s) && TraceInv(s)
    requires GivesUp(s, t, id) || FailsReread(s, t, id) || Rereads(a, s, t, id, count)
    ensures TraceInv(t)
  {
    hide CallInv, TraceInv, Replay, Piece;
    TraceInHand(s, id);
    if Busy(s.actors[id].phase).Some? {
      CallInHand(s, id);
      MoveKeepsTrace(s, t, id, Busy(s.actors[id].phase).value);
    } else {
      ActorsKeepTrace(s, t);
    }
  }

  /** Actors that are busy with nothing come and go, packets get lost. */
  lemma ActorsKeepTrace<S, C, E>(s: System<S, C, E>, t: System<S, C, E>)
    requires TraceInv(s) && t.blocks == s.blocks && t.received == s.received && t.asked == s.asked
               && t.nextCall == s.nextCall
    requires t.verdicts == s.verdicts
    requires forall call :: call in t.channel ==> call in s.channel && t.channel[call] == s.channel[call]
    requires forall id :: id in t.actors ==>
               Busy(t.actors[id].phase).None? || (id in s.actors && t.actors[id].phase == s.actors[id].phase)
    ensures TraceInv(t)
  {
    hide Tracked, Explained, Fits;
    forall id | id in t.actors ensures Tracked(t, t.actors[id].phase) {
      if Busy(t.actors[id].phase).Some? {
        SameTracked(s, t, t.actors[id].phase);
      } else {
        NothingToTrack(t, t.actors[id].phase);
      }
    }
    forall call | call in t.verdicts ensures Explained(t, call, t.verdicts[call]) {
      SameExplained(s, t, call, t.verdicts[call]);
    }
  }

  lemma NothingToTrack<S, C, E>(s: System<S, C, E>, phase: Phase<C, E>)
    requires Busy(phase).None?
    ensures Tracked(s, phase)
  {
  }

  /** A call nobody has heard of: received by an idle actor, or injected. */
  lemma NewCallKeepsTrace<S, C, E>(s: System<S, C, E>, t: System<S, C, E>, step: Step<S, C, E>)
    requires CallInv(s) && LedgerInv(s) && TraceInv(s)
    requires match step
             case Receive(id, cmd) => Receives(s, t, id, cmd)
             case Inject(id, proto) => Injects(s, t, id, proto)
             case Post(expected, protos) => Posts(s, t, expected, protos)
             case _ => false
    ensures TraceInv(t)
  {
    hide Explained, Fits, Tracked, TraceInv, CallInv, LedgerInv;
    var call := s.nextCall;
    NewCallIsNew(s);
    assert forall other :: other != call ==> SameCall(s, t, other);
    assert step.Receive? || (t.channel[call].request.source.Injected? && call !in t.received);
    forall id | id in t.actors ensures Tracked(t, t.actors[id].phase) {
      if id in s.actors && t.actors[id] == s.actors[id] {
        TraceInHand(s, id);
        SameTracked(s, t, t.actors[id].phase);
      } else {
        FreshTracked(t, t.actors[id].phase);
      }
    }
    forall other | other in t.verdicts ensures Explained(t, other, t.verdicts[other]) {
      VerdictInHand(s, other);
      SameExplained(s, t, other, t.verdicts[other]);
    }
    NewCallFits(s, t, call);
    assert forall other :: other in t.received ==> other < t.nextCall;
    assert forall other: nat :: t.asked[other] <= if other < t.nextCall then MAX_RETRIES else 0;
    TraceTogether(t);
  }

  lemma TraceTogether<S, C, E>(s: System<S, C, E>)
    requires forall call :: call in s.received ==> call < s.nextCall
    requires forall call: nat :: s.asked[call] <= if call < s.nextCall then MAX_RETRIES else 0
    requires forall call :: call in s.channel && s.channel[call].Asked? ==>
               Fits(s.received, call, s.channel[call].request.source)
    requires forall i :: 0 <= i < |s.blocks| ==> Fits(s.received, s.blocks[i].call, s.blocks[i].source)
    requires forall id :: id in s.actors ==> Tracked(s, s.actors[id].phase)
    requires forall call :: call in s.verdicts ==> Explained(s, call, s.verdicts[call])
    ensures TraceInv(s)
  {
  }

  /** A call nobody has made yet has left no trace. */
  lemma NewCallIsNew<S, C, E>(s: System<S, C, E>)
    requires CallInv(s) && LedgerInv(s) && TraceInv(s)
    ensures s.nextCall !in s.channel && s.nextCall !in s.received && s.asked[s.nextCall] == 0
    ensures forall i :: 0 <= i < |s.blocks| ==> s.blocks[i].call != s.nextCall
    ensures forall id :: id in s.actors ==> Busy(s.actors[id].phase) != Some(s.nextCall)
    ensures forall call :: call in s.received ==> call < s.nextCall
    ensures forall call: nat :: s.asked[call] <= if call < s.nextCall then MAX_RETRIES else 0
  {
  }

  lemma VerdictInHand<S, C, E>(s: System<S, C, E>, call: nat)
    requires CallInv(s) && TraceInv(s) && call in s.verdicts
    ensures call < s.nextCall && Explained(s, call, s.verdicts[call])
  {
  }

  lemma FreshTracked<S, C, E>(t: System<S, C, E>, phase: Phase<C, E>)
    requires match phase
             case Deciding(call) => Received(t, call) && call.refusals == 0 && t.asked[call.id] == 0
             case Injecting(call) => call !in t.received
             case _ => false
    ensures Tracked(t, phase)
  {
  }

  lemma NewCallFits<S, C, E>(s: System<S, C, E>, t: System<S, C, E>, call: nat)
    requires TraceInv(s) && call == s.nextCall && t.blocks == s.blocks
    requires t.received == s.received
               || (call in t.received && t.received - {call} == s.received && t.channel == s.channel)
    requires forall other :: other in t.channel && other != call ==>
               other in s.channel && t.channel[other] == s.channel[other]
    requires call in t.channel && t.channel[call].Asked? ==>
               t.channel[call].request.source.Injected? && call !in t.received
    requires forall i :: 0 <= i < |s.blocks| ==> s.blocks[i].call != call
    requires call !in s.channel
    ensures forall other :: other in t.channel && t.channel[other].Asked? ==>
              Fits(t.received, other, t.channel[other].request.source)
    ensures forall i :: 0 <= i < |t.blocks| ==> Fits(t.received, t.blocks[i].call, t.blocks[i].source)
  {
    assert forall other :: other != call ==> (other in t.received <==> other in s.received);
  }

  lemma LandKeepsTrace<S, C, E>(s: System<S, C, E>, t: System<S, C, E>, call: nat, records: seq<Recorded>)
    requires CallInv(s) && TraceInv(s) && Lands(s, t, call, records)
    ensures TraceInv(t)
  {
    hide Fits, RecordsAll, Numbered, Tracked, Explained;
    assert forall other :: other != call ==> SameCall(s, t, other);
    forall id | id in t.actors ensures Tracked(t, t.actors[id].phase) {
      if Busy(t.actors[id].phase) != Some(call) {
        SameTracked(s, t, t.actors[id].phase);
      } else {
        LandedTracked(s, t, call, records, t.actors[id].phase);
      }
    }
    forall other | other in t.verdicts ensures Explained(t, other, t.verdicts[other]) {
      if other != call {
        SameExplained(s, t, other, t.verdicts[other]);
      } else {
        LandedExplained(s, t, call, records);
      }
    }
  }

  lemma LandedTracked<S, C, E>(s: System<S, C, E>, t: System<S, C, E>, call: nat, records: seq<Recorded>,
                               phase: Phase<C, E>)
    requires Lands(s, t, call, records) && Tracked(s, phase) && Busy(phase) == Some(call)
    ensures Tracked(t, phase)
  {
    hide RecordsAll, Numbered;
  }

  lemma LandedExplained<S, C, E>(s: System<S, C, E>, t: System<S, C, E>, call: nat, records: seq<Recorded>)
    requires CallInv(s) && Lands(s, t, call, records) && call in s.verdicts && Explained(s, call, s.verdicts[call])
    ensures Explained(t, call, s.verdicts[call])
  {
    hide RecordsAll, Numbered, BusyInv, Apart;
  }

  lemma StepKeepsTrace<S, C, E, X>(a: Aggregate<S, C, E, X>, s: System<S, C, E>, t: System<S, C, E>,
                                   step: Step<S, C, E>)
    requires CallInv(s) && LedgerInv(s) && TraceInv(s) && Next(a, s, t, step)
    ensures TraceInv(t)
  {
    hide Receives, Decides, Lands, Hears, GivesUp, Rereads, FailsReread, Injects, Posts, CallInv, LedgerInv, TraceInv;
    match step
    case Spawn(_, _, _) => ActorsKeepTrace(s, t);
    case Receive(_, _) => NewCallKeepsTrace(s, t, step);
    case Decide(id, ctx, protos) => DecideKeepsTrace(a, s, t, id, ctx, protos);
    case Land(call, records) => LandKeepsTrace(s, t, call, records);
    case Drop(_) => ActorsKeepTrace(s, t);
    case Hear(id) => HearKeepsTrace(a, s, t, id);
    case GiveUp(id) => EndKeepsTrace(a, s, t, id, 0);
    case Reread(id, count) => EndKeepsTrace(a, s, t, id, count);
    case FailReread(id) => EndKeepsTrace(a, s, t, id, 0);
    case Inject(_, _) => NewCallKeepsTrace(s, t, step);
    case Post(_, _) => NewCallKeepsTrace(s, t, step);
    case Exit(_, _) => ActorsKeepTrace(s, t);
    case Crash(_) => ActorsKeepTrace(s, t);
  }

  lemma {:induction false} ReachableTrace<S, C, E, X>(a: Aggregate<S, C, E, X>, run: seq<System<S, C, E>>,
                                                      steps: seq<Step<S, C, E>>, i: nat)
    requires Behaves(a, run, steps) && i < |run|
    ensures TraceInv(run[i])
  {
    if i > 0 {
      ReachableTrace(a, run, steps, i - 1);
      ReachableCalls(a, run, steps, i - 1);
      assert Linked(a, run, steps, i - 1);
      StepKeepsTrace(a, run[i - 1], run[i], steps[i - 1]);
    }
  }

  // ---------- Caches on every run, good snapshots or not ----------

  /** An actor that has seen nothing holds the initial state, and what answers it does not lie before its cache. */
  ghost predicate Cached<S, C, E, X>(a: Aggregate<S, C, E, X>, channel: map<nat, Packet<C, E>>, actor: Actor<S, C, E>) {
    && (actor.version.None? ==> actor.state == a.initial)
    && (actor.phase.Awaiting? && actor.phase.call.id in channel ==>
          match channel[actor.phase.call.id]
          case Asked(request) => request.expected == Expect(actor.version)
          case Landed(last) => Seen(actor.version) <= last + 1
          case Refused => true)
  }

  ghost predicate CacheInv<S, C, E, X>(a: Aggregate<S, C, E, X>, s: System<S, C, E>) {
    Numbered(s.stream) && forall id :: id in s.actors ==> Cached(a, s.channel, s.actors[id])
  }

  lemma PieceAdvances(stream: seq<Recorded>, version: Option<nat>, count: nat)
    requires Numbered(stream)
    ensures Seen(version) <= Seen(VersionAfter(version, Piece(stream, Seen(version), count)))
  {
    var n, events := Seen(version), Piece(stream, Seen(version), count);
    if events != [] {
      assert events[|events| - 1] == stream[n + |events| - 1];
    }
  }

  lemma SpawnKeepsCaches<S, C, E, X>(a: Aggregate<S, C, E, X>, s: System<S, C, E>, t: System<S, C, E>, id: nat,
                                     snapshot: Option<Snapshot<S>>, count: nat)
    requires CacheInv(a, s) && Spawns(a, s, t, id, snapshot, count)
    ensures CacheInv(a, t)
  {
    hide Numbered, Piece;
    assert Cached(a, t.channel, t.actors[id]);
  }

  lemma DecideKeepsCaches<S, C, E, X>(a: Aggregate<S, C, E, X>, s: System<S, C, E>, t: System<S, C, E>, id: nat,
                                      ctx: Context, protos: seq<ProtoEvent>)
    requires CacheInv(a, s) && CallInv(s) && Decides(a, s, t, id, ctx, protos)
    ensures CacheInv(a, t)
  {
    hide Numbered, Encodes, CallInv;
    CallInHand(s, id);
    OthersAreApart(s, id);
    forall other | other in t.actors ensures Cached(a, t.channel, t.actors[other]) {
      assert Cached(a, s.channel, s.actors[other]);
    }
  }

  lemma LandKeepsCaches<S, C, E, X>(a: Aggregate<S, C, E, X>, s: System<S, C, E>, t: System<S, C, E>, call: nat,
                                    records: seq<Recorded>)
    requires CacheInv(a, s) && Lands(s, t, call, records)
    ensures CacheInv(a, t)
  {
    hide RecordsAll;
    forall id | id in t.actors ensures Cached(a, t.channel, t.actors[id]) {
      assert Cached(a, s.channel, s.actors[id]);
    }
  }

  lemma HearKeepsCaches<S, C, E, X>(a: Aggregate<S, C, E, X>, s: System<S, C, E>, t: System<S, C, E>, id: nat)
    requires CacheInv(a, s) && Hears(a, s, t, id)
    ensures CacheInv(a, t)
  {
    hide Numbered, ApplyAll;
    forall other | other in t.actors ensures Cached(a, t.channel, t.actors[other]) {
      assert Cached(a, s.channel, s.actors[other]);
    }
  }

  lemma RereadKeepsCaches<S, C, E, X>(a: Aggregate<S, C, E, X>, s: System<S, C, E>, t: System<S, C, E>, id: nat,
                                      count: nat)
    requires CacheInv(a, s) && Rereads(a, s, t, id, count)
    ensures CacheInv(a, t)
  {
    hide Numbered, Piece;
    forall other | other in t.actors ensures Cached(a, t.channel, t.actors[other]) {
      assert Cached(a, s.channel, s.actors[other]);
    }
  }

  /** A call nobody has made yet: no cache is waiting for it. */
  lemma NewCallKeepsCaches<S, C, E, X>(a: Aggregate<S, C, E, X>, s: System<S, C, E>, t: System<S, C, E>,
                                       step: Step<S, C, E>)
    requires CacheInv(a, s) && CallInv(s) && Next(a, s, t, step) && (step.Receive? || step.Inject? || step.Post?)
    ensures CacheInv(a, t)
  {
    hide Numbered;
    forall id | id in t.actors ensures Cached(a, t.channel, t.actors[id]) {
      assert Cached(a, s.channel, s.actors[id]);
    }
  }

  lemma QuietKeepsCaches<S, C, E, X>(a: Aggregate<S, C, E, X>, s: System<S, C, E>, t: System<S, C, E>)
    requires CacheInv(a, s) && t.stream == s.stream
    requires forall call :: call in t.channel ==> call in s.channel && t.channel[call] == s.channel[call]
    requires forall id :: id in t.actors ==> id in s.actors && KeepsCache(s.actors[id], t.actors[id])
    ensures CacheInv(a, t)
  {
    hide Numbered;
    forall id | id in t.actors ensures Cached(a, t.channel, t.actors[id]) {
      assert Cached(a, s.channel, s.actors[id]);
    }
  }

  lemma StepKeepsCaches<S, C, E, X>(a: Aggregate<S, C, E, X>, s: System<S, C, E>, t: System<S, C, E>,
                                    step: Step<S, C, E>)
    requires CacheInv(a, s) && CallInv(s) && Next(a, s, t, step)
    ensures CacheInv(a, t)
  {
    hide Spawns, Receives, Decides, Lands, Hears, GivesUp, Rereads, FailsReread, Injects, Posts, CacheInv, CallInv;
    match step
    case Spawn(id, snapshot, count) => SpawnKeepsCaches(a, s, t, id, snapshot, count);
    case Receive(_, _) => NewCallKeepsCaches(a, s, t, step);
    case Decide(id, ctx, protos) => DecideKeepsCaches(a, s, t, id, ctx, protos);
    case Land(call, records) => LandKeepsCaches(a, s, t, call, records);
    case Hear(id) => HearKeepsCaches(a, s, t, id);
    case Reread(id, count) => RereadKeepsCaches(a, s, t, id, count);
    case Inject(_, _) => NewCallKeepsCaches(a, s, t, step);
    case Post(_, _) => NewCallKeepsCaches(a, s, t, step);
    case Exit(_, _) => QuietKeepsCaches(a, s, t);
    case _ =>
      QuietStep(a, s, t, step);
      QuietKeepsCaches(a, s, t);
  }

  lemma {:induction false} ReachableCaches<S, C, E, X>(a: Aggregate<S, C, E, X>, run: seq<System<S, C, E>>,
                                                       steps: seq<Step<S, C, E>>, i: nat)
    requires Behaves(a, run, steps) && i < |run|
    ensures CacheInv(a, run[i])
  {
    hide Next;
    if i > 0 {
      ReachableCaches(a, run, steps, i - 1);
      ReachableCalls(a, run, steps, i - 1);
      assert Linked(a, run, steps, i - 1);
      StepKeepsCaches(a, run[i - 1], run[i], steps[i - 1]);
    }
  }

  // ---------- Main results ----------

  /**
   * Serializability. In every reachable system the stream is what executing the
   * landed commands and injections one at a time, in append order, produces;
   * and each command's block is its decision on the entire prefix before it.
   */
  lemma Serializable<S, C, E(!new), X>(a: Aggregate<S, C, E, X>, run: seq<System<S, C, E>>,
                                       steps: seq<Step<S, C, E>>, i: nat)
    requires Faithful(a) && Run(a, run, steps) && i < |run|
    ensures StateOf(a, run[i].stream) == Sequential(a, run[i].blocks)
    ensures Tiled(run[i].stream, run[i].blocks)
    ensures forall k :: 0 <= k < |run[i].blocks| ==> Justified(a, run[i].stream, run[i].blocks[k])
  {
    Reachable(a, run, steps, i);
  }

  /**
   * At most once. However often a call was retried, whatever is still under way
   * and whatever snapshots were saved, it has at most one block. Success means
   * exactly one: the command the call received, with the events the caller was
   * given. Every answer other than a lost one means none, now and later.
   */
  lemma AtMostOnce<S, C, E, X>(a: Aggregate<S, C, E, X>, run: seq<System<S, C, E>>, steps: seq<Step<S, C, E>>,
                               i: nat, j: nat, call: nat)
    requires Behaves(a, run, steps) && i <= j < |run|
    requires call in run[i].verdicts
    ensures call in run[j].verdicts && run[j].verdicts[call] == run[i].verdicts[call]
    ensures forall m, n :: 0 <= m < n < |run[j].blocks| ==> run[j].blocks[m].call != run[j].blocks[n].call
    ensures call in run[j].received
    ensures run[i].verdicts[call].Succeeded? ==>
              exists k :: 0 <= k < |run[j].blocks| && run[j].blocks[k].call == call
                          && run[j].blocks[k].source == Command(run[j].received[call], run[i].verdicts[call].events)
    ensures !run[i].verdicts[call].Succeeded? && !run[i].verdicts[call].Lost? ==>
              forall k :: 0 <= k < |run[j].blocks| ==> run[j].blocks[k].call != call
    ensures forall k :: 0 <= k < |run[j].blocks| && run[j].blocks[k].call == call ==>
              run[j].blocks[k].source.Command? && run[j].blocks[k].source.cmd == run[j].received[call]
  {
    ReachableCalls(a, run, steps, j);
    ReachableTrace(a, run, steps, j);
    VerdictStays(a, run, steps, i, j, call);
  }

  /**
   * Retries are bounded: no call ever puts more than three append requests on the
   * channel, and only giving up takes all.
   */
  lemma RequestsAreBounded<S, C, E, X>(a: Aggregate<S, C, E, X>, run: seq<System<S, C, E>>,
                                       steps: seq<Step<S, C, E>>, i: nat, call: nat)
    requires Behaves(a, run, steps) && i < |run|
    ensures run[i].asked[call] <= 3
    ensures call in run[i].verdicts ==>
              match run[i].verdicts[call]
              case Exhausted => run[i].asked[call] == 3
              case Succeeded(_) => run[i].asked[call] >= 1
              case Lost => run[i].asked[call] >= 1
              case _ => run[i].asked[call] <= 2
  {
    ReachableTrace(a, run, steps, i);
  }

  lemma {:induction false} VerdictStays<S, C, E, X>(a: Aggregate<S, C, E, X>, run: seq<System<S, C, E>>,
                                                    steps: seq<Step<S, C, E>>, i: nat, j: nat, call: nat)
    requires Behaves(a, run, steps) && i <= j < |run| && call in run[i].verdicts
    ensures call in run[j].verdicts && run[j].verdicts[call] == run[i].verdicts[call]
    decreases j
  {
    if i < j {
      VerdictStays(a, run, steps, i, j - 1, call);
      ReachableCalls(a, run, steps, j - 1);
      assert Linked(a, run, steps, j - 1);
      StepKeepsVerdict(a, run[j - 1], run[j], steps[j - 1], call);
    }
  }

  lemma StepKeepsVerdict<S, C, E, X>(a: Aggregate<S, C, E, X>, s: System<S, C, E>, t: System<S, C, E>,
                                     step: Step<S, C, E>, call: nat)
    requires BusyInv(s) && Next(a, s, t, step) && call in s.verdicts
    ensures call in t.verdicts && t.verdicts[call] == s.verdicts[call]
  {
    hide Decides, Hears, Rereads;
    match step
    case Decide(id, ctx, protos) => AnswersOwnCall(a, s, t, step);
    case Hear(id) => AnswersOwnCall(a, s, t, step);
    case Reread(id, count) => AnswersOwnCall(a, s, t, step);
    case _ =>
  }

  /** Only the call an actor is busy with is ever answered. */
  lemma AnswersOwnCall<S, C, E, X>(a: Aggregate<S, C, E, X>, s: System<S, C, E>, t: System<S, C, E>,
                                   step: Step<S, C, E>)
    requires Next(a, s, t, step) && (step.Decide? || step.Hear? || step.Reread?)
    ensures step.id in s.actors
    ensures t.verdicts == s.verdicts
            || (Busy(s.actors[step.id].phase).Some?
                && t.verdicts.Keys == s.verdicts.Keys + {Busy(s.actors[step.id].phase).value}
                && forall call :: call in s.verdicts && call != Busy(s.actors[step.id].phase).value ==>
                     t.verdicts[call] == s.verdicts[call])
  {
    hide Encodes, Replay, ApplyAll, Piece;
  }

  /**
   * What has to happen for an answer: the reply to a request that landed, the
   * re-read after a third refusal, a request or a read that failed, or a decision
   * that has nothing for the server.
   */
  ghost predicate Causes<S, C, E, X>(a: Aggregate<S, C, E, X>, s: System<S, C, E>, step: Step<S, C, E>, call: nat,
                                     verdict: Verdict<E>) {
    && (step.Decide? || step.Hear? || step.Reread? || step.GiveUp? || step.FailReread?)
    && step.id in s.actors && Busy(s.actors[step.id].phase) == Some(call)
    && var actor := s.actors[step.id];
       match verdict
       case Succeeded(events) =>
         step.Hear? && actor.phase.Awaiting? && actor.phase.events == events
         && call in s.channel && s.channel[call].Landed?
       case Exhausted => step.Reread? && actor.phase.Rereading? && actor.phase.call.refusals + 1 >= 3
       case Lost => (step.GiveUp? && actor.phase.Awaiting?) || (step.FailReread? && actor.phase.Rereading?)
       case Rejected => step.Decide? && actor.phase.Deciding? && a.handle(actor.state, actor.phase.call.cmd).Err?
       case NoOp => step.Decide? && actor.phase.Deciding? && a.handle(actor.state, actor.phase.call.cmd) == Ok([])
       case Unencodable =>
         && step.Decide? && actor.phase.Deciding? && a.handle(actor.state, actor.phase.call.cmd).Ok?
         && exists e :: e in a.handle(actor.state, actor.phase.call.cmd).value && a.serialize(e).None?
  }

  lemma NewAnswerIsCaused<S, C, E, X>(a: Aggregate<S, C, E, X>, s: System<S, C, E>, t: System<S, C, E>,
                                      step: Step<S, C, E>, call: nat)
    requires Next(a, s, t, step) && call in t.verdicts && call !in s.verdicts
    ensures Causes(a, s, step, call, t.verdicts[call])
  {
    hide Decides, Hears, Rereads, Causes, Spawns, Lands, Injects, Posts, Exits;
    match step
    case Decide(id, ctx, protos) => DecisionIsCause(a, s, t, id, ctx, protos, call);
    case Hear(id) => ReplyIsCause(a, s, t, id, call);
    case Reread(id, count) => RereadIsCause(a, s, t, id, count, call);
    case GiveUp(id) => FailureIsCause(a, s, t, step, call);
    case FailReread(id) => FailureIsCause(a, s, t, step, call);
    case _ => SameVerdicts(a, s, t, step);
  }

  lemma DecisionIsCause<S, C, E, X>(a: Aggregate<S, C, E, X>, s: System<S, C, E>, t: System<S, C, E>, id: nat,
                                    ctx: Context, protos: seq<ProtoEvent>, call: nat)
    requires Decides(a, s, t, id, ctx, protos) && call in t.verdicts && call !in s.verdicts
    ensures Causes(a, s, Decide(id, ctx, protos), call, t.verdicts[call])
  {
    hide Encodes;
  }

  lemma ReplyIsCause<S, C, E, X>(a: Aggregate<S, C, E, X>, s: System<S, C, E>, t: System<S, C, E>, id: nat, call: nat)
    requires Hears(a, s, t, id) && call in t.verdicts && call !in s.verdicts
    ensures Causes(a, s, Hear(id), call, t.verdicts[call])
  {
    hide ApplyAll;
  }

  lemma RereadIsCause<S, C, E, X>(a: Aggregate<S, C, E, X>, s: System<S, C, E>, t: System<S, C, E>, id: nat,
                                  count: nat, call: nat)
    requires Rereads(a, s, t, id, count) && call in t.verdicts && call !in s.verdicts
    ensures Causes(a, s, Reread(id, count), call, t.verdicts[call])
  {
    hide Replay, Piece;
  }

  lemma FailureIsCause<S, C, E, X>(a: Aggregate<S, C, E, X>, s: System<S, C, E>, t: System<S, C, E>,
                                   step: Step<S, C, E>, call: nat)
    requires Next(a, s, t, step) && (step.GiveUp? || step.FailReread?) && call in t.verdicts && call !in s.verdicts
    ensures Causes(a, s, step, call, t.verdicts[call])
  {
  }

  lemma SameVerdicts<S, C, E, X>(a: Aggregate<S, C, E, X>, s: System<S, C, E>, t: System<S, C, E>, step: Step<S, C, E>)
    requires Next(a, s, t, step)
    requires !step.Decide? && !step.Hear? && !step.Reread? && !step.GiveUp? && !step.FailReread?
    ensures t.verdicts == s.verdicts
  {
    hide RecordsAll, Numbered, Accepts, Replay, Piece;
  }

  /** In every run, every answer has its cause: no caller is told of a conflict or a lost request for nothing. */
  lemma {:induction false} AnswersHaveCauses<S, C, E, X>(a: Aggregate<S, C, E, X>, run: seq<System<S, C, E>>,
                                                         steps: seq<Step<S, C, E>>, i: nat, call: nat) returns (at: nat)
    requires Behaves(a, run, steps) && i < |run| && call in run[i].verdicts
    ensures at < i && Causes(a, run[at], steps[at], call, run[i].verdicts[call])
  {
    hide Next, Causes;
    if call in run[i - 1].verdicts {
      at := AnswersHaveCauses(a, run, steps, i - 1, call);
      VerdictStays(a, run, steps, i - 1, i, call);
    } else {
      at := i - 1;
      assert Linked(a, run, steps, at);
      NewAnswerIsCaused(a, run[at], run[i], steps[at], call);
    }
  }

  /** In every run, while an actor lives its view of the stream never goes back. */
  lemma {:induction false} VersionsAreMonotone<S, C, E, X>(a: Aggregate<S, C, E, X>, run: seq<System<S, C, E>>,
                                                           steps: seq<Step<S, C, E>>, i: nat, j: nat, id: nat)
    requires Behaves(a, run, steps) && i <= j < |run|
    requires forall k :: i <= k <= j ==> id in run[k].actors
    ensures Seen(run[i].actors[id].version) <= Seen(run[j].actors[id].version)
    decreases j
  {
    hide Next;
    if i < j {
      VersionsAreMonotone(a, run, steps, i, j - 1, id);
      ReachableCaches(a, run, steps, j - 1);
      assert Linked(a, run, steps, j - 1);
      StepAdvances(a, run[j - 1], run[j], steps[j - 1], id);
    }
  }

  /** With good snapshots it is, at every moment, the fold of what the actor has seen. */
  lemma ViewsAreMonotone<S, C, E(!new), X>(a: Aggregate<S, C, E, X>, run: seq<System<S, C, E>>,
                                           steps: seq<Step<S, C, E>>, i: nat, j: nat, id: nat)
    requires Faithful(a) && Run(a, run, steps) && i <= j < |run|
    requires forall k :: i <= k <= j ==> id in run[k].actors
    ensures Seen(run[i].actors[id].version) <= Seen(run[j].actors[id].version) <= |run[j].stream|
    ensures run[j].actors[id].state == StateOf(a, run[j].stream[..Seen(run[j].actors[id].version)])
  {
    VersionsAreMonotone(a, run, steps, i, j, id);
    ViewIsPrefix(a, run, steps, j, id);
  }

  lemma ViewIsPrefix<S, C, E(!new), X>(a: Aggregate<S, C, E, X>, run: seq<System<S, C, E>>,
                                       steps: seq<Step<S, C, E>>, k: nat, id: nat)
    requires Faithful(a) && Run(a, run, steps) && k < |run| && id in run[k].actors
    ensures AtPrefix(a, run[k].stream, run[k].actors[id].state, run[k].actors[id].version)
  {
    Reachable(a, run, steps, k);
    assert ActorInv(a, run[k].stream, run[k].channel, run[k].actors[id]);
  }

  /**
   * What a read does to a view: a re-read moves it on by exactly what was read,
   * up to the end of the stream, and a new actor starts that much after its
   * snapshot. So a full read is current, and the state is the fold of the view.
   */
  lemma ReadsMoveViews<S, C, E(!new), X>(a: Aggregate<S, C, E, X>, run: seq<System<S, C, E>>,
                                         steps: seq<Step<S, C, E>>, i: nat)
    requires Faithful(a) && Run(a, run, steps) && i < |steps| && (steps[i].Reread? || steps[i].Spawn?)
    ensures run[i + 1].stream == run[i].stream && steps[i].id in run[i + 1].actors
    ensures steps[i].Reread? ==> steps[i].id in run[i].actors
    ensures var stream, actor := run[i].stream, run[i + 1].actors[steps[i].id];
            var was := if steps[i].Reread? then Seen(run[i].actors[steps[i].id].version)
                       else if steps[i].snapshot.Some? then steps[i].snapshot.value.version + 1 else 0;
            var n := Min(was + steps[i].count, |stream|);
            was <= n && Seen(actor.version) == n && actor.state == StateOf(a, stream[..n])
  {
    hide StateOf, AtPrefix, Numbered, Replay;
    var s, t, id := run[i], run[i + 1], steps[i].id;
    assert Linked(a, run, steps, i);
    Reachable(a, run, steps, i);
    assert Numbered(s.stream);
    if steps[i].Reread? {
      ViewIsPrefix(a, run, steps, i, id);
      SeenIsPrefix(a, s.stream, s.actors[id].state, s.actors[id].version);
      PieceMoves(s.stream, s.actors[id].version, steps[i].count);
    } else {
      if steps[i].snapshot.Some? {
        var snapshot := steps[i].snapshot.value;
        assert GoodSnapshot(a, s.stream, snapshot);
        SeenIsPrefix(a, s.stream, snapshot.state, Some(snapshot.version));
      }
      PieceMoves(s.stream, StartVersion(steps[i].snapshot), steps[i].count);
    }
    ViewIsPrefix(a, run, steps, i + 1, id);
    SeenIsPrefix(a, t.stream, t.actors[id].state, t.actors[id].version);
  }

  lemma SeenIsPrefix<S, C, E, X>(a: Aggregate<S, C, E, X>, stream: seq<Recorded>, state: S, version: Option<nat>)
    requires AtPrefix(a, stream, state, version)
    ensures Seen(version) <= |stream| && state == StateOf(a, stream[..Seen(version)])
  {
  }

  lemma PieceMoves(stream: seq<Recorded>, version: Option<nat>, count: nat)
    requires Numbered(stream) && Seen(version) <= |stream|
    ensures Seen(VersionAfter(version, Piece(stream, Seen(version), count))) == Min(Seen(version) + count, |stream|)
  {
    var n, events := Seen(version), Piece(stream, Seen(version), count);
    if events != [] {
      assert events[|events| - 1] == stream[n + |events| - 1];
    }
  }

  /**
   * The version check, both ways: a request sent on a view lands exactly when the
   * view is still the whole stream, and otherwise it is refused.
   */
  lemma LandsExactlyWhenCurrent<S, C, E>(s: System<S, C, E>, t: System<S, C, E>, call: nat, records: seq<Recorded>,
                                         version: Option<nat>)
    requires Lands(s, t, call, records) && s.channel[call].request.expected == Expect(version)
    ensures call in t.channel && (t.channel[call].Landed? || t.channel[call].Refused?)
    ensures t.channel[call].Landed? <==> Seen(version) == |s.stream|
    ensures t.stream == if t.channel[call].Landed? then s.stream + records else s.stream
  {
    AcceptsWhenCurrent(version, |s.stream|);
  }

  lemma StepAdvances<S, C, E, X>(a: Aggregate<S, C, E, X>, s: System<S, C, E>, t: System<S, C, E>,
                                 step: Step<S, C, E>, id: nat)
    requires CacheInv(a, s) && Next(a, s, t, step) && id in s.actors && id in t.actors
    ensures Seen(s.actors[id].version) <= Seen(t.actors[id].version)
  {
    hide Spawns, Receives, Decides, Lands, Hears, GivesUp, Rereads, FailsReread, Injects, Posts, Exits, CacheInv;
    match step
    case Reread(other, count) => RereadAdvances(a, s, t, other, count, id);
    case Hear(other) => HearAdvances(a, s, t, other, id);
    case _ => VersionStays(a, s, t, step, id);
  }

  lemma RereadAdvances<S, C, E, X>(a: Aggregate<S, C, E, X>, s: System<S, C, E>, t: System<S, C, E>, id: nat,
                                   count: nat, other: nat)
    requires CacheInv(a, s) && Rereads(a, s, t, id, count) && other in s.actors && other in t.actors
    ensures Seen(s.actors[other].version) <= Seen(t.actors[other].version)
  {
    hide Replay, Piece, Numbered;
    PieceAdvances(s.stream, s.actors[id].version, count);
  }

  lemma VersionStays<S, C, E, X>(a: Aggregate<S, C, E, X>, s: System<S, C, E>, t: System<S, C, E>,
                                 step: Step<S, C, E>, id: nat)
    requires Next(a, s, t, step) && !step.Reread? && !step.Hear? && id in s.actors && id in t.actors
    ensures t.actors[id].version == s.actors[id].version
  {
    hide Replay, Encodes, RecordsAll, Piece, StartState, Numbered;
  }

  lemma HearAdvances<S, C, E, X>(a: Aggregate<S, C, E, X>, s: System<S, C, E>, t: System<S, C, E>, id: nat, other: nat)
    requires CacheInv(a, s) && Hears(a, s, t, id) && other in s.actors && other in t.actors
    ensures Seen(s.actors[other].version) <= Seen(t.actors[other].version)
  {
    hide ApplyAll, Numbered;
    assert Cached(a, s.channel, s.actors[id]);
  }

  // ---------- Real time ----------

  /**
   * Real-time order. A call that was answered with success before another one
   * was received has the earlier block, whichever actors served the two: the
   * sequential history never reorders what callers saw one after the other.
   */
  lemma RespectsRealTime<S, C, E, X>(a: Aggregate<S, C, E, X>, run: seq<System<S, C, E>>,
                                     steps: seq<Step<S, C, E>>, i: nat, j: nat, first: nat, second: nat, m: nat,
                                     n: nat)
    requires Behaves(a, run, steps) && i <= j < |run|
    requires first in run[i].verdicts && run[i].verdicts[first].Succeeded?
    requires second !in run[i].received && second in run[j].received
    requires m < |run[j].blocks| && run[j].blocks[m].call == first
    requires n < |run[j].blocks| && run[j].blocks[n].call == second
    ensures m < n
  {
    hide Behaves, CallInv, LedgerInv, Awaited;
    AtMostOnce(a, run, steps, i, i, first);
    AtMostOnce(a, run, steps, i, j, first);
    ReachableCalls(a, run, steps, i);
    TimeGoesOn(a, run, steps, i, j, second);
    OldCalls(run[i]);
    EarlierBlock(run[i].blocks, run[j].blocks, first, second, m, n);
  }

  lemma OldCalls<S, C, E>(s: System<S, C, E>)
    requires LedgerInv(s)
    ensures forall i :: 0 <= i < |s.blocks| ==> s.blocks[i].call < s.nextCall
  {
  }

  lemma EarlierBlock<C, E>(before: seq<Block<C, E>>, after: seq<Block<C, E>>, first: nat, second: nat, m: nat, n: nat)
    requires before <= after && exists k :: 0 <= k < |before| && before[k].call == first
    requires forall k :: 0 <= k < |before| ==> before[k].call != second
    requires forall x, y :: 0 <= x < y < |after| ==> after[x].call != after[y].call
    requires m < |after| && after[m].call == first && n < |after| && after[n].call == second
    ensures m < n
  {
    var k :| 0 <= k < |before| && before[k].call == first;
    assert after[k] == before[k];
    assert forall x :: 0 <= x < |before| ==> after[x] == before[x];
  }

  /** Blocks are only ever added, and calls are numbered in the order they are received. */
  lemma {:induction false} TimeGoesOn<S, C, E, X>(a: Aggregate<S, C, E, X>, run: seq<System<S, C, E>>,
                                                  steps: seq<Step<S, C, E>>, i: nat, j: nat, call: nat)
    requires Behaves(a, run, steps) && i <= j < |run|
    ensures run[i].blocks <= run[j].blocks && run[i].nextCall <= run[j].nextCall
    ensures call !in run[i].received && call in run[j].received ==> run[i].nextCall <= call
    decreases j
  {
    hide Next;
    if i < j {
      TimeGoesOn(a, run, steps, i, j - 1, call);
      assert Linked(a, run, steps, j - 1);
      TimePasses(a, run[j - 1], run[j], steps[j - 1], call);
    }
  }

  lemma TimePasses<S, C, E, X>(a: Aggregate<S, C, E, X>, s: System<S, C, E>, t: System<S, C, E>,
                               step: Step<S, C, E>, call: nat)
    requires Next(a, s, t, step)
    ensures s.blocks <= t.blocks && s.nextCall <= t.nextCall
    ensures call !in s.received && call in t.received ==> s.nextCall <= call
  {
    hide Replay, ApplyAll, Encodes, RecordsAll, Piece, StartState, Numbered;
  }

  /**
   * What a refusal or a command without events was decided on: the prefix its
   * actor has seen, which is never shorter than what that actor had seen before,
   * but need not be the whole stream.
   */
  lemma RefusalsAreOfPrefix<S, C, E(!new), X>(a: Aggregate<S, C, E, X>, run: seq<System<S, C, E>>,
                                              steps: seq<Step<S, C, E>>, i: nat)
    requires Faithful(a) && Run(a, run, steps) && i < |steps| && steps[i].Decide?
    ensures steps[i].id in run[i].actors && run[i].actors[steps[i].id].phase.Deciding?
    ensures var actor := run[i].actors[steps[i].id];
            var call := actor.phase.call;
            var n := Seen(actor.version);
            && n <= |run[i].stream|
            && (call.id in run[i + 1].verdicts && run[i + 1].verdicts[call.id].Rejected? ==>
                  a.handle(StateOf(a, run[i].stream[..n]), call.cmd).Err?)
            && (call.id in run[i + 1].verdicts && run[i + 1].verdicts[call.id].NoOp? ==>
                  a.handle(StateOf(a, run[i].stream[..n]), call.cmd) == Ok([]))
  {
    assert Linked(a, run, steps, i);
    ViewIsPrefix(a, run, steps, i, steps[i].id);
    ReachableCalls(a, run, steps, i);
    CallInHand(run[i], steps[i].id);
    DecideAnswers(a, run[i], run[i + 1], steps[i].id, steps[i].ctx, steps[i].protos);
  }

  lemma DecideAnswers<S, C, E, X>(a: Aggregate<S, C, E, X>, s: System<S, C, E>, t: System<S, C, E>, id: nat,
                                  ctx: Context, protos: seq<ProtoEvent>)
    requires Decides(a, s, t, id, ctx, protos) && s.actors[id].phase.call.id !in s.verdicts
    ensures var call := s.actors[id].phase.call;
            call.id in t.verdicts ==>
              && (t.verdicts[call.id].Rejected? ==> a.handle(s.actors[id].state, call.cmd).Err?)
              && (t.verdicts[call.id].NoOp? ==> a.handle(s.actors[id].state, call.cmd) == Ok([]))
  {
    hide Encodes;
  }
}
