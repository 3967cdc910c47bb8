/**
 * One aggregate actor against a server that other writers use as well.
 *
 * `Server` is the environment: before it answers, any number of other writers
 * may have appended, and an answer may be lost. `Actor` is the actor of
 * src/actor.rs; its contracts hold whatever the other writers do.
 */
module Actors {
  import opened Prelude
  import opened Codec
  import opened Aggregates
  import opened Streams

  /** An append by this client that the server carried out: `records` landed at version `at`. */
  datatype Landing = Landing(at: nat, records: seq<Recorded>)

  datatype AppendReply = Accepted(last: nat) | Conflict | Unreachable

  /** A read from version `from` on, and what came back; `None` when the call failed. */
  datatype Reading = Reading(from: nat, events: Option<seq<Recorded>>)

  /** What this client has used of the server so far, or used for one message. */
  datatype Usage = Usage(requests: int, rereads: int, refusals: int, failures: int, landings: int)

  function Less(x: Usage, y: Usage): Usage {
    Usage(x.requests - y.requests, x.rereads - y.rereads, x.refusals - y.refusals, x.failures - y.failures,
          x.landings - y.landings)
  }

  /** One stream of the server, with a ledger of who appended and what this client asked. */
  class Server {
    /** An honest server refuses only on a version mismatch and reads to the end of the stream. */
    const honest: bool
    var stream: seq<Recorded>
    /** Appends by this client, oldest first. */
    ghost var own: seq<Landing>
    /** Appends by everyone else. */
    ghost var foreign: nat
    /** Append requests made by this client, answered or not, and how many were refused. */
    ghost var requests: nat
    ghost var refusals: nat
    /** Reads made by this client. */
    ghost var readings: seq<Reading>
    /** Requests and reads that got no answer. */
    ghost var failures: nat

    constructor (honest: bool)
      ensures Valid() && stream == [] && own == [] && foreign == 0 && this.honest == honest
      ensures Used() == Usage(0, 0, 0, 0, 0)
    {
      this.honest := honest;
      stream := [];
      own := [];
      foreign := 0;
      requests, refusals, readings, failures := 0, 0, [], 0;
    }

    ghost function Used(): Usage
      reads this
    {
      Usage(requests, |readings|, refusals, failures, |own|)
    }

    ghost predicate Valid()
      reads this
    {
      && Numbered(stream)
      && forall l :: l in own ==> l.at + |l.records| <= |stream| && stream[l.at..l.at + |l.records|] == l.records
    }

    /** Time passed: the stream only grew, and without an append of ours it grew by others' appends. */
    twostate predicate Later()
      reads this
    {
      && old(stream) <= stream
      && old(own) <= own
      && old(foreign) <= foreign
      && old(requests) <= requests
      && old(refusals) <= refusals
      && old(readings) <= readings
      && old(failures) <= failures
      && (own == old(own) && foreign == old(foreign) ==> stream == old(stream))
    }

    /** Our append of `protos` is the last thing on the stream, and the version check passed when it landed. */
    twostate predicate Landed(expected: Expected, protos: seq<ProtoEvent>)
      reads this
    {
      var at := |stream| - |protos|;
      && |old(stream)| <= at
      && Accepts(expected, at)
      && own == old(own) + [Landing(at, stream[at..])]
      && RecordsAll(protos, stream[at..])
      && (foreign == old(foreign) ==> at == |old(stream)|)
    }

    /** Other writers append whatever they like. */
    method Interfere()
      requires Valid()
      modifies this
      ensures Valid() && Later() && own == old(own) && Used() == old(Used()) && readings == old(readings)
    {
      var others: seq<Recorded> := *;
      var base := |stream|;
      var batch := seq(|others|, i requires 0 <= i < |others| => others[i].(version := base + i));
      var appends: nat :| appends >= 0;
      if batch != [] {
        assert forall l :: l in own ==> (stream + batch)[l.at..l.at + |l.records|] == stream[l.at..l.at + |l.records|];
        stream := stream + batch;
        foreign := foreign + 1 + appends;
      }
    }

    method Append(expected: Expected, protos: seq<ProtoEvent>) returns (reply: AppendReply)
      requires Valid() && protos != []
      modifies this
      ensures Valid() && Later() && requests == old(requests) + 1 && readings == old(readings)
      ensures refusals == old(refusals) + if reply.Conflict? then 1 else 0
      ensures failures == old(failures) + if reply.Unreachable? then 1 else 0
      ensures reply.Accepted? ==> Landed(expected, protos) && reply.last == |stream| - 1
      ensures reply.Conflict? ==> own == old(own) && (honest ==> !Accepts(expected, |stream|))
      ensures reply.Unreachable? ==> own == old(own) || Landed(expected, protos)
    {
      hide RecordsAll, Accepts;
      requests := requests + 1;
      Interfere();
      var delivered: bool, spurious: bool, answered: bool := *, *, *;
      reply := Unreachable;
      if delivered {
        if !Accepts(expected, |stream|) || (spurious && !honest) {
          reply := if answered then Conflict else Unreachable;
        } else {
          Record(protos);
          reply := if answered then Accepted(|stream| - 1) else Unreachable;
        }
      }
      refusals := refusals + if reply.Conflict? then 1 else 0;
      failures := failures + if reply.Unreachable? then 1 else 0;
    }

    /** The server assigns versions, positions and a time, and keeps the rest. */
    method Record(protos: seq<ProtoEvent>)
      requires Valid()
      modifies this
      ensures Valid() && foreign == old(foreign)
      ensures Used() == old(Used()).(landings := |own|) && readings == old(readings)
      ensures old(stream) <= stream && |stream| == |old(stream)| + |protos|
      ensures own == old(own) + [Landing(|old(stream)|, stream[|old(stream)|..])]
      ensures RecordsAll(protos, stream[|old(stream)|..])
    {
      var id: string, positions: seq<nat>, now: nat := *, *, *;
      var base := |stream|;
      var records := seq(|protos|, i requires 0 <= i < |protos| =>
        Recorded(protos[i].eventId, id, base + i, if i < |positions| then positions[i] else 0,
                 protos[i].eventType, protos[i].metadata, protos[i].payload, now));
      stream := stream + records;
      own := own + [Landing(base, records)];
      assert stream[base..] == records && stream[base..base + |records|] == records;
      assert forall l :: l in old(own) ==> stream[l.at..l.at + |l.records|] == old(stream)[l.at..l.at + |l.records|];
    }

    /** A contiguous piece of the tail, or nothing at all when the call fails. */
    method Read(from: nat) returns (events: Option<seq<Recorded>>)
      requires Valid()
      modifies this
      ensures Valid() && Later() && own == old(own) && requests == old(requests) && refusals == old(refusals)
      ensures readings == old(readings) + [Reading(from, events)]
      ensures failures == old(failures) + if events.None? then 1 else 0
      ensures events.Some? ==> events.value <= Tail(stream, from)
      ensures events.Some? && honest ==> events.value == Tail(stream, from)
    {
      Interfere();
      var answered: bool, count: nat := *, *;
      var tail := Tail(stream, from);
      events := if !answered then None else Some(if honest || |tail| < count then tail else tail[..count]);
      readings := readings + [Reading(from, events)];
      failures := failures + if answered then 0 else 1;
    }
  }

  /** The snapshot file of one instance: replaced whole, or left as it was. */
  class SnapshotFile<S> {
    /** `None` is a missing or corrupt file. */
    var contents: Option<Snapshot<S>>
    /** Every attempt to save, and whether it succeeded. */
    ghost var saves: seq<(Snapshot<S>, bool)>
    /** How often the file could not be read. */
    ghost var failures: nat

    constructor (contents: Option<Snapshot<S>>)
      ensures this.contents == contents && saves == [] && failures == 0
    {
      this.contents := contents;
      saves, failures := [], 0;
    }

    method Save(s: Snapshot<S>) returns (saved: bool)
      modifies this
      ensures contents == if saved then Some(s) else old(contents)
      ensures saves == old(saves) + [(s, saved)] && failures == old(failures)
    {
      saved := *;
      if saved {
        contents := Some(s);
      }
      saves := saves + [(s, saved)];
    }

    /** A missing or corrupt file is a cache miss; any other I/O failure is an error. */
    method Load() returns (r: Result<Option<Snapshot<S>>, ()>)
      modifies this`failures
      ensures r.Ok? ==> r.value == contents
      ensures failures == old(failures) + if r.Err? then 1 else 0
    {
      var readable: bool := *;
      if !readable {
        failures := failures + 1;
        return Err(());
      }
      return Ok(contents);
    }
  }

  datatype Failure<X> = Domain(error: X) | WrongExpectedVersion | Io | Transport

  datatype Message<C> = Execute(cmd: C, ctx: Context) | GetState | Inject(event: ProtoEvent) | Shutdown

  datatype Reply<S, E, X> = Executed(result: Result<seq<E>, Failure<X>>) | Holds(state: S) | Injected(accepted: bool)

  /**
   * The reply is right about the first `view` events of the stream: a successful
   * command is their last block, decided on everything before it; a refused one
   * was refused on all of them; a state is their fold. And it is what the server
   * was used for: nobody is told of a conflict or a transport error for nothing.
   */
  ghost predicate Answers<S, C, E, X>(a: Aggregate<S, C, E, X>, stream: seq<Recorded>, message: Message<C>,
                                      reply: Reply<S, E, X>, view: nat, used: Usage)
  {
    && view <= |stream|
    && match message
       case Execute(cmd, _) =>
         reply.Executed? && Settles(a, stream[..view], cmd, reply.result) && Executes(reply.result, used)
       case GetState => reply == Holds(StateOf(a, stream[..view])) && used == Usage(0, 0, 0, 0, 0)
       case Inject(_) => reply.Injected? && Injects(reply.accepted, used)
       case Shutdown => false
  }

  /**
   * What an Execute takes of the server: a re-read after every refusal; giving up
   * takes three refusals, a transport error an unanswered request or read, and
   * success one request more than was refused, the one that landed.
   */
  predicate Executes<E, X>(r: Result<seq<E>, Failure<X>>, used: Usage) {
    var lost := r.Err? && r.error.Transport?;
    && 0 <= used.refusals <= 3 && used.rereads == used.refusals
    && used.failures == (if lost then 1 else 0)
    && (r.Err? && r.error.WrongExpectedVersion? <==> !lost && used.refusals == 3)
    && (if r.Ok? && |r.value| > 0 then used.requests == used.refusals + 1 && used.landings == 1
        else if lost then 0 <= used.landings <= used.requests - used.refusals <= 1
        else used.requests == used.refusals && used.landings == 0)
  }

  /** An injection: one request, and after an accepted one a read that may fail. */
  predicate Injects(accepted: bool, used: Usage) {
    && used.requests == 1
    && if accepted then used.refusals == 0 && used.rereads == 1 && 0 <= used.failures <= 1 && used.landings == 1
       else used.refusals + used.failures == 1 && used.refusals >= 0 && used.failures >= 0
            && used.rereads == 0 && 0 <= used.landings <= used.failures
  }

  ghost predicate Settles<S, C, E, X>(a: Aggregate<S, C, E, X>, seen: seq<Recorded>, cmd: C,
                                      r: Result<seq<E>, Failure<X>>)
  {
    match r
    case Ok(events) =>
      && |events| <= |seen|
      && a.handle(StateOf(a, seen[..|seen| - |events|]), cmd) == Ok(events)
      && DecodesTo(a, seen[|seen| - |events|..], events)
    case Err(Domain(x)) => a.handle(StateOf(a, seen), cmd) == Err(x)
    case Err(Io) => Decision(a, StateOf(a, seen), cmd) == Err(Io)
    case Err(Transport) => true
    case Err(WrongExpectedVersion) => true
  }

  /** What a command comes to on a state, before the server is asked. */
  ghost function Decision<S, C, E, X>(a: Aggregate<S, C, E, X>, s: S, cmd: C): Result<seq<E>, Failure<X>> {
    match a.handle(s, cmd)
    case Err(x) => Err(Domain(x))
    case Ok(events) => if exists e :: e in events && a.serialize(e).None? then Err(Io) else Ok(events)
  }

  lemma AnswersStay<S, C, E, X>(a: Aggregate<S, C, E, X>, stream: seq<Recorded>, grown: seq<Recorded>,
                                message: Message<C>, reply: Reply<S, E, X>, view: nat, used: Usage)
    requires stream <= grown && Answers(a, stream, message, reply, view, used)
    ensures Answers(a, grown, message, reply, view, used)
  {
    hide Settles, StateOf, Executes, Injects;
    assert grown[..view] == stream[..view];
  }

  /** An attempt that ended the call, after some that were refused. */
  lemma AfterRefusals<E, X>(r: Result<seq<E>, Failure<X>>, used: Usage, refused: nat)
    requires refused < 3 && Executes(r, used) && used.refusals <= 1 && !(r.Err? && r.error.WrongExpectedVersion?)
    requires (used.failures == 0 ==> used.refusals == 0) && used.requests <= 1
    ensures Executes(r, Usage(used.requests + refused, used.rereads + refused, used.refusals + refused, used.failures,
                              used.landings))
    ensures r.Err? && r.error.Transport? <==> used.failures > 0
  {
  }

  lemma GaveUp<E, X>()
    ensures Executes<E, X>(Err(WrongExpectedVersion), Usage(3, 3, 3, 0, 0))
  {
  }

  class Actor<S, C, E(!new), X> {
    const agg: Aggregate<S, C, E, X>
    const server: Server
    var state: S
    var version: Option<nat>

    constructor (agg: Aggregate<S, C, E, X>, server: Server, state: S, version: Option<nat>)
      ensures this.agg == agg && this.server == server && this.state == state && this.version == version
    {
      this.agg := agg;
      this.server := server;
      this.state := state;
      this.version := version;
    }

    /** The cached state is the fold of the decodable events it has seen. */
    ghost predicate Valid()
      reads this, server
    {
      server.Valid() && AtPrefix(agg, server.stream, state, version)
    }

    ghost predicate Current()
      reads this, server
    {
      Seen(version) == |server.stream|
    }

    /** Fold a piece of the tail into the cached state, skipping what does not decode. */
    method Absorb(events: seq<Recorded>)
      modifies this
      ensures state == Replay(agg, old(state), events) == ApplyAll(agg, old(state), Decoded(agg, events))
      ensures version == VersionAfter(old(version), events)
      ensures old(Valid()) && events <= Tail(server.stream, old(Seen(version))) ==>
                Valid() && Seen(version) == old(Seen(version)) + |events|
    {
      for i := 0 to |events|
        invariant state == Replay(agg, old(state), events[..i])
        invariant version == VersionAfter(old(version), events[..i])
      {
        assert events[..i + 1][..i] == events[..i];
        match Decode(agg, events[i]) {
          case Some(e) => state := agg.apply(state, e);
          case None =>
        }
        version := Some(events[i].version);
      }
      assert events[..|events|] == events;
      ReplayIsFold(agg, old(state), events);
      if old(Valid()) && events <= Tail(server.stream, old(Seen(version))) {
        ReadKeepsPrefix(agg, server.stream, old(state), old(version), events);
      }
    }

    /** The wire form of a block of events, each with a fresh id; the first serialization error wins. */
    method EncodeAll(events: seq<E>, ctx: Context) returns (protos: Option<seq<ProtoEvent>>)
      requires Faithful(agg)
      ensures protos.Some? ==> Encodes(agg, ctx, events, protos.value)
      ensures protos.None? <==> exists i :: 0 <= i < |events| && agg.serialize(events[i]).None?
    {
      var done: seq<ProtoEvent> := [];
      for i := 0 to |events|
        invariant |done| == i
        invariant forall j :: 0 <= j < i ==> EncodesOne(agg, ctx, events[j], done[j])
      {
        var tagged := agg.serialize(events[i]);
        if tagged.None? {
          return None;
        }
        assert Survives(agg, events[i]);
        var id: Uuid := *;
        done := done + [ToProto(agg.wire, Encode(tagged.value, ctx, agg.who, id))];
      }
      return Some(done);
    }

    /** The last landing is `handle(cmd)` decided on the whole stream before it. */
    ghost predicate Decided(cmd: C)
      reads server
      requires server.own != []
    {
      var l := server.own[|server.own| - 1];
      && l.at + |l.records| == |server.stream|
      && agg.handle(StateOf(agg, server.stream[..l.at]), cmd).Ok?
      && var events := agg.handle(StateOf(agg, server.stream[..l.at]), cmd).value;
      && events != []
      && DecodesTo(agg, l.records, events)
    }

    /** Exactly one append of ours landed since it `was` our ledger, and it is the decision on `cmd`. */
    ghost predicate LandedOnce(was: seq<Landing>, cmd: C)
      reads server
    {
      && |server.own| == |was| + 1
      && was <= server.own
      && Decided(cmd)
    }

    /** Our block landed right after what this actor had seen: folding its events in catches up with it. */
    lemma OwnBlockLanded(was: seq<Landing>, cmd: C, ctx: Context, events: seq<E>, protos: seq<ProtoEvent>)
      requires Valid() && Faithful(agg) && |protos| <= |server.stream|
      requires events != [] && agg.handle(state, cmd) == Ok(events) && Encodes(agg, ctx, events, protos)
      requires var at := |server.stream| - |protos|;
               && Accepts(Expect(version), at)
               && server.own == was + [Landing(at, server.stream[at..])]
               && RecordsAll(protos, server.stream[at..])
      ensures LandedOnce(was, cmd) && Seen(version) == |server.stream| - |protos|
      ensures DecodesTo(agg, server.own[|server.own| - 1].records, events)
      ensures ApplyAll(agg, state, events) == StateOf(agg, server.stream)
    {
      var at := |server.stream| - |protos|;
      BlockRoundTrip(agg, ctx, events, protos, server.stream[at..]);
      ReplayDecoded(agg, state, server.stream[at..], events);
      StateOfExtends(agg, server.stream, at, |server.stream|);
      assert server.stream[at..|server.stream|] == server.stream[at..];
      assert server.stream[..|server.stream|] == server.stream;
    }

    /** After an accepted append the cache takes the events as decided and the server's last version. */
    method ApplyDecided(events: seq<E>, last: nat)
      requires server.Valid() && last == |server.stream| - 1
      requires ApplyAll(agg, state, events) == StateOf(agg, server.stream)
      modifies this
      ensures Valid() && version == Some(last)
    {
      for i := 0 to |events|
        invariant state == ApplyAll(agg, old(state), events[..i])
      {
        assert events[..i + 1][..i] == events[..i];
        state := agg.apply(state, events[i]);
      }
      assert events[..|events|] == events;
      version := Some(last);
      assert server.stream[..last + 1] == server.stream;
    }

    /** What each answer to `Execute(cmd)` says about the stream, whatever others wrote meanwhile. */
    ghost predicate Outcome(was: seq<Landing>, cmd: C, r: Result<seq<E>, Failure<X>>)
      reads this, server
    {
      match r
      case Ok(events) =>
        if events == [] then server.own == was && agg.handle(state, cmd) == Ok([])
        else LandedOnce(was, cmd) && Current() && DecodesTo(agg, server.own[|server.own| - 1].records, events)
      case Err(Domain(x)) => server.own == was && agg.handle(state, cmd) == Err(x)
      case Err(Io) => server.own == was && Decision(agg, state, cmd) == Err(Io)
      case Err(Transport) => server.own == was || LandedOnce(was, cmd)
      case Err(WrongExpectedVersion) => server.own == was
    }

    /** Append a decision with the cached version; `None` is a version conflict. */
    method Send(ghost cmd: C, ghost ctx: Context, events: seq<E>, protos: seq<ProtoEvent>)
      returns (r: Option<Result<seq<E>, Failure<X>>>)
      requires Valid() && Faithful(agg)
      requires events != [] && agg.handle(state, cmd) == Ok(events) && Encodes(agg, ctx, events, protos)
      modifies this, server
      ensures Valid() && server.Later() && old(Seen(version)) <= Seen(version)
      ensures server.requests == old(server.requests) + 1 && server.readings == old(server.readings)
      ensures server.refusals == old(server.refusals) + if r.None? then 1 else 0
      ensures server.failures == old(server.failures) + if r == Some(Err(Transport)) then 1 else 0
      ensures r.Some? ==> r.value == Ok(events) || r.value == Err(Transport)
      ensures r == Some(Ok(events)) ==>
                LandedOnce(old(server.own), cmd) && Current()
                && DecodesTo(agg, server.own[|server.own| - 1].records, events)
      ensures r == Some(Ok(events)) && server.foreign == old(server.foreign) ==> old(Current())
      ensures r == Some(Err(Transport)) ==> server.own == old(server.own) || LandedOnce(old(server.own), cmd)
      ensures r.None? ==> server.own == old(server.own) && (server.honest ==> !Current())
      ensures r.None? ==> state == old(state) && version == old(version)
    {
      hide AtPrefix, Numbered, ApplyAll, StateOf, DecodesTo, RecordsAll, Decided, Faithful, Encodes;
      var reply := Ask(cmd, ctx, events, protos);
      if reply.Conflict? {
        return None;
      }
      if reply.Unreachable? {
        return Some(Err(Transport));
      }
      ApplyDecided(events, reply.last);
      return Some(Ok(events));
    }

    /** The request itself: if it landed, it was decided on the whole stream before it. */
    method Ask(ghost cmd: C, ghost ctx: Context, events: seq<E>, protos: seq<ProtoEvent>) returns (reply: AppendReply)
      requires Valid() && Faithful(agg)
      requires events != [] && agg.handle(state, cmd) == Ok(events) && Encodes(agg, ctx, events, protos)
      modifies server
      ensures Valid() && server.Later()
      ensures server.requests == old(server.requests) + 1 && server.readings == old(server.readings)
      ensures server.refusals == old(server.refusals) + if reply.Conflict? then 1 else 0
      ensures server.failures == old(server.failures) + if reply.Unreachable? then 1 else 0
      ensures reply.Accepted? ==> server.own != old(server.own) && reply.last == |server.stream| - 1
      ensures reply.Conflict? ==> server.own == old(server.own) && (server.honest ==> !Current())
      ensures server.own != old(server.own) ==>
                && LandedOnce(old(server.own), cmd)
                && DecodesTo(agg, server.own[|server.own| - 1].records, events)
                && ApplyAll(agg, state, events) == StateOf(agg, server.stream)
                && Seen(version) <= |server.stream|
                && (server.foreign == old(server.foreign) ==> old(Current()))
    {
      assert protos != [];
      hide AtPrefix, Numbered, ApplyAll, StateOf, DecodesTo, RecordsAll, LandedOnce, Faithful, Encodes, Accepts;
      hide Expect, Seen, Server.Valid;
      reply := server.Append(Expect(version), protos);
      GrowthKeepsPrefix(agg, old(server.stream), server.stream, state, version);
      if server.own == old(server.own) {
        AcceptsWhenCurrent(version, |server.stream|);
      } else {
        assert server.Landed(Expect(version), protos);
        OwnBlockLanded(old(server.own), cmd, ctx, events, protos);
      }
    }

    /** The command has events for the server, all of which can be encoded. */
    ghost predicate Asks(state: S, cmd: C) {
      Decision(agg, state, cmd).Ok? && Decision(agg, state, cmd) != Ok([])
    }

    /** One decision and its append; `None` is a version conflict. */
    method Attempt(cmd: C, ctx: Context) returns (r: Option<Result<seq<E>, Failure<X>>>)
      requires Valid() && Faithful(agg)
      modifies this, server
      ensures Valid() && server.Later() && old(Seen(version)) <= Seen(version)
      ensures r.None? ==> Less(server.Used(), old(server.Used())) == Usage(1, 0, 1, 0, 0)
      ensures r.Some? ==> Executes(r.value, Less(server.Used(), old(server.Used())))
      ensures r.Some? ==> r.value != Err(WrongExpectedVersion)
      ensures server.refusals == old(server.refusals) + if r.None? then 1 else 0
      ensures r.Some? ==> Outcome(old(server.own), cmd, r.value)
      ensures r.Some? ==>
                r.value == Decision(agg, old(state), cmd) || (r.value == Err(Transport) && Asks(old(state), cmd))
      ensures r.Some? && Asks(old(state), cmd) && r.value != Err(Transport) && server.foreign == old(server.foreign) ==>
                old(Current())
      ensures r.None? ==> server.own == old(server.own) && (server.honest ==> !Current())
      ensures r.None? ==> Asks(old(state), cmd) && state == old(state) && version == old(version)
    {
      var decision := agg.handle(state, cmd);
      if decision.Err? {
        return Some(Err(Domain(decision.error)));
      }
      var events := decision.value;
      if events == [] {
        return Some(Ok([]));
      }
      var protos := EncodeAll(events, ctx);
      if protos.None? {
        return Some(Err(Io));
      }
      r := Send(cmd, ctx, events, protos.value);
    }

    /** Read what was missed and fold it in; false when the read failed. */
    method CatchUp() returns (done: bool)
      requires Valid()
      modifies this, server
      ensures Valid() && server.Later() && server.own == old(server.own) && old(Seen(version)) <= Seen(version)
      ensures Less(server.Used(), old(server.Used())) == Usage(0, 1, 0, if done then 0 else 1, 0)
      ensures var reading := server.readings[|server.readings| - 1];
              && reading.from == old(Seen(version))
              && (done <==> reading.events.Some?)
              && (done ==> state == ApplyAll(agg, old(state), Decoded(agg, reading.events.value))
                           && version == VersionAfter(old(version), reading.events.value))
      ensures !done ==> state == old(state) && version == old(version)
      ensures done && server.honest ==> Current()
    {
      var tail := server.Read(Seen(version));
      GrowthKeepsPrefix(agg, old(server.stream), server.stream, state, version);
      done := tail.Some?;
      if done {
        Absorb(tail.value);
      }
    }

    /** One attempt, and after a conflict a re-read; `None` is to go on with the next. */
    method Try(cmd: C, ctx: Context) returns (r: Option<Result<seq<E>, Failure<X>>>)
      requires Valid() && Faithful(agg)
      modifies this, server
      ensures Valid() && server.Later() && old(Seen(version)) <= Seen(version)
      ensures r.None? ==> Less(server.Used(), old(server.Used())) == Usage(1, 1, 1, 0, 0)
      ensures r.None? ==> server.own == old(server.own) && Asks(old(state), cmd)
      ensures r.None? && server.honest ==>
                Current() && server.foreign >= old(server.foreign) + if old(Current()) then 1 else 0
      ensures r.Some? ==> Executes(r.value, Less(server.Used(), old(server.Used())))
      ensures r.Some? ==> Outcome(old(server.own), cmd, r.value) && server.refusals <= old(server.refusals) + 1
      ensures r.Some? ==> r.value != Err(WrongExpectedVersion) && server.requests <= old(server.requests) + 1
      ensures r.Some? && server.failures == old(server.failures) ==> server.refusals == old(server.refusals)
      ensures r.Some? && server.failures == old(server.failures) ==>
                && r.value == Decision(agg, old(state), cmd)
                && (Asks(old(state), cmd) && server.foreign == old(server.foreign) ==> old(Current()))
    {
      hide Decision, StateOf, DecodesTo, AtPrefix, Numbered, Accepts, Decided, Outcome, Faithful, Asks, ApplyAll;
      r := Attempt(cmd, ctx);
      if r.None? {
        var caughtUp := CatchUp();
        if !caughtUp {
          NothingLanded(server.own, cmd, Err(Transport));
          return Some(Err(Transport));
        }
      }
    }

    /**
     * Decide, append, and on a conflict catch up and decide again. Giving up takes
     * three refusals, with a re-read after each; and a transport error is answered
     * exactly when a request or a read got no answer (`Executes` has the whole
     * bill). On an honest server, giving up takes at least two appends by others
     * during the call (three if the cache was current); without any, the second
     * request is the last, and the first if the cache was current. When nobody
     * else appends and everything is answered, the answer is the decision on the
     * whole stream, unless the decision on the cache had nothing for the server.
     */
    method Execute(cmd: C, ctx: Context) returns (r: Result<seq<E>, Failure<X>>)
      requires Valid() && Faithful(agg)
      modifies this, server
      ensures Valid() && server.Later() && old(Seen(version)) <= Seen(version)
      ensures Outcome(old(server.own), cmd, r)
      ensures Executes(r, Less(server.Used(), old(server.Used())))
      ensures server.requests <= old(server.requests) + 3
      ensures r == Err(WrongExpectedVersion) <==>
              server.refusals == old(server.refusals) + 3 && server.failures == old(server.failures)
      ensures r == Err(Transport) <==> server.failures > old(server.failures)
      ensures server.honest && server.foreign == old(server.foreign) && server.failures == old(server.failures) ==>
                r == Decision(agg, if old(Asks(state, cmd)) then StateOf(agg, old(server.stream)) else old(state), cmd)
      ensures server.honest && r == Err(WrongExpectedVersion) ==>
                server.foreign >= old(server.foreign) + if old(Current()) then 3 else 2
      ensures server.honest && server.foreign == old(server.foreign) ==>
                && r != Err(WrongExpectedVersion)
                && server.requests <= old(server.requests) + if old(Current()) then 1 else 2
    {
      hide Decision, StateOf, DecodesTo, AtPrefix, Numbered, Accepts, Executes, Decided, Outcome, Faithful, Asks;
      for attempt := 0 to MAX_RETRIES
        invariant Valid() && server.Later() && server.own == old(server.own)
        invariant Less(server.Used(), old(server.Used())) == Usage(attempt, attempt, attempt, 0, 0)
        invariant attempt == 0 ==> state == old(state)
        invariant attempt > 0 ==> old(Asks(state, cmd))
        invariant old(Seen(version)) <= Seen(version)
        invariant attempt == 0 ==> Current() == old(Current()) && server.foreign == old(server.foreign)
        invariant server.honest && attempt > 0 ==> Current()
        invariant server.honest && attempt > 0 ==>
                    server.foreign >= old(server.foreign) + attempt - if old(Current()) then 0 else 1
      {
        ghost var before := server.Used();
        CurrentState();
        var decided := Try(cmd, ctx);
        if decided.Some? {
          AfterRefusals(decided.value, Less(server.Used(), before), attempt);
          return decided.value;
        }
      }
      NothingLanded(server.own, cmd, Err(WrongExpectedVersion));
      GaveUp<E, X>();
      return Err(WrongExpectedVersion);
    }

    lemma NothingLanded(was: seq<Landing>, cmd: C, r: Result<seq<E>, Failure<X>>)
      requires server.own == was && (r == Err(Transport) || r == Err(WrongExpectedVersion))
      ensures Outcome(was, cmd, r)
    {
    }

    /** A current cache holds the state of the whole stream. */
    lemma CurrentState()
      requires Valid()
      ensures Current() ==> state == StateOf(agg, server.stream)
    {
      assert server.stream[..|server.stream|] == server.stream;
    }

    /** Append without a version check, then try to catch up; a failed read leaves the cache behind but right. */
    method InjectEvent(event: ProtoEvent) returns (injected: bool)
      requires Valid()
      modifies this, server
      ensures Valid() && server.Later() && old(Seen(version)) <= Seen(version)
      ensures Injects(injected, Less(server.Used(), old(server.Used())))
      ensures injected ==>
                && |server.own| == |old(server.own)| + 1
                && RecordsAll([event], server.own[|server.own| - 1].records)
                && (server.honest && server.failures == old(server.failures) ==> Current())
      ensures !injected ==> state == old(state) && version == old(version)
      ensures !injected && server.honest ==> server.failures == old(server.failures) + 1
    {
      var reply := server.Append(Any, [event]);
      GrowthKeepsPrefix(agg, old(server.stream), server.stream, state, version);
      if !reply.Accepted? {
        return false;
      }
      var caughtUp := CatchUp();
      return true;
    }

    /** One message, answered from the cache or through the server. */
    method Serve(message: Message<C>) returns (reply: Reply<S, E, X>)
      requires Valid() && Faithful(agg) && !message.Shutdown?
      modifies this, server
      ensures Valid() && server.Later() && old(Seen(version)) <= Seen(version)
      ensures Answers(agg, server.stream, message, reply, Seen(version), Less(server.Used(), old(server.Used())))
    {
      match message {
        case Execute(cmd, ctx) =>
          ghost var was := server.own;
          var result := Execute(cmd, ctx);
          SettledBy(was, cmd, result);
          return Executed(result);
        case GetState =>
          return Holds(state);
        case Inject(event) =>
          var accepted := InjectEvent(event);
          return Injected(accepted);
      }
    }

    /** What `Outcome` says in terms of ours and theirs, said about the stream. */
    lemma SettledBy(was: seq<Landing>, cmd: C, r: Result<seq<E>, Failure<X>>)
      requires Valid() && Outcome(was, cmd, r)
      ensures Settles(agg, server.stream[..Seen(version)], cmd, r)
    {
      var seen := server.stream[..Seen(version)];
      assert seen[..|seen|] == seen;
      if r.Ok? && r.value != [] {
        var l := server.own[|server.own| - 1];
        var decided := agg.handle(StateOf(agg, server.stream[..l.at]), cmd).value;
        assert decided == r.value;
        assert seen == server.stream && seen[l.at..l.at + |l.records|] == seen[l.at..] == l.records;
      }
    }

    /**
     * The actor's mailbox loop, up to Shutdown, a closed channel or the idle
     * timeout. `views[i]` is how much of the stream the i-th reply had seen:
     * every reply is right about that much, and views never go back. So the
     * replies are those of a sequential history. `meter[i]` is what the server had
     * been used for before the i-th message, so every answer is paid for by its
     * own requests. Every exit saves, once and last.
     */
    method Run(mailbox: seq<Message<C>>, file: SnapshotFile<S>)
      returns (replies: seq<Reply<S, E, X>>, ghost views: seq<nat>, ghost meter: seq<Usage>)
      requires Valid() && Faithful(agg)
      modifies this, server, file
      ensures Valid() && server.Later() && old(Seen(version)) <= Seen(version)
      ensures |replies| == |views| <= |mailbox| && (|replies| < |mailbox| ==> mailbox[|replies|].Shutdown?)
      ensures |meter| == |replies| + 1 && meter[0] == old(server.Used()) && meter[|replies|] == server.Used()
      ensures forall i :: 0 <= i < |views| ==>
                old(Seen(version)) <= views[i]
                && Answers(agg, server.stream, mailbox[i], replies[i], views[i], Less(meter[i + 1], meter[i]))
      ensures forall i, j :: 0 <= i < j < |views| ==> views[i] <= views[j]
      ensures |file.saves| == |old(file.saves)| + 1 && file.saves[|old(file.saves)|].0 == SnapshotOf(state, version)
      ensures file.contents == if file.saves[|old(file.saves)|].1 then Some(SnapshotOf(state, version))
                               else old(file.contents)
    {
      replies, views, meter := [], [], [server.Used()];
      for next := 0 to |mailbox|
        invariant Valid() && server.Later() && old(Seen(version)) <= Seen(version)
        invariant |replies| == |views| == next && file.contents == old(file.contents) && file.saves == old(file.saves)
        invariant |meter| == next + 1 && meter[0] == old(server.Used()) && meter[next] == server.Used()
        invariant forall i :: 0 <= i < |views| ==>
                    && old(Seen(version)) <= views[i] <= Seen(version)
                    && Answers(agg, server.stream, mailbox[i], replies[i], views[i], Less(meter[i + 1], meter[i]))
        invariant forall i, j :: 0 <= i < j < |views| ==> views[i] <= views[j]
      {
        hide Answers, AtPrefix, Numbered;
        if mailbox[next].Shutdown? {
          break;
        }
        ghost var before := server.stream;
        var reply := Serve(mailbox[next]);
        forall i | 0 <= i < |views|
          ensures Answers(agg, server.stream, mailbox[i], replies[i], views[i], Less(meter[i + 1], meter[i]))
        {
          AnswersStay(agg, before, server.stream, mailbox[i], replies[i], views[i], Less(meter[i + 1], meter[i]));
        }
        replies, views, meter := replies + [reply], views + [Seen(version)], meter + [server.Used()];
      }
      var saved := file.Save(SnapshotOf(state, version));
    }
  }

  /**
   * Load the snapshot, catch up, start; it fails exactly when the file or the
   * server does. From a good snapshot the actor is valid; from a good snapshot on
   * an honest server it equals a full replay.
   */
  method Spawn<S, C, E(!new), X>(agg: Aggregate<S, C, E, X>, server: Server, file: SnapshotFile<S>)
    returns (r: Result<Actor<S, C, E, X>, ()>)
    requires server.Valid()
    modifies server, file`failures
    ensures server.Valid() && server.Later() && server.own == old(server.own)
    ensures r.Err? <==> file.failures > old(file.failures) || server.failures > old(server.failures)
    ensures r.Ok? ==>
              && |server.readings| == |old(server.readings)| + 1
              && var reading := server.readings[|server.readings| - 1];
                 && reading.from == Seen(StartVersion(file.contents)) && reading.events.Some?
                 && r.value.version == VersionAfter(StartVersion(file.contents), reading.events.value)
                 && r.value.state ==
                    ApplyAll(agg, StartState(agg, file.contents), Decoded(agg, reading.events.value))
    ensures r.Ok? ==> fresh(r.value) && r.value.agg == agg && r.value.server == server
    ensures r.Ok? && (file.contents.Some? ==> GoodSnapshot(agg, old(server.stream), file.contents.value)) ==>
              && r.value.Valid()
              && (server.honest ==>
                    r.value.state == StateOf(agg, server.stream)
                    && r.value.version == VersionAfter(None, server.stream))
  {
    var loaded := file.Load();
    if loaded.Err? {
      return Err(());
    }
    var snapshot := loaded.value;
    var version := StartVersion(snapshot);
    var events := server.Read(Seen(version));
    if events.None? {
      return Err(());
    }
    hide Replay, ApplyAll, Decoded, Numbered, AtPrefix, StateOf, StartState, StartVersion, VersionAfter, Tail;
    var actor := new Actor(agg, server, StartState(agg, snapshot), version);
    actor.Absorb(events.value);
    if snapshot.Some? ==> GoodSnapshot(agg, old(server.stream), snapshot.value) {
      StartsAtPrefix(agg, old(server.stream), server.stream, snapshot, events.value);
    }
    return Ok(actor);
  }

  /** What a new actor holds after reading a piece of the tail, and after reading all of it. */
  lemma StartsAtPrefix<S, C, E, X>(agg: Aggregate<S, C, E, X>, was: seq<Recorded>, stream: seq<Recorded>,
                                   snapshot: Option<Snapshot<S>>, events: seq<Recorded>)
    requires Numbered(stream) && was <= stream && events <= Tail(stream, Seen(StartVersion(snapshot)))
    requires snapshot.Some? ==> GoodSnapshot(agg, was, snapshot.value)
    ensures var state := Replay(agg, StartState(agg, snapshot), events);
            var version := VersionAfter(StartVersion(snapshot), events);
            && AtPrefix(agg, stream, state, version)
            && (events == Tail(stream, Seen(StartVersion(snapshot))) ==>
                  state == StateOf(agg, stream) && version == VersionAfter(None, stream))
  {
    if snapshot.Some? {
      GrowthKeepsPrefix(agg, was, stream, snapshot.value.state, Some(snapshot.value.version));
    }
    ReadKeepsPrefix(agg, stream, StartState(agg, snapshot), StartVersion(snapshot), events);
    assert stream[..|stream|] == stream;
  }
}
