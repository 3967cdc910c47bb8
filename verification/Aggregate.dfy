/**
 * An aggregate type and the meaning of its stream: the state of a stream is
 * the left fold of `apply` over the events that decode (`StateIsFold`).
 */
module Aggregates {
  import opened Prelude
  import opened Codec

  /** `serialize` and `deserialize` are the event type's serde implementations. */
  datatype Aggregate<!S, !C, !E, !X> = Aggregate(
    wire: Wire,
    who: Identity,
    initial: S,
    handle: (S, C) -> Result<seq<E>, X>,
    apply: (S, E) -> S,
    serialize: E -> Option<Json>,
    deserialize: Json -> Option<E>)

  function Decode<S, C, E, X>(a: Aggregate<S, C, E, X>, r: Recorded): Option<E> {
    match DecodeEnvelope(a.wire, r)
    case None => None
    case Some(envelope) => a.deserialize(envelope)
  }

  /** What is needed of serde: events are tagged and survive losing a null `data`. */
  ghost predicate Faithful<S, C, E(!new), X>(a: Aggregate<S, C, E, X>) {
    && a.wire.Lawful()
    && forall e: E :: a.serialize(e).Some? ==> Survives(a, e)
  }

  ghost predicate Survives<S, C, E, X>(a: Aggregate<S, C, E, X>, e: E)
    requires a.serialize(e).Some?
  {
    && Tagged(a.serialize(e).value)
    && a.deserialize(Visible(a.serialize(e).value)) == Some(e)
  }

  function ApplyOne<S, C, E, X>(a: Aggregate<S, C, E, X>, s: S, r: Recorded): S {
    match Decode(a, r)
    case None => s
    case Some(e) => a.apply(s, e)
  }

  function Replay<S, C, E, X>(a: Aggregate<S, C, E, X>, s: S, events: seq<Recorded>): S {
    if events == [] then s
    else ApplyOne(a, Replay(a, s, events[..|events| - 1]), events[|events| - 1])
  }

  function ApplyAll<S, C, E, X>(a: Aggregate<S, C, E, X>, s: S, events: seq<E>): S {
    if events == [] then s
    else a.apply(ApplyAll(a, s, events[..|events| - 1]), events[|events| - 1])
  }

  /** The state a whole stream means. */
  function StateOf<S, C, E, X>(a: Aggregate<S, C, E, X>, stream: seq<Recorded>): S {
    Replay(a, a.initial, stream)
  }

  /** The events that a reader gets out of these records, in order: the others it skips. */
  function Decoded<S, C, E, X>(a: Aggregate<S, C, E, X>, records: seq<Recorded>): seq<E> {
    if records == [] then []
    else
      Decoded(a, records[..|records| - 1])
      + match Decode(a, records[|records| - 1]) case None => [] case Some(e) => [e]
  }

  /** What one record does to a state: nothing unless it decodes. */
  lemma ReplayOne<S, C, E, X>(a: Aggregate<S, C, E, X>, s: S, r: Recorded)
    ensures Decode(a, r).None? ==> Replay(a, s, [r]) == s && Decoded(a, [r]) == []
    ensures forall e :: Decode(a, r) == Some(e) ==> Replay(a, s, [r]) == a.apply(s, e) && Decoded(a, [r]) == [e]
  {
    assert [r][..0] == [];
  }

  lemma {:induction false} DecodedConcat<S, C, E, X>(a: Aggregate<S, C, E, X>, left: seq<Recorded>,
                                                     right: seq<Recorded>)
    ensures Decoded(a, left + right) == Decoded(a, left) + Decoded(a, right)
    decreases |right|
  {
    if right == [] {
      assert left + right == left;
    } else {
      assert (left + right)[..|left + right| - 1] == left + right[..|right| - 1];
      DecodedConcat(a, left, right[..|right| - 1]);
    }
  }

  /** Applying events is applying them one after the other. */
  lemma {:induction false} ApplyAllConcat<S, C, E, X>(a: Aggregate<S, C, E, X>, s: S, left: seq<E>, right: seq<E>)
    ensures ApplyAll(a, s, left + right) == ApplyAll(a, ApplyAll(a, s, left), right)
    ensures forall e :: ApplyAll(a, s, [e]) == a.apply(s, e)
    decreases |right|
  {
    if right == [] {
      assert left + right == left;
    } else {
      assert (left + right)[..|left + right| - 1] == left + right[..|right| - 1];
      ApplyAllConcat(a, s, left, right[..|right| - 1]);
    }
    forall e ensures ApplyAll(a, s, [e]) == a.apply(s, e) {
      assert [e][..0] == [];
    }
  }

  /** Replaying records is applying what they decode to; a record that does not decode changes nothing. */
  lemma {:induction false} ReplayIsFold<S, C, E, X>(a: Aggregate<S, C, E, X>, s: S, records: seq<Recorded>)
    ensures Replay(a, s, records) == ApplyAll(a, s, Decoded(a, records))
    decreases |records|
  {
    if records != [] {
      var front, last := records[..|records| - 1], records[|records| - 1];
      ReplayIsFold(a, s, front);
      if Decode(a, last).Some? {
        var e := Decode(a, last).value;
        assert (Decoded(a, front) + [e])[..|Decoded(a, front)|] == Decoded(a, front);
      } else {
        assert Decoded(a, front) + [] == Decoded(a, front);
      }
    }
  }

  /** The meaning of a stream, said with the aggregate's own `apply` only. */
  lemma StateIsFold<S, C, E, X>(a: Aggregate<S, C, E, X>, stream: seq<Recorded>)
    ensures StateOf(a, stream) == ApplyAll(a, a.initial, Decoded(a, stream))
  {
    ReplayIsFold(a, a.initial, stream);
  }

  /** `records` are what the store kept of `events` in the encoding of this aggregate. */
  ghost predicate Encodes<S, C, E, X>(a: Aggregate<S, C, E, X>, ctx: Context, events: seq<E>, protos: seq<ProtoEvent>) {
    && |protos| == |events|
    && forall i :: 0 <= i < |events| ==> EncodesOne(a, ctx, events[i], protos[i])
  }

  ghost predicate EncodesOne<S, C, E, X>(a: Aggregate<S, C, E, X>, ctx: Context, e: E, p: ProtoEvent) {
    && a.serialize(e).Some?
    && Tagged(a.serialize(e).value)
    && exists id: Uuid :: p == ToProto(a.wire, Encode(a.serialize(e).value, ctx, a.who, id))
  }

  ghost predicate RecordsAll(protos: seq<ProtoEvent>, records: seq<Recorded>) {
    && |records| == |protos|
    && forall i :: 0 <= i < |records| ==> Records(protos[i], records[i])
  }

  /** Each record decodes to the event in the same place. */
  ghost predicate DecodesTo<S, C, E, X>(a: Aggregate<S, C, E, X>, records: seq<Recorded>, events: seq<E>) {
    && |records| == |events|
    && forall i :: 0 <= i < |records| ==> Decode(a, records[i]) == Some(events[i])
  }

  /**
   * One written event is replayed as itself exactly when serde accepts the
   * envelope that is left after a null `data` is dropped.
   */
  lemma EventRoundTrip<S, C, E, X>(a: Aggregate<S, C, E, X>, ctx: Context, e: E, p: ProtoEvent, r: Recorded)
    requires a.wire.Lawful() && EncodesOne(a, ctx, e, p) && Records(p, r)
    ensures Decode(a, r) == Some(e) <==> Survives(a, e)
  {
    var id: Uuid :| p == ToProto(a.wire, Encode(a.serialize(e).value, ctx, a.who, id));
    EnvelopeRoundTrip(a.wire, a.serialize(e).value, ctx, a.who, id, r);
  }

  lemma BlockRoundTrip<S, C, E(!new), X>(a: Aggregate<S, C, E, X>, ctx: Context, events: seq<E>,
                                         protos: seq<ProtoEvent>, records: seq<Recorded>)
    requires Faithful(a) && Encodes(a, ctx, events, protos) && RecordsAll(protos, records)
    ensures DecodesTo(a, records, events)
  {
    forall i | 0 <= i < |records| ensures Decode(a, records[i]) == Some(events[i]) {
      EventRoundTrip(a, ctx, events[i], protos[i], records[i]);
    }
  }

  /** The consumers skip no event of a block that an Execute wrote, exactly when both names are non-empty. */
  lemma BlockIsSeen<S, C, E, X>(a: Aggregate<S, C, E, X>, ctx: Context, events: seq<E>, protos: seq<ProtoEvent>,
                                records: seq<Recorded>, stream: Uuid)
    requires a.wire.Lawful() && Encodes(a, ctx, events, protos) && RecordsAll(protos, records)
    requires forall i :: 0 <= i < |records| ==> records[i].streamId == a.wire.showUuid(stream)
    ensures forall i :: 0 <= i < |records| ==>
              var seen := DecodeStored(a.wire, records[i]);
              && (seen.Some? <==> a.who.aggregateType != "" && a.who.instanceId != "")
              && (seen.Some? ==> seen.value.identity == a.who && seen.value.streamId == stream
                                 && seen.value.version == records[i].version
                                    && seen.value.position == records[i].position)
  {
    forall i | 0 <= i < |records|
      ensures var seen := DecodeStored(a.wire, records[i]);
              && (seen.Some? <==> a.who.aggregateType != "" && a.who.instanceId != "")
              && (seen.Some? ==> seen.value.identity == a.who && seen.value.streamId == stream
                                 && seen.value.version == records[i].version
                                    && seen.value.position == records[i].position)
    {
      assert EncodesOne(a, ctx, events[i], protos[i]);
      var id: Uuid :| protos[i] == ToProto(a.wire, Encode(a.serialize(events[i]).value, ctx, a.who, id));
      StoredRoundTrip(a.wire, a.serialize(events[i]).value, ctx, a.who, id, stream, records[i]);
    }
  }

  /**
   * The condition can fail: an event written with `data: null` whose type wants
   * its `data` back (a variant holding `()`, say) is stored but never replayed.
   */
  lemma NullDataIsLost(w: Wire, r: Recorded)
    requires w.Lawful()
    requires Records(ToProto(w, Encode(NullDataAggregate(w).serialize(()).value,
                                       Context(None, None, None, None), NullDataAggregate(w).who, 7)), r)
    ensures Decode(NullDataAggregate(w), r) == None
  {
    var a := NullDataAggregate(w);
    EnvelopeRoundTrip(w, a.serialize(()).value, Context(None, None, None, None), a.who, 7, r);
  }

  function NullDataAggregate(w: Wire): Aggregate<int, (), (), ()> {
    Aggregate(w, Identity("gate", "g-1"), 0, (s, c) => Ok([()]), (s: int, e) => s + 1,
              e => Some(Obj(map["type" := Str("Opened"), "data" := Null])),
              (j: Json) => if j.Obj? && "data" in j.fields then Some(()) else None)
  }

  lemma {:induction false} ReplayConcat<S, C, E, X>(a: Aggregate<S, C, E, X>, s: S, left: seq<Recorded>,
                                                    right: seq<Recorded>)
    ensures Replay(a, s, left + right) == Replay(a, Replay(a, s, left), right)
    decreases |right|
  {
    if right == [] {
      assert left + right == left;
    } else {
      assert (left + right)[..|left + right| - 1] == left + right[..|right| - 1];
      ReplayConcat(a, s, left, right[..|right| - 1]);
    }
  }

  lemma {:induction false} ReplayDecoded<S, C, E, X>(a: Aggregate<S, C, E, X>, s: S, records: seq<Recorded>,
                                                     events: seq<E>)
    requires DecodesTo(a, records, events)
    ensures Replay(a, s, records) == ApplyAll(a, s, events)
    decreases |records|
  {
    if records != [] {
      ReplayDecoded(a, s, records[..|records| - 1], events[..|events| - 1]);
    }
  }

  /** The state of a longer prefix is the state of the shorter one, caught up. */
  lemma StateOfExtends<S, C, E, X>(a: Aggregate<S, C, E, X>, stream: seq<Recorded>, n: nat, m: nat)
    requires n <= m <= |stream|
    ensures StateOf(a, stream[..m]) == Replay(a, StateOf(a, stream[..n]), stream[n..m])
  {
    assert stream[..n] + stream[n..m] == stream[..m];
    ReplayConcat(a, a.initial, stream[..n], stream[n..m]);
  }
}

/** Stream versions, expected versions and snapshots. */
module Streams {
  import opened Prelude
  import opened Codec
  import opened Aggregates

  const MAX_RETRIES: nat := 3

  datatype Expected = Any | NoStream | Exact(version: nat)

  /** How many events a reader at this version has seen. */
  function Seen(version: Option<nat>): nat {
    match version
    case None => 0
    case Some(v) => v + 1
  }

  function Expect(version: Option<nat>): Expected {
    match version
    case None => NoStream
    case Some(v) => Exact(v)
  }

  /** The server's check of an expected version against a stream of `length` events. */
  predicate Accepts(expected: Expected, length: nat) {
    match expected
    case Any => true
    case NoStream => length == 0
    case Exact(v) => length == v + 1
  }

  /** The check passes exactly when the client has seen the whole stream. */
  lemma AcceptsWhenCurrent(version: Option<nat>, length: nat)
    ensures Accepts(Expect(version), length) <==> length == Seen(version)
  {
  }

  /** Event i of a stream has version i. */
  ghost predicate Numbered(stream: seq<Recorded>) {
    forall i :: 0 <= i < |stream| ==> stream[i].version == i
  }

  datatype Snapshot<S> = Snapshot(state: S, version: nat)

  /** What an actor holding this state and version writes on exit. */
  function SnapshotOf<S>(state: S, version: Option<nat>): Snapshot<S> {
    Snapshot(state, if version.Some? then version.value else 0)
  }

  function StartState<S, C, E, X>(a: Aggregate<S, C, E, X>, snapshot: Option<Snapshot<S>>): S {
    if snapshot.Some? then snapshot.value.state else a.initial
  }

  function StartVersion<S>(snapshot: Option<Snapshot<S>>): Option<nat> {
    if snapshot.Some? then Some(snapshot.value.version) else None
  }

  /** The cached pair is the meaning of the prefix it claims to have seen. */
  ghost predicate AtPrefix<S, C, E, X>(a: Aggregate<S, C, E, X>, stream: seq<Recorded>, state: S,
                                       version: Option<nat>) {
    Seen(version) <= |stream| && state == StateOf(a, stream[..Seen(version)])
  }

  ghost predicate GoodSnapshot<S, C, E, X>(a: Aggregate<S, C, E, X>, stream: seq<Recorded>, s: Snapshot<S>) {
    AtPrefix(a, stream, s.state, Some(s.version))
  }

  /** Version after reading `events`: that of the last one, if there was one. */
  function VersionAfter(version: Option<nat>, events: seq<Recorded>): Option<nat> {
    if events == [] then version else Some(events[|events| - 1].version)
  }

  /** What a reader asking from `from` can be sent: nothing when it asks past the end. */
  function Tail(stream: seq<Recorded>, from: nat): seq<Recorded> {
    if from <= |stream| then stream[from..] else []
  }

  /** Reading any contiguous piece of the tail keeps a cached pair at a prefix, never an earlier one. */
  lemma ReadKeepsPrefix<S, C, E, X>(a: Aggregate<S, C, E, X>, stream: seq<Recorded>, state: S, version: Option<nat>,
                                    events: seq<Recorded>)
    requires Numbered(stream) && AtPrefix(a, stream, state, version) && events <= Tail(stream, Seen(version))
    ensures AtPrefix(a, stream, Replay(a, state, events), VersionAfter(version, events))
    ensures Seen(VersionAfter(version, events)) == Seen(version) + |events|
  {
    var n := Seen(version);
    assert events == stream[n..n + |events|];
    if events != [] {
      assert events[|events| - 1] == stream[n + |events| - 1];
    }
    StateOfExtends(a, stream, n, n + |events|);
  }

  /** A cached pair stays at a prefix however the stream grows. */
  lemma GrowthKeepsPrefix<S, C, E, X>(a: Aggregate<S, C, E, X>, stream: seq<Recorded>, grown: seq<Recorded>, state: S,
                                      version: Option<nat>)
    requires AtPrefix(a, stream, state, version) && stream <= grown
    ensures AtPrefix(a, grown, state, version)
  {
    assert grown[..Seen(version)] == stream[..Seen(version)];
  }

  /**
   * Recovery: starting from any good snapshot, however old, and reading the
   * whole tail gives the state and version of a replay from the first event.
   */
  lemma RecoveryEqualsReplay<S, C, E, X>(a: Aggregate<S, C, E, X>, old_: seq<Recorded>, stream: seq<Recorded>,
                                         s: Snapshot<S>)
    requires Numbered(stream) && old_ <= stream && GoodSnapshot(a, old_, s)
    ensures Replay(a, s.state, Tail(stream, s.version + 1)) == StateOf(a, stream)
    ensures VersionAfter(Some(s.version), Tail(stream, s.version + 1)) == VersionAfter(None, stream)
  {
    GrowthKeepsPrefix(a, old_, stream, s.state, Some(s.version));
    ReadKeepsPrefix(a, stream, s.state, Some(s.version), Tail(stream, s.version + 1));
    assert stream[..|stream|] == stream;
  }

  /**
   * The snapshot an actor leaves behind is good exactly when the actor had
   * seen an event, or an event it had not seen happens to change nothing.
   */
  lemma SavedSnapshotIsGood<S, C, E, X>(a: Aggregate<S, C, E, X>, stream: seq<Recorded>, state: S, version: Option<nat>)
    requires AtPrefix(a, stream, state, version)
    ensures GoodSnapshot(a, stream, SnapshotOf(state, version)) <==>
            version.Some? || (stream != [] && ApplyOne(a, a.initial, stream[0]) == a.initial)
  {
    if version.None? && stream != [] {
      assert stream[..1] == [stream[0]];
      assert Replay(a, a.initial, stream[..1]) == ApplyOne(a, a.initial, stream[0]);
    }
  }

  /**
   * An actor that never saw an event saves version 0. Whoever starts from that
   * file replays everything but event 0; the file is right exactly when that
   * event changes nothing.
   */
  lemma UnseenSnapshotSkipsFirstEvent<S, C, E, X>(a: Aggregate<S, C, E, X>, stream: seq<Recorded>)
    requires stream != []
    ensures var s := SnapshotOf(a.initial, None);
            var recovered := Replay(a, s.state, Tail(stream, Seen(Some(s.version))));
            && recovered == Replay(a, a.initial, stream[1..])
            && StateOf(a, stream) == Replay(a, ApplyOne(a, a.initial, stream[0]), stream[1..])
            && (GoodSnapshot(a, stream, s) <==> ApplyOne(a, a.initial, stream[0]) == a.initial)
            && (GoodSnapshot(a, stream, s) ==> recovered == StateOf(a, stream))
  {
    SavedSnapshotIsGood(a, stream, a.initial, None);
    assert stream[..1] == [stream[0]] && stream[..|stream|] == stream;
    StateOfExtends(a, stream, 1, |stream|);
    assert Replay(a, a.initial, stream[..1]) == ApplyOne(a, Replay(a, a.initial, stream[..0]), stream[0]);
  }
}
