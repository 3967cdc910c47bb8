/**
 * Projections and process managers: a state and a cursor over the global log.
 *
 * Both are a `Consumer`. A projection is a consumer that never emits; a process
 * manager emits command envelopes. The reference is one pass over a prefix of
 * the log; everything the runners do is compared with it.
 */
module Consumers {
  import opened Prelude
  import opened Codec
  import opened Environment

  /** `react` is `Projection::apply` or `ProcessManager::react`: the next state and what it emits. */
  datatype Consumer<!T, !O> = Consumer(wire: Wire, initial: T, react: (T, StoredEvent) -> (T, seq<O>))

  /** The cursor is the next global position to read from. */
  datatype Checkpoint<T> = Checkpoint(state: T, cursor: nat)

  /** The global log: positions strictly increase, with or without gaps. */
  ghost predicate Ordered(log: seq<Recorded>) {
    forall i, j :: 0 <= i < j < |log| ==> log[i].position < log[j].position
  }

  // ---------- The reference: one pass over a prefix ----------

  function React<T, O>(c: Consumer<T, O>, state: T, r: Recorded): (T, seq<O>) {
    match DecodeStored(c.wire, r)
    case None => (state, [])
    case Some(e) => c.react(state, e)
  }

  function Fold<T, O>(c: Consumer<T, O>, log: seq<Recorded>): T {
    if log == [] then c.initial
    else React(c, Fold(c, log[..|log| - 1]), log[|log| - 1]).0
  }

  /** What event i makes the consumer emit, given all before it. */
  function Emits<T, O>(c: Consumer<T, O>, log: seq<Recorded>, i: nat): seq<O>
    requires i < |log|
  {
    React(c, Fold(c, log[..i]), log[i]).1
  }

  /** What events from `lo` up to `hi` make the consumer emit, in order. */
  function Emitted<T, O>(c: Consumer<T, O>, log: seq<Recorded>, lo: nat, hi: nat): seq<O>
    requires lo <= hi <= |log|
  {
    if lo == hi then [] else Emitted(c, log, lo, hi - 1) + Emits(c, log, hi - 1)
  }

  /** The cursor after the first `n` events. */
  function Mark(log: seq<Recorded>, n: nat): nat
    requires n <= |log|
  {
    if n == 0 then 0 else log[n - 1].position + 1
  }

  function Pass<T, O>(c: Consumer<T, O>, log: seq<Recorded>, n: nat): Checkpoint<T>
    requires n <= |log|
  {
    Checkpoint(Fold(c, log[..n]), Mark(log, n))
  }

  /** How many events lie below a cursor. */
  function Behind(log: seq<Recorded>, cursor: nat): (n: nat)
    ensures n <= |log|
    ensures n > 0 ==> log[n - 1].position < cursor
    ensures n < |log| ==> cursor <= log[n].position
  {
    if log == [] then 0
    else if log[|log| - 1].position < cursor then |log|
    else Behind(log[..|log| - 1], cursor)
  }

  // ---------- The reference, said with `react` only ----------

  /** The events of the log that decode, in order: the others are skipped. */
  function Stored(w: Wire, log: seq<Recorded>): seq<StoredEvent> {
    if log == [] then []
    else
      Stored(w, log[..|log| - 1]) + match DecodeStored(w, log[|log| - 1]) case None => [] case Some(e) => [e]
  }

  lemma {:induction false} StoredConcat(w: Wire, left: seq<Recorded>, right: seq<Recorded>)
    ensures Stored(w, left + right) == Stored(w, left) + Stored(w, right)
    decreases |right|
  {
    hide DecodeStored;
    if right == [] {
      assert left + right == left;
    } else {
      assert (left + right)[..|left + right| - 1] == left + right[..|right| - 1];
      StoredConcat(w, left, right[..|right| - 1]);
    }
  }

  lemma StoredOne(w: Wire, r: Recorded)
    ensures Stored(w, [r]) == match DecodeStored(w, r) case None => [] case Some(e) => [e]
  {
    hide DecodeStored;
    assert [r][..0] == [];
  }

  /** Reacting to events one after the other: the last state and all that was emitted. */
  function ReactAll<T, O>(c: Consumer<T, O>, events: seq<StoredEvent>): (T, seq<O>) {
    if events == [] then (c.initial, [])
    else
      var (state, emitted) := ReactAll(c, events[..|events| - 1]);
      var (next, more) := c.react(state, events[|events| - 1]);
      (next, emitted + more)
  }

  /**
   * One pass over the log is `react` over the events that decode, and nothing
   * else: an event that does not decode leaves the state and emits nothing.
   */
  lemma {:induction false} PassIsReactAll<T, O>(c: Consumer<T, O>, log: seq<Recorded>)
    ensures (Fold(c, log), Emitted(c, log, 0, |log|)) == ReactAll(c, Stored(c.wire, log))
  {
    if log != [] {
      hide DecodeStored;
      var front, last := log[..|log| - 1], log[|log| - 1];
      PassIsReactAll(c, front);
      EmittedGrows(c, front, log, 0, |front|);
      var events := Stored(c.wire, front);
      assert Emitted(c, log, 0, |log|) == Emitted(c, front, 0, |front|) + Emits(c, log, |front|);
      match DecodeStored(c.wire, last) {
        case None =>
          assert events + [] == events;
          assert Emitted(c, front, 0, |front|) + [] == Emitted(c, front, 0, |front|);
        case Some(e) => assert (events + [e])[..|events|] == events;
      }
    }
  }

  /** The checkpoint is what one pass over the events below its cursor gives. */
  ghost predicate Correct<T, O>(c: Consumer<T, O>, log: seq<Recorded>, cp: Checkpoint<T>) {
    cp == Pass(c, log, Behind(log, cp.cursor))
  }

  lemma MarkCounts(log: seq<Recorded>, n: nat)
    requires Ordered(log) && n <= |log|
    ensures Behind(log, Mark(log, n)) == n
  {
  }

  lemma BehindMonotone(log: seq<Recorded>, low: nat, high: nat)
    requires Ordered(log) && low <= high
    ensures Behind(log, low) <= Behind(log, high)
  {
  }

  lemma PassIsCorrect<T, O>(c: Consumer<T, O>, log: seq<Recorded>, n: nat)
    requires Ordered(log) && n <= |log|
    ensures Correct(c, log, Pass(c, log, n)) && Behind(log, Pass(c, log, n).cursor) == n
  {
    MarkCounts(log, n);
  }

  lemma {:induction false} EmittedConcat<T, O>(c: Consumer<T, O>, log: seq<Recorded>, lo: nat, mid: nat, hi: nat)
    requires lo <= mid <= hi <= |log|
    ensures Emitted(c, log, lo, hi) == Emitted(c, log, lo, mid) + Emitted(c, log, mid, hi)
    decreases hi
  {
    hide Emits;
    if mid < hi {
      EmittedConcat(c, log, lo, mid, hi - 1);
    }
  }

  /** The past does not change when the log grows. */
  lemma CorrectGrows<T, O>(c: Consumer<T, O>, log: seq<Recorded>, grown: seq<Recorded>, cp: Checkpoint<T>)
    requires Ordered(grown) && log <= grown && Correct(c, log, cp)
    ensures Correct(c, grown, cp) && Behind(grown, cp.cursor) == Behind(log, cp.cursor)
  {
    var n := Behind(log, cp.cursor);
    assert grown[..n] == log[..n];
    MarkCounts(grown, n);
  }

  lemma {:induction false} EmittedGrows<T, O>(c: Consumer<T, O>, log: seq<Recorded>, grown: seq<Recorded>,
                                              lo: nat, hi: nat)
    requires log <= grown && lo <= hi <= |log|
    ensures Emitted(c, grown, lo, hi) == Emitted(c, log, lo, hi)
    decreases hi
  {
    if lo < hi {
      EmittedGrows(c, log, grown, lo, hi - 1);
      assert grown[..hi - 1] == log[..hi - 1];
    }
  }

  // ---------- What the runners do ----------

  /** `apply_recorded_event` and `react_recorded_event`: skip what lies below the cursor, otherwise move past it. */
  function Advance<T, O>(c: Consumer<T, O>, cp: Checkpoint<T>, r: Recorded): (Checkpoint<T>, seq<O>) {
    if r.position < cp.cursor then (cp, [])
    else
      var (state, emitted) := React(c, cp.state, r);
      (Checkpoint(state, r.position + 1), emitted)
  }

  /** One more event after what was done so far. */
  function Then<T, O>(c: Consumer<T, O>, done: (Checkpoint<T>, seq<O>), r: Recorded): (Checkpoint<T>, seq<O>) {
    var (after, emitted) := Advance(c, done.0, r);
    (after, done.1 + emitted)
  }

  function AdvanceAll<T, O>(c: Consumer<T, O>, cp: Checkpoint<T>, events: seq<Recorded>): (Checkpoint<T>, seq<O>) {
    if events == [] then (cp, [])
    else Then(c, AdvanceAll(c, cp, events[..|events| - 1]), events[|events| - 1])
  }

  lemma BelowCursor(log: seq<Recorded>, cursor: nat, i: nat)
    requires Ordered(log) && i < Behind(log, cursor)
    ensures log[i].position < cursor
  {
    assert i == Behind(log, cursor) - 1 || log[i].position < log[Behind(log, cursor) - 1].position;
  }

  /** The event right after the prefix passed so far. */
  lemma NextFollowsPass<T, O>(c: Consumer<T, O>, log: seq<Recorded>, i: nat)
    requires Ordered(log) && i < |log|
    ensures Advance(c, Pass(c, log, i), log[i]) == (Pass(c, log, i + 1), Emits(c, log, i))
    ensures Emitted(c, log, i, i + 1) == Emits(c, log, i)
  {
    assert log[..i + 1][..i] == log[..i];
    assert i > 0 ==> log[i - 1].position < log[i].position;
    assert Emitted(c, log, i, i + 1) == [] + Emits(c, log, i);
  }

  /** One delivery without a gap: a replayed event changes nothing, the next one is passed exactly once. */
  lemma AdvanceFollowsPass<T, O>(c: Consumer<T, O>, log: seq<Recorded>, cp: Checkpoint<T>, i: nat)
    requires Ordered(log) && Correct(c, log, cp) && i < |log| && i <= Behind(log, cp.cursor)
    ensures var n := Behind(log, cp.cursor);
            var m := Max(n, i + 1);
            Advance(c, cp, log[i]) == (Pass(c, log, m), Emitted(c, log, n, m))
  {
    if i < Behind(log, cp.cursor) {
      BelowCursor(log, cp.cursor, i);
    } else {
      NextFollowsPass(c, log, i);
    }
  }

  lemma AdvanceLast<T, O>(c: Consumer<T, O>, cp: Checkpoint<T>, events: seq<Recorded>, r: Recorded)
    ensures AdvanceAll(c, cp, events + [r]) == Then(c, AdvanceAll(c, cp, events), r)
  {
    assert (events + [r])[..|events|] == events;
  }

  /** One batch, any contiguous piece of the log that starts at or below the cursor. */
  lemma BatchFollowsPass<T, O>(c: Consumer<T, O>, log: seq<Recorded>, cp: Checkpoint<T>, lo: nat, hi: nat)
    requires Ordered(log) && Correct(c, log, cp) && lo <= hi <= |log| && lo <= Behind(log, cp.cursor)
    ensures var n := Behind(log, cp.cursor);
            var m := Max(n, hi);
            AdvanceAll(c, cp, log[lo..hi]) == (Pass(c, log, m), Emitted(c, log, n, m))
  {
    PassContinues(c, log, Behind(log, cp.cursor), lo, hi);
  }

  lemma {:induction false} PassContinues<T, O>(c: Consumer<T, O>, log: seq<Recorded>, n: nat, lo: nat, hi: nat)
    requires Ordered(log) && lo <= hi <= |log| && lo <= n <= |log|
    ensures var m := Max(n, hi);
            AdvanceAll(c, Pass(c, log, n), log[lo..hi]) == (Pass(c, log, m), Emitted(c, log, n, m))
    decreases hi
  {
    hide Fold, Emits, Advance;
    if lo < hi {
      PassContinues(c, log, n, lo, hi - 1);
      AdvanceLast(c, Pass(c, log, n), log[lo..hi - 1], log[hi - 1]);
      assert log[lo..hi - 1] + [log[hi - 1]] == log[lo..hi];
      OneMore(c, log, n, hi);
    }
  }

  /** A pass over n events, or over hi - 1 if that is more, and then event hi - 1. */
  lemma OneMore<T, O>(c: Consumer<T, O>, log: seq<Recorded>, n: nat, hi: nat)
    requires Ordered(log) && n <= |log| && 0 < hi <= |log|
    ensures var m := Max(n, hi - 1);
            Then(c, (Pass(c, log, m), Emitted(c, log, n, m)), log[hi - 1])
            == (Pass(c, log, Max(n, hi)), Emitted(c, log, n, Max(n, hi)))
  {
    var m := Max(n, hi - 1);
    PassIsCorrect(c, log, m);
    AdvanceFollowsPass(c, log, Pass(c, log, m), hi - 1);
    EmittedConcat(c, log, n, m, Max(n, hi));
  }

  /** A way of cutting the log into deliveries; pieces may overlap, and a failed one may be redelivered. */
  datatype Piece = Piece(lo: nat, hi: nat)

  function Reach(pieces: seq<Piece>, n: nat): nat {
    if pieces == [] then n else Max(Reach(pieces[..|pieces| - 1], n), pieces[|pieces| - 1].hi)
  }

  /** Every piece starts no later than where the earlier ones ended. */
  predicate GapFree(log: seq<Recorded>, pieces: seq<Piece>, n: nat) {
    pieces != [] ==>
      && GapFree(log, pieces[..|pieces| - 1], n)
      && pieces[|pieces| - 1].lo <= pieces[|pieces| - 1].hi <= |log|
      && pieces[|pieces| - 1].lo <= Reach(pieces[..|pieces| - 1], n)
  }

  function Deliver<T, O>(c: Consumer<T, O>, log: seq<Recorded>, cp: Checkpoint<T>, pieces: seq<Piece>, n: nat)
    : (Checkpoint<T>, seq<O>)
    requires GapFree(log, pieces, n)
  {
    if pieces == [] then (cp, [])
    else
      var last := pieces[|pieces| - 1];
      var (before, earlier) := Deliver(c, log, cp, pieces[..|pieces| - 1], n);
      var (after, emitted) := AdvanceAll(c, before, log[last.lo..last.hi]);
      (after, earlier + emitted)
  }

  /**
   * Batching independence. However the log is cut into pull batches and single
   * live events, with whatever overlap, the checkpoint and the concatenated
   * envelopes are those of one pass over the same prefix. Started from any
   * correct checkpoint, so a rebuild from an old file, or from nothing, agrees.
   */
  lemma {:induction false} BatchingIndependence<T, O>(c: Consumer<T, O>, log: seq<Recorded>, cp: Checkpoint<T>,
                                                      pieces: seq<Piece>, n: nat)
    requires Ordered(log) && Correct(c, log, cp) && n == Behind(log, cp.cursor) && GapFree(log, pieces, n)
    ensures n <= Reach(pieces, n) <= |log|
    ensures Deliver(c, log, cp, pieces, n) == (Pass(c, log, Reach(pieces, n)), Emitted(c, log, n, Reach(pieces, n)))
    decreases |pieces|
  {
    if pieces != [] {
      var front, last := pieces[..|pieces| - 1], pieces[|pieces| - 1];
      BatchingIndependence(c, log, cp, front, n);
      PassIsCorrect(c, log, Reach(front, n));
      BatchFollowsPass(c, log, Pass(c, log, Reach(front, n)), last.lo, last.hi);
      EmittedConcat(c, log, n, Reach(front, n), Reach(pieces, n));
    }
  }

  /**
   * Rebuild equivalence: two correct checkpoints of one consumer, taken
   * whenever, that are caught up to the same place are the same checkpoint.
   */
  lemma RebuildEquivalence<T, O>(c: Consumer<T, O>, log: seq<Recorded>, cp: Checkpoint<T>, other: Checkpoint<T>,
                                 pieces: seq<Piece>, others: seq<Piece>)
    requires Ordered(log) && Correct(c, log, cp) && Correct(c, log, other)
    requires GapFree(log, pieces, Behind(log, cp.cursor)) && GapFree(log, others, Behind(log, other.cursor))
    ensures var x := Deliver(c, log, cp, pieces, Behind(log, cp.cursor)).0;
            var y := Deliver(c, log, other, others, Behind(log, other.cursor)).0;
            x.cursor == y.cursor ==> x == y
  {
    var n, m := Behind(log, cp.cursor), Behind(log, other.cursor);
    BatchingIndependence(c, log, cp, pieces, n);
    BatchingIndependence(c, log, other, others, m);
    MarkCounts(log, Reach(pieces, n));
    MarkCounts(log, Reach(others, m));
  }

  // ---------- The runner ----------

  datatype Message = Event(recorded: Recorded) | CaughtUp | Empty | Failure

  /** The events a stream yields before it says CaughtUp, fails or ends. */
  function Yield(messages: seq<Message>): seq<Recorded> {
    if messages == [] || messages[0].CaughtUp? || messages[0].Failure? then []
    else (if messages[0].Event? then [messages[0].recorded] else []) + Yield(messages[1..])
  }

  /** Whether a stream fails before it says CaughtUp or ends. */
  predicate Fails(messages: seq<Message>) {
    messages != [] && !messages[0].CaughtUp? && (messages[0].Failure? || Fails(messages[1..]))
  }

  /** The stream is still open: nothing so far was CaughtUp or a failure. */
  predicate Open(messages: seq<Message>) {
    forall i :: 0 <= i < |messages| ==> !messages[i].CaughtUp? && !messages[i].Failure?
  }

  /** Piece by piece: what comes after CaughtUp or a failure does not count, and up to there every event does. */
  lemma {:induction false} YieldConcat(left: seq<Message>, right: seq<Message>)
    ensures Open(left) ==> Yield(left + right) == Yield(left) + Yield(right) && (Fails(left + right) <==> Fails(right))
    ensures !Open(left) ==> Yield(left + right) == Yield(left) && (Fails(left + right) <==> Fails(left))
  {
    if left == [] {
      assert left + right == right;
    } else {
      assert (left + right)[1..] == left[1..] + right;
      YieldConcat(left[1..], right);
    }
  }

  lemma YieldOne(message: Message)
    ensures Yield([message]) == if message.Event? then [message.recorded] else []
    ensures Fails([message]) <==> message.Failure?
  {
    assert [message][1..] == [];
  }

  lemma OpenIsAll(messages: seq<Message>)
    requires messages != []
    ensures Open(messages) <==> !messages[0].CaughtUp? && !messages[0].Failure? && Open(messages[1..])
  {
    assert messages == [messages[0]] + messages[1..];
  }

  lemma {:induction false} FailsExactlyWhen(messages: seq<Message>)
    ensures Fails(messages) <==>
            exists i :: 0 <= i < |messages| && messages[i].Failure? && Open(messages[..i])
  {
    if messages != [] {
      var first, rest := messages[0], messages[1..];
      FailsExactlyWhen(rest);
      if first.Failure? {
        assert Open(messages[..0]);
      } else if Fails(rest) && !first.CaughtUp? {
        var i :| 0 <= i < |rest| && rest[i].Failure? && Open(rest[..i]);
        assert messages[..i + 1] == [first] + rest[..i];
      } else {
        forall i | 0 <= i < |messages| && messages[i].Failure? ensures !Open(messages[..i]) {
          assert messages[..i][0] == first && rest[i - 1].Failure?;
          assert rest[..i - 1] == messages[..i][1..];
          OpenIsAll(messages[..i]);
        }
      }
    }
  }

  /** A subscription from a cursor yields a contiguous run of the log starting with the first event not below it. */
  ghost predicate Subscribed(log: seq<Recorded>, cursor: nat, messages: seq<Message>) {
    Yield(messages) <= log[Behind(log, cursor)..]
  }

  /** A runner went from `was` to `now` by draining `messages`, one pass over a longer prefix, and emitted `out`. */
  ghost predicate Pulled<T, O>(c: Consumer<T, O>, log: seq<Recorded>, was: Checkpoint<T>, now: Checkpoint<T>,
                               messages: seq<Message>, out: seq<O>)
  {
    var n := Behind(log, was.cursor);
    var m := n + |Yield(messages)|;
    && m <= |log|
    && now == Pass(c, log, m)
    && Behind(log, now.cursor) == m
    && out == Emitted(c, log, n, m)
  }

  lemma DrainingFollowsPass<T, O>(c: Consumer<T, O>, log: seq<Recorded>, cp: Checkpoint<T>, messages: seq<Message>)
    requires Ordered(log) && Correct(c, log, cp) && Subscribed(log, cp.cursor, messages)
    ensures var (after, emitted) := AdvanceAll(c, cp, Yield(messages));
            Pulled(c, log, cp, after, messages, emitted) && Correct(c, log, after)
  {
    hide Advance, Then, AdvanceAll, Fold, Mark, Emitted, Behind, Correct, Yield;
    var n, events := Behind(log, cp.cursor), Yield(messages);
    var m := n + |events|;
    YieldedRun(log, n, events);
    RunFollowsPass(c, log, cp, m);
  }

  lemma YieldedRun(log: seq<Recorded>, n: nat, events: seq<Recorded>)
    requires n <= |log| && events <= log[n..]
    ensures n + |events| <= |log| && events == log[n..n + |events|]
  {
  }

  /** A runner that reads on from its own cursor. */
  lemma RunFollowsPass<T, O>(c: Consumer<T, O>, log: seq<Recorded>, cp: Checkpoint<T>, m: nat)
    requires Ordered(log) && Correct(c, log, cp) && Behind(log, cp.cursor) <= m <= |log|
    ensures var n := Behind(log, cp.cursor);
            AdvanceAll(c, cp, log[n..m]) == (Pass(c, log, m), Emitted(c, log, n, m))
    ensures Correct(c, log, Pass(c, log, m)) && Behind(log, Pass(c, log, m).cursor) == m
  {
    BatchFollowsPass(c, log, cp, Behind(log, cp.cursor), m);
    PassIsCorrect(c, log, m);
  }

  /** Every event that comes before CaughtUp or a failure is passed. */
  lemma {:induction false} DrainedIsPassed<T, O>(c: Consumer<T, O>, cp: Checkpoint<T>, messages: seq<Message>, i: nat)
    requires i < |messages| && messages[i].Event? && Open(messages[..i])
    ensures messages[i].recorded.position < AdvanceAll(c, cp, Yield(messages)).0.cursor
  {
    hide Yield;
    var r := messages[i].recorded;
    assert messages == messages[..i] + ([messages[i]] + messages[i + 1..]);
    YieldConcat(messages[..i], [messages[i]] + messages[i + 1..]);
    YieldConcat([messages[i]], messages[i + 1..]);
    YieldOne(messages[i]);
    var before, after := Yield(messages[..i]), Yield(messages[i + 1..]);
    assert Yield(messages) == before + [r] + after;
    AdvanceLast(c, cp, before, r);
    CursorsOnlyRise(c, cp, before + [r], after);
  }

  lemma {:induction false} CursorsOnlyRise<T, O>(c: Consumer<T, O>, cp: Checkpoint<T>, left: seq<Recorded>,
                                                 right: seq<Recorded>)
    ensures AdvanceAll(c, cp, left).0.cursor <= AdvanceAll(c, cp, left + right).0.cursor
    decreases |right|
  {
    if right == [] {
      assert left + right == left;
    } else {
      assert (left + right)[..|left + right| - 1] == left + right[..|right| - 1];
      CursorsOnlyRise(c, cp, left, right[..|right| - 1]);
    }
  }

  /** One projection or process manager with its checkpoint file. */
  class Runner<T, O> {
    const consumer: Consumer<T, O>
    var checkpoint: Checkpoint<T>
    /** `None` is a missing or corrupt file. */
    var file: Option<Checkpoint<T>>

    /** Load the file, or start over. */
    constructor (consumer: Consumer<T, O>, file: Option<Checkpoint<T>>)
      ensures this.consumer == consumer && this.file == file
      ensures checkpoint == if file.Some? then file.value else Checkpoint(consumer.initial, 0)
      ensures forall log :: Ordered(log) && (file.Some? ==> Correct(consumer, log, file.value)) ==>
                Correct(consumer, log, checkpoint)
    {
      this.consumer := consumer;
      this.file := file;
      checkpoint := if file.Some? then file.value else Checkpoint(consumer.initial, 0);
      new;
      forall log | Ordered(log) && file.None? ensures Correct(consumer, log, checkpoint) {
        PassIsCorrect(consumer, log, 0);
      }
    }

    /** A runner as it stands, whatever its file holds. */
    constructor At(consumer: Consumer<T, O>, checkpoint: Checkpoint<T>)
      ensures this.consumer == consumer && this.checkpoint == checkpoint && file == None
    {
      this.consumer := consumer;
      this.checkpoint := checkpoint;
      file := None;
    }

    method ApplyEvent(r: Recorded) returns (emitted: seq<O>)
      modifies this`checkpoint
      ensures (checkpoint, emitted) == Advance(consumer, old(checkpoint), r)
      ensures r.position < old(checkpoint.cursor) ==> checkpoint == old(checkpoint) && emitted == []
      ensures r.position >= old(checkpoint.cursor) ==>
                checkpoint.cursor == r.position + 1
                && match DecodeStored(consumer.wire, r)
                   case None => checkpoint.state == old(checkpoint.state) && emitted == []
                   case Some(e) => (checkpoint.state, emitted) == consumer.react(old(checkpoint.state), e)
    {
      if r.position < checkpoint.cursor {
        return [];
      }
      match DecodeStored(consumer.wire, r) {
        case Some(e) =>
          var reaction := consumer.react(checkpoint.state, e);
          checkpoint := Checkpoint(reaction.0, r.position + 1);
          return reaction.1;
        case None =>
          checkpoint := checkpoint.(cursor := r.position + 1);
          return [];
      }
    }

    /** Drain a subscription up to CaughtUp. A failure discards what was emitted but not how far it got. */
    method ProcessStream(messages: seq<Message>) returns (r: Result<seq<O>, ()>)
      modifies this`checkpoint
      ensures var (after, emitted) := AdvanceAll(consumer, old(checkpoint), Yield(messages));
              checkpoint == after && r == if Fails(messages) then Err(()) else Ok(emitted)
      ensures r.Err? <==> exists i :: 0 <= i < |messages| && messages[i].Failure? && Open(messages[..i])
    {
      FailsExactlyWhen(messages);
      hide Advance, Open, DecodeStored;
      var emitted: seq<O> := [];
      ghost var seen: seq<Recorded> := [];
      for i := 0 to |messages|
        invariant (checkpoint, emitted) == AdvanceAll(consumer, old(checkpoint), seen)
        invariant seen + Yield(messages[i..]) == Yield(messages)
        invariant Fails(messages[i..]) == Fails(messages)
      {
        assert messages[i..][0] == messages[i] && messages[i..][1..] == messages[i + 1..];
        match messages[i] {
          case Event(r) =>
            var produced := ApplyEvent(r);
            emitted := emitted + produced;
            assert (seen + [r])[..|seen|] == seen;
            seen := seen + [r];
          case CaughtUp =>
            assert seen + [] == seen;
            break;
          case Empty =>
          case Failure =>
            assert seen + [] == seen;
            return Err(());
        }
      }
      assert seen + [] == seen;
      return Ok(emitted);
    }

    /** Whatever the subscription yields and however it ends, the runner is at one pass over a longer prefix. */
    method CatchUp(ghost log: seq<Recorded>, messages: seq<Message>)
      returns (r: Result<seq<O>, ()>, ghost emitted: seq<O>)
      requires Ordered(log) && Correct(consumer, log, checkpoint) && Subscribed(log, checkpoint.cursor, messages)
      modifies this`checkpoint
      ensures Pulled(consumer, log, old(checkpoint), checkpoint, messages, emitted)
      ensures (checkpoint, emitted) == AdvanceAll(consumer, old(checkpoint), Yield(messages))
      ensures Correct(consumer, log, checkpoint)
      ensures r == if Fails(messages) then Err(()) else Ok(emitted)
    {
      DrainingFollowsPass(consumer, log, checkpoint, messages);
      emitted := AdvanceAll(consumer, checkpoint, Yield(messages)).1;
      r := ProcessStream(messages);
    }

    /** Replace the file, or fail and leave it. */
    method Save(disk: Disk) returns (saved: bool)
      modifies this`file, disk
      ensures disk.saves == old(disk.saves) + [Saving(0, saved)]
      ensures file == if saved then Some(checkpoint) else old(file)
    {
      saved := disk.Save(0);
      if saved {
        file := Some(checkpoint);
      }
    }

    /** A projection's `catch_up`: it saves by itself, but only after a clean pass. */
    method CatchUpAndSave(ghost log: seq<Recorded>, messages: seq<Message>, disk: Disk)
      returns (ok: bool, ghost emitted: seq<O>)
      requires Ordered(log) && Correct(consumer, log, checkpoint) && Subscribed(log, checkpoint.cursor, messages)
      requires file.Some? ==> Correct(consumer, log, file.value)
      modifies this, disk
      ensures Pulled(consumer, log, old(checkpoint), checkpoint, messages, emitted)
      ensures disk.saves == old(disk.saves) + if Fails(messages) then [] else [Saving(0, ok)]
      ensures file.Some? ==> Correct(consumer, log, file.value)
      ensures if ok then !Fails(messages) && file == Some(checkpoint) else file == old(file)
    {
      hide Correct, Pulled, Subscribed, Behind, AdvanceAll, Yield;
      var r;
      r, emitted := CatchUp(log, messages);
      ok := false;
      if r.Ok? {
        ok := Save(disk);
      }
    }
  }
}
