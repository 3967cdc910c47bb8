/**
 * The live loop of src/live.rs, interleaved with pull passes, ticks, shutdown,
 * crashes and file loss: a transition system over every runner of a store.
 *
 * Fan-out to one runner and dispatch of one envelope are separate steps: the
 * loop's `select!` may save or shut down between any two of them.
 */
module LiveSystem {
  import opened Prelude
  import opened Codec
  import opened Consumers

  const U64_MAX: nat := 0xFFFF_FFFF_FFFF_FFFF

  /** A command of one process manager, by the index of its runner. */
  datatype Envelope<O> = Envelope(runner: nat, command: O)

  datatype Outcome = Dispatched | DeadLettered | DeadLetterFailed

  datatype Phase<O> =
    | Down
    | Off
    | Scanning(scanned: nat, low: nat)
    | Streaming(next: nat)
    | FanOut(event: nat, reached: nat, queue: seq<Envelope<O>>)
    | Dispatching(event: nat, queue: seq<Envelope<O>>)
    | Stopped(event: nat, queue: seq<Envelope<O>>)

  /**
   * `disk` holds the checkpoint files and `archive` every checkpoint ever saved;
   * `settled` are the attempts that ended dispatched or dead-lettered.
   * `base`, `mark` and `pulled` remember the start of the live run: how far each
   * runner was, how many envelopes had been attempted, and who was pulled since.
   */
  datatype Live<T, O> = Live(
    log: seq<Recorded>,
    mem: seq<Checkpoint<T>>,
    disk: seq<Option<Checkpoint<T>>>,
    archive: seq<(nat, Checkpoint<T>)>,
    phase: Phase<O>,
    attempted: seq<Envelope<O>>,
    settled: seq<Envelope<O>>,
    sent: seq<nat>,
    base: seq<nat>,
    mark: nat,
    pulled: set<nat>)

  datatype Step =
    | Grow(more: seq<Recorded>)
    | Open
    | Start
    | Scan
    | Subscribe
    | Deliver
    | FanOutNext
    | Dispatch(outcome: Outcome)
    | Notify
    | Disconnect
    | Save(runner: nat)
    | Pull(runner: nat, upto: nat)
    | Stop
    | Crash
    | Forget(runner: nat)
    | Restore(index: nat)

  type Registry<!T, !O> = seq<Consumer<T, O>>

  function Wrap<O>(runner: nat, commands: seq<O>): seq<Envelope<O>> {
    seq(|commands|, i requires 0 <= i < |commands| => Envelope(runner, commands[i]))
  }

  /** The commands of one runner, in order. */
  function Of<O>(runner: nat, envelopes: seq<Envelope<O>>): seq<O> {
    if envelopes == [] then []
    else (if envelopes[0].runner == runner then [envelopes[0].command] else []) + Of(runner, envelopes[1..])
  }

  /** Envelopes collected from the event in flight and not yet attempted. */
  function Queue<O>(phase: Phase<O>): seq<Envelope<O>> {
    if phase.FanOut? || phase.Dispatching? || phase.Stopped? then phase.queue else []
  }

  function Load<T, O>(c: Consumer<T, O>, file: Option<Checkpoint<T>>): Checkpoint<T> {
    if file.Some? then file.value else Checkpoint(c.initial, 0)
  }

  /** Where the loop subscribes after a scan that found `low`. */
  function From(low: nat): nat {
    if low == U64_MAX then 0 else low
  }

  function Reached<T, O>(s: Live<T, O>, k: nat): nat
    requires k < |s.mem|
  {
    Behind(s.log, s.mem[k].cursor)
  }

  ghost predicate Next<T, O>(c: Registry<T, O>, s: Live<T, O>, t: Live<T, O>, step: Step) {
    && |s.mem| == |s.disk| == |c|
    && match step
       case Grow(more) => Grows(s, t, more)
       case Open => Opens(c, s, t)
       case Start => Starts(s, t)
       case Scan => Scans(s, t)
       case Subscribe => Subscribes(s, t)
       case Deliver => Delivers(s, t)
       case FanOutNext => FansOut(c, s, t)
       case Dispatch(outcome) => Dispatches(s, t, outcome)
       case Notify => Notifies(s, t)
       case Disconnect => s.phase.Streaming? && t == s.(phase := Scanning(0, U64_MAX))
       case Save(k) => Saves(s, t, k)
       case Pull(k, upto) => Pulls(c, s, t, k, upto)
       case Stop => Stops(s, t)
       case Crash => !s.phase.Down? && t == s.(phase := Down)
       case Forget(k) => s.phase.Down? && k < |c| && t == s.(disk := s.disk[k := None])
       case Restore(i) => Restores(s, t, i)
  }

  ghost predicate Grows<T, O>(s: Live<T, O>, t: Live<T, O>, more: seq<Recorded>) {
    LogOk(s.log + more) && t == s.(log := s.log + more)
  }

  /** A new process loads every checkpoint file. */
  ghost predicate Opens<T, O>(c: Registry<T, O>, s: Live<T, O>, t: Live<T, O>)
    requires |s.disk| == |c|
  {
    && s.phase.Down?
    && t == s.(phase := Off, mem := seq(|c|, k requires 0 <= k < |c| => Load(c[k], s.disk[k])), sent := [])
  }

  ghost predicate Starts<T, O>(s: Live<T, O>, t: Live<T, O>) {
    && s.phase.Off?
    && t == s.(phase := Scanning(0, U64_MAX), base := seq(|s.mem|, k requires 0 <= k < |s.mem| => Reached(s, k)),
               mark := |s.attempted|, pulled := {})
  }

  /** One runner locked and its cursor read. */
  ghost predicate Scans<T, O>(s: Live<T, O>, t: Live<T, O>) {
    && s.phase.Scanning? && s.phase.scanned < |s.mem|
    && t == s.(phase := Scanning(s.phase.scanned + 1, Min(s.phase.low, s.mem[s.phase.scanned].cursor)))
  }

  ghost predicate Subscribes<T, O>(s: Live<T, O>, t: Live<T, O>) {
    && s.phase.Scanning? && s.phase.scanned == |s.mem|
    && t == s.(phase := Streaming(Behind(s.log, From(s.phase.low))))
  }

  ghost predicate Delivers<T, O>(s: Live<T, O>, t: Live<T, O>) {
    s.phase.Streaming? && s.phase.next < |s.log| && t == s.(phase := FanOut(s.phase.next, 0, []))
  }

  ghost predicate FansOut<T, O>(c: Registry<T, O>, s: Live<T, O>, t: Live<T, O>)
    requires |s.mem| == |c|
  {
    && s.phase.FanOut? && s.phase.event < |s.log|
    && var k := s.phase.reached;
       if k < |c| then
         var (after, produced) := Advance(c[k], s.mem[k], s.log[s.phase.event]);
         t == s.(mem := s.mem[k := after], phase := FanOut(s.phase.event, k + 1, s.phase.queue + Wrap(k, produced)))
       else
         t == s.(phase := Dispatching(s.phase.event, s.phase.queue))
  }

  ghost predicate Dispatches<T, O>(s: Live<T, O>, t: Live<T, O>, outcome: Outcome) {
    && s.phase.Dispatching? && s.phase.queue != []
    && t == s.(phase := Dispatching(s.phase.event, s.phase.queue[1..]),
               attempted := s.attempted + [s.phase.queue[0]],
               settled := if outcome.DeadLetterFailed? then s.settled else s.settled + [s.phase.queue[0]])
  }

  ghost predicate Notifies<T, O>(s: Live<T, O>, t: Live<T, O>) {
    && s.phase.Dispatching? && s.phase.queue == [] && s.phase.event < |s.log|
    && t == s.(phase := Streaming(s.phase.event + 1), sent := s.sent + [s.log[s.phase.event].position])
  }

  /** One checkpoint file replaced: a tick, a reconnect, a shutdown or a pull pass. */
  ghost predicate Saves<T, O>(s: Live<T, O>, t: Live<T, O>, k: nat)
    requires |s.mem| == |s.disk|
  {
    && !s.phase.Down? && k < |s.mem|
    && t == s.(disk := s.disk[k := Some(s.mem[k])], archive := s.archive + [(k, s.mem[k])])
  }

  /** A pull pass moves a runner from its own cursor as far as its subscription went. */
  ghost predicate Pulls<T, O>(c: Registry<T, O>, s: Live<T, O>, t: Live<T, O>, k: nat, upto: nat)
    requires |s.mem| == |c|
  {
    && !s.phase.Down? && k < |c| && Reached(s, k) <= upto <= |s.log|
    && t == s.(mem := s.mem[k := AdvanceAll(c[k], s.mem[k], s.log[Reached(s, k)..upto]).0], pulled := s.pulled + {k})
  }

  /** The loop ends where it is; what it had collected and not dispatched is dropped with it. */
  ghost predicate Stops<T, O>(s: Live<T, O>, t: Live<T, O>) {
    && !s.phase.Down? && !s.phase.Off? && !s.phase.Stopped?
    && t == s.(phase := Stopped(if s.phase.FanOut? || s.phase.Dispatching? then s.phase.event else 0, Queue(s.phase)))
  }

  ghost predicate Restores<T, O>(s: Live<T, O>, t: Live<T, O>, i: nat) {
    && s.phase.Down? && i < |s.archive| && s.archive[i].0 < |s.disk|
    && t == s.(disk := s.disk[s.archive[i].0 := Some(s.archive[i].1)])
  }

  /** Positions increase and stay clear of the largest u64. */
  ghost predicate LogOk(log: seq<Recorded>) {
    Ordered(log) && forall i :: 0 <= i < |log| ==> log[i].position + 1 < U64_MAX
  }

  function Initial<T, O>(c: Registry<T, O>): Live<T, O> {
    Live([], seq(|c|, k requires 0 <= k < |c| => Checkpoint(c[k].initial, 0)), seq(|c|, k => None), [], Down,
         [], [], [], seq(|c|, k => 0), 0, {})
  }

  ghost predicate Run<T, O>(c: Registry<T, O>, run: seq<Live<T, O>>, steps: seq<Step>) {
    && |run| == |steps| + 1
    && run[0] == Initial(c)
    && forall i :: 0 <= i < |steps| ==> Linked(c, run, steps, i)
  }

  ghost predicate Linked<T, O>(c: Registry<T, O>, run: seq<Live<T, O>>, steps: seq<Step>, i: nat)
    requires |run| == |steps| + 1 && i < |steps|
  {
    Next(c, run[i], run[i + 1], steps[i])
  }

  // ---------- Folds: every checkpoint is one pass over the log below its cursor ----------

  ghost predicate FoldInv<T, O>(c: Registry<T, O>, s: Live<T, O>) {
    && |s.mem| == |s.disk| == |s.base| == |c|
    && LogOk(s.log)
    && (forall k :: 0 <= k < |c| ==> Correct(c[k], s.log, s.mem[k]))
    && (forall k :: 0 <= k < |c| && s.disk[k].Some? ==> Correct(c[k], s.log, s.disk[k].value))
    && (forall i :: 0 <= i < |s.archive| ==> s.archive[i].0 < |c| && Correct(c[s.archive[i].0], s.log, s.archive[i].1))
  }

  /** The place in the log the live loop has got to never exceeds any runner's, also in the middle of an event. */
  ghost predicate CursorInv<T, O>(s: Live<T, O>) {
    match s.phase
    case Scanning(scanned, low) => scanned <= |s.mem| && forall k :: 0 <= k < scanned ==> low <= s.mem[k].cursor
    case Streaming(next) => next <= |s.log| && forall k :: 0 <= k < |s.mem| ==> next <= Reached(s, k)
    case FanOut(event, reached, _) =>
      && event < |s.log| && reached <= |s.mem|
      && (forall k :: 0 <= k < |s.mem| ==> event <= Reached(s, k))
      && (forall k :: 0 <= k < reached ==> event < Reached(s, k))
    case Dispatching(event, _) => event < |s.log| && forall k :: 0 <= k < |s.mem| ==> event < Reached(s, k)
    case _ => true
  }

  lemma GrowKeepsFolds<T, O>(c: Registry<T, O>, s: Live<T, O>, t: Live<T, O>, more: seq<Recorded>)
    requires FoldInv(c, s) && Grows(s, t, more)
    ensures FoldInv(c, t)
    ensures forall k :: 0 <= k < |c| ==> Reached(t, k) == Reached(s, k)
  {
    forall k | 0 <= k < |c|
      ensures Correct(c[k], t.log, t.mem[k]) && Reached(t, k) == Reached(s, k)
      ensures t.disk[k].Some? ==> Correct(c[k], t.log, t.disk[k].value)
    {
      CorrectGrows(c[k], s.log, t.log, s.mem[k]);
      if t.disk[k].Some? {
        CorrectGrows(c[k], s.log, t.log, s.disk[k].value);
      }
    }
    forall i | 0 <= i < |t.archive| ensures Correct(c[t.archive[i].0], t.log, t.archive[i].1) {
      CorrectGrows(c[s.archive[i].0], s.log, t.log, s.archive[i].1);
    }
  }

  lemma OpenKeepsFolds<T, O>(c: Registry<T, O>, s: Live<T, O>, t: Live<T, O>)
    requires FoldInv(c, s) && Opens(c, s, t)
    ensures FoldInv(c, t)
  {
    forall k | 0 <= k < |c| ensures Correct(c[k], t.log, t.mem[k]) {
      PassIsCorrect(c[k], s.log, 0);
    }
  }

  /** Delivery to one runner: it moves past the event if it had not yet, and emits exactly what it skipped no more. */
  lemma FanOutOne<T, O>(c: Registry<T, O>, s: Live<T, O>, t: Live<T, O>)
    requires FoldInv(c, s) && CursorInv(s) && FansOut(c, s, t) && s.phase.reached < |c|
    ensures FoldInv(c, t)
    ensures var k, event := s.phase.reached, s.phase.event;
            var n, m := Reached(s, k), Max(Reached(s, k), event + 1);
            && (forall j :: 0 <= j < |c| ==> Reached(t, j) == if j == k then m else Reached(s, j))
            && t.phase == FanOut(event, k + 1, s.phase.queue + Wrap(k, Emitted(c[k], s.log, n, m)))
  {
    var k := s.phase.reached;
    assert s.phase.event <= Reached(s, k);
    AdvanceFollowsPass(c[k], s.log, s.mem[k], s.phase.event);
    PassIsCorrect(c[k], s.log, Max(Reached(s, k), s.phase.event + 1));
  }

  lemma PullOne<T, O>(c: Registry<T, O>, s: Live<T, O>, t: Live<T, O>, k: nat, upto: nat)
    requires FoldInv(c, s) && Pulls(c, s, t, k, upto)
    ensures FoldInv(c, t)
    ensures forall j :: 0 <= j < |c| ==> Reached(t, j) == if j == k then upto else Reached(s, j)
    ensures s.mem[k].cursor <= t.mem[k].cursor
  {
    var n := Reached(s, k);
    RunFollowsPass(c[k], s.log, s.mem[k], upto);
    assert s.mem[k].cursor == Mark(s.log, n);
    assert n < upto ==>
        s.mem[k].cursor <= s.log[n].position
        && (n == upto - 1 || s.log[n].position < s.log[upto - 1].position);
  }

  lemma StepKeepsFolds<T, O>(c: Registry<T, O>, s: Live<T, O>, t: Live<T, O>, step: Step)
    requires FoldInv(c, s) && CursorInv(s) && Next(c, s, t, step)
    ensures FoldInv(c, t)
  {
    hide Advance, AdvanceAll, Behind, Pass;
    match step
    case Grow(more) => GrowKeepsFolds(c, s, t, more);
    case Open => OpenKeepsFolds(c, s, t);
    case FanOutNext => if s.phase.reached < |c| { FanOutOne(c, s, t); }
    case Pull(k, upto) => PullOne(c, s, t, k, upto);
    case _ =>
  }

  /**
   * The scan locks the runners one after another while pull passes move them:
   * the subscription still starts at or below every runner's cursor.
   */
  lemma ScanIsBelowAll<T, O>(c: Registry<T, O>, s: Live<T, O>, t: Live<T, O>)
    requires FoldInv(c, s) && CursorInv(s) && Subscribes(s, t)
    ensures forall k :: 0 <= k < |c| ==> From(s.phase.low) <= t.mem[k].cursor
    ensures CursorInv(t)
  {
    forall k | 0 <= k < |c| ensures t.phase.next <= Reached(t, k) {
      BehindMonotone(s.log, From(s.phase.low), s.mem[k].cursor);
    }
  }

  /** Runners only move forward under a loop that stands still. */
  lemma AheadKeepsCursor<T, O>(s: Live<T, O>, t: Live<T, O>)
    requires CursorInv(s) && t.phase == s.phase && |t.mem| == |s.mem| && |s.log| <= |t.log|
    requires forall k :: 0 <= k < |s.mem| ==> Reached(s, k) <= Reached(t, k) && s.mem[k].cursor <= t.mem[k].cursor
    ensures CursorInv(t)
  {
  }

  lemma ReachedKeepsCursor<T, O>(s: Live<T, O>, t: Live<T, O>)
    requires CursorInv(s) && s.phase.FanOut? && s.phase.reached < |s.mem| && t.log == s.log && |t.mem| == |s.mem|
    requires t.phase.FanOut? && t.phase.event == s.phase.event && t.phase.reached == s.phase.reached + 1
    requires forall j :: 0 <= j < |s.mem| ==>
               Reached(t, j) == if j == s.phase.reached then Max(Reached(s, j), s.phase.event + 1) else Reached(s, j)
    ensures CursorInv(t)
  {
  }

  lemma FanOutKeepsCursor<T, O>(c: Registry<T, O>, s: Live<T, O>, t: Live<T, O>)
    requires FoldInv(c, s) && CursorInv(s) && FansOut(c, s, t)
    ensures CursorInv(t)
  {
    if s.phase.reached < |c| {
      FanOutOne(c, s, t);
      ReachedKeepsCursor(s, t);
    } else {
      assert forall k :: 0 <= k < |s.mem| ==> Reached(t, k) == Reached(s, k);
    }
  }

  /** The loop's own moves, on runners that stand still. */
  lemma LoopKeepsCursor<T, O>(c: Registry<T, O>, s: Live<T, O>, t: Live<T, O>, step: Step)
    requires CursorInv(s) && Next(c, s, t, step)
    requires step.Start? || step.Scan? || step.Deliver? || step.Dispatch? || step.Notify? || step.Disconnect?
    ensures CursorInv(t)
  {
    assert t.mem == s.mem && t.log == s.log;
    assert forall k :: 0 <= k < |s.mem| ==> Reached(t, k) == Reached(s, k);
  }

  lemma StepKeepsCursor<T, O>(c: Registry<T, O>, s: Live<T, O>, t: Live<T, O>, step: Step)
    requires FoldInv(c, s) && CursorInv(s) && Next(c, s, t, step)
    ensures CursorInv(t)
  {
    hide Advance, AdvanceAll, Behind, Correct;
    match step
    case Grow(more) =>
      GrowKeepsFolds(c, s, t, more);
      AheadKeepsCursor(s, t);
    case Pull(k, upto) =>
      PullOne(c, s, t, k, upto);
      AheadKeepsCursor(s, t);
    case Subscribe => ScanIsBelowAll(c, s, t);
    case FanOutNext => FanOutKeepsCursor(c, s, t);
    case Save(_) => AheadKeepsCursor(s, t);
    case Open =>
    case Stop =>
    case Crash =>
    case Forget(_) =>
    case Restore(_) =>
    case _ => LoopKeepsCursor(c, s, t, step);
  }

  lemma {:induction false} Reachable<T, O>(c: Registry<T, O>, run: seq<Live<T, O>>, steps: seq<Step>, i: nat)
    requires Run(c, run, steps) && i < |run|
    ensures FoldInv(c, run[i]) && CursorInv(run[i])
  {
    if i == 0 {
      forall k | 0 <= k < |c| ensures Correct(c[k], run[0].log, run[0].mem[k]) {
        PassIsCorrect(c[k], run[0].log, 0);
      }
    } else {
      Reachable(c, run, steps, i - 1);
      assert Linked(c, run, steps, i - 1);
      StepKeepsFolds(c, run[i - 1], run[i], steps[i - 1]);
      StepKeepsCursor(c, run[i - 1], run[i], steps[i - 1]);
    }
  }

  // ---------- Notifications ----------

  /** Whatever was announced lies below every runner and below whatever comes next. */
  ghost predicate SentInv<T, O>(s: Live<T, O>) {
    && (forall i, j :: 0 <= i < j < |s.sent| ==> s.sent[i] < s.sent[j])
    && (forall i :: 0 <= i < |s.sent| ==> s.sent[i] < U64_MAX)
    && (forall i, k :: 0 <= i < |s.sent| && 0 <= k < |s.mem| && !s.phase.Down? ==> s.sent[i] < s.mem[k].cursor)
    && (match s.phase
        case Scanning(_, low) => forall i :: 0 <= i < |s.sent| ==> s.sent[i] < low
        case Streaming(next) => forall i, j :: 0 <= i < |s.sent| && next <= j < |s.log| ==>
            s.sent[i] < s.log[j].position
        case FanOut(event, _, _) => event < |s.log| && forall i :: 0 <= i < |s.sent| ==>
            s.sent[i] < s.log[event].position
        case Dispatching(event, _) => event < |s.log| && forall i :: 0 <= i < |s.sent| ==>
            s.sent[i] < s.log[event].position
        case _ => true)
  }

  lemma SubscribeKeepsSent<T, O>(c: Registry<T, O>, s: Live<T, O>, t: Live<T, O>)
    requires FoldInv(c, s) && CursorInv(s) && SentInv(s) && |c| > 0 && Subscribes(s, t)
    ensures SentInv(t)
  {
    var n := Reached(s, 0);
    assert s.mem[0].cursor == Mark(s.log, n) < U64_MAX;
    var from := Behind(s.log, s.phase.low);
    forall j | from <= j < |s.log| ensures s.phase.low <= s.log[j].position {
      assert j == from || s.log[from].position < s.log[j].position;
    }
  }

  lemma NotifyKeepsSent<T, O>(c: Registry<T, O>, s: Live<T, O>, t: Live<T, O>)
    requires FoldInv(c, s) && CursorInv(s) && SentInv(s) && Notifies(s, t)
    ensures SentInv(t)
  {
    var event := s.phase.event;
    forall k | 0 <= k < |c| ensures s.log[event].position < s.mem[k].cursor {
      var n := Reached(s, k);
      assert event == n - 1 || s.log[event].position < s.log[n - 1].position;
    }
  }

  lemma GrowKeepsSent<T, O>(c: Registry<T, O>, s: Live<T, O>, t: Live<T, O>, more: seq<Recorded>)
    requires FoldInv(c, s) && CursorInv(s) && SentInv(s) && |c| > 0 && Grows(s, t, more)
    ensures SentInv(t)
  {
    if s.phase.Streaming? {
      var n := Reached(s, 0);
      assert s.mem[0].cursor == Mark(s.log, n);
      forall i, j | 0 <= i < |s.sent| && |s.log| <= j < |t.log| ensures s.sent[i] < t.log[j].position {
        assert s.sent[i] < s.mem[0].cursor;
        assert t.log[n - 1] == s.log[n - 1] && t.log[n - 1].position < t.log[j].position;
      }
    }
  }

  lemma MoveKeepsSent<T, O>(c: Registry<T, O>, s: Live<T, O>, t: Live<T, O>, step: Step)
    requires FoldInv(c, s) && CursorInv(s) && SentInv(s) && Next(c, s, t, step)
    requires !step.Grow? && !step.Open? && !step.Subscribe? && !step.Notify? && !step.FanOutNext? && !step.Pull?
    ensures SentInv(t)
  {
    hide Advance, AdvanceAll, Behind;
    assert t.sent == s.sent && t.mem == s.mem && t.log == s.log;
  }

  lemma StepKeepsSent<T, O>(c: Registry<T, O>, s: Live<T, O>, t: Live<T, O>, step: Step)
    requires FoldInv(c, s) && CursorInv(s) && SentInv(s) && |c| > 0 && Next(c, s, t, step)
    ensures SentInv(t)
  {
    hide Advance, AdvanceAll, Behind;
    match step
    case Grow(more) => GrowKeepsSent(c, s, t, more);
    case Open =>
    case Subscribe => SubscribeKeepsSent(c, s, t);
    case Notify => NotifyKeepsSent(c, s, t);
    case FanOutNext =>
      FanOutMovesOn(c, s, t);
      AheadKeepsSent(s, t);
    case Pull(k, upto) =>
      PullOne(c, s, t, k, upto);
      AheadKeepsSent(s, t);
    case _ => MoveKeepsSent(c, s, t, step);
  }

  lemma AheadKeepsSent<T, O>(s: Live<T, O>, t: Live<T, O>)
    requires SentInv(s) && t.log == s.log && t.sent == s.sent && |t.mem| == |s.mem|
    requires t.phase == s.phase || (s.phase.FanOut? && (t.phase.FanOut? || t.phase.Dispatching?)
               && t.phase.event == s.phase.event)
    requires forall k :: 0 <= k < |s.mem| ==> s.mem[k].cursor <= t.mem[k].cursor
    ensures SentInv(t)
  {
  }

  lemma FanOutMovesOn<T, O>(c: Registry<T, O>, s: Live<T, O>, t: Live<T, O>)
    requires |s.mem| == |c| && FansOut(c, s, t)
    ensures t.log == s.log && t.sent == s.sent && |t.mem| == |s.mem|
    ensures (t.phase.FanOut? || t.phase.Dispatching?) && t.phase.event == s.phase.event
    ensures forall k :: 0 <= k < |s.mem| ==> s.mem[k].cursor <= t.mem[k].cursor
  {
  }

  // ---------- Dispatch: conservation and lag ----------

  predicate Running<O>(phase: Phase<O>) {
    !phase.Down? && !phase.Off?
  }

  function InFlight<O>(phase: Phase<O>): nat {
    if phase.FanOut? || phase.Dispatching? || phase.Stopped? then phase.event else 0
  }

  /** What has been attempted for runner k since the live run started. */
  function Attempted<T, O>(s: Live<T, O>, k: nat): seq<O>
    requires s.mark <= |s.attempted|
  {
    Of(k, s.attempted[s.mark..])
  }

  /**
   * Attempts and queue together are exactly what the runner emitted since the
   * start, and the queue holds nothing but the event in flight.
   */
  ghost predicate Conserved<T, O>(c: Consumer<T, O>, s: Live<T, O>, k: nat)
    requires k < |s.mem| && k < |s.base| && s.mark <= |s.attempted|
  {
    var waiting := Of(k, Queue(s.phase));
    && s.base[k] <= Reached(s, k)
    && Attempted(s, k) + waiting == Emitted(c, s.log, s.base[k], Reached(s, k))
    && (waiting != [] ==>
          && s.base[k] <= InFlight(s.phase)
          && Reached(s, k) == InFlight(s.phase) + 1
          && |waiting| <= |Emits(c, s.log, InFlight(s.phase))|)
    && (s.phase.FanOut? && s.phase.reached <= k ==> waiting == [])
  }

  ghost predicate DispatchInv<T, O>(c: Registry<T, O>, s: Live<T, O>) {
    && |s.mem| == |s.base| == |c| && s.mark <= |s.attempted|
    && (Running(s.phase) ==> forall k :: 0 <= k < |c| && k !in s.pulled ==> Conserved(c[k], s, k))
  }

  /** No file is ahead of the memory it was saved from. */
  ghost predicate DiskInv<T, O>(s: Live<T, O>) {
    && |s.mem| == |s.disk|
    && (!s.phase.Down? ==> forall k :: 0 <= k < |s.disk| && s.disk[k].Some? ==>
       Behind(s.log, s.disk[k].value.cursor) <= Reached(s, k))
  }

  lemma {:induction false} OfConcat<O>(k: nat, left: seq<Envelope<O>>, right: seq<Envelope<O>>)
    ensures Of(k, left + right) == Of(k, left) + Of(k, right)
    decreases |left|
  {
    if left == [] {
      assert left + right == right;
    } else {
      var head := if left[0].runner == k then [left[0].command] else [];
      assert (left + right)[0] == left[0] && (left + right)[1..] == left[1..] + right;
      OfConcat(k, left[1..], right);
      assert head + (Of(k, left[1..]) + Of(k, right)) == head + Of(k, left[1..]) + Of(k, right);
    }
  }

  lemma {:induction false} OfWrap<O>(k: nat, runner: nat, commands: seq<O>)
    ensures Of(k, Wrap(runner, commands)) == if k == runner then commands else []
    decreases |commands|
  {
    if commands != [] {
      var head, rest := commands[0], commands[1..];
      var all := Wrap(runner, commands);
      assert all[0] == Envelope(runner, head) && all[1..] == Wrap(runner, rest);
      OfWrap(k, runner, rest);
      assert Of(k, all) == (if k == runner then [head] else []) + Of(k, Wrap(runner, rest));
      assert commands == [head] + rest;
    }
  }

  /** What matters to runner k did not change. */
  lemma SameConserved<T, O>(c: Consumer<T, O>, s: Live<T, O>, t: Live<T, O>, k: nat)
    requires k < |s.mem| == |s.base| && s.mark <= |s.attempted| && Conserved(c, s, k)
    requires |t.mem| == |s.mem| && t.base == s.base && t.mark == s.mark && t.attempted == s.attempted && t.log == s.log
    requires Reached(t, k) == Reached(s, k) && Of(k, Queue(t.phase)) == Of(k, Queue(s.phase))
    requires Of(k, Queue(s.phase)) != [] ==> InFlight(t.phase) == InFlight(s.phase)
    requires t.phase.FanOut? && t.phase.reached <= k ==> Of(k, Queue(s.phase)) == []
    ensures Conserved(c, t, k)
  {
  }

  lemma GrowKeepsConserved<T, O>(c: Consumer<T, O>, s: Live<T, O>, t: Live<T, O>, k: nat)
    requires k < |s.mem| == |s.base| && s.mark <= |s.attempted| && Conserved(c, s, k)
    requires s.log <= t.log && t == s.(log := t.log) && Reached(t, k) == Reached(s, k)
    ensures Conserved(c, t, k)
  {
    EmittedGrows(c, s.log, t.log, s.base[k], Reached(s, k));
    if Of(k, Queue(s.phase)) != [] {
      assert t.log[..InFlight(s.phase)] == s.log[..InFlight(s.phase)];
    }
  }

  /** What runner k emits on delivery of `event`: that event's envelopes, or nothing if it is ahead already. */
  lemma DeliveryEmits<T, O>(c: Consumer<T, O>, log: seq<Recorded>, base: nat, n: nat, event: nat)
    requires base <= n <= |log| && event < |log| && event <= n
    ensures var produced := Emitted(c, log, n, Max(n, event + 1));
            && Emitted(c, log, base, Max(n, event + 1)) == Emitted(c, log, base, n) + produced
            && (produced != [] ==> n == event && produced == Emits(c, log, event))
  {
    EmittedConcat(c, log, base, n, Max(n, event + 1));
    if n == event {
      assert Emitted(c, log, n, event + 1) == [] + Emits(c, log, event) == Emits(c, log, event);
    }
  }

  /** The runner just reached: what it emits joins the queue behind what was attempted. */
  lemma JoinQueue<T, O>(c: Consumer<T, O>, s: Live<T, O>, t: Live<T, O>, k: nat, produced: seq<O>)
    requires k < |s.mem| == |s.base| && s.mark <= |s.attempted| && Conserved(c, s, k)
    requires s.phase.FanOut? && s.phase.reached == k && s.phase.event < |s.log| && s.phase.event <= Reached(s, k)
    requires t.log == s.log && |t.mem| == |s.mem| && t.base == s.base && t.mark == s.mark && t.attempted == s.attempted
    requires Reached(t, k) == Max(Reached(s, k), s.phase.event + 1)
    requires produced == Emitted(c, s.log, Reached(s, k), Reached(t, k))
    requires t.phase == FanOut(s.phase.event, k + 1, s.phase.queue + Wrap(k, produced))
    ensures Conserved(c, t, k)
  {
    DeliveryEmits(c, s.log, s.base[k], Reached(s, k), s.phase.event);
    var made := Attempted(s, k);
    assert Queue(s.phase) == s.phase.queue && made + [] == made;
    assert made == Emitted(c, s.log, s.base[k], Reached(s, k));
    assert Of(k, Queue(t.phase)) == produced by {
      OfConcat(k, s.phase.queue, Wrap(k, produced));
      OfWrap(k, k, produced);
      assert [] + produced == produced;
    }
    assert Attempted(t, k) == made;
  }

  /** Another runner was reached: what it emits is not runner k's. */
  lemma OthersJoin<T, O>(c: Consumer<T, O>, s: Live<T, O>, t: Live<T, O>, k: nat, at: nat, produced: seq<O>)
    requires k < |s.mem| == |s.base| && s.mark <= |s.attempted| && Conserved(c, s, k) && k != at
    requires s.phase.FanOut? && s.phase.reached == at
    requires t.log == s.log && |t.mem| == |s.mem| && t.base == s.base && t.mark == s.mark && t.attempted == s.attempted
    requires Reached(t, k) == Reached(s, k)
    requires t.phase == FanOut(s.phase.event, at + 1, s.phase.queue + Wrap(at, produced))
    ensures Conserved(c, t, k)
  {
    OfConcat(k, s.phase.queue, Wrap(at, produced));
    OfWrap(k, at, produced);
    SameConserved(c, s, t, k);
  }

  lemma FanOutKeepsConserved<T, O>(c: Registry<T, O>, s: Live<T, O>, t: Live<T, O>, k: nat)
    requires FoldInv(c, s) && CursorInv(s) && s.mark <= |s.attempted| && FansOut(c, s, t)
    requires k < |c| && Conserved(c[k], s, k)
    ensures Conserved(c[k], t, k)
  {
    hide Advance, Emitted, Behind, Of, Correct, Conserved;
    var at := s.phase.reached;
    if at == |c| {
      SameConserved(c[k], s, t, k);
    } else {
      assert s.phase.event <= Reached(s, at);
      FanOutOne(c, s, t);
      var produced := Emitted(c[at], s.log, Reached(s, at), Max(Reached(s, at), s.phase.event + 1));
      FanOutFrame(c, s, t);
      if k == at {
        JoinQueue(c[k], s, t, k, produced);
      } else {
        OthersJoin(c[k], s, t, k, at, produced);
      }
    }
  }

  lemma FanOutFrame<T, O>(c: Registry<T, O>, s: Live<T, O>, t: Live<T, O>)
    requires |s.mem| == |c| && FansOut(c, s, t)
    ensures t.log == s.log && |t.mem| == |s.mem| && t.base == s.base && t.mark == s.mark && t.attempted == s.attempted
  {
  }

  /** One envelope moves from the queue to the attempts. */
  lemma DispatchMoves<T, O>(s: Live<T, O>, t: Live<T, O>, k: nat, outcome: Outcome)
    requires s.mark <= |s.attempted| && Dispatches(s, t, outcome)
    ensures Attempted(t, k) + Of(k, Queue(t.phase)) == Attempted(s, k) + Of(k, Queue(s.phase))
    ensures |Of(k, Queue(t.phase))| <= |Of(k, Queue(s.phase))|
  {
    var head, rest := [s.phase.queue[0]], s.phase.queue[1..];
    assert t.attempted[t.mark..] == s.attempted[s.mark..] + head;
    OfConcat(k, s.attempted[s.mark..], head);
    OfConcat(k, head, rest);
    assert head + rest == s.phase.queue;
  }

  lemma DispatchKeepsConserved<T, O>(c: Consumer<T, O>, s: Live<T, O>, t: Live<T, O>, k: nat, outcome: Outcome)
    requires k < |s.mem| == |s.base| && s.mark <= |s.attempted| && Conserved(c, s, k) && Dispatches(s, t, outcome)
    ensures Conserved(c, t, k)
  {
    DispatchMoves(s, t, k, outcome);
    assert Reached(t, k) == Reached(s, k);
  }

  lemma StepKeepsDispatch<T, O>(c: Registry<T, O>, s: Live<T, O>, t: Live<T, O>, step: Step)
    requires FoldInv(c, s) && CursorInv(s) && DispatchInv(c, s) && Next(c, s, t, step)
    ensures DispatchInv(c, t)
  {
    if Running(t.phase) {
      forall k | 0 <= k < |c| && k !in t.pulled ensures Conserved(c[k], t, k) {
        StepKeepsConserved(c, s, t, step, k);
      }
    }
  }

  lemma StepKeepsConserved<T, O>(c: Registry<T, O>, s: Live<T, O>, t: Live<T, O>, step: Step, k: nat)
    requires FoldInv(c, s) && CursorInv(s) && DispatchInv(c, s) && Next(c, s, t, step)
    requires Running(t.phase) && k < |c| && k !in t.pulled
    ensures Conserved(c[k], t, k)
  {
    hide Advance, AdvanceAll, Behind, Correct;
    if Running(s.phase) {
      assert k !in s.pulled;
      assert Conserved(c[k], s, k);
    }
    match step
    case Grow(more) =>
      GrowKeepsFolds(c, s, t, more);
      GrowKeepsConserved(c[k], s, t, k);
    case Open =>
    case Start =>
    case FanOutNext => FanOutKeepsConserved(c, s, t, k);
    case Dispatch(outcome) => DispatchKeepsConserved(c[k], s, t, k, outcome);
    case Pull(other, upto) =>
      PullOne(c, s, t, other, upto);
      SameConserved(c[k], s, t, k);
    case Crash =>
    case Forget(_) =>
    case Restore(_) =>
    case _ => LoopKeepsConserved(c, s, t, step, k);
  }

  lemma LoopKeepsConserved<T, O>(c: Registry<T, O>, s: Live<T, O>, t: Live<T, O>, step: Step, k: nat)
    requires k < |c| == |s.base| && s.mark <= |s.attempted| && Next(c, s, t, step) && Conserved(c[k], s, k)
    requires step.Scan? || step.Subscribe? || step.Deliver? || step.Notify? || step.Disconnect? || step.Save?
               || step.Stop?
    ensures Conserved(c[k], t, k)
  {
    hide Advance, AdvanceAll, Behind, Emitted;
    assert t.mem == s.mem && t.log == s.log && t.base == s.base && t.mark == s.mark && t.attempted == s.attempted;
    assert Queue(t.phase) == Queue(s.phase);
    SameConserved(c[k], s, t, k);
  }

  lemma StepKeepsDisk<T, O>(c: Registry<T, O>, s: Live<T, O>, t: Live<T, O>, step: Step)
    requires FoldInv(c, s) && CursorInv(s) && DiskInv(s) && Next(c, s, t, step)
    ensures DiskInv(t)
  {
    hide Advance, AdvanceAll, Behind, Correct;
    match step
    case Grow(more) => GrowKeepsDisk(c, s, t, more);
    case FanOutNext => FanOutKeepsDisk(c, s, t);
    case Pull(k, upto) =>
      PullOne(c, s, t, k, upto);
      MoreKeepsDisk(s, t);
    case Open => OpenKeepsDisk(c, s, t);
    case Save(k) => SaveKeepsDisk(s, t, k);
    case Crash =>
    case Forget(_) =>
    case Restore(_) =>
    case _ =>
      assert t.mem == s.mem && t.log == s.log && t.disk == s.disk;
      MoreKeepsDisk(s, t);
  }

  lemma FanOutKeepsDisk<T, O>(c: Registry<T, O>, s: Live<T, O>, t: Live<T, O>)
    requires FoldInv(c, s) && CursorInv(s) && DiskInv(s) && FansOut(c, s, t)
    ensures DiskInv(t)
  {
    if s.phase.reached < |c| {
      FanOutOne(c, s, t);
    }
    MoreKeepsDisk(s, t);
  }

  lemma OpenKeepsDisk<T, O>(c: Registry<T, O>, s: Live<T, O>, t: Live<T, O>)
    requires |s.disk| == |c| && Opens(c, s, t)
    ensures DiskInv(t)
  {
  }

  lemma SaveKeepsDisk<T, O>(s: Live<T, O>, t: Live<T, O>, k: nat)
    requires DiskInv(s) && Saves(s, t, k)
    ensures DiskInv(t)
  {
    forall j | 0 <= j < |t.disk| && t.disk[j].Some? ensures Behind(t.log, t.disk[j].value.cursor) <= Reached(t, j) {
      if j != k {
        assert Behind(s.log, s.disk[j].value.cursor) <= Reached(s, j);
      }
    }
  }

  lemma GrowKeepsDisk<T, O>(c: Registry<T, O>, s: Live<T, O>, t: Live<T, O>, more: seq<Recorded>)
    requires FoldInv(c, s) && DiskInv(s) && Grows(s, t, more)
    ensures DiskInv(t)
  {
    GrowKeepsFolds(c, s, t, more);
    forall k | 0 <= k < |c| && s.disk[k].Some?
      ensures Behind(t.log, s.disk[k].value.cursor) == Behind(s.log, s.disk[k].value.cursor)
    {
      CorrectGrows(c[k], s.log, t.log, s.disk[k].value);
    }
  }

  lemma MoreKeepsDisk<T, O>(s: Live<T, O>, t: Live<T, O>)
    requires DiskInv(s) && t.log == s.log && t.disk == s.disk && |t.mem| == |s.mem|
               && (t.phase.Down? <==> s.phase.Down?)
    requires forall k :: 0 <= k < |s.mem| ==> Reached(s, k) <= Reached(t, k)
    ensures DiskInv(t)
  {
  }

  lemma {:induction false} ReachableDispatch<T, O>(c: Registry<T, O>, run: seq<Live<T, O>>, steps: seq<Step>, i: nat)
    requires Run(c, run, steps) && i < |run|
    ensures DispatchInv(c, run[i]) && DiskInv(run[i])
  {
    if i > 0 {
      ReachableDispatch(c, run, steps, i - 1);
      Reachable(c, run, steps, i - 1);
      assert Linked(c, run, steps, i - 1);
      StepKeepsDispatch(c, run[i - 1], run[i], steps[i - 1]);
      StepKeepsDisk(c, run[i - 1], run[i], steps[i - 1]);
    }
  }

  lemma {:induction false} ReachableSent<T, O>(c: Registry<T, O>, run: seq<Live<T, O>>, steps: seq<Step>, i: nat)
    requires Run(c, run, steps) && i < |run| && |c| > 0
    ensures SentInv(run[i])
  {
    if i > 0 {
      ReachableSent(c, run, steps, i - 1);
      Reachable(c, run, steps, i - 1);
      assert Linked(c, run, steps, i - 1);
      StepKeepsSent(c, run[i - 1], run[i], steps[i - 1]);
    }
  }

  lemma PrefixOfSum<O>(x: seq<O>, y: seq<O>, a: seq<O>, w: seq<O>)
    requires x + y == a + w && |w| <= |y|
    ensures x <= a
  {
    assert x == (x + y)[..|x|];
    assert a[..|x|] == (a + w)[..|x|];
  }

  // ---------- Main results ----------

  /**
   * Exactly once, in order. At every instant of every run each runner's state
   * is one pass over the decodable events below its own cursor, and so is every
   * checkpoint file and every checkpoint ever saved; and the live loop never
   * gets ahead of a runner, so no event can be missed.
   */
  lemma LiveExactlyOnce<T, O>(c: Registry<T, O>, run: seq<Live<T, O>>, steps: seq<Step>, i: nat, k: nat)
    requires Run(c, run, steps) && i < |run| && k < |c|
    ensures |run[i].mem| == |run[i].disk| == |c|
    ensures var s := run[i];
            && s.mem[k] == Pass(c[k], s.log, Reached(s, k))
            && (s.disk[k].Some? ==> Correct(c[k], s.log, s.disk[k].value))
            && (forall j :: 0 <= j < |s.archive| && s.archive[j].0 == k ==> Correct(c[k], s.log, s.archive[j].1))
            && (s.phase.Streaming? ==> s.phase.next <= Reached(s, k))
            && (s.phase.FanOut? ==> s.phase.event <= Reached(s, k))
            && (s.phase.Dispatching? ==> s.phase.event < Reached(s, k))
  {
    Reachable(c, run, steps, i);
  }

  /**
   * Exactly-once dispatch and bounded lag. For a process manager that no pull
   * pass touched, the attempts since the live run started, followed by the
   * queue, are its envelopes, each once and in log order. Whatever checkpoint
   * is on disk is past at most one event whose envelopes are not all attempted,
   * the one in flight: everything before that event was attempted.
   */
  lemma BoundedLag<T, O>(c: Registry<T, O>, run: seq<Live<T, O>>, steps: seq<Step>, i: nat, k: nat)
    requires Run(c, run, steps) && i < |run| && k < |c|
    requires Running(run[i].phase) && k !in run[i].pulled
    ensures |run[i].mem| == |run[i].base| == |run[i].disk| == |c| && run[i].mark <= |run[i].attempted|
    ensures var s := run[i];
            var waiting := Of(k, Queue(s.phase));
            && s.base[k] <= Reached(s, k)
            && Attempted(s, k) + waiting == Emitted(c[k], s.log, s.base[k], Reached(s, k))
            && (waiting == [] ==> Attempted(s, k) == Emitted(c[k], s.log, s.base[k], Reached(s, k)))
            && (waiting != [] ==>
                  && s.base[k] <= InFlight(s.phase) < |s.log|
                  && Emitted(c[k], s.log, s.base[k], InFlight(s.phase)) <= Attempted(s, k))
            && (s.disk[k].Some? ==>
                  && Behind(s.log, s.disk[k].value.cursor) <= Reached(s, k)
                  && (waiting != [] ==> Behind(s.log, s.disk[k].value.cursor) <= InFlight(s.phase) + 1))
  {
    Reachable(c, run, steps, i);
    ReachableDispatch(c, run, steps, i);
    var s := run[i];
    assert Conserved(c[k], s, k);
    var waiting := Of(k, Queue(s.phase));
    if waiting != [] {
      var e := InFlight(s.phase);
      EmittedConcat(c[k], s.log, s.base[k], e, e + 1);
      assert Emitted(c[k], s.log, e, e + 1) == [] + Emits(c[k], s.log, e);
      PrefixOfSum(Emitted(c[k], s.log, s.base[k], e), Emits(c[k], s.log, e), Attempted(s, k), waiting);
    }
  }

  /**
   * A checkpoint at n is past attempted events only exactly when nothing waits, or
   * it is not past the event in flight.
   */
  lemma PrefixAttempted<T, O>(c: Consumer<T, O>, s: Live<T, O>, k: nat, n: nat)
    requires k < |s.mem| == |s.base| && s.mark <= |s.attempted| && Conserved(c, s, k)
    requires s.base[k] <= n <= Reached(s, k)
    ensures Emitted(c, s.log, s.base[k], n) <= Attempted(s, k) <==>
            Of(k, Queue(s.phase)) == [] || n <= InFlight(s.phase)
  {
    hide Emits, Of, Behind;
    var base, r, waiting := s.base[k], Reached(s, k), Of(k, Queue(s.phase));
    if waiting == [] {
      assert Attempted(s, k) + [] == Attempted(s, k);
      EmittedConcat(c, s.log, base, n, r);
    } else if n <= InFlight(s.phase) {
      var e := InFlight(s.phase);
      EmittedConcat(c, s.log, base, n, e);
      EmittedConcat(c, s.log, base, e, e + 1);
      assert Emitted(c, s.log, e, e + 1) == [] + Emits(c, s.log, e);
      PrefixOfSum(Emitted(c, s.log, base, e), Emits(c, s.log, e), Attempted(s, k), waiting);
    } else {
      assert |Emitted(c, s.log, base, n)| == |Attempted(s, k)| + |waiting|;
    }
  }

  /**
   * When a crash in the middle of dispatch is followed by reprocessing. Whatever
   * moment the process ends, the file of a process manager that was not pulled
   * is past attempted events only, so that nothing is skipped on restart,
   * exactly when nothing of it was waiting or its file is not past the event in
   * flight.
   */
  lemma ReprocessesExactlyWhen<T, O>(c: Registry<T, O>, run: seq<Live<T, O>>, steps: seq<Step>, i: nat, k: nat)
    requires Run(c, run, steps) && i < |run| && k < |c|
    requires Running(run[i].phase) && k !in run[i].pulled
    ensures |run[i].mem| == |run[i].base| == |run[i].disk| == |c| && run[i].mark <= |run[i].attempted|
    ensures var s := run[i];
            s.disk[k].Some? && s.base[k] <= Behind(s.log, s.disk[k].value.cursor) ==>
              (Emitted(c[k], s.log, s.base[k], Behind(s.log, s.disk[k].value.cursor)) <= Attempted(s, k) <==>
               Of(k, Queue(s.phase)) == [] || Behind(s.log, s.disk[k].value.cursor) <= InFlight(s.phase))
  {
    Reachable(c, run, steps, i);
    ReachableDispatch(c, run, steps, i);
    var s := run[i];
    assert Conserved(c[k], s, k);
    if s.disk[k].Some? && s.base[k] <= Behind(s.log, s.disk[k].value.cursor) {
      PrefixAttempted(c[k], s, k, Behind(s.log, s.disk[k].value.cursor));
    }
  }

  /** The guard at the step that can go wrong: a save is safe exactly when no envelope of its process manager waits. */
  lemma SaveIsSafeExactlyWhen<T, O>(c: Registry<T, O>, run: seq<Live<T, O>>, steps: seq<Step>, i: nat, k: nat)
    requires Run(c, run, steps) && i < |steps| && steps[i] == Save(k) && k < |c|
    requires Running(run[i].phase) && k !in run[i].pulled
    ensures |run[i + 1].base| == |run[i + 1].disk| == |c| && run[i + 1].mark <= |run[i + 1].attempted|
    ensures var t := run[i + 1];
            && t.disk[k].Some?
            && t.base[k] <= Behind(t.log, t.disk[k].value.cursor)
            && (Emitted(c[k], t.log, t.base[k], Behind(t.log, t.disk[k].value.cursor)) <= Attempted(t, k) <==>
                Of(k, Queue(run[i].phase)) == [])
  {
    Reachable(c, run, steps, i);
    ReachableDispatch(c, run, steps, i);
    assert Linked(c, run, steps, i);
    assert Conserved(c[k], run[i], k);
    PrefixAttempted(c[k], run[i], k, Reached(run[i], k));
  }

  /** As long as dead letters can be written, every attempt is settled: dispatched or dead-lettered, in order. */
  lemma {:induction false} AttemptsAreSettled<T, O>(c: Registry<T, O>, run: seq<Live<T, O>>, steps: seq<Step>, i: nat)
    requires Run(c, run, steps) && i < |run|
    requires forall j :: 0 <= j < i ==> steps[j] != Dispatch(DeadLetterFailed)
    ensures run[i].settled == run[i].attempted
  {
    if i > 0 {
      AttemptsAreSettled(c, run, steps, i - 1);
      assert Linked(c, run, steps, i - 1);
      StepSettles(c, run[i - 1], run[i], steps[i - 1]);
    }
  }

  lemma StepSettles<T, O>(c: Registry<T, O>, s: Live<T, O>, t: Live<T, O>, step: Step)
    requires Next(c, s, t, step) && step != Dispatch(DeadLetterFailed) && s.settled == s.attempted
    ensures t.settled == t.attempted
  {
    hide Advance, AdvanceAll, Behind;
  }

  /**
   * Notification. When a position is announced every runner has passed every
   * event up to it, all envelopes of runners that were not pulled have been
   * attempted, and the position is above every one announced before.
   */
  lemma NotificationSound<T, O>(c: Registry<T, O>, run: seq<Live<T, O>>, steps: seq<Step>, i: nat, k: nat)
    requires Run(c, run, steps) && i < |steps| && steps[i] == Notify && k < |c|
    ensures |run[i].mem| == |run[i].base| == |c| && run[i].mark <= |run[i].attempted|
    ensures |run[i].sent| + 1 == |run[i + 1].sent| && run[i].sent == run[i + 1].sent[..|run[i].sent|]
    ensures var s := run[i];
            var n := run[i + 1].sent[|s.sent|];
            && s.mem[k] == Pass(c[k], s.log, Reached(s, k))
            && (forall j :: 0 <= j < |s.log| && s.log[j].position <= n ==> j < Reached(s, k))
            && (forall j :: 0 <= j < |s.sent| ==> s.sent[j] < n)
    ensures var s := run[i];
            k !in s.pulled ==>
              && s.base[k] <= Reached(s, k)
              && Attempted(s, k) == Emitted(c[k], s.log, s.base[k], Reached(s, k))
  {
    var s := run[i];
    Reachable(c, run, steps, i);
    ReachableSent(c, run, steps, i);
    ReachableDispatch(c, run, steps, i);
    assert Linked(c, run, steps, i);
    if k !in s.pulled {
      assert Conserved(c[k], s, k);
    }
    var event := s.phase.event;
    assert forall j :: event < j < |s.log| ==> s.log[event].position < s.log[j].position;
    assert event < Reached(s, k);
  }

  // ---------- What does not hold ----------

  ghost predicate Reaches<T(!new), O(!new)>(c: Registry<T, O>, s: Live<T, O>) {
    exists run: seq<Live<T, O>>, steps: seq<Step> :: Run(c, run, steps) && run[|steps|] == s
  }

  lemma ReachInitial<T(!new), O(!new)>(c: Registry<T, O>)
    ensures Reaches(c, Initial(c))
  {
    assert Run(c, [Initial(c)], []);
  }

  lemma Take<T(!new), O(!new)>(c: Registry<T, O>, s: Live<T, O>, t: Live<T, O>, step: Step) returns (next: Live<T, O>)
    requires Reaches(c, s) && Next(c, s, t, step)
    ensures next == t && Reaches(c, t)
  {
    next := t;
    var run: seq<Live<T, O>>, steps: seq<Step> :| Run(c, run, steps) && run[|steps|] == s;
    var run', steps' := run + [t], steps + [step];
    forall i | 0 <= i < |steps'| ensures Linked(c, run', steps', i) {
      if i < |steps| {
        assert Linked(c, run, steps, i);
      }
    }
    assert Run(c, run', steps') && run'[|steps'|] == t;
  }

  /** The live run of one process manager over a log of one event, about to be delivered it. */
  lemma OneEventStreaming<T(!new), O(!new)>(pm: Consumer<T, O>, e: Recorded) returns (s: Live<T, O>)
    requires e.position + 1 < U64_MAX
    ensures Reaches([pm], s)
    ensures s == Live([e], [Checkpoint(pm.initial, 0)], [None], [], Streaming(0), [], [], [], [0], 0, {})
  {
    hide Advance, AdvanceAll, Reaches;
    var c := [pm];
    ReachInitial(c);
    s := Take(c, Initial(c), Initial(c).(log := [e]), Grow([e]));
    s := Take(c, s, s.(phase := Off), Open);
    s := Take(c, s, s.(phase := Scanning(0, U64_MAX), base := [0]), Start);
    s := Take(c, s, s.(phase := Scanning(1, 0)), Scan);
    s := Take(c, s, s.(phase := Streaming(0)), Subscribe);
  }

  /** The same run, with the event delivered and its envelopes waiting. */
  lemma OneEventDispatching<T(!new), O(!new)>(pm: Consumer<T, O>, e: Recorded) returns (s: Live<T, O>)
    requires e.position + 1 < U64_MAX
    ensures Reaches([pm], s)
    ensures s == Live([e], [Pass(pm, [e], 1)], [None], [], Dispatching(0, Wrap(0, Emits(pm, [e], 0))), [], [], [], [0],
              0, {})
  {
    var c := [pm];
    s := OneEventStreaming(pm, e);
    s := Take(c, s, s.(phase := FanOut(0, 0, [])), Deliver);
    var queue := Wrap(0, Emits(pm, [e], 0));
    assert Advance(pm, s.mem[0], e) == (Pass(pm, [e], 1), Emits(pm, [e], 0)) by {
      PassIsCorrect(pm, [e], 0);
      AdvanceFollowsPass(pm, [e], s.mem[0], 0);
      assert Emitted(pm, [e], 0, 1) == [] + Emits(pm, [e], 0) == Emits(pm, [e], 0);
    }
    assert [] + queue == queue;
    s := Take(c, s, s.(mem := [Pass(pm, [e], 1)], phase := FanOut(0, 1, queue)), FanOutNext);
    s := Take(c, s, s.(phase := Dispatching(0, queue)), FanOutNext);
  }

  /**
   * Lag is lost work once the process ends. A shutdown (or a crash after a
   * tick) in the middle of dispatch leaves a saved cursor past the event in
   * flight: the next process starts behind it with nothing attempted, although
   * the process manager did emit. So a crash in the middle of dispatch does not
   * always cause reprocessing in live mode.
   */
  lemma ShutdownLosesEnvelopes<T(!new), O(!new)>(pm: Consumer<T, O>, e: Recorded) returns (s: Live<T, O>)
    requires e.position + 1 < U64_MAX && Emits(pm, [e], 0) != []
    ensures Reaches([pm], s) && s.phase.Off? && s.log == [e]
    ensures s.mem == [Pass(pm, [e], 1)] && s.attempted == []
  {
    var c := [pm];
    s := OneEventDispatching(pm, e);
    s := Take(c, s, s.(disk := [Some(s.mem[0])], archive := [(0, s.mem[0])]), Save(0));
    s := Take(c, s, s.(phase := Stopped(0, s.phase.queue)), Stop);
    s := Take(c, s, s.(phase := Down), Crash);
    s := Take(c, s, s.(phase := Off), Open);
  }

  function Unobserved<T, O>(e: Recorded, phase: Phase<O>, sent: seq<nat>): Live<T, O> {
    Live([e], [], [], [], phase, [], [], sent, [], 0, {})
  }

  /** One connection of a loop without runners: subscribe at 0, announce the event, disconnect. */
  lemma AnnounceAgain<T(!new), O(!new)>(e: Recorded, sent: seq<nat>) returns (s: Live<T, O>)
    requires Reaches<T, O>([], Unobserved(e, Scanning(0, U64_MAX), sent))
    ensures s == Unobserved(e, Scanning(0, U64_MAX), sent + [e.position]) && Reaches([], s)
  {
    var c: Registry<T, O> := [];
    s := Take(c, Unobserved(e, Scanning(0, U64_MAX), sent), Unobserved(e, Streaming(0), sent), Subscribe);
    s := Take(c, s, Unobserved(e, FanOut(0, 0, []), sent), Deliver);
    s := Take(c, s, Unobserved(e, Dispatching(0, []), sent), FanOutNext);
    s := Take(c, s, Unobserved(e, Streaming(1), sent + [e.position]), Notify);
    s := Take(c, s, Unobserved(e, Scanning(0, U64_MAX), sent + [e.position]), Disconnect);
  }

  /** With no runner the scan falls back to 0: after a reconnect the same position is announced again. */
  lemma NoRunnersRepeatPositions<T(!new), O(!new)>(e: Recorded) returns (s: Live<T, O>)
    requires e.position + 1 < U64_MAX
    ensures Reaches([], s) && s.sent == [e.position, e.position]
  {
    var c: Registry<T, O> := [];
    ReachInitial(c);
    s := Take(c, Initial(c), Initial(c).(log := [e]), Grow([e]));
    s := Take(c, s, Unobserved(e, Off, []), Open);
    s := Take(c, s, Unobserved(e, Scanning(0, U64_MAX), []), Start);
    s := AnnounceAgain(e, []);
    s := AnnounceAgain(e, [e.position]);
  }
}
