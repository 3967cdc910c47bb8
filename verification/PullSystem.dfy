/**
 * Pull passes over many process lives, beside a live loop of the same store: a
 * crash at any point, a reload of the checkpoint files, and what may be lost in
 * between. Of the live loop this system keeps what shares the runners and the
 * files with a pass: it moves cursors, holds envelopes and saves at any time.
 */
module PullSystem {
  import opened Prelude
  import opened Codec
  import opened Consumers
  import LiveSystem

  /** Envelope number `ordinal` of event `event`, of one process manager. */
  datatype Tag<O> = Tag(runner: nat, event: nat, ordinal: nat, command: O)

  datatype Stage<O> =
    | Down
    | Idle
    | Collecting(next: nat, work: seq<Tag<O>>)
    | Dispatching(work: seq<Tag<O>>)
    | Saving(next: nat)
    | Failed

  /** `live` are the envelopes the live loop has collected and not yet handled. */
  datatype Pull<T, O> = Pull(
    log: seq<Recorded>,
    mem: seq<Checkpoint<T>>,
    disk: seq<Option<Checkpoint<T>>>,
    handled: seq<Tag<O>>,
    pass: Stage<O>,
    live: seq<Tag<O>>)

  datatype Step =
    | Grow(more: seq<Recorded>)
    | Open
    | Begin
    | Collect(upto: nat, fails: bool)
    | Handle(works: bool)
    | Save(works: bool)
    | Crash
    | Resume
    | React(runner: nat)
    | Settle(works: bool)
    | Tick(runner: nat)
    | Halt

  type Registry<!T, !O> = seq<Consumer<T, O>>

  function Reached<T, O>(s: Pull<T, O>, k: nat): nat
    requires k < |s.mem|
  {
    Behind(s.log, s.mem[k].cursor)
  }

  /** The envelopes of event e, and of the events from `lo` up to `hi`. */
  function TagsOf<T, O>(c: Consumer<T, O>, log: seq<Recorded>, k: nat, e: nat): seq<Tag<O>>
    requires e < |log|
  {
    seq(|Emits(c, log, e)|, j requires 0 <= j < |Emits(c, log, e)| => Tag(k, e, j, Emits(c, log, e)[j]))
  }

  function Tags<T, O>(c: Consumer<T, O>, log: seq<Recorded>, k: nat, lo: nat, hi: nat): seq<Tag<O>>
    requires lo <= hi <= |log|
  {
    if lo == hi then [] else Tags(c, log, k, lo, hi - 1) + TagsOf(c, log, k, hi - 1)
  }

  ghost predicate Next<T, O>(c: Registry<T, O>, s: Pull<T, O>, t: Pull<T, O>, step: Step) {
    && |s.mem| == |s.disk| == |c|
    && match step
       case Grow(more) => Ordered(s.log + more) && t == s.(log := s.log + more)
       case Open => Opens(c, s, t)
       case Begin => s.pass.Idle? && t == s.(pass := Collecting(0, []))
       case Collect(upto, fails) => Collects(c, s, t, upto, fails)
       case Handle(works) => Handles(s, t, works)
       case Save(works) => Saves(s, t, works)
       case Crash => !s.pass.Down? && t == s.(pass := Down, live := [])
       case Resume => s.pass.Failed? && t == s.(pass := Idle)
       case React(k) => Reacts(c, s, t, k)
       case Settle(works) => Settles(s, t, works)
       case Tick(k) => !s.pass.Down? && k < |c| && t == s.(disk := s.disk[k := Some(s.mem[k])])
       case Halt => !s.pass.Down? && t == s.(live := [])
  }

  /** A new process, or a fresh set of runners, loads every checkpoint file. */
  ghost predicate Opens<T, O>(c: Registry<T, O>, s: Pull<T, O>, t: Pull<T, O>)
    requires |s.disk| == |c|
  {
    && (s.pass.Down? || s.pass.Failed?)
    && t == s.(pass := Idle, mem := seq(|c|, k requires 0 <= k < |c| => LiveSystem.Load(c[k], s.disk[k])), live := [])
  }

  /** Catch up the next runner as far as its stream went; on failure everything collected is dropped. */
  ghost predicate Collects<T, O>(c: Registry<T, O>, s: Pull<T, O>, t: Pull<T, O>, upto: nat, fails: bool)
    requires |s.mem| == |c|
  {
    && s.pass.Collecting?
    && var k := s.pass.next;
       if k == |c| then t == s.(pass := Dispatching(s.pass.work))
       else
         && k < |c| && Reached(s, k) <= upto <= |s.log|
         && var after := AdvanceAll(c[k], s.mem[k], s.log[Reached(s, k)..upto]).0;
            t == s.(mem := s.mem[k := after],
                    pass := if fails then Failed
                            else Collecting(k + 1, s.pass.work + Tags(c[k], s.log, k, Reached(s, k), upto)))
  }

  /** Dispatched or dead-lettered; it fails only if the dead letter could not be written. */
  ghost predicate Handles<T, O>(s: Pull<T, O>, t: Pull<T, O>, works: bool) {
    && s.pass.Dispatching?
    && if s.pass.work == [] then t == s.(pass := Saving(0))
       else if works then t == s.(handled := s.handled + [s.pass.work[0]], pass := Dispatching(s.pass.work[1..]))
       else t == s.(pass := Failed)
  }

  ghost predicate Saves<T, O>(s: Pull<T, O>, t: Pull<T, O>, works: bool)
    requires |s.mem| == |s.disk|
  {
    && s.pass.Saving?
    && var k := s.pass.next;
       if k == |s.mem| then t == s.(pass := Idle)
       else
         && k < |s.mem|
         && t == if works then s.(disk := s.disk[k := Some(s.mem[k])], pass := Saving(k + 1)) else s.(pass := Failed)
  }

  /** The live loop hands runner k the next event it has not passed. */
  ghost predicate Reacts<T, O>(c: Registry<T, O>, s: Pull<T, O>, t: Pull<T, O>, k: nat)
    requires |s.mem| == |c|
  {
    && !s.pass.Down? && k < |c| && Reached(s, k) < |s.log|
    && var n := Reached(s, k);
       t == s.(mem := s.mem[k := AdvanceAll(c[k], s.mem[k], s.log[n..n + 1]).0],
               live := s.live + Tags(c[k], s.log, k, n, n + 1))
  }

  /** The live loop dispatches or dead-letters an envelope; if neither works it goes on all the same. */
  ghost predicate Settles<T, O>(s: Pull<T, O>, t: Pull<T, O>, works: bool) {
    && !s.pass.Down? && s.live != []
    && t == s.(live := s.live[1..], handled := if works then s.handled + [s.live[0]] else s.handled)
  }

  function Initial<T, O>(c: Registry<T, O>): Pull<T, O> {
    Pull([], seq(|c|, k requires 0 <= k < |c| => Checkpoint(c[k].initial, 0)), seq(|c|, k => None), [], Down, [])
  }

  /** A run of the code: after a failed pass it may reload, or carry on with the same runners. */
  ghost predicate Behaves<T, O>(c: Registry<T, O>, run: seq<Pull<T, O>>, steps: seq<Step>) {
    && |run| == |steps| + 1
    && run[0] == Initial(c)
    && forall i :: 0 <= i < |steps| ==> Linked(c, run, steps, i)
  }

  ghost predicate Linked<T, O>(c: Registry<T, O>, run: seq<Pull<T, O>>, steps: seq<Step>, i: nat)
    requires |run| == |steps| + 1 && i < |steps|
  {
    Next(c, run[i], run[i + 1], steps[i])
  }

  /** A run whose every step is safe. */
  ghost predicate Run<T, O>(c: Registry<T, O>, run: seq<Pull<T, O>>, steps: seq<Step>) {
    && Behaves(c, run, steps)
    && forall i :: 0 <= i < |steps| ==> Safe(c, run[i], steps[i])
  }

  // ---------- What makes a step safe ----------

  /**
   * Most steps always are. Carrying on after a failed pass is if the pass left
   * nothing unhandled behind, a save if nothing of its process manager waits;
   * and what the live loop gives up must not be lost by that.
   */
  ghost predicate Safe<T, O>(c: Registry<T, O>, s: Pull<T, O>, step: Step) {
    |s.mem| == |c| ==>
      match step
      case Resume => Settled(c, s)
      case Tick(k) => k < |c| ==> ClearOf(c, s, k)
      case Save(works) => works && s.pass.Saving? && s.pass.next < |c| ==> ClearOf(c, s, s.pass.next)
      case Settle(works) =>
        !works && s.live != [] && !s.pass.Failed? ==> s.live[0] in s.handled || s.live[0] in Work(s.pass) + s.live[1..]
      case Halt => !s.pass.Failed? ==> forall tag :: tag in s.live ==> tag in s.handled || tag in Work(s.pass)
      case _ => true
  }

  /** Every envelope of every event the runners have passed is handled, or the live loop has it. */
  ghost predicate Settled<T, O>(c: Registry<T, O>, s: Pull<T, O>)
    requires |s.mem| == |c|
  {
    forall k :: 0 <= k < |c| ==> Covered(c[k], s.log, k, Reached(s, k), s.handled, s.live)
  }

  /** Nothing of process manager k waits; after a failed pass, nothing of it was dropped either. */
  ghost predicate ClearOf<T, O>(c: Registry<T, O>, s: Pull<T, O>, k: nat)
    requires k < |s.mem| == |c|
  {
    if s.pass.Failed? then Covered(c[k], s.log, k, Reached(s, k), s.handled, [])
    else forall tag :: tag in Waiting(s) && tag.runner == k ==> tag in s.handled
  }

  /** Every envelope of every event below n has been handled, or waits in `work`. */
  ghost predicate Covered<T, O>(c: Consumer<T, O>, log: seq<Recorded>, k: nat, n: nat, handled: seq<Tag<O>>,
                                work: seq<Tag<O>>)
    requires n <= |log|
  {
    forall e, j :: 0 <= e < n && 0 <= j < |Emits(c, log, e)| ==>
      var tag := Tag(k, e, j, Emits(c, log, e)[j]);
      tag in handled || tag in work
  }

  /** The saved cursor is past handled events only. */
  ghost predicate DiskSafe<T, O>(c: Consumer<T, O>, s: Pull<T, O>, k: nat)
    requires k < |s.disk|
  {
    s.disk[k].Some? ==>
      Correct(c, s.log, s.disk[k].value) && Covered(c, s.log, k, Behind(s.log, s.disk[k].value.cursor), s.handled, [])
  }

  function Work<O>(pass: Stage<O>): seq<Tag<O>> {
    if pass.Collecting? || pass.Dispatching? then pass.work else []
  }

  /** All that is collected and not yet handled, by the pass and by the live loop. */
  function Waiting<T, O>(s: Pull<T, O>): seq<Tag<O>> {
    Work(s.pass) + s.live
  }

  ghost predicate MemSafe<T, O>(c: Consumer<T, O>, s: Pull<T, O>, k: nat)
    requires k < |s.mem|
  {
    && Correct(c, s.log, s.mem[k])
    && (!s.pass.Failed? && !s.pass.Down? ==> Covered(c, s.log, k, Reached(s, k), s.handled, Waiting(s)))
  }

  ghost predicate Inv<T, O>(c: Registry<T, O>, s: Pull<T, O>) {
    && |s.mem| == |s.disk| == |c| && Ordered(s.log)
    && forall k :: 0 <= k < |c| ==> DiskSafe(c[k], s, k) && MemSafe(c[k], s, k)
  }

  // ---------- On every run: folds ----------

  /** A tag stands for an envelope the runner really emitted. */
  ghost predicate Genuine<T, O>(c: Registry<T, O>, s: Pull<T, O>, tag: Tag<O>)
    requires |s.mem| == |c|
  {
    && tag.runner < |c|
    && tag.event < Reached(s, tag.runner)
    && tag.ordinal < |Emits(c[tag.runner], s.log, tag.event)|
    && tag.command == Emits(c[tag.runner], s.log, tag.event)[tag.ordinal]
  }

  /** Files and runners are one pass over their prefix, and what waits was emitted. */
  ghost predicate FoldInv<T, O>(c: Registry<T, O>, s: Pull<T, O>) {
    && |s.mem| == |s.disk| == |c| && Ordered(s.log)
    && (forall k :: 0 <= k < |c| ==> Correct(c[k], s.log, s.mem[k]))
    && (forall k :: 0 <= k < |c| && s.disk[k].Some? ==> Correct(c[k], s.log, s.disk[k].value))
    && (forall tag :: tag in Waiting(s) ==> Genuine(c, s, tag))
  }

  lemma {:induction false} TagsAreGenuine<T, O>(c: Consumer<T, O>, log: seq<Recorded>, k: nat, lo: nat, hi: nat,
                                                tag: Tag<O>)
    requires lo <= hi <= |log| && tag in Tags(c, log, k, lo, hi)
    ensures tag.runner == k && lo <= tag.event < hi && tag.ordinal < |Emits(c, log, tag.event)|
    ensures tag.command == Emits(c, log, tag.event)[tag.ordinal]
    decreases hi
  {
    hide Emits;
    if tag in Tags(c, log, k, lo, hi - 1) {
      TagsAreGenuine(c, log, k, lo, hi - 1, tag);
    } else {
      assert tag in TagsOf(c, log, k, hi - 1);
    }
  }

  lemma GrowKeepsFolds<T, O>(c: Registry<T, O>, s: Pull<T, O>, t: Pull<T, O>, more: seq<Recorded>)
    requires FoldInv(c, s) && Next(c, s, t, Grow(more))
    ensures FoldInv(c, t)
    ensures forall k :: 0 <= k < |c| ==> Reached(t, k) == Reached(s, k)
  {
    hide Behind, Correct, Emits;
    forall k | 0 <= k < |c|
      ensures Correct(c[k], t.log, t.mem[k]) && Reached(t, k) == Reached(s, k)
      ensures t.disk[k].Some? ==> Correct(c[k], t.log, t.disk[k].value)
    {
      CorrectGrows(c[k], s.log, t.log, s.mem[k]);
      if s.disk[k].Some? {
        CorrectGrows(c[k], s.log, t.log, s.disk[k].value);
      }
    }
    forall tag | tag in Waiting(t) ensures Genuine(c, t, tag) {
      assert Genuine(c, s, tag);
      SameEmits(c[tag.runner], s.log, t.log, tag.event);
    }
  }

  lemma SameEmits<T, O>(c: Consumer<T, O>, log: seq<Recorded>, grown: seq<Recorded>, e: nat)
    requires log <= grown && e < |log|
    ensures Emits(c, grown, e) == Emits(c, log, e)
  {
    assert grown[..e] == log[..e];
  }

  /** Runner k goes on from its own cursor, in a pass or in the live loop; what it emits waits, or is dropped. */
  ghost predicate GoesOn<T, O>(c: Registry<T, O>, s: Pull<T, O>, t: Pull<T, O>, k: nat, upto: nat)
    requires |s.mem| == |c|
  {
    && k < |c| && Reached(s, k) <= upto <= |s.log|
    && t == s.(mem := s.mem[k := AdvanceAll(c[k], s.mem[k], s.log[Reached(s, k)..upto]).0], pass := t.pass,
       live := t.live)
    && forall tag :: tag in Waiting(t) ==> tag in Waiting(s) || tag in Tags(c[k], s.log, k, Reached(s, k), upto)
  }

  lemma CollectGoesOn<T, O>(c: Registry<T, O>, s: Pull<T, O>, t: Pull<T, O>, upto: nat, fails: bool)
    requires |s.mem| == |c| && Collects(c, s, t, upto, fails) && s.pass.next < |c|
    ensures GoesOn(c, s, t, s.pass.next, upto)
  {
    hide AdvanceAll, Behind, Tags;
  }

  lemma ReactGoesOn<T, O>(c: Registry<T, O>, s: Pull<T, O>, t: Pull<T, O>, k: nat)
    requires |s.mem| == |c| && Reacts(c, s, t, k)
    ensures k < |c| && GoesOn(c, s, t, k, Reached(s, k) + 1)
  {
    hide AdvanceAll, Behind, Tags;
  }

  lemma RunnerReaches<T, O>(c: Registry<T, O>, s: Pull<T, O>, t: Pull<T, O>, k: nat, upto: nat)
    requires FoldInv(c, s) && GoesOn(c, s, t, k, upto)
    ensures |t.mem| == |t.disk| == |c| && Reached(t, k) == upto
    ensures forall j :: 0 <= j < |c| ==> Correct(c[j], t.log, t.mem[j])
    ensures forall j :: 0 <= j < |c| && j != k ==> Reached(t, j) == Reached(s, j)
  {
    hide AdvanceAll, Behind, Correct, Tags;
    RunFollowsPass(c[k], s.log, s.mem[k], upto);
  }

  lemma GoingOnKeepsFolds<T, O>(c: Registry<T, O>, s: Pull<T, O>, t: Pull<T, O>, k: nat, upto: nat)
    requires FoldInv(c, s) && GoesOn(c, s, t, k, upto)
    ensures FoldInv(c, t)
  {
    hide AdvanceAll, Emits, Behind, Correct, Tags;
    RunnerReaches(c, s, t, k, upto);
    forall tag | tag in Waiting(t) ensures Genuine(c, t, tag) {
      if tag in Waiting(s) {
        assert Genuine(c, s, tag);
      } else {
        TagsAreGenuine(c[k], s.log, k, Reached(s, k), upto, tag);
      }
    }
  }

  /** Runners and log stand still, files are replaced by what is in memory, what waits only shrinks. */
  ghost predicate Quiet<T, O>(s: Pull<T, O>, t: Pull<T, O>) {
    && t.mem == s.mem && t.log == s.log && |t.disk| == |s.disk| == |s.mem|
    && (forall k :: 0 <= k < |s.disk| ==> t.disk[k] == s.disk[k] || t.disk[k] == Some(s.mem[k]))
    && (forall tag :: tag in Waiting(t) ==> tag in Waiting(s))
  }

  lemma QuietKeepsFolds<T, O>(c: Registry<T, O>, s: Pull<T, O>, t: Pull<T, O>)
    requires FoldInv(c, s) && Quiet(s, t)
    ensures FoldInv(c, t)
  {
    hide Behind, Correct, Emits;
    forall tag | tag in Waiting(t) ensures Genuine(c, t, tag) {
      assert Genuine(c, s, tag);
    }
  }

  predicate GoingOn(step: Step, s: Pull) {
    step.React? || (step.Collect? && s.pass.Collecting? && s.pass.next < |s.mem|)
  }

  lemma StepIsQuiet<T, O>(c: Registry<T, O>, s: Pull<T, O>, t: Pull<T, O>, step: Step)
    requires Next(c, s, t, step) && !step.Grow? && !step.Open? && !GoingOn(step, s)
    ensures Quiet(s, t)
  {
    hide Tags, AdvanceAll, Behind;
  }

  lemma OpenKeepsFolds<T, O>(c: Registry<T, O>, s: Pull<T, O>, t: Pull<T, O>)
    requires FoldInv(c, s) && Opens(c, s, t)
    ensures FoldInv(c, t)
  {
    hide Behind;
    forall k | 0 <= k < |c| ensures Correct(c[k], t.log, t.mem[k]) {
      PassIsCorrect(c[k], s.log, 0);
    }
  }

  lemma StepKeepsFolds<T, O>(c: Registry<T, O>, s: Pull<T, O>, t: Pull<T, O>, step: Step)
    requires FoldInv(c, s) && Next(c, s, t, step)
    ensures FoldInv(c, t)
  {
    hide Collects, Reacts, Opens, GoesOn, Emits, Behind, Quiet;
    match step
    case Grow(more) => GrowKeepsFolds(c, s, t, more);
    case Open => OpenKeepsFolds(c, s, t);
    case Collect(upto, fails) =>
      if GoingOn(step, s) {
        CollectGoesOn(c, s, t, upto, fails);
        GoingOnKeepsFolds(c, s, t, s.pass.next, upto);
      } else {
        StepIsQuiet(c, s, t, step);
        QuietKeepsFolds(c, s, t);
      }
    case React(k) =>
      ReactGoesOn(c, s, t, k);
      GoingOnKeepsFolds(c, s, t, k, Reached(s, k) + 1);
    case _ =>
      StepIsQuiet(c, s, t, step);
      QuietKeepsFolds(c, s, t);
  }

  lemma {:induction false} ReachableFolds<T, O>(c: Registry<T, O>, run: seq<Pull<T, O>>, steps: seq<Step>, i: nat)
    requires Behaves(c, run, steps) && i < |run|
    ensures FoldInv(c, run[i])
  {
    if i == 0 {
      forall k | 0 <= k < |c| ensures Correct(c[k], [], Checkpoint(c[k].initial, 0)) {
        PassIsCorrect(c[k], [], 0);
      }
    } else {
      ReachableFolds(c, run, steps, i - 1);
      assert Linked(c, run, steps, i - 1);
      StepKeepsFolds(c, run[i - 1], run[i], steps[i - 1]);
    }
  }

  /**
   * On every run, whatever is saved when and with or without a reload, each file is
   * one pass over the log below its cursor.
   */
  lemma FilesAreCorrect<T, O>(c: Registry<T, O>, run: seq<Pull<T, O>>, steps: seq<Step>, i: nat, k: nat)
    requires Behaves(c, run, steps) && i < |run| && k < |c|
    ensures |run[i].disk| == |c|
    ensures run[i].disk[k].Some? ==> Correct(c[k], run[i].log, run[i].disk[k].value)
  {
    ReachableFolds(c, run, steps, i);
  }

  // ---------- Safe steps: nothing is lost ----------

  lemma CoveredGrows<T, O>(c: Consumer<T, O>, log: seq<Recorded>, grown: seq<Recorded>, k: nat, n: nat,
                           handled: seq<Tag<O>>, work: seq<Tag<O>>)
    requires n <= |log| && log <= grown && Covered(c, log, k, n, handled, work)
    ensures Covered(c, grown, k, n, handled, work)
  {
    forall e | 0 <= e < n ensures Emits(c, grown, e) == Emits(c, log, e) {
      SameEmits(c, log, grown, e);
    }
  }

  /** What was handled stays handled, what waited is handled or still waits. */
  lemma CoveredMoves<T, O>(c: Consumer<T, O>, log: seq<Recorded>, k: nat, n: nat, handled: seq<Tag<O>>,
                           work: seq<Tag<O>>, handled': seq<Tag<O>>, work': seq<Tag<O>>)
    requires n <= |log| && Covered(c, log, k, n, handled, work)
    requires forall tag :: tag in handled ==> tag in handled'
    requires forall tag :: tag in work && tag.runner == k ==> tag in handled' || tag in work'
    ensures Covered(c, log, k, n, handled', work')
  {
    hide Emits;
  }

  lemma {:induction false} TagsCover<T, O>(c: Consumer<T, O>, log: seq<Recorded>, k: nat, lo: nat, hi: nat,
                                           e: nat, j: nat)
    requires lo <= e < hi <= |log| && j < |Emits(c, log, e)|
    ensures Tag(k, e, j, Emits(c, log, e)[j]) in Tags(c, log, k, lo, hi)
    decreases hi
  {
    if e < hi - 1 {
      TagsCover(c, log, k, lo, hi - 1, e, j);
    } else {
      assert TagsOf(c, log, k, e)[j] == Tag(k, e, j, Emits(c, log, e)[j]);
    }
  }

  lemma MoreCovered<T, O>(c: Consumer<T, O>, log: seq<Recorded>, k: nat, n: nat, m: nat, handled: seq<Tag<O>>,
                          work: seq<Tag<O>>, more: seq<Tag<O>>)
    requires n <= m <= |log| && Covered(c, log, k, n, handled, work)
    requires forall tag :: tag in work ==> tag in more
    requires forall tag :: tag in Tags(c, log, k, n, m) ==> tag in more
    ensures Covered(c, log, k, m, handled, more)
  {
    hide Tags, Emits;
    forall e, j | 0 <= e < m && 0 <= j < |Emits(c, log, e)|
      ensures var tag := Tag(k, e, j, Emits(c, log, e)[j]); tag in handled || tag in more
    {
      if n <= e {
        TagsCover(c, log, k, n, m, e, j);
      }
    }
  }

  lemma GrowKeeps<T, O>(c: Registry<T, O>, s: Pull<T, O>, t: Pull<T, O>, more: seq<Recorded>)
    requires Inv(c, s) && Next(c, s, t, Grow(more))
    ensures Inv(c, t)
  {
    hide Behind, Correct, Covered;
    forall k | 0 <= k < |c| ensures DiskSafe(c[k], t, k) && MemSafe(c[k], t, k) {
      assert DiskSafe(c[k], s, k) && MemSafe(c[k], s, k);
      CorrectGrows(c[k], s.log, t.log, s.mem[k]);
      if !s.pass.Failed? && !s.pass.Down? {
        CoveredGrows(c[k], s.log, t.log, k, Reached(s, k), s.handled, Waiting(s));
      }
      if s.disk[k].Some? {
        var cp := s.disk[k].value;
        CorrectGrows(c[k], s.log, t.log, cp);
        CoveredGrows(c[k], s.log, t.log, k, Behind(s.log, cp.cursor), s.handled, []);
      }
    }
  }

  /** A runner that goes on leaves what it emits waiting, or the pass has failed. */
  lemma GoingOnKeeps<T, O>(c: Registry<T, O>, s: Pull<T, O>, t: Pull<T, O>, k: nat, upto: nat)
    requires Inv(c, s) && FoldInv(c, s) && GoesOn(c, s, t, k, upto) && !s.pass.Down?
    requires s.pass.Failed? ==> t.pass.Failed?
    requires !t.pass.Failed? ==> forall tag :: tag in Waiting(s) ==> tag in Waiting(t)
    requires !t.pass.Failed? ==> forall tag :: tag in Tags(c[k], s.log, k, Reached(s, k), upto) ==> tag in Waiting(t)
    ensures Inv(c, t)
  {
    hide AdvanceAll, Emits, Behind, Correct, Tags, Covered;
    RunnerReaches(c, s, t, k, upto);
    forall j | 0 <= j < |c| ensures DiskSafe(c[j], t, j) && MemSafe(c[j], t, j) {
      assert DiskSafe(c[j], s, j) && MemSafe(c[j], s, j);
      if !t.pass.Failed? {
        if j == k {
          MoreCovered(c[k], s.log, k, Reached(s, k), upto, s.handled, Waiting(s), Waiting(t));
        } else {
          CoveredMoves(c[j], s.log, j, Reached(s, j), s.handled, Waiting(s), t.handled, Waiting(t));
        }
      }
    }
  }

  lemma OpenKeeps<T, O>(c: Registry<T, O>, s: Pull<T, O>, t: Pull<T, O>)
    requires Inv(c, s) && Opens(c, s, t)
    ensures Inv(c, t)
  {
    forall k | 0 <= k < |c| ensures DiskSafe(c[k], t, k) && MemSafe(c[k], t, k) {
      assert DiskSafe(c[k], s, k);
      PassIsCorrect(c[k], s.log, 0);
    }
  }

  /** Waiting for nothing of its own is what a runner needs to be saved. */
  lemma ClearIsCovered<T, O>(c: Registry<T, O>, s: Pull<T, O>, k: nat)
    requires Inv(c, s) && FoldInv(c, s) && !s.pass.Down? && k < |c|
    ensures ClearOf(c, s, k) <==> Covered(c[k], s.log, k, Reached(s, k), s.handled, [])
  {
    hide Behind, Correct, Emits;
    assert MemSafe(c[k], s, k);
    if !s.pass.Failed? && Covered(c[k], s.log, k, Reached(s, k), s.handled, []) {
      forall tag | tag in Waiting(s) && tag.runner == k ensures tag in s.handled {
        GenuineIsCovered(c, s, tag, s.handled, []);
      }
    }
  }

  lemma GenuineIsCovered<T, O>(c: Registry<T, O>, s: Pull<T, O>, tag: Tag<O>, handled: seq<Tag<O>>, work: seq<Tag<O>>)
    requires |s.mem| == |c| && Genuine(c, s, tag)
    requires Covered(c[tag.runner], s.log, tag.runner, Reached(s, tag.runner), handled, work)
    ensures tag in handled || tag in work
  {
    hide Behind, Emits;
    assert tag == Tag(tag.runner, tag.event, tag.ordinal, Emits(c[tag.runner], s.log, tag.event)[tag.ordinal]);
  }

  /** A save of one runner, by a pass or by a tick, is safe exactly when nothing of it waits. */
  lemma SavingIsExact<T, O>(c: Registry<T, O>, s: Pull<T, O>, t: Pull<T, O>, k: nat)
    requires Inv(c, s) && FoldInv(c, s) && !s.pass.Down? && !t.pass.Down? && k < |c|
    requires t == s.(disk := s.disk[k := Some(s.mem[k])], pass := t.pass)
    requires Work(t.pass) == Work(s.pass) && (t.pass.Failed? <==> s.pass.Failed?)
    ensures Inv(c, t) <==> ClearOf(c, s, k)
  {
    hide Behind, Correct, Covered;
    ClearIsCovered(c, s, k);
    assert MemSafe(c[k], s, k);
    if ClearOf(c, s, k) {
      forall j | 0 <= j < |c| ensures DiskSafe(c[j], t, j) && MemSafe(c[j], t, j) {
        assert DiskSafe(c[j], s, j) && MemSafe(c[j], s, j);
      }
    } else {
      assert !DiskSafe(c[k], t, k);
    }
  }

  /** Files stand still and the pass is alive before and after, or about to be. */
  lemma WaitingIsExact<T, O>(c: Registry<T, O>, s: Pull<T, O>, t: Pull<T, O>)
    requires Inv(c, s) && FoldInv(c, s) && Quiet(s, t) && t.disk == s.disk
    requires forall tag :: tag in s.handled ==> tag in t.handled
    ensures Inv(c, t) <==>
            (t.pass.Failed? || t.pass.Down?
             || forall k :: 0 <= k < |c| ==> Covered(c[k], t.log, k, Reached(t, k), t.handled, Waiting(t)))
  {
    hide Behind, Correct, Covered, Emits;
    forall k | 0 <= k < |c| ensures DiskSafe(c[k], t, k) && Correct(c[k], t.log, t.mem[k]) {
      assert DiskSafe(c[k], s, k) && MemSafe(c[k], s, k);
      if s.disk[k].Some? {
        CoveredMoves(c[k], s.log, k, Behind(s.log, s.disk[k].value.cursor), s.handled, [], t.handled, []);
      }
    }
    if Inv(c, t) && !t.pass.Failed? && !t.pass.Down? {
      forall k | 0 <= k < |c| ensures Covered(c[k], t.log, k, Reached(t, k), t.handled, Waiting(t)) {
        assert MemSafe(c[k], t, k);
      }
    }
  }

  /** What a living pass and the live loop let go of must be handled, or wait elsewhere. */
  lemma LettingGoIsExact<T, O>(c: Registry<T, O>, s: Pull<T, O>, t: Pull<T, O>)
    requires Inv(c, s) && FoldInv(c, s) && Quiet(s, t) && t.disk == s.disk && !s.pass.Failed? && !s.pass.Down?
    requires forall tag :: tag in s.handled ==> tag in t.handled
    requires !t.pass.Failed? && !t.pass.Down?
    ensures Inv(c, t) <==> forall tag :: tag in Waiting(s) ==> tag in t.handled || tag in Waiting(t)
  {
    hide Behind, Correct, Covered, Emits;
    WaitingIsExact(c, s, t);
    if forall tag :: tag in Waiting(s) ==> tag in t.handled || tag in Waiting(t) {
      forall k | 0 <= k < |c| ensures Covered(c[k], t.log, k, Reached(t, k), t.handled, Waiting(t)) {
        assert MemSafe(c[k], s, k);
        CoveredMoves(c[k], s.log, k, Reached(s, k), s.handled, Waiting(s), t.handled, Waiting(t));
      }
    }
    if Inv(c, t) {
      forall tag | tag in Waiting(s) ensures tag in t.handled || tag in Waiting(t) {
        GenuineIsCovered(c, s, tag, t.handled, Waiting(t));
      }
    }
  }

  /** Every condition is exact: a step keeps the invariant if and only if it is safe. */
  lemma SafeIsExact<T, O>(c: Registry<T, O>, s: Pull<T, O>, t: Pull<T, O>, step: Step)
    requires Inv(c, s) && FoldInv(c, s) && Next(c, s, t, step)
    ensures Inv(c, t) <==> Safe(c, s, step)
  {
    hide Inv, FoldInv, Collects, Handles, Saves, Reacts, Settles, Opens, GoesOn, Covered, ClearOf, Settled, Quiet,
        Behind;
    match step
    case Grow(more) => GrowKeeps(c, s, t, more);
    case Open => OpenKeeps(c, s, t);
    case Collect(upto, fails) => CollectKeeps(c, s, t, upto, fails);
    case React(k) => ReactKeeps(c, s, t, k);
    case Tick(k) => SavingIsExact(c, s, t, k);
    case Save(works) => SaveIsExact(c, s, t, works);
    case Resume => ResumeIsExact(c, s, t);
    case Handle(works) => HandleKeeps(c, s, t, works);
    case Settle(works) => SettleIsExact(c, s, t, works);
    case Halt => HaltIsExact(c, s, t);
    case Begin => TurnKeeps(c, s, t, step);
    case Crash => TurnKeeps(c, s, t, step);
  }

  lemma CollectKeeps<T, O>(c: Registry<T, O>, s: Pull<T, O>, t: Pull<T, O>, upto: nat, fails: bool)
    requires Inv(c, s) && FoldInv(c, s) && |s.mem| == |s.disk| == |c| && Collects(c, s, t, upto, fails)
    ensures Inv(c, t)
  {
    hide AdvanceAll, Behind, Tags, Covered, Correct, Inv, FoldInv;
    if s.pass.next < |c| {
      CollectGoesOn(c, s, t, upto, fails);
      GoingOnKeeps(c, s, t, s.pass.next, upto);
    } else {
      StepIsQuiet(c, s, t, Collect(upto, fails));
      LettingGoIsExact(c, s, t);
    }
  }

  lemma ReactKeeps<T, O>(c: Registry<T, O>, s: Pull<T, O>, t: Pull<T, O>, k: nat)
    requires Inv(c, s) && FoldInv(c, s) && |s.mem| == |c| && Reacts(c, s, t, k)
    ensures Inv(c, t)
  {
    hide AdvanceAll, Behind, Tags, Covered, Correct, Inv, FoldInv;
    ReactGoesOn(c, s, t, k);
    GoingOnKeeps(c, s, t, k, Reached(s, k) + 1);
  }

  /** Carrying on is safe exactly when the failed pass left nothing unhandled but what the live loop has. */
  lemma ResumeIsExact<T, O>(c: Registry<T, O>, s: Pull<T, O>, t: Pull<T, O>)
    requires Inv(c, s) && FoldInv(c, s) && Next(c, s, t, Resume)
    ensures Inv(c, t) <==> Settled(c, s)
  {
    hide Behind, Correct, Covered, Inv;
    StepIsQuiet(c, s, t, Resume);
    WaitingIsExact(c, s, t);
    assert Waiting(t) == s.live;
  }

  lemma SaveIsExact<T, O>(c: Registry<T, O>, s: Pull<T, O>, t: Pull<T, O>, works: bool)
    requires Inv(c, s) && FoldInv(c, s) && Next(c, s, t, Save(works))
    ensures Inv(c, t) <==> Safe(c, s, Save(works))
  {
    hide Behind, Correct, Covered, Inv, ClearOf;
    if works && s.pass.next < |c| {
      SavingIsExact(c, s, t, s.pass.next);
    } else {
      StepIsQuiet(c, s, t, Save(works));
      WaitingIsExact(c, s, t);
      if t.pass.Idle? {
        LettingGoIsExact(c, s, t);
      }
    }
  }

  lemma HandleKeeps<T, O>(c: Registry<T, O>, s: Pull<T, O>, t: Pull<T, O>, works: bool)
    requires Inv(c, s) && FoldInv(c, s) && Next(c, s, t, Handle(works))
    ensures Inv(c, t)
  {
    hide Behind, Correct, Covered, Inv, FoldInv;
    StepIsQuiet(c, s, t, Handle(works));
    WaitingIsExact(c, s, t);
    if !t.pass.Failed? {
      HeadAndRest(s.pass.work);
      LettingGoIsExact(c, s, t);
    }
  }

  lemma HeadAndRest<O>(tags: seq<Tag<O>>)
    ensures tags != [] ==> forall tag :: tag in tags ==> tag == tags[0] || tag in tags[1..]
  {
  }

  /** An envelope that could not even be dead-lettered is lost, unless it was handled before or waits once more. */
  lemma SettleIsExact<T, O>(c: Registry<T, O>, s: Pull<T, O>, t: Pull<T, O>, works: bool)
    requires Inv(c, s) && FoldInv(c, s) && Next(c, s, t, Settle(works))
    ensures Inv(c, t) <==> Safe(c, s, Settle(works))
  {
    hide Behind, Correct, Covered, Inv, FoldInv;
    StepIsQuiet(c, s, t, Settle(works));
    WaitingIsExact(c, s, t);
    HeadAndRest(s.live);
    if !s.pass.Failed? {
      LettingGoIsExact(c, s, t);
      assert s.live[0] in Waiting(s);
    }
  }

  /** A live loop that stops drops what it had collected. */
  lemma HaltIsExact<T, O>(c: Registry<T, O>, s: Pull<T, O>, t: Pull<T, O>)
    requires Inv(c, s) && FoldInv(c, s) && Next(c, s, t, Halt)
    ensures Inv(c, t) <==> Safe(c, s, Halt)
  {
    hide Behind, Correct, Covered, Inv, FoldInv;
    StepIsQuiet(c, s, t, Halt);
    WaitingIsExact(c, s, t);
    if !s.pass.Failed? {
      LettingGoIsExact(c, s, t);
      assert forall tag :: tag in Waiting(s) <==> tag in Work(s.pass) || tag in s.live;
    }
  }

  lemma TurnKeeps<T, O>(c: Registry<T, O>, s: Pull<T, O>, t: Pull<T, O>, step: Step)
    requires Inv(c, s) && FoldInv(c, s) && Next(c, s, t, step) && (step.Begin? || step.Crash?)
    ensures Inv(c, t)
  {
    hide Behind, Correct, Covered, Inv, FoldInv;
    StepIsQuiet(c, s, t, step);
    WaitingIsExact(c, s, t);
    if step.Begin? {
      LettingGoIsExact(c, s, t);
    }
  }

  lemma {:induction false} Reachable<T, O>(c: Registry<T, O>, run: seq<Pull<T, O>>, steps: seq<Step>, i: nat)
    requires Run(c, run, steps) && i < |run|
    ensures Inv(c, run[i])
  {
    hide Next, Safe;
    if i == 0 {
      forall k | 0 <= k < |c| ensures DiskSafe(c[k], run[0], k) && MemSafe(c[k], run[0], k) {
        PassIsCorrect(c[k], [], 0);
      }
    } else {
      Reachable(c, run, steps, i - 1);
      ReachableFolds(c, run, steps, i - 1);
      assert Linked(c, run, steps, i - 1);
      SafeIsExact(c, run[i - 1], run[i], steps[i - 1]);
    }
  }

  /**
   * Crash safety. With crashes anywhere, a live loop beside the passes and every
   * step safe, no checkpoint file is ever past an event with an envelope that was
   * neither dispatched nor dead-lettered.
   */
  lemma CrashSafe<T, O>(c: Registry<T, O>, run: seq<Pull<T, O>>, steps: seq<Step>, i: nat, k: nat, e: nat, j: nat)
    requires Run(c, run, steps) && i < |run| && k < |c| && k < |run[i].disk| && run[i].disk[k].Some?
    requires e < Behind(run[i].log, run[i].disk[k].value.cursor) && j < |Emits(c[k], run[i].log, e)|
    ensures Tag(k, e, j, Emits(c[k], run[i].log, e)[j]) in run[i].handled
  {
    Reachable(c, run, steps, i);
    assert DiskSafe(c[k], run[i], k);
  }

  // ---------- After a failed pass ----------

  /**
   * What a failing step throws away: all that was collected, this runner's catch-up
   * included, or what is left of it.
   */
  function Dropped<T, O>(c: Registry<T, O>, s: Pull<T, O>, step: Step): seq<Tag<O>>
    requires |s.mem| == |c|
  {
    match step
    case Collect(upto, _) =>
      if s.pass.Collecting? && s.pass.next < |c| && Reached(s, s.pass.next) <= upto <= |s.log|
      then s.pass.work + Tags(c[s.pass.next], s.log, s.pass.next, Reached(s, s.pass.next), upto)
      else []
    case Handle(_) => Work(s.pass)
    case _ => []
  }

  /**
   * The guard at the failing step: nothing is left behind exactly when all that
   * the step drops was handled before, or the live loop has it. A failed save
   * drops nothing.
   */
  lemma FailureSettles<T, O>(c: Registry<T, O>, s: Pull<T, O>, t: Pull<T, O>, step: Step)
    requires Inv(c, s) && FoldInv(c, s) && Next(c, s, t, step) && !s.pass.Failed? && t.pass.Failed?
    ensures |t.mem| == |c|
    ensures Settled(c, t) <==> forall tag :: tag in Dropped(c, s, step) ==> tag in s.handled || tag in s.live
    ensures step.Save? ==> Settled(c, t)
  {
    hide Emits, AdvanceAll, Behind, Correct, Tags, Covered;
    assert t.handled == s.handled && t.live == s.live;
    if step.Collect? {
      CollectGoesOn(c, s, t, step.upto, step.fails);
      RunnerReaches(c, s, t, s.pass.next, step.upto);
    }
    forall tag | tag in Dropped(c, s, step) && Settled(c, t) ensures tag in s.handled || tag in s.live {
      DroppedIsGenuine(c, s, t, step, tag);
      GenuineIsCovered(c, t, tag, t.handled, t.live);
    }
    if forall tag :: tag in Dropped(c, s, step) ==> tag in s.handled || tag in s.live {
      forall k | 0 <= k < |c| ensures Covered(c[k], t.log, k, Reached(t, k), t.handled, t.live) {
        DroppedCovers(c, s, t, step, k);
        CoveredMoves(c[k], t.log, k, Reached(t, k), s.handled, Dropped(c, s, step) + s.live, t.handled, t.live);
      }
    }
  }

  lemma DroppedIsGenuine<T, O>(c: Registry<T, O>, s: Pull<T, O>, t: Pull<T, O>, step: Step, tag: Tag<O>)
    requires FoldInv(c, s) && Next(c, s, t, step) && !s.pass.Failed? && t.pass.Failed? && tag in Dropped(c, s, step)
    ensures |t.mem| == |c| && Genuine(c, t, tag)
  {
    hide Emits, AdvanceAll, Behind, Correct, Tags;
    if step.Collect? {
      CollectGoesOn(c, s, t, step.upto, step.fails);
      RunnerReaches(c, s, t, s.pass.next, step.upto);
      if tag !in s.pass.work {
        TagsAreGenuine(c[s.pass.next], s.log, s.pass.next, Reached(s, s.pass.next), step.upto, tag);
      } else {
        assert Genuine(c, s, tag);
      }
    } else {
      assert Genuine(c, s, tag);
    }
  }

  /** Whatever the runners have passed was handled before, is dropped, or the live loop has it. */
  lemma DroppedCovers<T, O>(c: Registry<T, O>, s: Pull<T, O>, t: Pull<T, O>, step: Step, k: nat)
    requires Inv(c, s) && FoldInv(c, s) && Next(c, s, t, step) && !s.pass.Failed? && t.pass.Failed? && k < |c|
    requires |t.mem| == |c|
    ensures Covered(c[k], t.log, k, Reached(t, k), s.handled, Dropped(c, s, step) + s.live)
  {
    hide Emits, AdvanceAll, Behind, Covered, Correct, Tags;
    assert MemSafe(c[k], s, k);
    var gone := Dropped(c, s, step) + s.live;
    if step.Collect? {
      CollectGoesOn(c, s, t, step.upto, step.fails);
      RunnerReaches(c, s, t, s.pass.next, step.upto);
      if k == s.pass.next {
        MoreCovered(c[k], s.log, k, Reached(s, k), step.upto, s.handled, Waiting(s), gone);
      } else {
        CoveredMoves(c[k], s.log, k, Reached(s, k), s.handled, Waiting(s), s.handled, gone);
      }
    } else {
      CoveredMoves(c[k], s.log, k, Reached(s, k), s.handled, Waiting(s), s.handled, gone);
    }
  }

  // ---------- Reachable states ----------

  /** `s` can be reached by the code's own steps, all of them safe if `safe`. */
  ghost predicate ReachesBy<T(!new), O(!new)>(c: Registry<T, O>, s: Pull<T, O>, safe: bool) {
    exists run: seq<Pull<T, O>>, steps: seq<Step> ::
      Behaves(c, run, steps) && (safe ==> Run(c, run, steps)) && run[|steps|] == s
  }

  lemma Start<T(!new), O(!new)>(c: Registry<T, O>)
    ensures ReachesBy(c, Initial(c), true)
  {
    assert Run(c, [Initial(c)], []) && [Initial(c)][0] == Initial(c);
  }

  lemma Take<T(!new), O(!new)>(c: Registry<T, O>, s: Pull<T, O>, t: Pull<T, O>, step: Step, safe: bool)
    returns (next: Pull<T, O>)
    requires ReachesBy(c, s, safe) && Next(c, s, t, step) && (safe ==> Safe(c, s, step))
    ensures next == t && ReachesBy(c, t, safe)
  {
    hide Next, Safe;
    next := t;
    var run: seq<Pull<T, O>>, steps: seq<Step> :|
      Behaves(c, run, steps) && (safe ==> Run(c, run, steps)) && run[|steps|] == s;
    var run', steps' := run + [t], steps + [step];
    forall i | 0 <= i < |steps'| ensures Linked(c, run', steps', i) && (safe ==> Safe(c, run'[i], steps'[i])) {
      if i < |steps| {
        assert Linked(c, run, steps, i);
      }
    }
    assert Behaves(c, run', steps') && run'[|steps'|] == t;
  }

  lemma ReachesFolds<T(!new), O(!new)>(c: Registry<T, O>, s: Pull<T, O>, safe: bool)
    requires ReachesBy(c, s, safe)
    ensures FoldInv(c, s) && (safe ==> Inv(c, s))
  {
    var run: seq<Pull<T, O>>, steps: seq<Step> :|
      Behaves(c, run, steps) && (safe ==> Run(c, run, steps)) && run[|steps|] == s;
    ReachableFolds(c, run, steps, |steps|);
    if safe {
      Reachable(c, run, steps, |steps|);
    }
  }
}
