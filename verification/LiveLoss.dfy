/**
 * What a process manager can lose over many process lives. Every life that ends
 * in the middle of a dispatch may lose the envelopes of the event in flight;
 * nothing else is ever lost, whatever files were saved, lost or put back.
 */
module LiveLosses {
  import opened Prelude
  import opened Codec
  import opened Consumers
  import opened LiveSystem

  /** Some checkpoint of runner k, in memory or saved at any time, is past event e. */
  ghost predicate Claims<T, O>(s: Live<T, O>, k: nat, e: nat)
    requires k < |s.mem| == |s.disk|
  {
    || e < Reached(s, k)
    || (s.disk[k].Some? && e < Behind(s.log, s.disk[k].value.cursor))
    || ArchiveClaims(s, k, e)
  }

  ghost predicate ArchiveClaims<T, O>(s: Live<T, O>, k: nat, e: nat) {
    exists i :: 0 <= i < |s.archive| && s.archive[i].0 == k && e < Behind(s.log, s.archive[i].1.cursor)
  }

  /** Its envelopes are being dispatched right now. */
  predicate Pending<T, O>(s: Live<T, O>, k: nat, e: nat) {
    Running(s.phase) && |Of(k, Queue(s.phase))| > 0 && e == InFlight(s.phase)
  }

  /** All that the events of a set, among the first n, make the consumer emit. */
  ghost function Sum<T, O>(c: Consumer<T, O>, log: seq<Recorded>, done: set<nat>, n: nat): multiset<O>
    requires n <= |log|
  {
    if n == 0 then multiset{}
    else Sum(c, log, done, n - 1) + if n - 1 in done then multiset(Emits(c, log, n - 1)) else multiset{}
  }

  /** The events from `lo` up to `hi`. */
  function Range(lo: nat, hi: nat): (r: set<nat>)
    ensures forall e :: e in r <==> lo <= e < hi
  {
    if hi <= lo then {} else Range(lo, hi - 1) + {hi - 1}
  }

  lemma {:induction false} SumOfUnion<T, O>(c: Consumer<T, O>, log: seq<Recorded>, x: set<nat>, y: set<nat>, n: nat)
    requires n <= |log|
    ensures Sum(c, log, x + y, n) <= Sum(c, log, x, n) + Sum(c, log, y, n)
  {
    hide Emits;
    if n > 0 {
      SumOfUnion(c, log, x, y, n - 1);
    }
  }

  lemma {:induction false} SumOfRange<T, O>(c: Consumer<T, O>, log: seq<Recorded>, lo: nat, hi: nat, n: nat)
    requires lo <= hi <= |log| && n <= |log|
    ensures n <= lo ==> Sum(c, log, Range(lo, hi), n) == multiset{}
    ensures lo <= n <= hi ==> Sum(c, log, Range(lo, hi), n) == multiset(Emitted(c, log, lo, n))
    ensures hi <= n ==> Sum(c, log, Range(lo, hi), n) == multiset(Emitted(c, log, lo, hi))
  {
    hide Emits, Range;
    if n > 0 {
      SumOfRange(c, log, lo, hi, n - 1);
      if lo < n <= hi {
        assert Emitted(c, log, lo, n) == Emitted(c, log, lo, n - 1) + Emits(c, log, n - 1);
      }
    }
  }

  /** The past does not change when the log grows. */
  lemma {:induction false} SumGrows<T, O>(c: Consumer<T, O>, log: seq<Recorded>, grown: seq<Recorded>,
                                          done: set<nat>, n: nat)
    requires log <= grown && n <= |grown| && forall e :: e in done ==> e < |log|
    ensures Sum(c, grown, done, n) == Sum(c, log, done, Min(n, |log|))
  {
    if n > 0 {
      SumGrows(c, log, grown, done, n - 1);
      if n - 1 < |log| {
        assert grown[..n - 1] == log[..n - 1];
      }
    }
  }

  /** How many attempts were made before the live run at hand, or up to now. */
  function Settled<T, O>(s: Live<T, O>): nat {
    if Running(s.phase) then Min(s.mark, |s.attempted|) else |s.attempted|
  }

  /** The events whose envelopes the live run at hand has attempted, all of them. */
  function Served<T, O>(s: Live<T, O>, k: nat): set<nat>
    requires k < |s.mem| == |s.base|
  {
    if !Running(s.phase) then {}
    else Range(s.base[k], if |Of(k, Queue(s.phase))| > 0 then InFlight(s.phase) else Reached(s, k))
  }

  /**
   * `past` are the events served before the live run at hand: their envelopes
   * are among the attempts of that time, with multiplicities. Whatever a
   * checkpoint claims is lost, was served then, or is the live run's own.
   */
  ghost predicate LossInv<T, O>(c: Consumer<T, O>, s: Live<T, O>, k: nat, lost: set<nat>, past: set<nat>)
    requires k < |s.mem| == |s.disk| == |s.base|
  {
    && (forall e :: e in past ==> e < |s.log|)
    && Sum(c, s.log, past, |s.log|) <= multiset(Of(k, s.attempted[..Settled(s)]))
    && (forall e: nat :: Claims(s, k, e) ==>
       e in lost || e in past || (Running(s.phase) && s.base[k] <= e < Reached(s, k)))
  }

  /** How many processes ended while envelopes of runner k waited. */
  function Cuts<T, O>(run: seq<Live<T, O>>, steps: seq<Step>, k: nat, i: nat): nat
    requires i <= |steps| && |run| == |steps| + 1
  {
    if i == 0 then 0
    else Cuts(run, steps, k, i - 1) + if Cut(run[i - 1], steps[i - 1], k) then 1 else 0
  }

  predicate Cut<T, O>(s: Live<T, O>, step: Step, k: nat) {
    step.Crash? && Running(s.phase) && |Of(k, Queue(s.phase))| > 0
  }

  /**
   * What a live run has served is among its attempts, with multiplicities; what it
   * passed and did not serve is in flight.
   */
  lemma ServedIsAttempted<T, O>(c: Consumer<T, O>, s: Live<T, O>, k: nat)
    requires k < |s.mem| == |s.base| && s.mark <= |s.attempted| && Conserved(c, s, k) && Running(s.phase)
    ensures Sum(c, s.log, Served(s, k), |s.log|) <= multiset(Attempted(s, k))
    ensures forall e :: s.base[k] <= e < Reached(s, k) ==> e in Served(s, k) || Pending(s, k, e)
    ensures forall e :: e in Served(s, k) ==> s.base[k] <= e < Reached(s, k) <= |s.log|
  {
    hide Emits, Of, Behind, Emitted;
    var waits := |Of(k, Queue(s.phase))| > 0;
    var base, hi := s.base[k], if waits then InFlight(s.phase) else Reached(s, k);
    PrefixAttempted(c, s, k, hi);
    SumOfRange(c, s.log, base, hi, |s.log|);
    PrefixIsPart(Emitted(c, s.log, base, hi), Attempted(s, k));
  }

  lemma PrefixIsPart<O>(x: seq<O>, all: seq<O>)
    requires x <= all
    ensures multiset(x) <= multiset(all)
  {
    assert all == x + all[|x|..];
  }

  /** Attempts up to now are those before the live run and those since. */
  lemma AttemptsAddUp<T, O>(s: Live<T, O>, k: nat)
    requires s.mark <= |s.attempted|
    ensures multiset(Of(k, s.attempted)) == multiset(Of(k, s.attempted[..s.mark])) + multiset(Attempted(s, k))
  {
    assert s.attempted == s.attempted[..s.mark] + s.attempted[s.mark..];
    OfConcat(k, s.attempted[..s.mark], s.attempted[s.mark..]);
  }

  lemma StepGrows<T, O>(c: Registry<T, O>, s: Live<T, O>, t: Live<T, O>, step: Step)
    requires Next(c, s, t, step)
    ensures s.log <= t.log && s.attempted <= t.attempted
    ensures t.phase.Down? || t.phase.Off? || s.phase.Down? || s.phase.Off? ==> t.attempted == s.attempted
    ensures Running(s.phase) && Running(t.phase) ==> t.mark == s.mark
    ensures !Running(s.phase) && Running(t.phase) ==> t.mark == |s.attempted|
  {
    hide Advance, AdvanceAll, Behind;
  }

  /** Where a file, or a saved checkpoint, comes from. */
  ghost predicate FilesMove<T, O>(s: Live<T, O>, t: Live<T, O>, k: nat)
    requires k < |s.mem| == |s.disk| && |t.mem| == |t.disk| == |s.mem|
  {
    && (|| t.disk[k] == s.disk[k]
        || t.disk[k].None?
        || t.disk[k] == Some(t.mem[k])
        || exists i :: 0 <= i < |s.archive| && s.archive[i].0 == k && t.disk[k] == Some(s.archive[i].1))
    && s.archive <= t.archive
    && forall i :: |s.archive| <= i < |t.archive| && t.archive[i].0 == k ==> t.archive[i].1 == t.mem[k]
  }

  lemma StepMovesFiles<T, O>(c: Registry<T, O>, s: Live<T, O>, t: Live<T, O>, step: Step, k: nat)
    requires Next(c, s, t, step) && k < |c| && |t.mem| == |t.disk| == |c|
    ensures FilesMove(s, t, k)
  {
    hide Advance, AdvanceAll, Behind;
  }

  /** No step makes a checkpoint claim an event, unless the runner itself has passed it. */
  lemma NoNewClaims<T, O>(c: Registry<T, O>, s: Live<T, O>, t: Live<T, O>, step: Step, k: nat, e: nat)
    requires FoldInv(c, s) && Next(c, s, t, step) && k < |c| && |t.mem| == |t.disk| == |c| && Claims(t, k, e)
    ensures Claims(s, k, e) || e < Reached(t, k)
  {
    hide Next, Behind;
    StepMovesFiles(c, s, t, step, k);
    SameBehind(c, s, t, step, k);
    if ArchiveClaims(t, k, e) {
      var i :| 0 <= i < |t.archive| && t.archive[i].0 == k && e < Behind(t.log, t.archive[i].1.cursor);
      assert i < |s.archive| ==> t.archive[i] == s.archive[i];
    }
  }

  /** A saved checkpoint is past the same events in a longer log. */
  lemma SameBehind<T, O>(c: Registry<T, O>, s: Live<T, O>, t: Live<T, O>, step: Step, k: nat)
    requires FoldInv(c, s) && Next(c, s, t, step) && k < |c|
    ensures s.disk[k].Some? ==> Behind(t.log, s.disk[k].value.cursor) == Behind(s.log, s.disk[k].value.cursor)
    ensures Behind(t.log, s.mem[k].cursor) == Behind(s.log, s.mem[k].cursor)
    ensures forall i :: 0 <= i < |s.archive| && s.archive[i].0 == k ==>
              Behind(t.log, s.archive[i].1.cursor) == Behind(s.log, s.archive[i].1.cursor)
  {
    hide Advance, AdvanceAll, Behind, Correct;
    if step.Grow? {
      CorrectGrows(c[k], s.log, t.log, s.mem[k]);
      if s.disk[k].Some? {
        CorrectGrows(c[k], s.log, t.log, s.disk[k].value);
      }
      forall i | 0 <= i < |s.archive| && s.archive[i].0 == k
        ensures Behind(t.log, s.archive[i].1.cursor) == Behind(s.log, s.archive[i].1.cursor)
      {
        CorrectGrows(c[k], s.log, t.log, s.archive[i].1);
      }
    } else {
      assert t.log == s.log;
    }
  }

  /**
   * One step: only a process that ends in the middle of a dispatch loses
   * anything, and then the event in flight.
   */
  lemma StepLoses<T, O>(c: Registry<T, O>, s: Live<T, O>, t: Live<T, O>, step: Step, k: nat, lost: set<nat>,
                        past: set<nat>) returns (lost': set<nat>, past': set<nat>)
    requires FoldInv(c, s) && CursorInv(s) && DispatchInv(c, s) && Next(c, s, t, step) && k < |c|
    requires FoldInv(c, t) && DispatchInv(c, t) && k !in s.pulled && k !in t.pulled
    requires LossInv(c[k], s, k, lost, past)
    ensures lost' == if Cut(s, step, k) then lost + {InFlight(s.phase)} else lost
    ensures LossInv(c[k], t, k, lost', past')
  {
    hide Emits, Of, Behind, Claims, Conserved, Sum, Next, LossInv, Served;
    lost' := if Cut(s, step, k) then lost + {InFlight(s.phase)} else lost;
    past' := if step.Crash? then past + Served(s, k) else past;
    PastIsAttempted(c, s, t, step, k, lost, past);
    forall e: nat | Claims(t, k, e)
      ensures e in lost' || e in past' || (Running(t.phase) && t.base[k] <= e < Reached(t, k))
    {
      if !(Running(t.phase) && t.base[k] <= e < Reached(t, k)) {
        OldClaim(c, s, t, step, k, e);
        OldClaimIsKnown(c[k], s, k, lost, past, e);
      }
    }
    Together(c[k], t, k, lost', past');
  }

  lemma Together<T, O>(c: Consumer<T, O>, s: Live<T, O>, k: nat, lost: set<nat>, past: set<nat>)
    requires k < |s.mem| == |s.disk| == |s.base|
    requires forall e :: e in past ==> e < |s.log|
    requires Sum(c, s.log, past, |s.log|) <= multiset(Of(k, s.attempted[..Settled(s)]))
    requires forall e: nat :: Claims(s, k, e) ==>
               e in lost || e in past || (Running(s.phase) && s.base[k] <= e < Reached(s, k))
    ensures LossInv(c, s, k, lost, past)
  {
  }

  /** A claim of before: lost, served before, served by this run, or in flight. */
  lemma OldClaimIsKnown<T, O>(c: Consumer<T, O>, s: Live<T, O>, k: nat, lost: set<nat>, past: set<nat>, e: nat)
    requires k < |s.mem| == |s.disk| == |s.base| && LossInv(c, s, k, lost, past) && Claims(s, k, e)
    requires Running(s.phase) ==> s.mark <= |s.attempted| && Conserved(c, s, k)
    ensures e in lost || e in past || e in Served(s, k) || Pending(s, k, e)
    ensures e in Served(s, k) ==> Running(s.phase) && s.base[k] <= e < Reached(s, k)
  {
    hide Served, Emits, Of, Behind, Conserved, Claims;
    if Running(s.phase) {
      ServedIsAttempted(c, s, k);
    } else {
      NothingServed(s, k);
    }
  }

  lemma PastIsAttempted<T, O>(c: Registry<T, O>, s: Live<T, O>, t: Live<T, O>, step: Step, k: nat, lost: set<nat>,
                              past: set<nat>)
    requires FoldInv(c, s) && CursorInv(s) && DispatchInv(c, s) && Next(c, s, t, step) && k < |c|
    requires FoldInv(c, t) && DispatchInv(c, t) && k !in s.pulled && LossInv(c[k], s, k, lost, past)
    ensures var past' := if step.Crash? then past + Served(s, k) else past;
            && (forall e :: e in past' ==> e < |t.log|)
            && Sum(c[k], t.log, past', |t.log|) <= multiset(Of(k, t.attempted[..Settled(t)]))
  {
    hide Emits, Of, Behind, Claims, Conserved, Sum, Served, FoldInv, CursorInv;
    StepGrows(c, s, t, step);
    SumGrows(c[k], s.log, t.log, past, |t.log|);
    assert s.attempted[..|s.attempted|] == s.attempted;
    if step.Crash? {
      assert t.log == s.log && t.attempted == s.attempted && t.attempted[..|t.attempted|] == s.attempted;
      if Running(s.phase) {
        assert Conserved(c[k], s, k);
        ServedIsAttempted(c[k], s, k);
        AttemptsAddUp(s, k);
        SumOfUnion(c[k], s.log, past, Served(s, k), |s.log|);
      } else {
        NothingServed(s, k);
        assert past + Served(s, k) == past;
      }
    } else {
      SameSettled(c, s, t, step);
    }
  }

  lemma NothingServed<T, O>(s: Live<T, O>, k: nat)
    requires k < |s.mem| == |s.base| && !Running(s.phase)
    ensures Served(s, k) == {}
  {
  }

  /** But for the end of a process, the attempts before the live run at hand stay what they are. */
  lemma SameSettled<T, O>(c: Registry<T, O>, s: Live<T, O>, t: Live<T, O>, step: Step)
    requires DispatchInv(c, s) && DispatchInv(c, t) && Next(c, s, t, step) && !step.Crash?
    ensures t.attempted[..Settled(t)] == s.attempted[..Settled(s)]
  {
    hide Conserved, Advance, AdvanceAll, Behind;
    StepGrows(c, s, t, step);
    assert Running(s.phase) ==> Running(t.phase);
  }

  /**
   * An event that the live run at hand has not passed was claimed before, and was
   * not in flight unless the process ends here.
   */
  lemma OldClaim<T, O>(c: Registry<T, O>, s: Live<T, O>, t: Live<T, O>, step: Step, k: nat, e: nat)
    requires FoldInv(c, s) && CursorInv(s) && DispatchInv(c, s) && Next(c, s, t, step) && k < |c|
    requires FoldInv(c, t) && k !in s.pulled && k !in t.pulled
    requires Claims(t, k, e) && !(Running(t.phase) && t.base[k] <= e < Reached(t, k))
    ensures Claims(s, k, e)
    ensures Running(s.phase) ==> s.mark <= |s.attempted| && Conserved(c[k], s, k)
    ensures Running(s.phase) && s.base[k] <= e < Reached(s, k) ==> step.Crash?
    ensures Pending(s, k, e) ==> Cut(s, step, k)
  {
    hide Next, Behind, ArchiveClaims, Of, Emits;
    NoNewClaims(c, s, t, step, k, e);
    RunnerMoves(c, s, t, step, k);
    if Running(s.phase) {
      assert Conserved(c[k], s, k);
    }
  }

  /** A runner that is not pulled moves only in a live run, or when its file is loaded. */
  ghost predicate Moves<T, O>(s: Live<T, O>, t: Live<T, O>, crash: bool, k: nat)
    requires k < |s.mem| == |s.disk| == |s.base| && |t.mem| == |t.base| == |s.mem|
  {
    && (crash ==> t.phase.Down?)
    && (Running(s.phase) && !crash ==> Running(t.phase) && t.base == s.base && Reached(s, k) <= Reached(t, k))
    && (!Running(s.phase) && Running(t.phase) ==> t.base[k] == Reached(t, k) == Reached(s, k))
    && (!Running(t.phase) ==> forall e: nat :: e < Reached(t, k) ==> Claims(s, k, e))
  }

  lemma RunnerMoves<T, O>(c: Registry<T, O>, s: Live<T, O>, t: Live<T, O>, step: Step, k: nat)
    requires FoldInv(c, s) && CursorInv(s) && FoldInv(c, t) && Next(c, s, t, step) && k < |c| && k !in t.pulled
    ensures Moves(s, t, step.Crash?, k)
  {
    hide Opens, FansOut, Pulls, Starts, FoldInv, CursorInv, Moves;
    match step
    case Grow(more) => GrowMoves(c, s, t, more, k);
    case FanOutNext => FanOutMoves(c, s, t, k);
    case Pull(other, upto) => PullMoves(c, s, t, other, upto, k);
    case Open => OpenClaims(c, s, t, k);
    case Start => StartMoves(c, s, t, k);
    case _ => StandsStill(c, s, t, step, k);
  }

  lemma GrowMoves<T, O>(c: Registry<T, O>, s: Live<T, O>, t: Live<T, O>, more: seq<Recorded>, k: nat)
    requires FoldInv(c, s) && Grows(s, t, more) && k < |c|
    ensures |t.mem| == |t.base| == |c| && Moves(s, t, false, k)
  {
    hide Behind;
    GrowKeepsFolds(c, s, t, more);
  }

  lemma FanOutMoves<T, O>(c: Registry<T, O>, s: Live<T, O>, t: Live<T, O>, k: nat)
    requires FoldInv(c, s) && CursorInv(s) && FansOut(c, s, t) && k < |c|
    ensures |t.mem| == |t.base| == |c| && Moves(s, t, false, k)
  {
    hide Behind, Advance;
    FanOutFrame(c, s, t);
    if s.phase.reached < |c| {
      FanOutOne(c, s, t);
    }
  }

  lemma PullMoves<T, O>(c: Registry<T, O>, s: Live<T, O>, t: Live<T, O>, other: nat, upto: nat, k: nat)
    requires FoldInv(c, s) && Pulls(c, s, t, other, upto) && k < |c| && k !in t.pulled
    ensures |t.mem| == |t.base| == |c| && Moves(s, t, false, k)
  {
    hide Behind, AdvanceAll;
    PullOne(c, s, t, other, upto);
  }

  lemma StartMoves<T, O>(c: Registry<T, O>, s: Live<T, O>, t: Live<T, O>, k: nat)
    requires FoldInv(c, s) && Starts(s, t) && k < |c|
    ensures |t.mem| == |t.base| == |c| && Moves(s, t, false, k)
  {
    hide Behind;
  }

  lemma StandsStill<T, O>(c: Registry<T, O>, s: Live<T, O>, t: Live<T, O>, step: Step, k: nat)
    requires FoldInv(c, s) && Next(c, s, t, step) && k < |c|
    requires !step.Grow? && !step.FanOutNext? && !step.Pull? && !step.Open? && !step.Start?
    ensures |t.mem| == |t.base| == |c| && Moves(s, t, step.Crash?, k)
  {
    hide Behind, Correct;
    assert t.mem == s.mem && t.log == s.log && t.base == s.base;
  }

  lemma OpenClaims<T, O>(c: Registry<T, O>, s: Live<T, O>, t: Live<T, O>, k: nat)
    requires FoldInv(c, s) && Opens(c, s, t) && k < |c|
    ensures |t.mem| == |t.base| == |c| && Moves(s, t, false, k)
  {
  }

  predicate PullsRunner(step: Step, k: nat) {
    step.Pull? && step.runner == k
  }

  lemma {:induction false} NeverPulled<T, O>(c: Registry<T, O>, run: seq<Live<T, O>>, steps: seq<Step>, i: nat, k: nat)
    requires Run(c, run, steps) && i < |run| && forall j :: 0 <= j < i ==> !PullsRunner(steps[j], k)
    ensures k !in run[i].pulled
  {
    if i > 0 {
      NeverPulled(c, run, steps, i - 1, k);
      assert Linked(c, run, steps, i - 1) && !PullsRunner(steps[i - 1], k);
      OnlyPullsPull(c, run[i - 1], run[i], steps[i - 1], k);
    }
  }

  lemma OnlyPullsPull<T, O>(c: Registry<T, O>, s: Live<T, O>, t: Live<T, O>, step: Step, k: nat)
    requires Next(c, s, t, step) && k !in s.pulled && !PullsRunner(step, k)
    ensures k !in t.pulled
  {
    hide Advance, AdvanceAll, Behind;
  }

  lemma NothingClaimed<T, O>(c: Registry<T, O>, k: nat)
    requires k < |c|
    ensures LossInv(c[k], Initial(c), k, {}, {})
  {
  }

  lemma {:induction false} LossesSoFar<T, O>(c: Registry<T, O>, run: seq<Live<T, O>>, steps: seq<Step>, i: nat, k: nat)
    returns (lost: set<nat>, past: set<nat>)
    requires Run(c, run, steps) && i < |run| && k < |c| && forall j :: 0 <= j < i ==> !PullsRunner(steps[j], k)
    ensures |lost| <= Cuts(run, steps, k, i)
    ensures |run[i].mem| == |run[i].disk| == |run[i].base| == |c| && LossInv(c[k], run[i], k, lost, past)
  {
    hide LossInv, CursorInv, DispatchInv, Next, Cut;
    Reachable(c, run, steps, i);
    if i == 0 {
      NothingClaimed(c, k);
      lost, past := {}, {};
    } else {
      lost, past := LossesSoFar(c, run, steps, i - 1, k);
      Reachable(c, run, steps, i - 1);
      ReachableDispatch(c, run, steps, i - 1);
      ReachableDispatch(c, run, steps, i);
      NeverPulled(c, run, steps, i - 1, k);
      NeverPulled(c, run, steps, i, k);
      assert Linked(c, run, steps, i - 1);
      var before := lost;
      lost, past := StepLoses(c, run[i - 1], run[i], steps[i - 1], k, before, past);
      assert |before + {InFlight(run[i - 1].phase)}| <= |before| + 1;
    }
  }

  /**
   * Over any number of process lives, with crashes at any point, files lost or
   * put back and no pull pass on runner k: whatever event a checkpoint is past is
   * lost, done or in flight. At most one event is lost for every process that
   * ended while envelopes of runner k waited, and the envelopes of all that is
   * done are among the attempts, with multiplicities.
   */
  lemma LossesAreBounded<T, O>(c: Registry<T, O>, run: seq<Live<T, O>>, steps: seq<Step>, i: nat, k: nat)
    returns (lost: set<nat>, done: set<nat>)
    requires Run(c, run, steps) && i < |run| && k < |c| && forall j :: 0 <= j < i ==> !PullsRunner(steps[j], k)
    ensures |lost| <= Cuts(run, steps, k, i)
    ensures |run[i].mem| == |run[i].disk| == |c|
    ensures forall e: nat :: Claims(run[i], k, e) ==> e in lost || e in done || Pending(run[i], k, e)
    ensures Sum(c[k], run[i].log, done, |run[i].log|) <= multiset(Of(k, run[i].attempted))
  {
    hide Emits, Of, Behind, Claims, Conserved, Sum, Served, FoldInv, CursorInv, Pending, Cuts;
    var s, past := run[i], {};
    lost, past := LossesSoFar(c, run, steps, i, k);
    Reachable(c, run, steps, i);
    ReachableDispatch(c, run, steps, i);
    NeverPulled(c, run, steps, i, k);
    done := past + Served(s, k);
    if Running(s.phase) {
      assert Conserved(c[k], s, k);
      ServedIsAttempted(c[k], s, k);
      AttemptsAddUp(s, k);
      SumOfUnion(c[k], s.log, past, Served(s, k), |s.log|);
    } else {
      NothingServed(s, k);
      assert done == past && s.attempted[..|s.attempted|] == s.attempted;
    }
    forall e: nat | Claims(s, k, e) ensures e in lost || e in done || Pending(s, k, e) {
      OldClaimIsKnown(c[k], s, k, lost, past, e);
    }
  }
}
