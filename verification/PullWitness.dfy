/**
 * What unsafe steps of the pull system cost: runs of the code that save a
 * cursor past envelopes nobody dispatched or dead-lettered.
 */
module PullWitness {
  import opened Prelude
  import opened Codec
  import opened Consumers
  import opened PullSystem

  ghost predicate Reaches<T(!new), O(!new)>(c: Registry<T, O>, s: Pull<T, O>) {
    ReachesBy(c, s, false)
  }

  lemma Do<T(!new), O(!new)>(c: Registry<T, O>, s: Pull<T, O>, t: Pull<T, O>, step: Step) returns (next: Pull<T, O>)
    requires Reaches(c, s) && Next(c, s, t, step)
    ensures next == t && Reaches(c, t)
  {
    next := Take(c, s, t, step, false);
  }

  /** An envelope of runner k that its file is past and nobody handled. */
  ghost predicate Lost<T, O>(c: Registry<T, O>, s: Pull<T, O>, k: nat, e: nat, j: nat) {
    && k < |c| == |s.disk| && s.disk[k].Some?
    && e < Behind(s.log, s.disk[k].value.cursor)
    && j < |Emits(c[k], s.log, e)|
    && Tag(k, e, j, Emits(c[k], s.log, e)[j]) !in s.handled
  }

  /**
   * A runner that is not clear can be saved at once: by a tick of the live loop
   * or by another pass. Then its file is past an envelope nobody handled.
   */
  lemma TickLoses<T(!new), O(!new)>(c: Registry<T, O>, s: Pull<T, O>, k: nat) returns (t: Pull<T, O>, e: nat, j: nat)
    requires ReachesBy(c, s, true) && !s.pass.Down? && k < |s.mem| == |c| && !ClearOf(c, s, k)
    ensures Reaches(c, t) && Next(c, s, t, Tick(k)) && Lost(c, t, k, e, j)
  {
    hide Emits, Behind, ClearOf, Correct;
    ReachesFolds(c, s, true);
    ClearIsCovered(c, s, k);
    Loosen(c, s);
    t := Do(c, s, s.(disk := s.disk[k := Some(s.mem[k])]), Tick(k));
    e, j := Uncovered(c[k], s, k, s.handled, []);
  }

  lemma Loosen<T(!new), O(!new)>(c: Registry<T, O>, s: Pull<T, O>)
    requires ReachesBy(c, s, true)
    ensures Reaches(c, s)
  {
  }

  lemma Uncovered<T, O>(c: Consumer<T, O>, s: Pull<T, O>, k: nat, handled: seq<Tag<O>>, work: seq<Tag<O>>)
    returns (e: nat, j: nat)
    requires k < |s.mem| && !Covered(c, s.log, k, Reached(s, k), handled, work)
    ensures e < Reached(s, k) && j < |Emits(c, s.log, e)|
    ensures Tag(k, e, j, Emits(c, s.log, e)[j]) !in handled && Tag(k, e, j, Emits(c, s.log, e)[j]) !in work
  {
    hide Emits, Behind;
    e, j :| 0 <= e < Reached(s, k) && 0 <= j < |Emits(c, s.log, e)|
            && Tag(k, e, j, Emits(c, s.log, e)[j]) !in handled && Tag(k, e, j, Emits(c, s.log, e)[j]) !in work;
  }

  // ---------- Carrying on after a failed pass ----------

  /** A pass over runners with nothing new to read. */
  lemma {:induction false} CollectNothing<T(!new), O(!new)>(c: Registry<T, O>, s: Pull<T, O>, k: nat)
    returns (t: Pull<T, O>)
    requires Reaches(c, s) && |s.mem| == |s.disk| == |c| && s.pass == Collecting(0, []) && k <= |c|
    ensures Reaches(c, t) && t == s.(pass := Collecting(k, []))
  {
    if k == 0 {
      t := s;
    } else {
      t := CollectNothing(c, s, k - 1);
      var n := Reached(t, k - 1);
      assert t.log[n..n] == [] && AdvanceAll(c[k - 1], t.mem[k - 1], []).0 == t.mem[k - 1];
      assert t.mem[k - 1 := t.mem[k - 1]] == t.mem;
      assert t.pass.work + Tags(c[k - 1], t.log, k - 1, n, n) == [];
      t := Do(c, t, t.(pass := Collecting(k, [])), Collect(n, false));
    }
  }

  lemma {:induction false} SaveSteps<T(!new), O(!new)>(c: Registry<T, O>, s: Pull<T, O>, k: nat) returns (t: Pull<T, O>)
    requires Reaches(c, s) && |s.mem| == |s.disk| == |c| && s.pass == Saving(0) && k <= |c|
    ensures Reaches(c, t)
    ensures t == s.(pass := Saving(k),
                    disk := seq(|c|, i requires 0 <= i < |c| => if i < k then Some(s.mem[i]) else s.disk[i]))
  {
    var saved := seq(|c|, i requires 0 <= i < |c| => if i < k then Some(s.mem[i]) else s.disk[i]);
    if k == 0 {
      assert saved == s.disk;
      t := s;
    } else {
      t := SaveSteps(c, s, k - 1);
      assert t.disk[k - 1 := Some(s.mem[k - 1])] == saved;
      t := Do(c, t, t.(pass := Saving(k), disk := saved), Save(true));
    }
  }

  /**
   * From any failed pass that left something unhandled, carrying on can save a
   * file past an envelope that nobody handled, with no failure, no crash and no
   * tick on the way.
   */
  lemma ResumingUnsettledLoses<T(!new), O(!new)>(c: Registry<T, O>, s: Pull<T, O>)
    returns (t: Pull<T, O>, k: nat, e: nat, j: nat)
    requires Reaches(c, s) && s.pass.Failed? && |s.mem| == |c| && !Settled(c, s)
    ensures Reaches(c, t) && t.pass.Idle? && t.log == s.log && t.handled == s.handled && t.live == s.live
    ensures Lost(c, t, k, e, j) && Tag(k, e, j, Emits(c[k], t.log, e)[j]) !in t.live
  {
    hide Emits, AdvanceAll, Behind, Correct;
    ReachesFolds(c, s, false);
    t := Do(c, s, s.(pass := Idle), Resume);
    t := Do(c, t, t.(pass := Collecting(0, [])), Begin);
    t := CollectNothing(c, t, |c|);
    t := Do(c, t, t.(pass := Dispatching([])), Collect(0, false));
    t := Do(c, t, t.(pass := Saving(0)), Handle(true));
    t := SaveSteps(c, t, |c|);
    t := Do(c, t, t.(pass := Idle), Save(true));
    k :| 0 <= k < |c| && !Covered(c[k], s.log, k, Reached(s, k), s.handled, s.live);
    e, j := Uncovered(c[k], s, k, s.handled, s.live);
  }

  // ---------- One process manager, one event ----------

  function One<T, O>(e: Recorded, cp: Checkpoint<T>, file: Option<Checkpoint<T>>, pass: Stage<O>, live: seq<Tag<O>>)
    : Pull<T, O>
  {
    Pull([e], [cp], [file], [], pass, live)
  }

  lemma OneWaits<T(!new), O(!new)>(pm: Consumer<T, O>, e: Recorded) returns (s: Pull<T, O>)
    ensures Reaches([pm], s) && s == One(e, Checkpoint(pm.initial, 0), None, Idle, [])
  {
    var c, cp := [pm], Checkpoint(pm.initial, 0);
    Start(c);
    Loosen(c, Initial(c));
    s := Do(c, Initial(c), One(e, cp, None, Down, []), Grow([e]));
    s := Do(c, s, One(e, cp, None, Idle, []), Open);
  }

  /** It reads the event, in a pass or in the live loop. */
  lemma OnePasses<T, O>(pm: Consumer<T, O>, e: Recorded)
    ensures var cp := Checkpoint(pm.initial, 0);
            && Behind([e], cp.cursor) == 0
            && [cp][0 := AdvanceAll(pm, cp, [e][0..1]).0] == [Pass(pm, [e], 1)]
            && Behind([e], Pass(pm, [e], 1).cursor) == 1
  {
    var cp := Checkpoint(pm.initial, 0);
    PassIsCorrect(pm, [e], 0);
    PassIsCorrect(pm, [e], 1);
    BatchFollowsPass(pm, [e], cp, 0, 1);
  }

  /** A pass has collected the event's envelopes, or its stream fails right after. */
  lemma OneCollects<T(!new), O(!new)>(pm: Consumer<T, O>, e: Recorded, fails: bool) returns (s: Pull<T, O>)
    ensures Reaches([pm], s)
    ensures s == One(e, Pass(pm, [e], 1), None, if fails then Failed else Collecting(1, Tags(pm, [e], 0, 0, 1)), [])
  {
    hide AdvanceAll, Behind, Emits, Pass, Tags;
    var c, cp := [pm], Checkpoint(pm.initial, 0);
    s := OneWaits(pm, e);
    s := Do(c, s, One(e, cp, None, Collecting(0, []), []), Begin);
    OnePasses(pm, e);
    assert [] + Tags(pm, [e], 0, 0, 1) == Tags(pm, [e], 0, 0, 1);
    s := Do(c, s, One(e, Pass(pm, [e], 1), None, if fails then Failed else Collecting(1, Tags(pm, [e], 0, 0, 1)), []),
            Collect(1, fails));
  }

  /**
   * A tick of the live loop in the middle of a pass, and a crash: the next
   * process starts past an event whose envelopes nobody handled, although
   * nothing failed.
   */
  lemma TickLosesEnvelopes<T(!new), O(!new)>(pm: Consumer<T, O>, e: Recorded) returns (s: Pull<T, O>)
    requires Emits(pm, [e], 0) != []
    ensures Reaches([pm], s) && s == One(e, Pass(pm, [e], 1), Some(Pass(pm, [e], 1)), Idle, [])
              && Lost([pm], s, 0, 0, 0)
  {
    hide AdvanceAll, Emits, Pass, Tags, Behind;
    var c, done := [pm], Pass(pm, [e], 1);
    s := OneCollects(pm, e, false);
    s := Do(c, s, One(e, done, Some(done), Collecting(1, Tags(pm, [e], 0, 0, 1)), []), Tick(0));
    s := Do(c, s, One(e, done, Some(done), Down, []), Crash);
    s := Do(c, s, One(e, done, Some(done), Idle, []), Open);
    OnePasses(pm, e);
  }

  /**
   * A pass with nothing to do while the live loop still has the event's
   * envelopes: it succeeds, and its save is what loses them in a crash.
   */
  lemma PassLosesLiveEnvelopes<T(!new), O(!new)>(pm: Consumer<T, O>, e: Recorded) returns (s: Pull<T, O>)
    requires Emits(pm, [e], 0) != []
    ensures Reaches([pm], s) && s == One(e, Pass(pm, [e], 1), Some(Pass(pm, [e], 1)), Idle, [])
              && Lost([pm], s, 0, 0, 0)
  {
    hide AdvanceAll, Emits, Pass, Tags, Behind;
    var c, done, tags := [pm], Pass(pm, [e], 1), Tags(pm, [e], 0, 0, 1);
    s := OneWaits(pm, e);
    OnePasses(pm, e);
    assert [] + tags == tags;
    s := Do(c, s, One(e, done, None, Idle, tags), React(0));
    s := EmptyPass(pm, e, tags, s);
    s := Do(c, s, One(e, done, Some(done), Down, []), Crash);
    s := Do(c, s, One(e, done, Some(done), Idle, []), Open);
  }

  /** A pass over a runner that has read everything. */
  lemma EmptyPass<T(!new), O(!new)>(pm: Consumer<T, O>, e: Recorded, live: seq<Tag<O>>, s: Pull<T, O>)
    returns (t: Pull<T, O>)
    requires Reaches([pm], s) && s == One(e, Pass(pm, [e], 1), None, Idle, live)
    ensures Reaches([pm], t) && t == One(e, Pass(pm, [e], 1), Some(Pass(pm, [e], 1)), Idle, live)
  {
    hide Pass;
    var c, done := [pm], Pass(pm, [e], 1);
    t := Do(c, s, One(e, done, None, Collecting(0, []), live), Begin);
    t := CollectNothing(c, t, 1);
    t := Do(c, t, One(e, done, None, Dispatching([]), live), Collect(0, false));
    t := Do(c, t, One(e, done, None, Saving(0), live), Handle(true));
    t := Do(c, t, One(e, done, Some(done), Saving(1), live), Save(true));
    t := Do(c, t, One(e, done, Some(done), Idle, live), Save(true));
  }

  /**
   * Carrying on without a reload after a stream that failed: the next pass
   * succeeds with nothing to do and saves a cursor past envelopes nobody handled.
   */
  lemma ResumingLosesEnvelopes<T(!new), O(!new)>(pm: Consumer<T, O>, e: Recorded) returns (s: Pull<T, O>)
    requires Emits(pm, [e], 0) != []
    ensures Reaches([pm], s) && s == One(e, Pass(pm, [e], 1), Some(Pass(pm, [e], 1)), Idle, [])
              && Lost([pm], s, 0, 0, 0)
  {
    hide AdvanceAll, Emits, Pass, Tags, Behind;
    var c, done := [pm], Pass(pm, [e], 1);
    s := OneCollects(pm, e, true);
    s := Do(c, s, One(e, done, None, Idle, []), Resume);
    s := EmptyPass(pm, e, [], s);
    OnePasses(pm, e);
  }
}
