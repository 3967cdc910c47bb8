/**
 * The steps of the transition system that one pull pass takes, one lemma each.
 * `PullPass.ProcessManagers` carries the state they build as a ghost field.
 */
module PullRefinement {
  import opened Prelude
  import opened Codec
  import opened Consumers
  import opened PullSystem
  import LiveSystem

  type Envelope<O> = LiveSystem.Envelope<O>

  /** Reachable, by safe steps only if `safe`, with no live loop taking events. */
  ghost predicate Alive<T(!new), O(!new)>(c: Registry<T, O>, s: Pull<T, O>, safe: bool) {
    ReachesBy(c, s, safe) && |s.mem| == |s.disk| == |c| && s.live == []
  }

  /** The envelopes that tags stand for. */
  function Plain<O>(tags: seq<Tag<O>>): seq<Envelope<O>> {
    seq(|tags|, i requires 0 <= i < |tags| => LiveSystem.Envelope(tags[i].runner, tags[i].command))
  }

  lemma PlainConcat<O>(x: seq<Tag<O>>, y: seq<Tag<O>>)
    ensures Plain(x + y) == Plain(x) + Plain(y)
  {
  }

  /** The tags of a stretch of the log are the envelopes the runner emits there. */
  lemma {:induction false} PlainTags<T, O>(c: Consumer<T, O>, log: seq<Recorded>, k: nat, lo: nat, hi: nat)
    requires lo <= hi <= |log|
    ensures Plain(Tags(c, log, k, lo, hi)) == LiveSystem.Wrap(k, Emitted(c, log, lo, hi))
    decreases hi
  {
    hide Emits;
    if lo < hi {
      PlainTags(c, log, k, lo, hi - 1);
      PlainConcat(Tags(c, log, k, lo, hi - 1), TagsOf(c, log, k, hi - 1));
      assert Plain(TagsOf(c, log, k, hi - 1)) == LiveSystem.Wrap(k, Emits(c, log, hi - 1));
    }
  }

  /** Start over from the files. */
  lemma Reload<T(!new), O(!new)>(c: Registry<T, O>, s: Pull<T, O>, safe: bool) returns (t: Pull<T, O>)
    requires Alive(c, s, safe) && (s.pass.Down? || s.pass.Failed?)
    ensures Alive(c, t, safe)
    ensures t == s.(pass := Idle, mem := seq(|c|, k requires 0 <= k < |c| => LiveSystem.Load(c[k], s.disk[k])))
  {
    t := Take(c, s, s.(pass := Idle, mem := seq(|c|, k requires 0 <= k < |c| => LiveSystem.Load(c[k], s.disk[k]))),
              Open, safe);
  }

  /** The log has grown meanwhile; a new pass begins, after a failed one only if it left nothing unhandled. */
  lemma BeginPass<T(!new), O(!new)>(c: Registry<T, O>, s: Pull<T, O>, safe: bool, log: seq<Recorded>)
    returns (t: Pull<T, O>)
    requires Alive(c, s, safe) && s.log <= log && Ordered(log)
    requires s.pass.Idle? || (s.pass.Failed? && (safe ==> Settled(c, s)))
    ensures Alive(c, t, safe) && t == s.(log := log, pass := Collecting(0, []))
  {
    t := s;
    if s.pass.Failed? {
      t := Take(c, t, t.(pass := Idle), Resume, safe);
    }
    assert t.log + log[|t.log|..] == log;
    t := Take(c, t, t.(log := log), Grow(log[|t.log|..]), safe);
    t := Take(c, t, t.(pass := Collecting(0, [])), Begin, safe);
  }

  /** How far a drained subscription went. */
  lemma DrainedTo<T, O>(c: Consumer<T, O>, log: seq<Recorded>, was: Checkpoint<T>, now: Checkpoint<T>,
                        messages: seq<Message>, out: seq<O>) returns (upto: nat)
    requires Pulled(c, log, was, now, messages, out) && Subscribed(log, was.cursor, messages)
    ensures Behind(log, was.cursor) <= upto <= |log| && log[Behind(log, was.cursor)..upto] == Yield(messages)
    ensures out == Emitted(c, log, Behind(log, was.cursor), upto)
  {
    upto := Behind(log, was.cursor) + |Yield(messages)|;
  }

  /** One runner drains its subscription. */
  lemma CollectOne<T(!new), O(!new)>(c: Registry<T, O>, s: Pull<T, O>, safe: bool, after: Checkpoint<T>,
                                     messages: seq<Message>, emitted: seq<O>) returns (t: Pull<T, O>)
    requires Alive(c, s, safe) && s.pass.Collecting? && s.pass.next < |c|
    requires Subscribed(s.log, s.mem[s.pass.next].cursor, messages)
    requires (after, emitted) == AdvanceAll(c[s.pass.next], s.mem[s.pass.next], Yield(messages))
    requires Pulled(c[s.pass.next], s.log, s.mem[s.pass.next], after, messages, emitted)
    ensures Alive(c, t, safe) && t == s.(mem := s.mem[s.pass.next := after], pass := t.pass)
    ensures if Fails(messages) then t.pass == Failed
            else t.pass == Collecting(s.pass.next + 1, Work(t.pass))
                 && Plain(Work(t.pass)) == Plain(s.pass.work) + LiveSystem.Wrap(s.pass.next, emitted)
  {
    hide AdvanceAll, Behind, Yield, Fails, Emitted, Tags, Plain, Pulled, Subscribed, ReachesBy;
    var k := s.pass.next;
    var n := Reached(s, k);
    var upto := DrainedTo(c[k], s.log, s.mem[k], after, messages, emitted);
    PlainTags(c[k], s.log, k, n, upto);
    PlainConcat(s.pass.work, Tags(c[k], s.log, k, n, upto));
    t := Take(c, s, s.(mem := s.mem[k := after],
                             pass := if Fails(messages) then Failed
                                     else Collecting(k + 1, s.pass.work + Tags(c[k], s.log, k, n, upto))),
                    Collect(upto, Fails(messages)), safe);
  }

  lemma EndCollect<T(!new), O(!new)>(c: Registry<T, O>, s: Pull<T, O>, safe: bool) returns (t: Pull<T, O>)
    requires Alive(c, s, safe) && s.pass.Collecting? && s.pass.next == |c|
    ensures Alive(c, t, safe) && t == s.(pass := Dispatching(s.pass.work))
  {
    t := Take(c, s, s.(pass := Dispatching(s.pass.work)), Collect(0, false), safe);
  }

  /** One envelope handled, or the pass is over. */
  lemma HandleOne<T(!new), O(!new)>(c: Registry<T, O>, s: Pull<T, O>, safe: bool, works: bool) returns (t: Pull<T, O>)
    requires Alive(c, s, safe) && s.pass.Dispatching? && s.pass.work != []
    ensures Alive(c, t, safe)
    ensures t == if works then s.(handled := s.handled + [s.pass.work[0]], pass := Dispatching(s.pass.work[1..]))
                 else s.(pass := Failed)
  {
    t := Take(c, s, if works then s.(handled := s.handled + [s.pass.work[0]], pass := Dispatching(s.pass.work[1..]))
                          else s.(pass := Failed), Handle(works), safe);
  }

  lemma EndDispatch<T(!new), O(!new)>(c: Registry<T, O>, s: Pull<T, O>, safe: bool) returns (t: Pull<T, O>)
    requires Alive(c, s, safe) && s.pass.Dispatching? && s.pass.work == []
    ensures Alive(c, t, safe) && t == s.(pass := Saving(0))
  {
    t := Take(c, s, s.(pass := Saving(0)), Handle(true), safe);
  }

  lemma SaveOne<T(!new), O(!new)>(c: Registry<T, O>, s: Pull<T, O>, safe: bool, works: bool) returns (t: Pull<T, O>)
    requires Alive(c, s, safe) && s.pass.Saving? && s.pass.next < |c|
    ensures Alive(c, t, safe)
    ensures t == if works
                 then s.(disk := s.disk[s.pass.next := Some(s.mem[s.pass.next])], pass := Saving(s.pass.next + 1))
                 else s.(pass := Failed)
  {
    t := Take(c, s,
              if works then s.(disk := s.disk[s.pass.next := Some(s.mem[s.pass.next])], pass := Saving(s.pass.next + 1))
              else s.(pass := Failed),
              Save(works), safe);
  }

  lemma EndSave<T(!new), O(!new)>(c: Registry<T, O>, s: Pull<T, O>, safe: bool) returns (t: Pull<T, O>)
    requires Alive(c, s, safe) && s.pass.Saving? && s.pass.next == |c|
    ensures Alive(c, t, safe) && t == s.(pass := Idle)
  {
    t := Take(c, s, s.(pass := Idle), Save(true), safe);
  }

  /** The live loop saves one runner; whether that was safe decides whether the run still is. */
  lemma TickOne<T(!new), O(!new)>(c: Registry<T, O>, s: Pull<T, O>, safe: bool, k: nat)
    returns (t: Pull<T, O>, still: bool)
    requires Alive(c, s, safe) && !s.pass.Down? && k < |c|
    ensures Alive(c, t, still) && t == s.(disk := s.disk[k := Some(s.mem[k])])
    ensures still <==> safe && ClearOf(c, s, k)
  {
    still := safe && Safe(c, s, Tick(k));
    assert ReachesBy(c, s, still) by {
      Weaken(c, s, safe, still);
    }
    t := Take(c, s, s.(disk := s.disk[k := Some(s.mem[k])]), Tick(k), still);
  }

  lemma Weaken<T(!new), O(!new)>(c: Registry<T, O>, s: Pull<T, O>, safe: bool, still: bool)
    requires ReachesBy(c, s, safe) && (still ==> safe)
    ensures ReachesBy(c, s, still)
  {
  }
}
