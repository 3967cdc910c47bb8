/**
 * The steps of the transition system that the live loop takes, one lemma each:
 * from a reachable state, what the loop does next leads to a reachable state.
 * `LiveLoops.LiveLoop` carries the state they build as a ghost field.
 */
module LiveRefinement {
  import opened Prelude
  import opened Codec
  import opened Consumers
  import opened LiveSystem

  /** The least of the first n cursors, or the sentinel. */
  function Lowest<T>(runners: seq<Checkpoint<T>>, n: nat): nat
    requires n <= |runners|
  {
    if n == 0 then U64_MAX else Min(Lowest(runners, n - 1), runners[n - 1].cursor)
  }

  ghost predicate Alive<T(!new), O(!new)>(c: Registry<T, O>, s: Live<T, O>) {
    Reaches(c, s) && |s.mem| == |s.disk| == |c|
  }

  /** A new process: load the files, start the loop. */
  lemma Begin<T(!new), O(!new)>(c: Registry<T, O>, s: Live<T, O>) returns (t: Live<T, O>)
    requires Alive(c, s) && s.phase.Down?
    ensures Alive(c, t) && t.phase == Scanning(0, U64_MAX) && t.log == s.log && t.disk == s.disk
    ensures t.mem == seq(|c|, k requires 0 <= k < |c| => Load(c[k], s.disk[k]))
    ensures t.attempted == s.attempted && t.settled == s.settled && t.sent == [] && t.mark == |s.attempted|
              && t.pulled == {}
  {
    var mem := seq(|c|, k requires 0 <= k < |c| => Load(c[k], s.disk[k]));
    t := Take(c, s, s.(phase := Off, mem := mem, sent := []), Open);
    t := Take(c, t, t.(phase := Scanning(0, U64_MAX),
        base := seq(|t.mem|, k requires 0 <= k < |t.mem| => Reached(t, k)),
                       mark := |t.attempted|, pulled := {}), Start);
  }

  lemma SaveOne<T(!new), O(!new)>(c: Registry<T, O>, s: Live<T, O>, k: nat) returns (t: Live<T, O>)
    requires Alive(c, s) && !s.phase.Down? && k < |c|
    ensures Alive(c, t) && t == s.(disk := s.disk[k := Some(s.mem[k])], archive := t.archive)
  {
    t := Take(c, s, s.(disk := s.disk[k := Some(s.mem[k])], archive := s.archive + [(k, s.mem[k])]), Save(k));
  }

  /** The cursors read one after another. */
  lemma {:induction false} ScanSome<T(!new), O(!new)>(c: Registry<T, O>, s: Live<T, O>, scanned: nat)
    returns (t: Live<T, O>)
    requires Alive(c, s) && s.phase == Scanning(0, U64_MAX) && scanned <= |c|
    ensures Alive(c, t) && t == s.(phase := Scanning(scanned, Lowest(s.mem, scanned)))
  {
    if scanned == 0 {
      t := s;
    } else {
      t := ScanSome(c, s, scanned - 1);
      t := Take(c, t, s.(phase := Scanning(scanned, Lowest(s.mem, scanned))), Scan);
    }
  }

  lemma ConnectAt<T(!new), O(!new)>(c: Registry<T, O>, s: Live<T, O>) returns (t: Live<T, O>)
    requires Alive(c, s) && s.phase == Scanning(0, U64_MAX)
    ensures Alive(c, t) && t == s.(phase := Streaming(Behind(s.log, From(Lowest(s.mem, |c|)))))
  {
    t := ScanSome(c, s, |c|);
    t := Take(c, t, s.(phase := Streaming(Behind(s.log, From(Lowest(s.mem, |c|))))), Subscribe);
  }

  lemma DeliverNext<T(!new), O(!new)>(c: Registry<T, O>, s: Live<T, O>) returns (t: Live<T, O>)
    requires Alive(c, s) && s.phase.Streaming? && s.phase.next < |s.log|
    ensures Alive(c, t) && t == s.(phase := FanOut(s.phase.next, 0, []))
  {
    t := Take(c, s, s.(phase := FanOut(s.phase.next, 0, [])), Deliver);
  }

  lemma FanOutOne<T(!new), O(!new)>(c: Registry<T, O>, s: Live<T, O>) returns (t: Live<T, O>)
    requires Alive(c, s) && s.phase.FanOut? && s.phase.event < |s.log| && s.phase.reached < |c|
    ensures var k := s.phase.reached;
            var (after, produced) := Advance(c[k], s.mem[k], s.log[s.phase.event]);
            t == s.(mem := s.mem[k := after], phase := FanOut(s.phase.event, k + 1, s.phase.queue + Wrap(k, produced)))
    ensures Alive(c, t)
  {
    var k := s.phase.reached;
    var (after, produced) := Advance(c[k], s.mem[k], s.log[s.phase.event]);
    t := Take(c, s, s.(mem := s.mem[k := after],
        phase := FanOut(s.phase.event, k + 1, s.phase.queue + Wrap(k, produced))),
              FanOutNext);
  }

  lemma EndFanOut<T(!new), O(!new)>(c: Registry<T, O>, s: Live<T, O>) returns (t: Live<T, O>)
    requires Alive(c, s) && s.phase.FanOut? && s.phase.event < |s.log| && s.phase.reached == |c|
    ensures Alive(c, t) && t == s.(phase := Dispatching(s.phase.event, s.phase.queue))
  {
    t := Take(c, s, s.(phase := Dispatching(s.phase.event, s.phase.queue)), FanOutNext);
  }

  lemma DispatchOne<T(!new), O(!new)>(c: Registry<T, O>, s: Live<T, O>, outcome: Outcome) returns (t: Live<T, O>)
    requires Alive(c, s) && s.phase.Dispatching? && s.phase.queue != []
    ensures Alive(c, t)
    ensures t == s.(phase := Dispatching(s.phase.event, s.phase.queue[1..]),
              attempted := s.attempted + [s.phase.queue[0]],
                    settled := if outcome.DeadLetterFailed? then s.settled else s.settled + [s.phase.queue[0]])
  {
    t := Take(c, s, s.(phase := Dispatching(s.phase.event, s.phase.queue[1..]),
        attempted := s.attempted + [s.phase.queue[0]],
                       settled := if outcome.DeadLetterFailed? then s.settled else s.settled + [s.phase.queue[0]]),
              Dispatch(outcome));
  }

  lemma Announce<T(!new), O(!new)>(c: Registry<T, O>, s: Live<T, O>) returns (t: Live<T, O>)
    requires Alive(c, s) && s.phase.Dispatching? && s.phase.queue == [] && s.phase.event < |s.log|
    ensures Alive(c, t) && t == s.(phase := Streaming(s.phase.event + 1),
              sent := s.sent + [s.log[s.phase.event].position])
  {
    t := Take(c, s, s.(phase := Streaming(s.phase.event + 1), sent := s.sent + [s.log[s.phase.event].position]),
        Notify);
  }

  lemma Reconnect<T(!new), O(!new)>(c: Registry<T, O>, s: Live<T, O>) returns (t: Live<T, O>)
    requires Alive(c, s) && s.phase.Streaming?
    ensures Alive(c, t) && t == s.(phase := Scanning(0, U64_MAX))
  {
    t := Take(c, s, s.(phase := Scanning(0, U64_MAX)), Disconnect);
  }

  lemma End<T(!new), O(!new)>(c: Registry<T, O>, s: Live<T, O>) returns (t: Live<T, O>)
    requires Alive(c, s) && !s.phase.Down? && !s.phase.Off? && !s.phase.Stopped?
    ensures Alive(c, t) && t == s.(phase := t.phase) && t.phase.Stopped?
  {
    t := Take(c, s, s.(phase := Stopped(
        if s.phase.FanOut? || s.phase.Dispatching? then s.phase.event else 0, Queue(s.phase))),
              Stop);
  }
}
