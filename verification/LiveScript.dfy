/**
 * What the network and the clock do to the live loop, as a script: happenings
 * while a stream is open, sessions of the outer loop, and what they amount to
 * for runners, envelopes, announcements and the backoff.
 */
module LiveScripts {
  import opened Prelude
  import opened Codec
  import opened Consumers
  import LiveRefinement
  import LiveSystem

  type Envelope<O> = LiveSystem.Envelope<O>

  /**
   * What `select!` saw while a stream was open. `Interrupted` is a shutdown that
   * arrived when an event had been fanned out to the first `reached` runners and,
   * if that was all of them, the first `dispatches` envelopes had been attempted.
   */
  datatype Happening = Received(message: Message) | Tick | Shutdown
                     | Interrupted(recorded: Recorded, reached: nat, dispatches: nat)

  /** One turn of the outer loop; `quit` is a shutdown during the backoff sleep that may follow. */
  datatype Session = Quit | Refused(quit: bool) | Connected(happenings: seq<Happening>, quit: bool)

  datatype End = Clean | Error | Stopped

  // ---------- One happening ----------

  /** Whether it ends the stream. */
  function Ends(h: Happening): Option<End> {
    match h
    case Received(Failure) => Some(Error)
    case Shutdown => Some(Stopped)
    case Interrupted(_, _, _) => Some(Stopped)
    case _ => None
  }

  /** What it hands to runner k. */
  function HandedBy(h: Happening, k: nat): seq<Recorded> {
    match h
    case Received(Event(r)) => [r]
    case Interrupted(r, reached, _) => if k < reached then [r] else []
    case _ => []
  }

  /** Where that leaves runner k, and all of them. */
  function AfterBy<T, O>(c: Consumer<T, O>, cp: Checkpoint<T>, h: Happening, k: nat): Checkpoint<T> {
    match h
    case Received(Event(r)) => Advance(c, cp, r).0
    case Interrupted(r, reached, _) => if k < reached then Advance(c, cp, r).0 else cp
    case _ => cp
  }

  function AfterAll<T, O>(consumers: seq<Consumer<T, O>>, runners: seq<Checkpoint<T>>, h: Happening): seq<Checkpoint<T>>
    requires |consumers| == |runners|
  {
    seq(|runners|, k requires 0 <= k < |runners| => AfterBy(consumers[k], runners[k], h, k))
  }

  /** The position it announces: an event that went all the way through. */
  function AnnouncedBy(h: Happening): seq<nat> {
    match h
    case Received(Event(r)) => [r.position]
    case _ => []
  }

  /** Every envelope of one event, by runner. */
  function Collected<T, O>(consumers: seq<Consumer<T, O>>, runners: seq<Checkpoint<T>>, r: Recorded,
                           n: nat): seq<Envelope<O>>
    requires n <= |consumers| == |runners|
  {
    if n == 0 then []
    else
      Collected(consumers, runners, r, n - 1)
      + LiveSystem.Wrap(n - 1, Advance(consumers[n - 1], runners[n - 1], r).1)
  }

  /** The first n, or all if there are fewer. */
  function Begun<O>(envelopes: seq<Envelope<O>>, n: nat): seq<Envelope<O>> {
    envelopes[..Min(n, |envelopes|)]
  }

  /** The envelopes it makes the loop attempt, in order. */
  function ProducedBy<T, O>(consumers: seq<Consumer<T, O>>, runners: seq<Checkpoint<T>>, h: Happening): seq<Envelope<O>>
    requires |consumers| == |runners|
  {
    match h
    case Received(Event(r)) => Collected(consumers, runners, r, |runners|)
    case Interrupted(r, reached, dispatches) =>
      if reached < |runners| then [] else Begun(Collected(consumers, runners, r, |runners|), dispatches)
    case _ => []
  }

  /** If it is an event, it is the n-th of the log. */
  predicate FeedsBy(log: seq<Recorded>, n: nat, h: Happening) {
    match h
    case Received(Event(r)) => n < |log| && r == log[n]
    case Interrupted(r, _, _) => n < |log| && r == log[n]
    case _ => true
  }

  // ---------- A stream ----------

  /** How a stream ends: at a failure or a shutdown, or cleanly when nothing more comes. */
  function EndOf(happenings: seq<Happening>): End {
    if happenings == [] then Clean
    else if Ends(happenings[0]).Some? then Ends(happenings[0]).value
    else EndOf(happenings[1..])
  }

  /** The events runner k is handed. */
  function Handed(happenings: seq<Happening>, k: nat): seq<Recorded> {
    if happenings == [] then []
    else HandedBy(happenings[0], k) + if Ends(happenings[0]).Some? then [] else Handed(happenings[1..], k)
  }

  /** Where that leaves it. */
  function After<T, O>(c: Consumer<T, O>, cp: Checkpoint<T>, happenings: seq<Happening>, k: nat): Checkpoint<T>
    decreases |happenings|
  {
    if happenings == [] then cp
    else
      var next := AfterBy(c, cp, happenings[0], k);
      if Ends(happenings[0]).Some? then next else After(c, next, happenings[1..], k)
  }

  // ---------- What a stream comes to, happening by happening ----------

  /** Nothing so far has ended the stream. */
  predicate StaysOpen(happenings: seq<Happening>) {
    forall i :: 0 <= i < |happenings| ==>
      !happenings[i].Shutdown? && !happenings[i].Interrupted?
      && !(happenings[i].Received? && happenings[i].message.Failure?)
  }

  lemma OpenAtFirst(happenings: seq<Happening>)
    requires happenings != []
    ensures StaysOpen(happenings) <==> Ends(happenings[0]).None? && StaysOpen(happenings[1..])
  {
    assert happenings == [happenings[0]] + happenings[1..];
  }

  /**
   * A stream ends cleanly if nothing ended it, otherwise by the first happening
   * that can end it: an error by a failure, a stop by a shutdown. It has caught up
   * if it said so before that.
   */
  lemma {:induction false} EndsExactlyWhen(happenings: seq<Happening>)
    ensures EndOf(happenings).Clean? <==> StaysOpen(happenings)
    ensures EndOf(happenings).Error? <==>
            exists i :: 0 <= i < |happenings| && StaysOpen(happenings[..i]) && happenings[i] == Received(Failure)
    ensures EndOf(happenings).Stopped? <==>
            exists i :: 0 <= i < |happenings| && StaysOpen(happenings[..i])
                        && (happenings[i].Shutdown? || happenings[i].Interrupted?)
    ensures SaysCaughtUp(happenings) <==>
            exists i :: 0 <= i < |happenings| && StaysOpen(happenings[..i]) && happenings[i] == Received(CaughtUp)
  {
    if happenings != [] {
      var h, rest := happenings[0], happenings[1..];
      assert StaysOpen(happenings[..0]);
      OpenAtFirst(happenings);
      EndsExactlyWhen(rest);
      forall i | 0 < i < |happenings|
        ensures StaysOpen(happenings[..i]) <==> Ends(h).None? && StaysOpen(rest[..i - 1])
        ensures happenings[i] == rest[i - 1]
      {
        assert happenings[..i][1..] == rest[..i - 1];
        OpenAtFirst(happenings[..i]);
      }
      forall i | 0 <= i < |rest| ensures happenings[i + 1] == rest[i] && rest[..i] == happenings[..i + 1][1..] {
      }
    }
  }

  lemma {:induction false} AfterIsAdvanceAll<T, O>(c: Consumer<T, O>, cp: Checkpoint<T>,
                                                   happenings: seq<Happening>, k: nat)
    ensures After(c, cp, happenings, k) == AdvanceAll(c, cp, Handed(happenings, k)).0
    ensures cp.cursor <= After(c, cp, happenings, k).cursor
    decreases |happenings|
  {
    if happenings != [] {
      var h := happenings[0];
      assert AfterBy(c, cp, h, k) == AdvanceAll(c, cp, HandedBy(h, k)).0
          && cp.cursor <= AfterBy(c, cp, h, k).cursor by {
        if HandedBy(h, k) != [] {
          AdvanceLast(c, cp, [], HandedBy(h, k)[0]);
          assert [] + HandedBy(h, k) == HandedBy(h, k);
        }
      }
      if Ends(h).Some? {
        assert HandedBy(h, k) + [] == HandedBy(h, k);
      } else {
        AfterIsAdvanceAll(c, AfterBy(c, cp, h, k), happenings[1..], k);
        AdvanceConcat(c, cp, HandedBy(h, k), Handed(happenings[1..], k));
      }
    }
  }

  /** What all the runners come to over a stream. */
  function AfterStream<T, O>(consumers: seq<Consumer<T, O>>, runners: seq<Checkpoint<T>>, happenings: seq<Happening>)
    : seq<Checkpoint<T>>
    requires |consumers| == |runners|
  {
    seq(|runners|, k requires 0 <= k < |runners| => After(consumers[k], runners[k], happenings, k))
  }

  /**
   * Piece by piece: what follows the end of a stream does not count, and up to
   * there everything counts, in order.
   */
  lemma StreamConcat<T, O>(consumers: seq<Consumer<T, O>>, runners: seq<Checkpoint<T>>, left: seq<Happening>,
                           right: seq<Happening>, k: nat)
    requires |consumers| == |runners|
    ensures Announced(left + right) == Announced(left) + if StaysOpen(left) then Announced(right) else []
    ensures Handed(left + right, k) == Handed(left, k) + if StaysOpen(left) then Handed(right, k) else []
    ensures Produced(consumers, runners, left + right) ==
            Produced(consumers, runners, left)
            + if StaysOpen(left) then Produced(consumers, AfterStream(consumers, runners, left), right) else []
  {
    HandedConcat(left, right, k);
    ProducedConcat(consumers, runners, left, right);
  }

  lemma {:induction false} HandedConcat(left: seq<Happening>, right: seq<Happening>, k: nat)
    ensures Announced(left + right) == Announced(left) + if StaysOpen(left) then Announced(right) else []
    ensures Handed(left + right, k) == Handed(left, k) + if StaysOpen(left) then Handed(right, k) else []
    decreases |left|
  {
    assert left == [] ==> StaysOpen(left);
    hide Ends, HandedBy, AnnouncedBy, StaysOpen;
    if left == [] {
      assert left + right == right;
    } else {
      var h, rest := left[0], left[1..];
      assert (left + right)[0] == h && (left + right)[1..] == rest + right;
      OpenAtFirst(left);
      if Ends(h).None? {
        HandedConcat(rest, right, k);
        Joined(AnnouncedBy(h), Announced(rest), Announced(right));
        Joined(HandedBy(h, k), Handed(rest, k), Handed(right, k));
      }
    }
  }

  lemma {:induction false} ProducedConcat<T, O>(consumers: seq<Consumer<T, O>>, runners: seq<Checkpoint<T>>,
                                                left: seq<Happening>, right: seq<Happening>)
    requires |consumers| == |runners|
    ensures Produced(consumers, runners, left + right) ==
            Produced(consumers, runners, left)
            + if StaysOpen(left) then Produced(consumers, AfterStream(consumers, runners, left), right) else []
    decreases |left|
  {
    assert left == [] ==> StaysOpen(left);
    hide Ends, ProducedBy, AfterBy, StaysOpen;
    if left == [] {
      assert left + right == right;
      assert AfterStream(consumers, runners, left) == runners;
    } else {
      var h, rest := left[0], left[1..];
      var next := AfterAll(consumers, runners, h);
      assert (left + right)[0] == h && (left + right)[1..] == rest + right;
      OpenAtFirst(left);
      if Ends(h).None? {
        ProducedConcat(consumers, next, rest, right);
        AfterFirst(consumers, runners, left);
        Joined(ProducedBy(consumers, runners, h), Produced(consumers, next, rest),
               Produced(consumers, AfterStream(consumers, next, rest), right));
      }
    }
  }

  lemma AfterFirst<T, O>(consumers: seq<Consumer<T, O>>, runners: seq<Checkpoint<T>>, happenings: seq<Happening>)
    requires |consumers| == |runners| && happenings != [] && Ends(happenings[0]).None?
    ensures AfterStream(consumers, runners, happenings)
         == AfterStream(consumers, AfterAll(consumers, runners, happenings[0]), happenings[1..])
  {
  }

  /**
   * What one happening comes to: an event goes to every runner and is announced;
   * one that a shutdown cuts short goes to the first runners only, and if that was
   * all of them the first of its envelopes are attempted; nothing else does anything.
   */
  lemma StreamOne<T, O>(consumers: seq<Consumer<T, O>>, runners: seq<Checkpoint<T>>, h: Happening, k: nat)
    requires |consumers| == |runners|
    ensures h.Received? && h.message.Event? ==>
              var r := h.message.recorded;
              && Announced([h]) == [r.position] && Handed([h], k) == [r]
              && Produced(consumers, runners, [h]) == Collected(consumers, runners, r, |consumers|)
    ensures h.Interrupted? ==>
              var all := Collected(consumers, runners, h.recorded, |consumers|);
              && Announced([h]) == [] && Handed([h], k) == (if k < h.reached then [h.recorded] else [])
              && Produced(consumers, runners, [h]) ==
                 if h.reached < |consumers| then [] else all[..Min(h.dispatches, |all|)]
    ensures !h.Interrupted? && !(h.Received? && h.message.Event?) ==>
              Announced([h]) == [] && Handed([h], k) == [] && Produced(consumers, runners, [h]) == []
  {
    hide Collected;
    assert [h][1..] == [];
  }

  /** The envelopes of an event are each runner's own, one runner after the other. */
  lemma {:induction false} CollectedByRunner<T, O>(consumers: seq<Consumer<T, O>>, runners: seq<Checkpoint<T>>,
                                                   r: Recorded, n: nat, k: nat)
    requires n <= |consumers| == |runners|
    ensures LiveSystem.Of(k, Collected(consumers, runners, r, n)) ==
            if k < n then Advance(consumers[k], runners[k], r).1 else []
  {
    hide Advance, DecodeStored, LiveSystem.Of, LiveSystem.Wrap;
    if n == 0 {
      OfNothing<O>(k);
    } else {
      var front, more := Collected(consumers, runners, r, n - 1), Advance(consumers[n - 1], runners[n - 1], r).1;
      CollectedByRunner(consumers, runners, r, n - 1, k);
      OfMore(k, front, n - 1, more);
      assert Collected(consumers, runners, r, n) == front + LiveSystem.Wrap(n - 1, more);
    }
  }

  lemma OfNothing<O>(k: nat)
    ensures LiveSystem.Of<O>(k, []) == []
  {
  }

  lemma OfMore<O>(k: nat, front: seq<Envelope<O>>, runner: nat, more: seq<O>)
    ensures k != runner ==> LiveSystem.Of(k, front + LiveSystem.Wrap(runner, more)) == LiveSystem.Of(k, front)
    ensures k == runner && LiveSystem.Of(k, front) == [] ==>
              LiveSystem.Of(k, front + LiveSystem.Wrap(runner, more)) == more
  {
    hide LiveSystem.Of, LiveSystem.Wrap;
    LiveSystem.OfConcat(k, front, LiveSystem.Wrap(runner, more));
    LiveSystem.OfWrap(k, runner, more);
  }

  lemma CollectedInOrder<T, O>(consumers: seq<Consumer<T, O>>, runners: seq<Checkpoint<T>>, r: Recorded, n: nat)
    requires 0 < n <= |consumers| == |runners|
    ensures Collected(consumers, runners, r, n - 1) <= Collected(consumers, runners, r, n)
  {
    hide Advance, LiveSystem.Wrap;
  }

  /** Whether the stream says CaughtUp before it ends. */
  predicate SaysCaughtUp(happenings: seq<Happening>) {
    happenings != []
    && (happenings[0] == Received(CaughtUp) || (Ends(happenings[0]).None? && SaysCaughtUp(happenings[1..])))
  }

  function Announced(happenings: seq<Happening>): seq<nat> {
    if happenings == [] then []
    else AnnouncedBy(happenings[0]) + if Ends(happenings[0]).Some? then [] else Announced(happenings[1..])
  }

  /** Every envelope a stream makes the loop attempt, in order. */
  function Produced<T, O>(consumers: seq<Consumer<T, O>>, runners: seq<Checkpoint<T>>, happenings: seq<Happening>)
    : seq<Envelope<O>>
    requires |consumers| == |runners|
    decreases |happenings|
  {
    if happenings == [] then []
    else
      ProducedBy(consumers, runners, happenings[0])
      + if Ends(happenings[0]).Some? then []
          else Produced(consumers, AfterAll(consumers, runners, happenings[0]), happenings[1..])
  }

  /** The stream delivers the log from its n-th event on, whatever comes in between. */
  predicate Feeds(log: seq<Recorded>, n: nat, happenings: seq<Happening>)
    decreases |happenings|
  {
    happenings != [] ==>
      && FeedsBy(log, n, happenings[0])
      && (Ends(happenings[0]).None? ==> Feeds(log, n + |AnnouncedBy(happenings[0])|, happenings[1..]))
  }

  /** All of the above, one happening further. */
  lemma OneHappening<T, O>(consumers: seq<Consumer<T, O>>, runners: seq<Checkpoint<T>>, happenings: seq<Happening>,
                           attempted: seq<Envelope<O>>, sent: seq<nat>)
    requires |consumers| == |runners| && happenings != []
    ensures var h, rest := happenings[0], happenings[1..];
            var next := AfterAll(consumers, runners, h);
            var ended := Ends(h).Some?;
            && EndOf(happenings) == (if ended then Ends(h).value else EndOf(rest))
            && (forall k :: 0 <= k < |consumers| ==>
                  After(consumers[k], runners[k], happenings, k) ==
                  if ended then next[k] else After(consumers[k], next[k], rest, k))
            && attempted + Produced(consumers, runners, happenings) ==
               (if ended then attempted + ProducedBy(consumers, runners, h)
                else (attempted + ProducedBy(consumers, runners, h)) + Produced(consumers, next, rest))
            && sent + Announced(happenings) ==
               (if ended then sent + AnnouncedBy(h) else (sent + AnnouncedBy(h)) + Announced(rest))
            && (SaysCaughtUp(happenings) <==> h == Received(CaughtUp) || (!ended && SaysCaughtUp(rest)))
  {
    hide Ends, AfterBy, ProducedBy, AnnouncedBy;
    var h, rest := happenings[0], happenings[1..];
    if Ends(h).Some? {
      assert ProducedBy(consumers, runners, h) + [] == ProducedBy(consumers, runners, h);
      assert AnnouncedBy(h) + [] == AnnouncedBy(h);
    } else {
      Joined(attempted, ProducedBy(consumers, runners, h), Produced(consumers, AfterAll(consumers, runners, h), rest));
      Joined(sent, AnnouncedBy(h), Announced(rest));
    }
  }

  lemma Joined<A>(x: seq<A>, y: seq<A>, z: seq<A>)
    ensures (x + y) + z == x + (y + z)
  {
  }

  // ---------- Backoff ----------

  function Pow2(k: nat): nat {
    if k == 0 then 1 else 2 * Pow2(k - 1)
  }

  /** The delay after k failures in a row. */
  function Capped(base: nat, max: nat, k: nat): nat {
    if k == 0 then base else Min(base * Pow2(k), max)
  }

  predicate EverCaughtUp(sessions: seq<Session>) {
    exists i :: 0 <= i < |sessions| && sessions[i].Connected? && SaysCaughtUp(sessions[i].happenings)
  }

  /** Whether the loop returns in this turn. */
  predicate Returns(session: Session) {
    match session
    case Quit => true
    case Refused(quit) => quit
    case Connected(happenings, quit) => EndOf(happenings).Stopped? || (EndOf(happenings).Error? && quit)
  }

  /** The loop returns in a turn exactly when the turn has a shutdown that comes before any failure, or after one. */
  lemma ReturnsExactlyWhen(session: Session)
    ensures Returns(session) <==>
            match session
            case Quit => true
            case Refused(quit) => quit
            case Connected(happenings, quit) =>
              exists i :: 0 <= i < |happenings| && StaysOpen(happenings[..i])
                          && (happenings[i].Shutdown? || happenings[i].Interrupted?
                              || (quit && happenings[i] == Received(Failure)))
  {
    hide StaysOpen, EndOf;
    if session.Connected? {
      EndsExactlyWhen(session.happenings);
    }
  }

  /** Over a script: which session is the first to return, if any. */
  lemma ReturnsFirst(sessions: seq<Session>, turns: nat)
    requires turns <= |sessions| && (turns < |sessions| ==> Returns(sessions[turns]))
    requires forall i :: 0 <= i < turns ==> !Returns(sessions[i])
    ensures forall i :: 0 <= i < |sessions| && i <= turns ==>
              (i == turns <==>
               match sessions[i]
               case Quit => true
               case Refused(quit) => quit
               case Connected(happenings, quit) =>
                 exists j :: 0 <= j < |happenings| && StaysOpen(happenings[..j])
                             && (happenings[j].Shutdown? || happenings[j].Interrupted?
                                 || (quit && happenings[j] == Received(Failure))))
  {
    hide StaysOpen, Returns;
    forall i | 0 <= i < |sessions| && i <= turns ensures Returns(sessions[i]) <==> i == turns {
    }
    forall i | 0 <= i < |sessions| && i <= turns
      ensures i == turns <==>
              match sessions[i]
              case Quit => true
              case Refused(quit) => quit
              case Connected(happenings, quit) =>
                exists j :: 0 <= j < |happenings| && StaysOpen(happenings[..j])
                            && (happenings[j].Shutdown? || happenings[j].Interrupted?
                                || (quit && happenings[j] == Received(Failure)))
    {
      ReturnsExactlyWhen(sessions[i]);
    }
  }

  predicate EndsCleanly(session: Session) {
    session.Connected? && EndOf(session.happenings).Clean?
  }

  /** A clean end forgets the failures, but only once CaughtUp was ever seen; nothing else does. */
  function Failures(sessions: seq<Session>): nat {
    if sessions == [] then 0
    else
      var before := Failures(sessions[..|sessions| - 1]);
      if !EndsCleanly(sessions[|sessions| - 1]) then before + 1
      else if EverCaughtUp(sessions) then 0
      else before
  }

  lemma {:induction false} DoublingIsCapped(base: nat, max: nat, k: nat)
    ensures Min(Capped(base, max, k) * 2, max) == Capped(base, max, k + 1)
  {
    assert Pow2(k + 1) == 2 * Pow2(k);
    assert base * Pow2(k + 1) == base * Pow2(k) * 2;
  }

  /** The delay stays within the configured maximum exactly when the base delay does. */
  lemma DelayIsBounded(base: nat, max: nat)
    ensures (forall k: nat :: Capped(base, max, k) <= max) <==> base <= max
  {
    assert Capped(base, max, 0) == base;
  }

  /** From the base delay on, failures in a row never shorten the wait. */
  lemma DelayGrows(base: nat, max: nat, k: nat)
    requires base <= max
    ensures base <= Capped(base, max, k) <= Capped(base, max, k + 1) <= max
  {
    DoublingIsCapped(base, max, k);
    if k > 0 {
      DelayGrows(base, max, k - 1);
    }
  }

  /** One turn more: a stream that nothing ended may forget the failures; any other turn adds one. */
  lemma FailuresOneMore(sessions: seq<Session>, x: Session)
    ensures (x.Connected? ==> !StaysOpen(x.happenings)) ==> Failures(sessions + [x]) == Failures(sessions) + 1
    ensures x.Connected? && StaysOpen(x.happenings) ==>
              Failures(sessions + [x]) == if EverCaughtUp(sessions + [x]) then 0 else Failures(sessions)
  {
    hide StaysOpen, EndOf;
    assert (sessions + [x])[..|sessions|] == sessions;
    if x.Connected? {
      EndsExactlyWhen(x.happenings);
    }
  }

  /** A server that refuses n times in a row: the delay has doubled n times, up to the cap. */
  lemma {:induction false} RefusalsInARow(sessions: seq<Session>, refusals: seq<Session>)
    requires forall i :: 0 <= i < |refusals| ==> refusals[i].Refused?
    ensures Failures(sessions + refusals) == Failures(sessions) + |refusals|
    decreases |refusals|
  {
    if refusals == [] {
      assert sessions + refusals == sessions;
    } else {
      var front, last := refusals[..|refusals| - 1], refusals[|refusals| - 1];
      assert sessions + refusals == sessions + front + [last];
      RefusalsInARow(sessions, front);
      FailuresOneMore(sessions + front, last);
    }
  }

  /** When the backoff is at its start: after a clean end, if CaughtUp was ever seen or nothing had failed before it. */
  lemma ResetExactlyWhen(sessions: seq<Session>, x: Session)
    ensures Failures(sessions + [x]) == 0 <==>
            EndsCleanly(x) && (EverCaughtUp(sessions + [x]) || Failures(sessions) == 0)
  {
    assert (sessions + [x])[..|sessions|] == sessions;
  }

  /**
   * The documented reset, "a successful CaughtUp", holds exactly when the stream
   * that caught up goes on to end cleanly: if it fails, the wait has doubled
   * once more than before it, whatever came before.
   */
  lemma CaughtUpResetsExactlyWhen(sessions: seq<Session>, happenings: seq<Happening>, quit: bool)
    requires SaysCaughtUp(happenings)
    ensures Failures(sessions + [Connected(happenings, quit)]) == 0 <==> EndOf(happenings).Clean?
    ensures EndOf(happenings).Error? ==> Failures(sessions + [Connected(happenings, quit)]) == Failures(sessions) + 1
  {
    var all := sessions + [Connected(happenings, quit)];
    assert all[..|sessions|] == sessions && all[|sessions|].Connected? && SaysCaughtUp(all[|sessions|].happenings);
  }

  // ---------- A script of sessions ----------

  lemma {:induction false} AdvanceConcat<T, O>(c: Consumer<T, O>, cp: Checkpoint<T>, left: seq<Recorded>,
                                               right: seq<Recorded>)
    ensures AdvanceAll(c, cp, left + right).0 == AdvanceAll(c, AdvanceAll(c, cp, left).0, right).0
    decreases |right|
  {
    if right == [] {
      assert left + right == left;
    } else {
      assert (left + right)[..|left + right| - 1] == left + right[..|right| - 1];
      AdvanceConcat(c, cp, left, right[..|right| - 1]);
    }
  }

  function HandedIn(session: Session, k: nat): seq<Recorded> {
    if session.Connected? then Handed(session.happenings, k) else []
  }

  /** The events runner k is handed over these sessions. */
  function HandedOver(sessions: seq<Session>, k: nat): seq<Recorded> {
    if sessions == [] then []
    else HandedOver(sessions[..|sessions| - 1], k) + HandedIn(sessions[|sessions| - 1], k)
  }

  /** The event after the cursors' minimum: where the server starts a subscription. */
  function FirstWanted<T>(log: seq<Recorded>, runners: seq<Checkpoint<T>>): nat {
    Behind(log, LiveSystem.From(LiveRefinement.Lowest(runners, |runners|)))
  }

  function AfterIn<T, O>(consumers: seq<Consumer<T, O>>, runners: seq<Checkpoint<T>>, session: Session)
    : (next: seq<Checkpoint<T>>)
    requires |consumers| == |runners|
    ensures |next| == |runners|
  {
    seq(|runners|, k requires 0 <= k < |runners| =>
      if session.Connected? then After(consumers[k], runners[k], session.happenings, k) else runners[k])
  }

  function ProducedIn<T, O>(consumers: seq<Consumer<T, O>>, runners: seq<Checkpoint<T>>,
                            session: Session): seq<Envelope<O>>
    requires |consumers| == |runners|
  {
    if session.Connected? then Produced(consumers, runners, session.happenings) else []
  }

  function AnnouncedIn(session: Session): seq<nat> {
    if session.Connected? then Announced(session.happenings) else []
  }

  /** Every envelope and every announcement up to the session in which the loop returns. */
  function ProducedOver<T, O>(consumers: seq<Consumer<T, O>>, runners: seq<Checkpoint<T>>, sessions: seq<Session>)
    : seq<Envelope<O>>
    requires |consumers| == |runners|
    decreases |sessions|
  {
    if sessions == [] then []
    else
      ProducedIn(consumers, runners, sessions[0])
      + if Returns(sessions[0]) then []
          else ProducedOver(consumers, AfterIn(consumers, runners, sessions[0]), sessions[1..])
  }

  function AnnouncedOver(sessions: seq<Session>): seq<nat>
    decreases |sessions|
  {
    if sessions == [] then []
    else AnnouncedIn(sessions[0]) + if Returns(sessions[0]) then [] else AnnouncedOver(sessions[1..])
  }

  /** The server keeps its contract: every subscription delivers the log from the cursor it was asked for. */
  predicate FeedsOver<T, O>(consumers: seq<Consumer<T, O>>, log: seq<Recorded>, runners: seq<Checkpoint<T>>,
                            sessions: seq<Session>)
    requires |consumers| == |runners|
    decreases |sessions|
  {
    sessions != [] ==>
      && FeedsIn(log, runners, sessions[0])
      && (!Returns(sessions[0]) ==> FeedsOver(consumers, log, AfterIn(consumers, runners, sessions[0]), sessions[1..]))
  }

  predicate FeedsIn<T>(log: seq<Recorded>, runners: seq<Checkpoint<T>>, session: Session) {
    session.Connected? ==> Feeds(log, FirstWanted(log, runners), session.happenings)
  }

  lemma NoSession<T, O>(consumers: seq<Consumer<T, O>>, sessions: seq<Session>)
    requires sessions == []
    ensures forall runners: seq<Checkpoint<T>> :: |consumers| == |runners| ==>
              ProducedOver(consumers, runners, sessions) == []
    ensures AnnouncedOver(sessions) == [] && Failures(sessions) == 0 && !EverCaughtUp(sessions)
    ensures forall k :: HandedOver(sessions, k) == []
  {
  }

  lemma HandedOneMore(sessions: seq<Session>, i: nat, k: nat)
    requires i < |sessions|
    ensures HandedOver(sessions[..i + 1], k) == HandedOver(sessions[..i], k) + HandedIn(sessions[i], k)
  {
    assert sessions[..i + 1][..i] == sessions[..i];
  }

  /** One session further. */
  lemma OneSession<T, O>(consumers: seq<Consumer<T, O>>, runners: seq<Checkpoint<T>>, sessions: seq<Session>,
                         attempted: seq<Envelope<O>>, sent: seq<nat>)
    requires |consumers| == |runners| && sessions != []
    ensures var x, rest := sessions[0], sessions[1..];
            var next := AfterIn(consumers, runners, x);
            && attempted + ProducedOver(consumers, runners, sessions) ==
               (if Returns(x) then attempted + ProducedIn(consumers, runners, x)
                else (attempted + ProducedIn(consumers, runners, x)) + ProducedOver(consumers, next, rest))
            && sent + AnnouncedOver(sessions) ==
               (if Returns(x) then sent + AnnouncedIn(x) else (sent + AnnouncedIn(x)) + AnnouncedOver(rest))
            && forall log :: FeedsOver(consumers, log, runners, sessions) ==>
                 FeedsIn(log, runners, x) && (!Returns(x) ==> FeedsOver(consumers, log, next, rest))
  {
    hide FeedsIn, Returns, AfterIn, ProducedIn, AnnouncedIn;
    var x, rest := sessions[0], sessions[1..];
    if Returns(x) {
      assert ProducedIn(consumers, runners, x) + [] == ProducedIn(consumers, runners, x);
      assert AnnouncedIn(x) + [] == AnnouncedIn(x);
    } else {
      Joined(attempted, ProducedIn(consumers, runners, x),
          ProducedOver(consumers, AfterIn(consumers, runners, x), rest));
      Joined(sent, AnnouncedIn(x), AnnouncedOver(rest));
    }
  }

  lemma BackoffSoFar(base: nat, max: nat, sessions: seq<Session>, i: nat)
    requires i < |sessions|
    ensures var before := Failures(sessions[..i]);
            Failures(sessions[..i + 1]) == if !EndsCleanly(sessions[i]) then before + 1
                                           else if EverCaughtUp(sessions[..i + 1]) then 0 else before
    ensures Min(Capped(base, max, Failures(sessions[..i])) * 2, max) == Capped(base, max, Failures(sessions[..i]) + 1)
    ensures Capped(base, max, 0) == base
  {
    assert sessions[..i + 1][..i] == sessions[..i];
    DoublingIsCapped(base, max, Failures(sessions[..i]));
  }

  lemma CaughtUpSoFar(sessions: seq<Session>, i: nat)
    requires i < |sessions|
    ensures EverCaughtUp(sessions[..i + 1]) <==>
            EverCaughtUp(sessions[..i]) || (sessions[i].Connected? && SaysCaughtUp(sessions[i].happenings))
  {
    var more, less := sessions[..i + 1], sessions[..i];
    assert forall j :: 0 <= j < i ==> more[j] == less[j];
    assert more[i] == sessions[i];
  }
}
