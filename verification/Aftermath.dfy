/** What completion means for errors: after completion an error is flagged exactly when the last result
    itself found a step without a live stream, or the client was hit from outside since that result was
    begun. */
module Aftermath {
  import opened Aggregator
  import opened Protocol
  import opened Timer
  import opened Session
  import opened Invariants
  import opened Clocks
  import opened Histories
  import opened Conformance
  import Guarantees

  // ----- workers that cannot fail any more

  predicate Safe(w: Worker) {
    !w.place.Born? && !w.place.Registered?
  }

  ghost predicate AllSafe(s: State) {
    forall i | 0 <= i < |s.workers| :: Safe(s.workers[i])
  }

  predicate Idle(c: Config) {
    !c.rtt && !c.download && !c.upload
  }

  /** A worker that has raised its barrier entry is past the point where it could fail; a client with nothing
      to do starts nothing; and a ping test is stopped by an error or behind that point. */
  ghost predicate Orderly(c: Config, s: State) {
    && (s.seqr.Joining? ==> forall i | 0 <= i < |s.workers| :: s.workers[i].synced ==> Safe(s.workers[i]))
    && (Idle(c) ==> !s.sh.flags.running && (s.seqr.Deciding? || s.seqr.Over?))
    && (s.seqr == Preparing(1) ==> s.sh.tick.stopped ==> s.sh.flags.hasError)
    && (s.seqr == Joining(1) ==> s.sh.tick.stopped ==> s.sh.flags.hasError || AllSafe(s))
  }

  lemma SafeMove(c: Config, t: Test, w: Worker, sh: Shared, now: nat, m: Move)
    ensures var p := WorkerMove(c, t, w, sh, now, m);
            && (Safe(w) ==> Safe(p.w)) && ((w.synced ==> Safe(w)) ==> p.w.synced ==> Safe(p.w))
            && (p.sh.tick.stopped ==> sh.tick.stopped || Safe(p.w))
  {
    match m
    case Fail(flag) =>
    case Guard =>
    case Receive(received, bits) =>
    case Acknowledge(received, records) =>
    case Answer(reply) =>
    case _ =>
  }

  lemma SafeFlags(c: Config, t: Test, w: Worker, sh: Shared, now: nat, m: Move)
    requires Safe(w) && !t.IpTest?
    ensures var p := WorkerMove(c, t, w, sh, now, m);
            if m.Throw? && !w.place.Ended? then p.sh.flags.hasError else p.sh.flags == sh.flags
  {
    match m
    case Fail(flag) =>
    case Guard =>
    case Receive(received, bits) =>
    case Acknowledge(received, records) =>
    case _ =>
  }

  lemma OrderlyWork(c: Config, s: State, i: nat, m: Move)
    requires Barriers(c, s) && Orderly(c, s)
    ensures Orderly(c, DoWork(c, s, i, m))
  {
    if s.seqr.Joining? && i < |s.workers| {
      SafeMove(c, CurrentTest(s), s.workers[i], s.sh, s.now, m);
      WorkerFlags(c, CurrentTest(s), s.workers[i], s.sh, s.now, m);
    }
  }

  lemma OrderlyTimer(c: Config, s: State)
    requires Barriers(c, s) && Ticks(c, s) && Orderly(c, s)
    ensures Orderly(c, DoTimer(c, s))
  {
    TimerFrame(Result(s.sh, s.timer, []), s.now);
    TimerCalls(s.sh, s.timer, s.now);
    if s.seqr.Joining? && s.seqr.k == 1 && !s.sh.tick.stopped && DoTimer(c, s).sh.tick.stopped && s.timer.at.Poll? {
      assert AllSynced(s.workers);
      forall i | 0 <= i < |s.workers| ensures Safe(s.workers[i]) {
        assert s.workers[i].synced;
      }
    }
  }

  lemma OrderlyOther(c: Config, s: State, a: Action)
    requires Orderly(c, s) && !a.Work? && !a.TimerStep?
    requires Attended(s) && (s.seqr.Joining? || s.seqr.Preparing? ==> s.seqr.k < 4)
    ensures Orderly(c, Do(c, s, a))
  {
  }

  lemma OrderlyStep(c: Config, zero: nat, s: State, a: Action)
    requires Base(c, zero, s) && Orderly(c, s)
    ensures Orderly(c, Do(c, s, a))
  {
    match a
    case Work(i, m) => OrderlyWork(c, s, i, m);
    case TimerStep => OrderlyTimer(c, s);
    case _ => OrderlyOther(c, s, a);
  }

  // ----- the finish of the last test

  /** The running test is the last enabled one. */
  ghost predicate LastTest(c: Config, s: State) {
    (s.seqr.Preparing? || s.seqr.Joining?) && NoneBetween(c, s.seqr.k + 1, 4)
  }

  /** The client is hit: the process receives a signal, or a worker throws. */
  predicate Strikes(s: State, a: Action) {
    a.Abort?
    || (a.Work? && a.move.Throw? && s.seqr.Joining? && a.i < |s.workers| && !s.workers[a.i].place.Ended?)
  }

  /** A final result is begun. */
  predicate Begins(c: Config, s: State, a: Action) {
    a.TimerStep? && !s.timer.at.Finishing? && DoTimer(c, s).timer.at.Finishing?
  }

  predicate StruckNext(c: Config, s: State, a: Action, struck: bool) {
    !Begins(c, s, a) && (struck || Strikes(s, a))
  }

  /** The client was hit since the last final result was begun. */
  ghost predicate Struck(c: Config, zero: nat, acts: seq<Action>) {
    acts != [] &&
    StruckNext(c, After(c, zero, acts[..|acts| - 1]), acts[|acts| - 1], Struck(c, zero, acts[..|acts| - 1]))
  }

  lemma {:induction false} UndisturbedNotStruck(c: Config, zero: nat, acts: seq<Action>)
    requires Undisturbed(acts)
    ensures !Struck(c, zero, acts)
  {
    if acts != [] {
      assert acts[|acts| - 1] in acts;
      UndisturbedNotStruck(c, zero, acts[..|acts| - 1]);
    }
  }

  /** While the last result is made, an error is flagged exactly if one of its rows so far met no live
      stream, or the client was hit meanwhile. */
  ghost predicate Closing(c: Config, s: State, struck: bool) {
    LastTest(c, s) && s.timer.at.Finishing? ==>
      && s.seqr.Joining? && AllSafe(s)
      && (s.sh.flags.hasError <==> struck || (s.pending.Pending? && Dropped(s.pending.rows, |s.pending.rows|)))
  }

  lemma {:induction false} DroppedMore(rs: seq<Reading>, r: Reading, n: nat)
    requires n <= |rs|
    ensures Dropped(rs + [r], n) == Dropped(rs, n)
  {
    if n > 0 {
      DroppedMore(rs, r, n - 1);
    }
  }

  lemma NotFirst(c: Config, s: State)
    requires Orderly(c, s) && LastTest(c, s)
    ensures s.seqr.k >= 1
  {
    assert Enabled(c, 1) == c.rtt && Enabled(c, 2) == c.download && Enabled(c, 3) == c.upload;
  }

  /** The timer only begins the last result behind all points where workers fail. */
  lemma FinishSafe(c: Config, zero: nat, s: State)
    requires Base(c, zero, s) && Orderly(c, s) && LastTest(c, s) && s.timer.at.End?
    requires s.sh.flags.running && !s.sh.flags.hasError
    ensures s.seqr.Joining? && AllSafe(s)
  {
    NotFirst(c, s);
    assert s.sh.tick.stopped;
    if Measures(TestAt(s.seqr.k)) {
      assert Passed(s);
      forall i | 0 <= i < |s.workers| ensures Safe(s.workers[i]) {
        assert s.workers[i].synced;
      }
    }
  }

  /** A final result is only begun at the end, and without an error. */
  lemma FinishBegins(sh: Shared, t: Timer, now: nat)
    requires Step(Result(sh, t, []), now).t.at.Finishing?
    ensures t.at.End? && sh.flags.running && !sh.flags.hasError
  {
  }

  lemma ClosingTimer(c: Config, zero: nat, s: State, struck: bool)
    requires Base(c, zero, s) && Orderly(c, s) && Closing(c, s, struck)
    ensures Closing(c, DoTimer(c, s), StruckNext(c, s, TimerStep, struck))
  {
    TimerFrame(Result(s.sh, s.timer, []), s.now);
    if DoTimer(c, s) != s && LastTest(c, s) && DoTimer(c, s).timer.at.Finishing? {
      FinishBegins(s.sh, s.timer, s.now);
      FinishSafe(c, zero, s);
    }
  }

  lemma ClosingWork(c: Config, s: State, i: nat, m: Move, struck: bool)
    requires Orderly(c, s) && Closing(c, s, struck)
    ensures Closing(c, DoWork(c, s, i, m), StruckNext(c, s, Work(i, m), struck))
  {
    if LastTest(c, s) && s.timer.at.Finishing? && i < |s.workers| {
      NotFirst(c, s);
      SafeMove(c, CurrentTest(s), s.workers[i], s.sh, s.now, m);
      SafeFlags(c, CurrentTest(s), s.workers[i], s.sh, s.now, m);
    }
  }

  lemma ClosingRow(c: Config, s: State, struck: bool)
    requires Closing(c, s, struck)
    ensures Closing(c, DoRow(s), struck)
  {
    if s.pending.Pending? {
      DroppedMore(s.pending.rows, s.pending.row, |s.pending.rows|);
    }
  }

  lemma ClosingOther(c: Config, s: State, a: Action, struck: bool)
    requires Closing(c, s, struck) && !a.Work? && !a.TimerStep? && !a.CalcRow?
    ensures Closing(c, Do(c, s, a), StruckNext(c, s, a, struck))
  {
  }

  lemma ClosingStep(c: Config, zero: nat, s: State, a: Action, struck: bool)
    requires Base(c, zero, s) && Orderly(c, s) && Closing(c, s, struck)
    ensures Closing(c, Do(c, s, a), StruckNext(c, s, a, struck))
  {
    match a
    case Work(i, m) => ClosingWork(c, s, i, m, struck);
    case TimerStep => ClosingTimer(c, zero, s, struck);
    case CalcRow => ClosingRow(c, s, struck);
    case _ => ClosingOther(c, s, a, struck);
  }

  // ----- after completion

  /** The last result, once completed was signalled. */
  ghost predicate Verdict(trace: seq<Event>, hasError: bool, struck: bool) {
    && |trace| >= 2 && trace[|trace| - 2].Finish?
    && (hasError <==> struck || Dropped(trace[|trace| - 2].readings, |trace[|trace| - 2].readings|))
  }

  ghost predicate Told(c: Config, s: State, struck: bool) {
    Follow(c, s.trace) == Complete ==>
      && Verdict(s.trace, s.sh.flags.hasError, struck)
      && !s.seqr.Preparing? && (s.seqr.Joining? ==> s.seqr.k >= 1 && AllSafe(s))
  }

  /** A single result does not complete anything. */
  lemma OneResult(c: Config, trace: seq<Event>, k: nat, stage: nat, last: nat, e: Event)
    requires Follow(c, trace) == Testing(k, stage, last) && (e.Report? || e.Finish?)
    ensures Follow(c, trace + [e]) != Complete
  {
    FollowMore(c, trace, e);
  }

  /** Only the finish of the last test completes. */
  lemma CompletesHow(c: Config, s: State, k: nat, e: Event)
    requires Measuring(c, s, k, Follow(c, s.trace)) && k < 4 && Enabled(c, k) && (e.Report? || e.Finish?)
    requires var performed := if e.Finish? then s.performed + {TestAt(k)} else s.performed;
             Follow(c, s.trace + Emitted(c, performed, e)) == Complete
    ensures e.Finish? && NoneBetween(c, k + 1, 4)
    ensures s.performed + {TestAt(k)} == EnabledBelow(c, 4)
  {
    var performed := if e.Finish? then s.performed + {TestAt(k)} else s.performed;
    OneResult(c, s.trace, k, Follow(c, s.trace).stage, Follow(c, s.trace).last, e);
    assert performed == EnabledBelow(c, 4);
    EnabledMore(c, k);
    EnabledAll(c, k);
    EnabledAll(c, k + 1);
  }

  /** Results are only made while the test is measured. */
  lemma CallbackMeasures(c: Config, s: State)
    requires Conforms(c, s) && Attended(s) && InCallback(s)
    ensures (s.seqr.Preparing? || s.seqr.Joining?) && s.seqr.k < 4 && Enabled(c, s.seqr.k)
    ensures Measuring(c, s, s.seqr.k, Follow(c, s.trace))
  {
  }

  lemma LastHanded(c: Config, s: State, q: State, e: Event, struck: bool)
    requires Closing(c, s, struck) && Orderly(c, s) && LastTest(c, s) && s.timer.at.Finishing? && s.pending.Pending?
    requires q.trace == s.trace + [MeasurementEnd, e, Completed] && q.sh.flags == s.sh.flags
    requires q.workers == s.workers && q.seqr == s.seqr
    requires e == Event.Finish(CurrentTest(s), s.pending.rows)
    ensures Told(c, q, struck)
  {
    NotFirst(c, s);
    assert q.trace[|q.trace| - 2] == e;
  }

  lemma ToldEnd(c: Config, s: State, struck: bool)
    requires Attended(s) && Conforms(c, s) && Orderly(c, s) && Closing(c, s, struck) && Told(c, s, struck)
    ensures Told(c, DoEnd(c, s), struck)
  {
    var q := DoEnd(c, s);
    if q != s {
      CallbackMeasures(c, s);
      if Follow(c, q.trace) == Complete {
        CompletesHow(c, s, s.seqr.k, Handed(s));
        LastHanded(c, s, q, Handed(s), struck);
      }
    }
  }

  lemma ToldWork(c: Config, s: State, i: nat, m: Move, struck: bool)
    requires Told(c, s, struck)
    ensures Told(c, DoWork(c, s, i, m), StruckNext(c, s, Work(i, m), struck))
  {
    if s.seqr.Joining? && i < |s.workers| && Follow(c, s.trace) == Complete {
      SafeMove(c, CurrentTest(s), s.workers[i], s.sh, s.now, m);
      SafeFlags(c, CurrentTest(s), s.workers[i], s.sh, s.now, m);
    }
  }

  /** A callback of the timer's own does not leave the thread where it would leave the test. */
  lemma TalksInside(sh: Shared, t: Timer, now: nat)
    requires Step(Result(sh, t, []), now).calls != []
    ensures !Left(Step(Result(sh, t, []), now).t.at) && !t.at.Done?
  {
  }

  /** So it never completes anything. */
  lemma TimerNotLast(c: Config, s: State)
    requires Attended(s) && Conforms(c, DoTimer(c, s)) && DoTimer(c, s).trace != s.trace
    ensures Follow(c, DoTimer(c, s).trace) != Complete
  {
    TalksInside(s.sh, s.timer, s.now);
  }

  /** After completion no result is begun. */
  lemma NoneBegins(c: Config, s: State, a: Action)
    requires Attended(s) && Conforms(c, s) && Follow(c, s.trace) == Complete
    ensures !Begins(c, s, a)
  {
  }

  lemma ToldTimer(c: Config, s: State, struck: bool)
    requires Attended(s) && Conforms(c, s) && Conforms(c, DoTimer(c, s)) && Told(c, s, struck)
    ensures Told(c, DoTimer(c, s), StruckNext(c, s, TimerStep, struck))
  {
    TimerCalls(s.sh, s.timer, s.now);
    if DoTimer(c, s).trace != s.trace {
      TimerNotLast(c, s);
    } else if Follow(c, s.trace) == Complete {
      NoneBegins(c, s, TimerStep);
    }
  }

  /** A test that starts does not complete anything. */
  lemma StartedNotLast(c: Config, trace: seq<Event>, t: Test)
    ensures Follow(c, trace + [Started(t)]) != Complete
  {
    FollowMore(c, trace, Started(t));
  }

  /** A decision that starts nothing leaves everything told; one that starts a test leaves the end. */
  lemma ToldDecide(c: Config, s: State, struck: bool)
    requires Told(c, s, struck)
    ensures Told(c, DoDecide(c, s), struck)
  {
    if s.seqr.Deciding? && s.seqr.k < 4 && Enabled(c, s.seqr.k) && Going(s.sh.flags, s.seqr.k) {
      assert DoDecide(c, s).trace == s.trace + [Started(TestAt(s.seqr.k))];
      StartedNotLast(c, s.trace, TestAt(s.seqr.k));
    } else {
      assert DoDecide(c, s).trace == s.trace && DoDecide(c, s).sh.flags.hasError == s.sh.flags.hasError;
    }
  }

  lemma ToldOther(c: Config, s: State, a: Action, struck: bool)
    requires Conforms(c, s) && Attended(s) && Told(c, s, struck)
    requires !a.Work? && !a.TimerStep? && !a.CalcEnd? && !a.Decide?
    ensures Told(c, Do(c, s, a), StruckNext(c, s, a, struck))
  {
  }

  lemma ToldStep(c: Config, zero: nat, s: State, a: Action, struck: bool)
    requires Base(c, zero, s) && Conforms(c, s) && Orderly(c, s) && Closing(c, s, struck) && Told(c, s, struck)
    ensures Told(c, Do(c, s, a), StruckNext(c, s, a, struck))
  {
    match a
    case Work(i, m) => ToldWork(c, s, i, m, struck);
    case TimerStep =>
      ConformsTimer(c, zero, s);
      ToldTimer(c, s, struck);
    case CalcEnd => ToldEnd(c, s, struck);
    case Decide => ToldDecide(c, s, struck);
    case _ => ToldOther(c, s, a, struck);
  }

  lemma AftermathBegin(c: Config, zero: nat)
    ensures var s := Begin(c, zero); Orderly(c, s) && Closing(c, s, false) && Told(c, s, false)
  {
    if Idle(c) {
      FollowMore(c, [], Error(1));
      EnabledMore(c, 0);
    }
    assert Follow(c, []) == Protocol.Idle(0);
  }

  lemma {:induction false} AftermathAlways(c: Config, zero: nat, acts: seq<Action>)
    requires Sane(c)
    ensures var s, struck := After(c, zero, acts), Struck(c, zero, acts);
            Base(c, zero, s) && Conforms(c, s) && Orderly(c, s) && Closing(c, s, struck) && Told(c, s, struck)
  {
    ConformsAlways(c, zero, acts);
    if acts == [] {
      AftermathBegin(c, zero);
    } else {
      var init, a := acts[..|acts| - 1], acts[|acts| - 1];
      AftermathAlways(c, zero, init);
      OrderlyStep(c, zero, After(c, zero, init), a);
      ClosingStep(c, zero, After(c, zero, init), a, Struck(c, zero, init));
      ToldStep(c, zero, After(c, zero, init), a, Struck(c, zero, init));
    }
  }

  /** No stream received data any more: every last receive brought nothing or failed. */
  ghost predicate DeadRow(r: Reading) {
    forall k | 0 <= k < |r.snaps| :: r.snaps[k].response <= 0
  }

  lemma DeadIff(r: Reading)
    ensures DeadRow(r) <==> Alive(r, |r.snaps|) == 0
  {
    var live := LiveStreams(r, |r.snaps|);
    AliveIs(r, |r.snaps|);
    if Alive(r, |r.snaps|) == 0 {
      assert live == {};
      forall k | 0 <= k < |r.snaps| ensures r.snaps[k].response <= 0 {
        assert k !in live;
      }
    }
    assert DeadRow(r) ==> live == {};
  }

  ghost predicate SomeDead(rs: seq<Reading>) {
    exists i :: 0 <= i < |rs| && DeadRow(rs[i])
  }

  lemma {:induction false} DroppedIff(rs: seq<Reading>, n: nat)
    requires n <= |rs|
    ensures Dropped(rs, n) <==> exists i :: 0 <= i < n && DeadRow(rs[i])
  {
    if n > 0 {
      DroppedIff(rs, n - 1);
      DeadIff(rs[n - 1]);
    }
  }

  lemma CompletedFollows(c: Config, zero: nat, acts: seq<Action>)
    requires Sane(c) && Completed in Trace(c, zero, acts)
    ensures Follow(c, Trace(c, zero, acts)) == Complete
  {
    RunsAreAccepted(c, zero, acts);
    Guarantees.Completion(c, zero, acts);
    AllFinished(c, Trace(c, zero, acts));
  }

  lemma VerdictMeans(t: seq<Event>, hasError: bool, struck: bool)
    requires Verdict(t, hasError, struck)
    ensures |t| >= 2 && t[|t| - 2].Finish?
    ensures hasError <==> SomeDead(t[|t| - 2].readings) || struck
  {
    DroppedIff(t[|t| - 2].readings, |t[|t| - 2].readings|);
  }

  /** In every run that has completed, an error is flagged exactly if some step of the last result met no
      stream that still received data, or the client was hit since that result was begun. Stopping the
      client flags nothing. */
  lemma ErrorAfterCompletion(c: Config, zero: nat, acts: seq<Action>)
    requires Sane(c) && Completed in Trace(c, zero, acts)
    ensures var t := Trace(c, zero, acts);
            && |t| >= 2 && t[|t| - 2].Finish?
            && (After(c, zero, acts).sh.flags.hasError <==> SomeDead(t[|t| - 2].readings) || Struck(c, zero, acts))
    ensures Undisturbed(acts) ==> !Struck(c, zero, acts)
  {
    var t := Trace(c, zero, acts);
    AftermathAlways(c, zero, acts);
    CompletedFollows(c, zero, acts);
    VerdictMeans(t, After(c, zero, acts).sh.flags.hasError, Struck(c, zero, acts));
    if Undisturbed(acts) {
      UndisturbedNotStruck(c, zero, acts);
    }
  }
}
