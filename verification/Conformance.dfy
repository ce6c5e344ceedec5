/** Every run of the client follows the callback protocol: a refinement of the interleaved system to
    the small automaton of Protocol. */
module Conformance {
  import opened Aggregator
  import opened Protocol
  import opened Timer
  import opened Session
  import opened Invariants
  import opened Clocks
  import opened Histories

  // ----- how the states of the system and of the automaton correspond

  /** Where a callback may leave the automaton: the three of the last finish are made together. */
  predicate Resting(p: Phase) {
    p != Rejected && p != Last && !p.Ending?
  }

  /** Between two tests: if the client goes on, all enabled tests so far were performed. */
  ghost predicate Between(c: Config, s: State, k: nat, p: Phase) {
    && Resting(p)
    && (Going(s.sh.flags, k) ==>
          && s.performed == EnabledBelow(c, k)
          && ((p.Idle? && p.next <= k && NoneBetween(c, p.next, k)) || (p == Complete && NoneBetween(c, k, 4))))
  }

  function StageOf(k: Ticking, at: Point): nat {
    if k.running then 2 else if at.Delay? then 1 else 0
  }

  predicate Left(at: Point) {
    at.Close? || at.Done?
  }

  /** Test k runs. Its last report was made for the tick the timer knows, except while the timer is
      inside a report. A timer that leaves without a finish has a reason. */
  ghost predicate Measuring(c: Config, s: State, k: nat, p: Phase) {
    && p.Testing? && p.k == k && p.stage == StageOf(s.sh.tick, s.timer.at)
    && s.performed == EnabledBelow(c, k)
    && (if s.timer.at.Reporting? then p.last < s.timer.current else p.last == s.timer.current)
    && (Left(s.timer.at) ==> s.sh.flags.hasError || !s.sh.flags.running)
  }

  /** An error was reported, and the timer is on its way out. */
  ghost predicate Failing(s: State, p: Phase) {
    && p == Dead && s.sh.flags.hasError && s.sh.tick.stopped
    && (s.timer.at.Head? || s.timer.at.End? || Left(s.timer.at))
  }

  /** Test k has finished. */
  ghost predicate Ended(c: Config, s: State, k: nat, p: Phase) {
    && Left(s.timer.at) && s.performed == EnabledBelow(c, k + 1)
    && p == if NoneBetween(c, k + 1, 4) then Complete else Idle(k + 1)
  }

  ghost predicate During(c: Config, s: State, k: nat, p: Phase) {
    k < 4 && Enabled(c, k) && (Measuring(c, s, k, p) || Failing(s, p) || Ended(c, s, k, p))
  }

  ghost predicate Conforms(c: Config, s: State) {
    var p := Follow(c, s.trace);
    match s.seqr
    case Deciding(k) => Between(c, s, k, p)
    case Preparing(k) => During(c, s, k, p)
    case Joining(k) => During(c, s, k, p)
    case Over => Resting(p) && !s.sh.flags.running
  }

  // ----- sets of performed tests

  lemma EnabledMore(c: Config, k: nat)
    requires k < 4
    ensures EnabledBelow(c, k + 1) == if Enabled(c, k) then EnabledBelow(c, k) + {TestAt(k)} else EnabledBelow(c, k)
  {
    assert forall t: Test :: Position(t) == k <==> t == TestAt(k);
  }

  /** The tests below k are all of them exactly when none is enabled from k on. */
  lemma EnabledAll(c: Config, k: nat)
    requires k <= 4
    ensures EnabledBelow(c, k) == EnabledBelow(c, 4) <==> NoneBetween(c, k, 4)
  {
    if EnabledBelow(c, k) == EnabledBelow(c, 4) {
      forall j | k <= j < 4 ensures !Enabled(c, j) {
        assert TestAt(j) in EnabledBelow(c, 4) <==> Enabled(c, j);
        assert TestAt(j) !in EnabledBelow(c, k);
      }
    } else {
      assert EnabledBelow(c, k) <= EnabledBelow(c, 4);
      var t :| t in EnabledBelow(c, 4) && t !in EnabledBelow(c, k);
      assert Enabled(c, Position(t));
    }
  }

  // ----- steps that emit nothing

  /** Flags that get worse and a timer that is told to stop disturb nothing. */
  lemma DuringKept(c: Config, s: State, q: State, k: nat, p: Phase)
    requires During(c, s, k, p) && q.timer == s.timer && q.performed == s.performed
    requires Worse(s.sh.flags, q.sh.flags)
    requires q.sh.tick == s.sh.tick || q.sh.tick == s.sh.tick.(stopped := true)
    ensures During(c, q, k, p)
  {
  }

  lemma ConformsKept(c: Config, s: State, q: State)
    requires Conforms(c, s) && q.trace == s.trace && q.timer == s.timer && q.performed == s.performed
    requires q.seqr == s.seqr || (s.seqr.Preparing? && q.seqr == Joining(s.seqr.k))
    requires Worse(s.sh.flags, q.sh.flags)
    requires q.sh.tick == s.sh.tick || q.sh.tick == s.sh.tick.(stopped := true)
    ensures Conforms(c, q)
  {
    if s.seqr.Preparing? || s.seqr.Joining? {
      DuringKept(c, s, q, s.seqr.k, Follow(c, s.trace));
    }
  }

  lemma ConformsWork(c: Config, s: State, i: nat, m: Move)
    requires Conforms(c, s)
    ensures Conforms(c, DoWork(c, s, i, m))
  {
    if s.seqr.Joining? && i < |s.workers| {
      WorkerFrame(c, CurrentTest(s), s.workers[i], s.sh, s.now, m);
      WorkerFlags(c, CurrentTest(s), s.workers[i], s.sh, s.now, m);
      ConformsKept(c, s, DoWork(c, s, i, m));
    }
  }

  // ----- the sequencer

  lemma AdvanceStart(c: Config, p: Phase, k: nat)
    requires k < 4 && Enabled(c, k)
    requires (p.Idle? && p.next <= k && NoneBetween(c, p.next, k)) || (p == Complete && NoneBetween(c, k, 4))
    ensures Advance(c, p, Started(TestAt(k))) == Testing(k, 0, 0)
  {
    assert Position(TestAt(k)) == k;
  }

  lemma ConformsStart(c: Config, s: State, k: nat)
    requires s.seqr == Deciding(k) && k < 4 && Enabled(c, k) && Going(s.sh.flags, k)
    requires Between(c, s, k, Follow(c, s.trace))
    ensures Conforms(c, DoDecide(c, s))
  {
    var q := DoDecide(c, s);
    AdvanceStart(c, Follow(c, s.trace), k);
    FollowMore(c, s.trace, Started(TestAt(k)));
    assert q.trace == s.trace + [Started(TestAt(k))] && q.seqr == Preparing(k);
    assert Measuring(c, q, k, Testing(k, 0, 0));
  }

  lemma ConformsSkip(c: Config, s: State, k: nat)
    requires k < 4 && !(Enabled(c, k) && Going(s.sh.flags, k))
    requires Between(c, s, k, Follow(c, s.trace))
    ensures Between(c, s, k + 1, Follow(c, s.trace))
  {
    EnabledMore(c, k);
  }

  lemma ConformsDecide(c: Config, s: State)
    requires Conforms(c, s)
    ensures Conforms(c, DoDecide(c, s))
  {
    if s.seqr.Deciding? && s.seqr.k < 4 {
      if Enabled(c, s.seqr.k) && Going(s.sh.flags, s.seqr.k) {
        ConformsStart(c, s, s.seqr.k);
      } else {
        ConformsSkip(c, s, s.seqr.k);
      }
    }
  }

  lemma ConformsJoin(c: Config, s: State)
    requires Conforms(c, s)
    ensures Conforms(c, DoJoin(s))
  {
  }

  // ----- the timer

  lemma TimerWhileEnding(c: Config, s: State, k: nat)
    requires During(c, s, k, Follow(c, s.trace)) && !Measuring(c, s, k, Follow(c, s.trace))
    ensures DoTimer(c, s).trace == s.trace && During(c, DoTimer(c, s), k, Follow(c, s.trace))
  {
  }

  /** A callback of the timer that is neither a report nor a finish. */
  predicate Talks(calls: seq<Call>) {
    calls != [] && !calls[0].CallReport? && !calls[0].CallFinish?
  }

  /** While test k runs, the timer's callbacks are those the automaton allows. */
  lemma TimerTalks(c: Config, sh: Shared, t: Timer, now: nat, k: nat)
    requires TickAt(sh.tick, t, sh.flags) && Flagged(sh.flags)
    requires Talks(Step(Result(sh, t, []), now).calls)
    ensures var r := Step(Result(sh, t, []), now);
            var p := Advance(c, Testing(k, StageOf(sh.tick, t.at), t.current), EventOf(r.calls[0]));
            if r.calls[0].CallError?
            then p == Dead && r.sh.flags.hasError && r.sh.tick.stopped && (r.t.at.Head? || r.t.at.End?)
            else p == Testing(k, StageOf(r.sh.tick, r.t.at), t.current) && r.t.current == t.current
                 && !Left(r.t.at) && !r.t.at.Reporting?
  {
  }

  lemma TimerSilent(sh: Shared, t: Timer, now: nat)
    requires TickAt(sh.tick, t, sh.flags) && !t.at.Reporting? && !t.at.Finishing?
    requires sh.tick.index <= Step(Result(sh, t, []), now).sh.tick.index
    requires !Talks(Step(Result(sh, t, []), now).calls)
    ensures var r := Step(Result(sh, t, []), now);
            && StageOf(r.sh.tick, r.t.at) == StageOf(sh.tick, t.at)
            && (if r.t.at.Reporting? then t.current < r.t.current else r.t.current == t.current)
            && (Left(r.t.at) && !Left(t.at) ==> r.sh.flags.hasError || !r.sh.flags.running)
  {
    match t.at
    case Poll =>
    case Barrier =>
    case Head =>
    case End =>
    case _ =>
  }

  lemma TimerCalls(sh: Shared, t: Timer, now: nat)
    ensures |Step(Result(sh, t, []), now).calls| <= 1
    ensures Step(Result(sh, t, []), now).sh.flags == sh.flags
  {
  }

  lemma TimerWhileMeasuring(c: Config, zero: nat, s: State, k: nat)
    requires Base(c, zero, s) && s.seqr in {Preparing(k), Joining(k)} && DoTimer(c, s) != s
    requires Measuring(c, s, k, Follow(c, s.trace)) && k < 4 && Enabled(c, k)
    ensures During(c, DoTimer(c, s), k, Follow(c, DoTimer(c, s).trace))
  {
    var r := Step(Result(s.sh, s.timer, []), s.now);
    TickRises(c, zero, s);
    EnabledAll(c, k);
    TimerCalls(s.sh, s.timer, s.now);
    if Talks(r.calls) {
      TimerTalks(c, s.sh, s.timer, s.now, k);
      FollowMore(c, s.trace, EventOf(r.calls[0]));
      assert Emitted(c, s.performed, EventOf(r.calls[0])) == [EventOf(r.calls[0])];
    } else {
      TimerSilent(s.sh, s.timer, s.now);
    }
  }

  lemma ConformsTimer(c: Config, zero: nat, s: State)
    requires Base(c, zero, s) && Conforms(c, s)
    ensures Conforms(c, DoTimer(c, s))
  {
    if s.seqr.Preparing? || s.seqr.Joining? {
      if DoTimer(c, s) == s {
      } else if Measuring(c, s, s.seqr.k, Follow(c, s.trace)) {
        TimerWhileMeasuring(c, zero, s, s.seqr.k);
      } else {
        TimerWhileEnding(c, s, s.seqr.k);
      }
    }
  }

  // ----- the callbacks that carry results

  /** A report has as many steps as its tick, a finish of a measurement all of them. */
  lemma Lengths(c: Config, zero: nat, s: State, k: nat)
    requires Base(c, zero, s) && s.seqr in {Preparing(k), Joining(k)} && k < 4 && InCallback(s)
    ensures s.timer.at.Reporting? ==>
              StepsNow(s) == if Measures(TestAt(k)) then Least(s.sh.tick.index, FullSteps(c, TestAt(k))) else 0
    ensures s.timer.at.Finishing? ==>
              StepsNow(s) == FullSteps(c, TestAt(k)) && (Measures(TestAt(k)) ==> s.sh.tick.running)
  {
    if Measures(TestAt(k)) {
      CallbackPassed(c, s);
      NoStaleDuration(c, s);
    }
  }

  lemma ReportedFits(c: Config, zero: nat, s: State, k: nat)
    requires Base(c, zero, s) && s.seqr in {Preparing(k), Joining(k)} && k < 4
    requires s.timer.at.Reporting? && DoEnd(c, s) != s
    ensures ReportFits(c, TestAt(k), Handed(s)) && Handed(s).index < 2 * Duration(c, TestAt(k))
    ensures s.sh.tick.running && s.sh.tick.index == s.timer.current
  {
    Lengths(c, zero, s, k);
  }

  lemma EndReporting(c: Config, s: State, k: nat)
    requires s.seqr in {Preparing(k), Joining(k)} && s.timer.at.Reporting? && DoEnd(c, s) != s
    requires Measuring(c, s, k, Follow(c, s.trace)) && k < 4 && Enabled(c, k)
    requires ReportFits(c, TestAt(k), Handed(s)) && Handed(s).index < 2 * Duration(c, TestAt(k))
    requires s.sh.tick.running && s.sh.tick.index == s.timer.current
    ensures During(c, DoEnd(c, s), k, Follow(c, DoEnd(c, s).trace))
  {
    EnabledAll(c, k);
    FollowMore(c, s.trace, Handed(s));
    assert Emitted(c, s.performed, Handed(s)) == [Handed(s)];
  }

  lemma HandedFits(c: Config, zero: nat, s: State, k: nat)
    requires Base(c, zero, s) && s.seqr in {Preparing(k), Joining(k)} && k < 4
    requires s.timer.at.Finishing? && DoEnd(c, s) != s
    ensures FinishFits(c, TestAt(k), StageOf(s.sh.tick, s.timer.at), Handed(s))
  {
    Lengths(c, zero, s, k);
  }

  /** The finish of the last enabled test: three callbacks. */
  lemma FollowLast(c: Config, trace: seq<Event>, k: nat, stage: nat, last: nat, e: Event)
    requires k < 4 && NoneBetween(c, k + 1, 4) && Follow(c, trace) == Testing(k, stage, last)
    requires e.Finish? && FinishFits(c, TestAt(k), stage, e)
    ensures Follow(c, trace + [MeasurementEnd, e, Completed]) == Complete
  {
    var t1, t2 := trace + [MeasurementEnd], trace + [MeasurementEnd] + [e];
    FollowMore(c, trace, MeasurementEnd);
    assert Follow(c, t1) == Ending(k, stage);
    FollowMore(c, t1, e);
    assert Follow(c, t2) == Last;
    FollowMore(c, t2, Completed);
    assert t2 + [Completed] == trace + [MeasurementEnd, e, Completed];
  }

  /** What the finish of test k leads to: the next test, or the end of all. */
  lemma FollowFinish(c: Config, trace: seq<Event>, performed: set<Test>, k: nat, stage: nat, last: nat, e: Event)
    requires k < 4 && Enabled(c, k) && Follow(c, trace) == Testing(k, stage, last)
    requires e.Finish? && FinishFits(c, TestAt(k), stage, e) && performed == EnabledBelow(c, k + 1)
    ensures Follow(c, trace + Emitted(c, performed, e)) == if NoneBetween(c, k + 1, 4) then Complete else Idle(k + 1)
  {
    EnabledAll(c, k + 1);
    if NoneBetween(c, k + 1, 4) {
      FollowLast(c, trace, k, stage, last, e);
    } else {
      FollowMore(c, trace, e);
    }
  }

  lemma EndFinishing(c: Config, s: State, k: nat)
    requires s.seqr in {Preparing(k), Joining(k)} && s.timer.at.Finishing? && DoEnd(c, s) != s
    requires Measuring(c, s, k, Follow(c, s.trace)) && k < 4 && Enabled(c, k)
    requires FinishFits(c, TestAt(k), StageOf(s.sh.tick, s.timer.at), Handed(s))
    ensures During(c, DoEnd(c, s), k, Follow(c, DoEnd(c, s).trace))
  {
    EnabledMore(c, k);
    FollowFinish(c, s.trace, DoEnd(c, s).performed, k, Follow(c, s.trace).stage, Follow(c, s.trace).last, Handed(s));
  }

  lemma ConformsEnd(c: Config, zero: nat, s: State)
    requires Base(c, zero, s) && Conforms(c, s)
    ensures Conforms(c, DoEnd(c, s))
  {
    if DoEnd(c, s) != s && (s.seqr.Preparing? || s.seqr.Joining?) {
      if s.timer.at.Reporting? {
        ReportedFits(c, zero, s, s.seqr.k);
        EndReporting(c, s, s.seqr.k);
      } else {
        HandedFits(c, zero, s, s.seqr.k);
        EndFinishing(c, s, s.seqr.k);
      }
    }
  }

  // ----- every run

  lemma ConformsStep(c: Config, zero: nat, s: State, a: Action)
    requires Base(c, zero, s) && Conforms(c, s)
    ensures Conforms(c, Do(c, s, a))
  {
    match a
    case Decide => ConformsDecide(c, s);
    case Join => ConformsJoin(c, s);
    case TimerStep => ConformsTimer(c, zero, s);
    case CalcEnd => ConformsEnd(c, zero, s);
    case Work(i, m) => ConformsWork(c, s, i, m);
    case _ => ConformsOther(c, s, a);
  }

  lemma ConformsOther(c: Config, s: State, a: Action)
    requires Conforms(c, s) && !a.Decide? && !a.Join? && !a.TimerStep? && !a.CalcEnd? && !a.Work?
    ensures Conforms(c, Do(c, s, a))
  {
    ConformsKept(c, s, Do(c, s, a));
  }

  lemma {:induction false} ConformsAlways(c: Config, zero: nat, acts: seq<Action>)
    requires Sane(c)
    ensures Base(c, zero, After(c, zero, acts)) && Conforms(c, After(c, zero, acts))
  {
    BaseAlways(c, zero, acts);
    if acts != [] {
      var s, a := After(c, zero, acts[..|acts| - 1]), acts[|acts| - 1];
      ConformsAlways(c, zero, acts[..|acts| - 1]);
      ConformsStep(c, zero, s, a);
    } else {
      ConformsBegin(c, zero);
    }
  }

  lemma ConformsBegin(c: Config, zero: nat)
    ensures Conforms(c, Begin(c, zero))
  {
    EnabledMore(c, 0);
    EnabledAll(c, 0);
    if !c.rtt && !c.download && !c.upload {
      FollowMore(c, [], Error(1));
    }
  }

  /** The whole client refines the protocol: whatever the interleaving of the timer, the workers, the
      sequencer and the stops from outside, the callbacks of every run are accepted. */
  lemma RunsAreAccepted(c: Config, zero: nat, acts: seq<Action>)
    requires Sane(c)
    ensures Accepted(c, Trace(c, zero, acts))
    ensures Resting(Follow(c, Trace(c, zero, acts)))
  {
    ConformsAlways(c, zero, acts);
  }
}
