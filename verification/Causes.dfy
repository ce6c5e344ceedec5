/** Why errors are reported and why tests stop: every error callback of a run has its flag, and every flag its
    event; a check that meets its flag reports it; and what ends an IP test. */
module Causes {
  import opened Aggregator
  import opened Protocol
  import opened Timer
  import opened Session
  import opened Invariants
  import opened Clocks
  import opened Histories
  import opened Conformance

  // ----- the events behind the flags

  /** Some worker made this move. */
  ghost predicate Did(acts: seq<Action>, m: Move) {
    exists i: nat :: Work(i, m) in acts
  }

  /** Behind every error flag is the event of its name, and behind `hasError` one of those that set it. */
  ghost predicate Caused(acts: seq<Action>, f: Flags) {
    && (f.unreachable ==> Did(acts, Fail(Unreachable)))
    && (f.forbidden ==> Did(acts, Fail(Forbidden)))
    && (f.tlsMissing ==> Did(acts, Answer(ReportWithoutTls)))
    && (f.dropped ==> CalcRow in acts)
    && (f.hasError ==> f.unreachable || f.forbidden || f.tlsMissing || f.dropped
                       || Did(acts, Fail(Silent)) || Did(acts, Throw) || Abort in acts)
  }

  lemma DidMore(acts: seq<Action>, a: Action, m: Move)
    ensures Did(acts, m) ==> Did(acts + [a], m)
    ensures a.Work? && a.move == m ==> Did(acts + [a], m)
  {
    if Did(acts, m) {
      var i: nat :| Work(i, m) in acts;
      assert Work(i, m) in acts + [a];
    }
    assert a in acts + [a];
  }

  lemma CausedMore(acts: seq<Action>, a: Action, f: Flags)
    requires Caused(acts, f)
    ensures Caused(acts + [a], f)
  {
    DidMore(acts, a, Fail(Unreachable));
    DidMore(acts, a, Fail(Forbidden));
    DidMore(acts, a, Fail(Silent));
    DidMore(acts, a, Answer(ReportWithoutTls));
    DidMore(acts, a, Throw);
  }

  /** Which flags a move can set. */
  lemma MoveSets(c: Config, t: Test, w: Worker, sh: Shared, now: nat, m: Move)
    ensures var f, g := sh.flags, WorkerMove(c, t, w, sh, now, m).sh.flags;
            && (g.unreachable ==> f.unreachable || m == Fail(Unreachable))
            && (g.forbidden ==> f.forbidden || m == Fail(Forbidden))
            && (g.tlsMissing ==> f.tlsMissing || m == Answer(ReportWithoutTls))
            && (g.dropped ==> f.dropped)
            && (g.hasError ==> f.hasError || g.unreachable || g.forbidden || g.tlsMissing
                               || m == Fail(Silent) || m == Throw)
  {
    MoveFlags(c, t, w, sh, now, m);
  }

  /** What becomes of the flags by a move. */
  lemma MoveFlags(c: Config, t: Test, w: Worker, sh: Shared, now: nat, m: Move)
    ensures var f, g := sh.flags, WorkerMove(c, t, w, sh, now, m).sh.flags;
            || g == f
            || (m == Fail(Unreachable) && g == f.(unreachable := true, hasError := true))
            || (m == Fail(Forbidden) && g == f.(forbidden := true, hasError := true))
            || (m == Fail(Silent) && g == f.(hasError := true))
            || (m == Answer(ReportWithoutTls) && g == f.(tlsMissing := true, hasError := true))
            || (m == Throw && g == f.(hasError := true, running := false))
  {
    match m
    case Fail(flag) =>
    case Guard => AccountFlags(c, t, w, sh, 0, 0, []);
    case Receive(received, bits) => AccountFlags(c, t, w, sh, received, bits, []);
    case Acknowledge(received, records) => AccountFlags(c, t, w, sh, received, 0, records);
    case Answer(reply) =>
    case _ =>
  }

  lemma CausedWork(c: Config, acts: seq<Action>, s: State, i: nat, m: Move)
    requires Caused(acts, s.sh.flags)
    ensures Caused(acts + [Work(i, m)], DoWork(c, s, i, m).sh.flags)
  {
    CausedMore(acts, Work(i, m), s.sh.flags);
    DidMore(acts, Work(i, m), m);
    if s.seqr.Joining? && i < |s.workers| {
      MoveSets(c, CurrentTest(s), s.workers[i], s.sh, s.now, m);
    }
  }

  lemma CausedOther(c: Config, acts: seq<Action>, s: State, a: Action)
    requires Caused(acts, s.sh.flags) && !a.Work?
    ensures Caused(acts + [a], Do(c, s, a).sh.flags)
  {
    CausedMore(acts, a, s.sh.flags);
    assert a in acts + [a];
    if a.TimerStep? {
      TimerFrame(Result(s.sh, s.timer, []), s.now);
    }
  }

  // ----- the error callbacks

  /** The flag of an error code; without an enabled test, the client reports error 1. */
  predicate Flag(c: Config, f: Flags, code: nat) {
    match code
    case 1 => !c.rtt && !c.download && !c.upload
    case 4 => f.forbidden
    case 7 => f.unreachable
    case 8 => f.tlsMissing
    case 9 => f.dropped
    case _ => false
  }

  ghost predicate Reasoned(c: Config, s: State) {
    forall e | e in s.trace && e.Error? :: Flag(c, s.sh.flags, e.code)
  }

  lemma FlagsStay(c: Config, s: State, a: Action)
    ensures var f, g := s.sh.flags, Do(c, s, a).sh.flags;
            && (f.unreachable ==> g.unreachable) && (f.forbidden ==> g.forbidden) && (f.tlsMissing ==> g.tlsMissing)
            && (f.dropped ==> g.dropped)
  {
    match a
    case Work(i, m) =>
      if s.seqr.Joining? && i < |s.workers| {
        MoveFlags(c, CurrentTest(s), s.workers[i], s.sh, s.now, m);
      }
    case TimerStep => TimerFrame(Result(s.sh, s.timer, []), s.now);
    case _ =>
  }

  /** The timer only reports an error for its flag. */
  lemma TimerReasons(c: Config, sh: Shared, t: Timer, now: nat)
    ensures var calls := Step(Result(sh, t, []), now).calls;
            calls != [] && calls[0].CallError? ==> Flag(c, sh.flags, calls[0].code)
  {
  }

  lemma ReasonedTimer(c: Config, s: State)
    requires Reasoned(c, s)
    ensures Reasoned(c, DoTimer(c, s))
  {
    var q := DoTimer(c, s);
    TimerFrame(Result(s.sh, s.timer, []), s.now);
    if q.trace != s.trace {
      TimerReasons(c, s.sh, s.timer, s.now);
      var call := Step(Result(s.sh, s.timer, []), s.now).calls[0];
      forall e | e in q.trace && e.Error? ensures Flag(c, q.sh.flags, e.code) {
        assert e in s.trace || e == EventOf(call);
      }
    }
  }

  lemma ReasonedStep(c: Config, s: State, a: Action)
    requires Reasoned(c, s)
    ensures Reasoned(c, Do(c, s, a))
  {
    FlagsStay(c, s, a);
    match a
    case TimerStep => ReasonedTimer(c, s);
    case CalcEnd => ReasonedEnd(c, s);
    case _ =>
  }

  lemma ReasonedEnd(c: Config, s: State)
    requires Reasoned(c, s)
    ensures Reasoned(c, DoEnd(c, s))
  {
    var q := DoEnd(c, s);
    if q != s {
      forall e | e in q.trace && e.Error? ensures e in s.trace {
      }
    }
  }

  lemma {:induction false} ReasonedAlways(c: Config, zero: nat, acts: seq<Action>)
    ensures Reasoned(c, After(c, zero, acts))
  {
    if acts != [] {
      ReasonedAlways(c, zero, acts[..|acts| - 1]);
      ReasonedStep(c, After(c, zero, acts[..|acts| - 1]), acts[|acts| - 1]);
    }
  }

  lemma CausedStep(c: Config, acts: seq<Action>, s: State, a: Action)
    requires Caused(acts, s.sh.flags)
    ensures Caused(acts + [a], Do(c, s, a).sh.flags)
  {
    if a.Work? {
      CausedWork(c, acts, s, a.i, a.move);
    } else {
      CausedOther(c, acts, s, a);
    }
  }

  lemma {:induction false} CausedAlways(c: Config, zero: nat, acts: seq<Action>)
    ensures Caused(acts, After(c, zero, acts).sh.flags)
  {
    if acts != [] {
      var init, a := acts[..|acts| - 1], acts[|acts| - 1];
      assert init + [a] == acts;
      CausedAlways(c, zero, init);
      CausedStep(c, init, After(c, zero, init), a);
    }
  }

  /** In every run, an error callback tells what has happened: 7 that a worker met an unreachable peer, 4 that a
      server refused one, 8 that the IP test got no TLS parameters, 9 that a row of a report met no stream
      with data, and 1 that no test is enabled. There are no others. */
  lemma ErrorMeans(c: Config, zero: nat, acts: seq<Action>, code: nat)
    requires Error(code) in Trace(c, zero, acts)
    ensures var f := After(c, zero, acts).sh.flags;
            match code
            case 1 => !c.rtt && !c.download && !c.upload
            case 4 => f.forbidden && Did(acts, Fail(Forbidden))
            case 7 => f.unreachable && Did(acts, Fail(Unreachable))
            case 8 => f.tlsMissing && Did(acts, Answer(ReportWithoutTls))
            case 9 => f.dropped && CalcRow in acts
            case _ => false
  {
    CausedAlways(c, zero, acts);
    ReasonedAlways(c, zero, acts);
    assert Error(code) in Trace(c, zero, acts) && Error(code).Error?;
  }

  // ----- a flag is reported

  /** The timer stands at the check for this error, and its flag is set and has not been reported yet. */
  predicate Checks(f: Flags, t: Timer, code: nat) {
    match t.at
    case TestUnreachable => code == 7 && f.unreachable && !t.signaled.unreachable
    case TestForbidden => code == 4 && f.forbidden && !t.signaled.forbidden
    case TestTls => code == 8 && f.tlsMissing && !t.signaled.tls
    case Poll => code == 9 && f.dropped && !t.signaled.dropped
    case _ => false
  }

  /** While a test is measured, not all tests have been performed. */
  lemma NotAllPerformed(c: Config, s: State, code: nat)
    requires Conforms(c, s) && Attended(s) && Checks(s.sh.flags, s.timer, code)
    ensures s.performed != EnabledBelow(c, 4)
  {
    EnabledAll(c, s.seqr.k);
  }

  lemma CheckFails(sh: Shared, t: Timer, now: nat, code: nat)
    requires Checks(sh.flags, t, code)
    ensures var r := Step(Result(sh, t, []), now); r.calls == [CallError(code)] && r.sh.tick.stopped
  {
  }

  /** In every run, a check of the timer that meets its flag, not yet reported, reports exactly the error of
      that flag and stops the test. */
  lemma CheckReports(c: Config, zero: nat, acts: seq<Action>, code: nat)
    requires Sane(c) && Checks(After(c, zero, acts).sh.flags, After(c, zero, acts).timer, code)
    ensures Trace(c, zero, acts + [TimerStep]) == Trace(c, zero, acts) + [Error(code)]
    ensures After(c, zero, acts + [TimerStep]).sh.tick.stopped
  {
    var s := After(c, zero, acts);
    ConformsAlways(c, zero, acts);
    NotAllPerformed(c, s, code);
    CheckFails(s.sh, s.timer, s.now, code);
    assert (acts + [TimerStep])[..|acts|] == acts;
    assert After(c, zero, acts + [TimerStep]) == DoTimer(c, s);
  }

  // ----- what ends an IP test

  /** An IP test that has been stopped was stopped by its clock, by an error, or by its answer. */
  ghost predicate IpStopped(c: Config, s: State) {
    (s.seqr == Preparing(0) || s.seqr == Joining(0)) && s.sh.tick.stopped ==>
      s.sh.flags.hasError || Expired(c, IpTest, s.sh.tick) || (s.seqr == Joining(0) && Answered(s.workers))
  }

  ghost predicate AnsweredBy(acts: seq<Action>, s: State) {
    s.seqr.Joining? && Answered(s.workers) ==> Did(acts, Answer(FullReport)) || Did(acts, Answer(ReportWithoutTls))
  }

  lemma AnsweredMove(c: Config, t: Test, w: Worker, sh: Shared, now: nat, m: Move)
    ensures var p := WorkerMove(c, t, w, sh, now, m);
            && (p.w.answered ==> w.answered || m == Answer(FullReport) || m == Answer(ReportWithoutTls))
            && (w.answered && w.place.Ended? ==> p.w.answered && p.w.place.Ended?)
            && ((w.answered ==> w.place.Ended?) ==> p.w.answered ==> p.w.place.Ended?)
            && (p.sh.tick == sh.tick || t.RttTest?)
  {
    WorkerFrame(c, t, w, sh, now, m);
    match m
    case Fail(flag) =>
    case Guard =>
    case Receive(received, bits) =>
    case Acknowledge(received, records) =>
    case Answer(reply) =>
    case _ =>
  }

  /** A worker that holds its answer has left its loop. */
  ghost predicate AnsweredEnded(s: State) {
    s.seqr.Joining? ==> forall i | 0 <= i < |s.workers| :: s.workers[i].answered ==> s.workers[i].place.Ended?
  }

  lemma AnsweredWork(c: Config, acts: seq<Action>, s: State, i: nat, m: Move)
    requires AnsweredBy(acts, s) && AnsweredEnded(s)
    ensures AnsweredBy(acts + [Work(i, m)], DoWork(c, s, i, m)) && AnsweredEnded(DoWork(c, s, i, m))
    ensures s.seqr.Joining? && Answered(s.workers) ==> Answered(DoWork(c, s, i, m).workers)
  {
    DidMore(acts, Work(i, m), Answer(FullReport));
    DidMore(acts, Work(i, m), Answer(ReportWithoutTls));
    var q := DoWork(c, s, i, m);
    if s.seqr.Joining? && i < |s.workers| {
      AnsweredMove(c, CurrentTest(s), s.workers[i], s.sh, s.now, m);
      if Answered(s.workers) {
        var j :| 0 <= j < |s.workers| && s.workers[j].answered;
        assert q.workers[j].answered;
      } else if Answered(q.workers) {
        var j :| 0 <= j < |q.workers| && q.workers[j].answered;
        assert j == i;
      }
    }
  }

  lemma IpTimer(c: Config, s: State, zero: nat)
    requires Base(c, zero, s) && IpStopped(c, s)
    ensures IpStopped(c, DoTimer(c, s))
  {
    TimerFrame(Result(s.sh, s.timer, []), s.now);
    if (s.seqr == Preparing(0) || s.seqr == Joining(0)) && DoTimer(c, s).sh.tick.stopped {
      if s.sh.tick.stopped && Expired(c, IpTest, s.sh.tick) {
        ElapsedRises(c, zero, s);
      } else if !s.sh.tick.stopped {
        IpStops(c, zero, s);
      }
    }
  }

  lemma ElapsedRises(c: Config, zero: nat, s: State)
    requires Base(c, zero, s) && (s.seqr == Preparing(0) || s.seqr == Joining(0)) && Expired(c, IpTest, s.sh.tick)
    ensures Expired(c, IpTest, DoTimer(c, s).sh.tick)
  {
  }

  /** The timer stops the test by its clock or for an error. */
  lemma IpStops(c: Config, zero: nat, s: State)
    requires Base(c, zero, s) && (s.seqr == Preparing(0) || s.seqr == Joining(0))
    requires !s.sh.tick.stopped && DoTimer(c, s).sh.tick.stopped
    ensures s.sh.flags.hasError || Expired(c, IpTest, DoTimer(c, s).sh.tick)
  {
    if s.timer.at.Poll? {
      NoStaleDuration(c, s);
      ClockFits(c, IpTest, s.sh.tick, s.timer.time1, s.now);
    }
  }

  lemma IpStep(c: Config, zero: nat, acts: seq<Action>, s: State, a: Action)
    requires Base(c, zero, s) && IpStopped(c, s) && AnsweredBy(acts, s) && AnsweredEnded(s)
    ensures IpStopped(c, Do(c, s, a)) && AnsweredBy(acts + [a], Do(c, s, a)) && AnsweredEnded(Do(c, s, a))
  {
    DidMore(acts, a, Answer(FullReport));
    DidMore(acts, a, Answer(ReportWithoutTls));
    match a
    case Work(i, m) =>
      AnsweredWork(c, acts, s, i, m);
      if s.seqr.Joining? && i < |s.workers| {
        AnsweredMove(c, CurrentTest(s), s.workers[i], s.sh, s.now, m);
        WorkerFlags(c, CurrentTest(s), s.workers[i], s.sh, s.now, m);
      }
    case TimerStep =>
      IpTimer(c, s, zero);
      TimerFrame(Result(s.sh, s.timer, []), s.now);
    case _ => IpOther(c, acts, s, a);
  }

  lemma IpOther(c: Config, acts: seq<Action>, s: State, a: Action)
    requires Barriers(c, s) && IpStopped(c, s) && AnsweredBy(acts, s) && AnsweredEnded(s)
    requires !a.Work? && !a.TimerStep?
    requires Did(acts, Answer(FullReport)) ==> Did(acts + [a], Answer(FullReport))
    requires Did(acts, Answer(ReportWithoutTls)) ==> Did(acts + [a], Answer(ReportWithoutTls))
    ensures IpStopped(c, Do(c, s, a)) && AnsweredBy(acts + [a], Do(c, s, a)) && AnsweredEnded(Do(c, s, a))
  {
  }

  lemma {:induction false} IpAlways(c: Config, zero: nat, acts: seq<Action>)
    requires Sane(c)
    ensures var s := After(c, zero, acts); IpStopped(c, s) && AnsweredBy(acts, s) && AnsweredEnded(s)
  {
    if acts != [] {
      var init, a := acts[..|acts| - 1], acts[|acts| - 1];
      assert init + [a] == acts;
      IpAlways(c, zero, init);
      BaseAlways(c, zero, init);
      IpStep(c, zero, init, After(c, zero, init), a);
    }
  }

  /** In every run, an IP test that has stopped without an error has its answer, or a minute has passed. */
  lemma IpStopsFor(c: Config, zero: nat, acts: seq<Action>)
    requires Sane(c)
    requires var s := After(c, zero, acts); s.seqr == Joining(0) && s.sh.tick.stopped && !s.sh.flags.hasError
    ensures var s := After(c, zero, acts);
            || (s.sh.tick.running && s.sh.tick.elapsed >= 60000000)
            || (Answered(s.workers) && (Did(acts, Answer(FullReport)) || Did(acts, Answer(ReportWithoutTls))))
  {
    IpAlways(c, zero, acts);
  }

  lemma AnswerCloses(c: Config, s: State)
    requires s.seqr == Joining(0) && InCallback(s) && s.pending.Pending? && !s.pending.open && Answered(s.workers)
    requires |s.pending.rows| == s.pending.maxSteps
    ensures var q := DoEnd(c, s); q.sh.tick.stopped && !InCallback(q) && |q.trace| > |s.trace|
  {
  }

  /** The callback of an IP test reads no rows. */
  lemma IpReadsNothing(c: Config, zero: nat, s: State)
    requires Base(c, zero, s) && s.seqr == Joining(0) && s.pending.Pending?
    ensures s.pending.rows == [] && s.pending.maxSteps == 0 && !s.pending.open
  {
  }

  /** In every run, the callback of an IP test that has its answer stops the test when it returns. */
  lemma AnswerStops(c: Config, zero: nat, acts: seq<Action>)
    requires Sane(c)
    requires var s := After(c, zero, acts);
             && s.seqr == Joining(0) && InCallback(s) && s.pending.Pending? && Answered(s.workers)
    ensures var q := After(c, zero, acts + [CalcEnd]);
            q.sh.tick.stopped && !InCallback(q) && |q.trace| > |Trace(c, zero, acts)|
  {
    var s := After(c, zero, acts);
    assert s.pending.rows == [] && s.pending.maxSteps == 0 && !s.pending.open by {
      BaseAlways(c, zero, acts);
      IpReadsNothing(c, zero, s);
    }
    AnswerCloses(c, s);
    assert (acts + [CalcEnd])[..|acts|] == acts;
  }

  // ----- what stops the client

  /** Some worker threw, before it had ended. */
  ghost predicate Threw(c: Config, zero: nat, acts: seq<Action>) {
    acts != [] &&
    var init, a := acts[..|acts| - 1], acts[|acts| - 1];
    var s := After(c, zero, init);
    Threw(c, zero, init)
    || (a.Work? && a.move.Throw? && s.seqr.Joining? && a.i < |s.workers| && !s.workers[a.i].place.Ended?)
  }

  /** The client runs unless something has stopped it, and an abort or a throwing worker is an error. */
  ghost predicate RunsUnless(c: Config, zero: nat, acts: seq<Action>, s: State) {
    && (s.sh.flags.running
        <==> (c.rtt || c.download || c.upload) && Stop !in acts && Abort !in acts && !Threw(c, zero, acts)
             && !s.seqr.Over?)
    && (Abort in acts || Threw(c, zero, acts) ==> s.sh.flags.hasError)
  }

  lemma ThrowIs(c: Config, t: Test, w: Worker, sh: Shared, now: nat, m: Move)
    ensures var p := WorkerMove(c, t, w, sh, now, m);
            && p.sh.flags.running == (sh.flags.running && !(m.Throw? && !w.place.Ended?))
            && (p.sh.flags.hasError <== sh.flags.hasError || (m.Throw? && !w.place.Ended?))
  {
    MoveFlags(c, t, w, sh, now, m);
  }

  lemma RunsWork(c: Config, zero: nat, init: seq<Action>, i: nat, m: Move)
    requires RunsUnless(c, zero, init, After(c, zero, init))
    ensures RunsUnless(c, zero, init + [Work(i, m)], DoWork(c, After(c, zero, init), i, m))
  {
    var s := After(c, zero, init);
    assert (init + [Work(i, m)])[..|init|] == init;
    if s.seqr.Joining? && i < |s.workers| {
      ThrowIs(c, CurrentTest(s), s.workers[i], s.sh, s.now, m);
    }
  }

  /** The caller stops or aborts the client. */
  lemma RunsHalted(c: Config, zero: nat, init: seq<Action>, a: Action)
    requires RunsUnless(c, zero, init, After(c, zero, init)) && (a.Stop? || a.Abort?)
    ensures RunsUnless(c, zero, init + [a], Do(c, After(c, zero, init), a))
  {
    assert (init + [a])[..|init|] == init && a in init + [a];
  }

  lemma RunsOther(c: Config, zero: nat, init: seq<Action>, a: Action)
    requires RunsUnless(c, zero, init, After(c, zero, init)) && !a.Work? && !a.Stop? && !a.Abort?
    ensures RunsUnless(c, zero, init + [a], Do(c, After(c, zero, init), a))
  {
    assert (init + [a])[..|init|] == init && a in init + [a];
    if a.TimerStep? {
      TimerFrame(Result(After(c, zero, init).sh, After(c, zero, init).timer, []), After(c, zero, init).now);
    }
  }

  /** In every run, the client runs unless no test was enabled, it was stopped or aborted, a worker threw, or all
      tests are over; and an abort or a throwing worker flags an error. */
  lemma {:induction false} StopsFor(c: Config, zero: nat, acts: seq<Action>)
    ensures RunsUnless(c, zero, acts, After(c, zero, acts))
  {
    if acts != [] {
      var init, a := acts[..|acts| - 1], acts[|acts| - 1];
      assert init + [a] == acts;
      StopsFor(c, zero, init);
      if a.Work? {
        RunsWork(c, zero, init, a.i, a.move);
      } else if a.Stop? || a.Abort? {
        RunsHalted(c, zero, init, a);
      } else {
        RunsOther(c, zero, init, a);
      }
    }
  }
}
