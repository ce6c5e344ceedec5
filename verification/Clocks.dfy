/** The clock of a running test: the duration in force, the time stamps, and the tick. */
module Clocks {
  import opened Protocol
  import opened Timer
  import opened Session
  import opened Invariants

  // ----- the duration

  /** A worker that has raised its barrier entry, or is about to. */
  predicate Underway(w: Worker) {
    w.synced || w.place.Looping? || w.place.Waiting?
  }

  /** The duration of the current test is set before any worker exists; the ping worker sets it before
      it enters its loop. */
  ghost predicate InForce(c: Config, s: State) {
    s.seqr.Joining? ==>
      var t := TestAt(s.seqr.k);
      t.RttTest? ==> (forall i | 0 <= i < |s.workers| && Underway(s.workers[i]) :: s.sh.duration == Duration(c, t))
  }

  ghost predicate InForceOther(c: Config, s: State) {
    s.seqr.Joining? && !TestAt(s.seqr.k).RttTest? ==> s.sh.duration == Duration(c, TestAt(s.seqr.k))
  }

  lemma PingDuration(c: Config, w: Worker, sh: Shared, now: nat, m: Move)
    requires Underway(w) ==> sh.duration == Duration(c, RttTest)
    ensures var p := WorkerMove(c, RttTest, w, sh, now, m);
            Underway(p.w) ==> p.sh.duration == Duration(c, RttTest)
  {
  }

  lemma InForceStep(c: Config, s: State, a: Action)
    requires InForce(c, s) && InForceOther(c, s)
    ensures InForce(c, Do(c, s, a)) && InForceOther(c, Do(c, s, a))
  {
    match a
    case Work(i, m) =>
      if s.seqr.Joining? && i < |s.workers| {
        WorkerFrame(c, CurrentTest(s), s.workers[i], s.sh, s.now, m);
        if CurrentTest(s).RttTest? {
          PingDuration(c, s.workers[i], s.sh, s.now, m);
        }
      }
    case TimerStep => TimerFrame(Result(s.sh, s.timer, []), s.now);
    case _ =>
  }

  /** No stale duration: past the barrier, the duration is the one of the current test. */
  lemma NoStaleDuration(c: Config, s: State)
    requires Sane(c) && Barriers(c, s) && InForce(c, s) && InForceOther(c, s)
    requires s.seqr.Joining? && Passed(s)
    ensures s.sh.duration == Duration(c, TestAt(s.seqr.k)) >= 1
  {
    assert s.workers[0].synced;
  }

  // ----- time stamps

  ghost predicate Stamped(s: State) {
    s.sh.tick.running && !s.timer.at.Stamp?
  }

  /** A worker took its start time when it registered. */
  ghost predicate Punctual(w: Worker, zero: nat, now: nat) {
    Underway(w) || w.place.Registered? ==> zero <= w.start <= now
  }

  ghost predicate Timed(zero: nat, s: State) {
    && zero <= s.now
    && (s.seqr.Joining? ==> forall i | 0 <= i < |s.workers| :: Punctual(s.workers[i], zero, s.now))
    && (s.seqr.Preparing? || s.seqr.Joining? ==> Elapsing(s.sh.tick, s.timer, s.now))
  }

  /** The measured time runs from the timer's time stamp, and is zero before it. */
  ghost predicate Elapsing(k: Ticking, t: Timer, now: nat) {
    if k.running && !t.at.Stamp? then t.time1 <= now && k.elapsed <= now - t.time1 else k.elapsed == 0
  }

  /** Every worker took its start time before the timer took its own. */
  ghost predicate StartedBefore(s: State) {
    s.seqr.Joining? && Stamped(s) ==> forall i | 0 <= i < |s.workers| :: s.workers[i].start <= s.timer.time1
  }

  lemma WorkerBorn(c: Config, t: Test, w: Worker, sh: Shared, zero: nat, now: nat, m: Move)
    requires zero <= now && Punctual(w, zero, now) && (w.place.Born? ==> !w.synced)
    ensures Punctual(WorkerMove(c, t, w, sh, now, m).w, zero, now)
    ensures w.synced ==> WorkerMove(c, t, w, sh, now, m).w.start == w.start
  {
  }

  lemma TimedWork(c: Config, zero: nat, s: State, i: nat, m: Move)
    requires Barriers(c, s) && Timed(zero, s) && StartedBefore(s)
    ensures Timed(zero, DoWork(c, s, i, m)) && StartedBefore(DoWork(c, s, i, m))
  {
    if s.seqr.Joining? && i < |s.workers| {
      WorkerFrame(c, CurrentTest(s), s.workers[i], s.sh, s.now, m);
      assert Entry(s.workers[i], s.sh.syncing);
      WorkerBorn(c, CurrentTest(s), s.workers[i], s.sh, zero, s.now, m);
    }
  }

  // ----- the tick

  /** The measured time has reached the duration. */
  ghost predicate Expired(c: Config, t: Test, k: Ticking) {
    k.running && k.elapsed >= 1000000 * Duration(c, t)
  }

  /** The tick counts the half seconds of the measured time and stays within the measurement. */
  ghost predicate TickFits(c: Config, t: Test, k: Ticking) {
    k.index * 500000 <= k.elapsed && k.index < 2 * Duration(c, t)
  }

  /** The points before the first poll. */
  predicate Early(at: Point) {
    at.TestUnreachable? || at.TestForbidden? || at.TestTls? || at.Barrier? || at.Delay? || at.Stamp?
  }

  /** The tick where the timer stands: zero until the first poll, and just taken at a report. */
  ghost predicate TickAt(k: Ticking, t: Timer, f: Flags) {
    && k.index == t.current
    && (Early(t.at) ==> t.current == 0)
    && (t.at.Head? ==> t.current == 0 || k.stopped || !f.running)
    && (!k.running ==> t.current == 0 && !t.at.Stamp? && !t.at.Poll? && !t.at.Reporting? && !t.at.Loop?)
    && (k.running ==> !t.at.Delay?)
    && (t.at.Reporting? ==> k.index == k.elapsed / 500000 && k.index > 0)
  }

  /** The points after the loops. */
  predicate Late(at: Point) {
    at.End? || at.Finishing? || at.Close? || at.Done?
  }

  /** Why the timer ended: a download or upload is only stopped by its clock, or by an error. */
  ghost predicate StopReason(c: Config, t: Test, k: Ticking, at: Point, f: Flags) {
    && (Measures(t) && k.stopped ==> f.hasError || Expired(c, t, k))
    && (Late(at) ==> k.stopped || !f.running)
    && (at.Finishing? && Measures(t) ==> Expired(c, t, k))
  }

  ghost predicate Ticks(c: Config, s: State) {
    && Flagged(s.sh.flags)
    && (s.seqr.Preparing? || s.seqr.Joining? ==>
          var t := TestAt(s.seqr.k);
          TickFits(c, t, s.sh.tick) && TickAt(s.sh.tick, s.timer, s.sh.flags)
          && StopReason(c, t, s.sh.tick, s.timer.at, s.sh.flags))
  }

  lemma ClockFits(c: Config, t: Test, k: Ticking, time1: nat, now: nat)
    requires TickFits(c, t, k) && k.running && time1 <= now && k.elapsed <= now - time1
    ensures var q := Clock(k, Duration(c, t), time1, now);
            && TickFits(c, t, q) && q.running && q.elapsed == now - time1 && k.index <= q.index
            && (q.stopped ==> k.stopped || Expired(c, t, q))
            && (q.index != k.index ==> q.index == q.elapsed / 500000)
  {
  }

  lemma ElapsingStep(r: Result, now: nat)
    requires Elapsing(r.sh.tick, r.t, now) && TickAt(r.sh.tick, r.t, r.sh.flags)
    ensures Elapsing(Step(r, now).sh.tick, Step(r, now).t, now)
    ensures Step(r, now).t.time1 == if r.t.at.Stamp? then now else r.t.time1
    ensures Step(r, now).t.at.Stamp? <==> r.t.at.Delay?
  {
    match r.t.at
    case Poll =>
    case _ =>
  }

  lemma TimedTimer(c: Config, zero: nat, s: State)
    requires Barriers(c, s) && Timed(zero, s) && StartedBefore(s) && Ticks(c, s)
    ensures Timed(zero, DoTimer(c, s)) && StartedBefore(DoTimer(c, s))
  {
    var r := Result(s.sh, s.timer, []);
    TimerFrame(r, s.now);
    if s.seqr.Preparing? || s.seqr.Joining? {
      ElapsingStep(r, s.now);
    }
    if s.seqr.Joining? && s.timer.at.Stamp? {
      forall i | 0 <= i < |s.workers| ensures s.workers[i].start <= s.now {
        assert Punctual(s.workers[i], zero, s.now);
      }
    }
  }

  lemma TimedEnd(c: Config, zero: nat, s: State)
    requires Timed(zero, s) && StartedBefore(s)
    ensures Timed(zero, DoEnd(c, s)) && StartedBefore(DoEnd(c, s))
  {
  }

  lemma TimedOther(c: Config, zero: nat, s: State, a: Action)
    requires Timed(zero, s) && StartedBefore(s) && !a.Work? && !a.TimerStep? && !a.CalcEnd?
    ensures Timed(zero, Do(c, s, a)) && StartedBefore(Do(c, s, a))
  {
    match a
    case Decide =>
    case Create(pids) =>
    case Join =>
    case _ =>
  }

  lemma TimedStep(c: Config, zero: nat, s: State, a: Action)
    requires Barriers(c, s) && Timed(zero, s) && StartedBefore(s) && Ticks(c, s)
    ensures Timed(zero, Do(c, s, a)) && StartedBefore(Do(c, s, a))
  {
    match a
    case Work(i, m) => TimedWork(c, zero, s, i, m);
    case TimerStep => TimedTimer(c, zero, s);
    case CalcEnd => TimedEnd(c, zero, s);
    case _ => TimedOther(c, zero, s, a);
  }

  lemma TickFitsStep(c: Config, t: Test, r: Result, now: nat)
    requires TickFits(c, t, r.sh.tick) && TickAt(r.sh.tick, r.t, r.sh.flags)
    requires r.t.at.Poll? ==>
               r.sh.duration == Duration(c, t) >= 1 && r.t.time1 <= now && r.sh.tick.elapsed <= now - r.t.time1
    ensures TickFits(c, t, Step(r, now).sh.tick)
  {
    match r.t.at
    case Poll => ClockFits(c, t, r.sh.tick, r.t.time1, now);
    case _ =>
  }

  lemma TickAtStep(c: Config, t: Test, r: Result, now: nat)
    requires TickFits(c, t, r.sh.tick) && TickAt(r.sh.tick, r.t, r.sh.flags)
    requires r.t.at.Poll? ==>
               r.sh.duration == Duration(c, t) >= 1 && r.t.time1 <= now && r.sh.tick.elapsed <= now - r.t.time1
    ensures TickAt(Step(r, now).sh.tick, Step(r, now).t, Step(r, now).sh.flags)
  {
    match r.t.at
    case Poll => ClockFits(c, t, r.sh.tick, r.t.time1, now);
    case _ =>
  }

  lemma StopReasonPoll(c: Config, t: Test, r: Result, now: nat)
    requires TickFits(c, t, r.sh.tick) && TickAt(r.sh.tick, r.t, r.sh.flags) && r.t.at.Poll?
    requires r.sh.duration == Duration(c, t) >= 1 && r.t.time1 <= now && r.sh.tick.elapsed <= now - r.t.time1
    requires StopReason(c, t, r.sh.tick, r.t.at, r.sh.flags) && Flagged(r.sh.flags)
    ensures StopReason(c, t, Step(r, now).sh.tick, Step(r, now).t.at, Step(r, now).sh.flags)
  {
    ClockFits(c, t, r.sh.tick, r.t.time1, now);
  }

  lemma StopReasonStep(c: Config, t: Test, r: Result, now: nat)
    requires !r.t.at.Poll? && TickAt(r.sh.tick, r.t, r.sh.flags)
    requires StopReason(c, t, r.sh.tick, r.t.at, r.sh.flags) && Flagged(r.sh.flags)
    ensures StopReason(c, t, Step(r, now).sh.tick, Step(r, now).t.at, Step(r, now).sh.flags)
  {
    match r.t.at
    case TestUnreachable =>
    case TestForbidden =>
    case TestTls =>
    case Head =>
    case End =>
    case _ =>
  }

  lemma TicksTimer(c: Config, zero: nat, s: State)
    requires Sane(c) && Barriers(c, s) && InForce(c, s) && InForceOther(c, s) && Timed(zero, s) && Ticks(c, s)
    ensures Ticks(c, DoTimer(c, s))
  {
    var r := Result(s.sh, s.timer, []);
    TimerFrame(r, s.now);
    if s.seqr.Preparing? || s.seqr.Joining? {
      if s.timer.at.Poll? {
        NoStaleDuration(c, s);
        StopReasonPoll(c, TestAt(s.seqr.k), r, s.now);
      } else {
        StopReasonStep(c, TestAt(s.seqr.k), r, s.now);
      }
      TickFitsStep(c, TestAt(s.seqr.k), r, s.now);
      TickAtStep(c, TestAt(s.seqr.k), r, s.now);
    }
  }

  lemma TicksWork(c: Config, s: State, i: nat, m: Move)
    requires Ticks(c, s)
    ensures Ticks(c, DoWork(c, s, i, m))
  {
    if s.seqr.Joining? && i < |s.workers| {
      WorkerFlags(c, CurrentTest(s), s.workers[i], s.sh, s.now, m);
      WorkerFrame(c, CurrentTest(s), s.workers[i], s.sh, s.now, m);
    }
  }

  lemma TicksOther(c: Config, s: State, a: Action)
    requires Sane(c) && Ticks(c, s) && !a.TimerStep? && !a.Work?
    ensures Ticks(c, Do(c, s, a))
  {
  }
}
