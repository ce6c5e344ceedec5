/** What the times of an entry are measured from: the moments of the run at which its worker registered, at
    which the clock was read, and at which the client started. */
module Elapsed {
  import opened Aggregator
  import opened Protocol
  import opened Timer
  import opened Session
  import opened Invariants
  import opened Clocks
  import opened Histories
  import opened Times
  import opened Witnesses
  import opened Reports
  import Guarantees

  // ----- when a worker registered

  /** Worker i of test k registered with the step number p, when the clock showed `start`. */
  ghost predicate RegisteredAt(c: Config, zero: nat, acts: seq<Action>, k: nat, i: nat, start: nat, p: nat) {
    && p < |acts| && acts[p] == Work(i, Register)
    && After(c, zero, acts[..p]).seqr == Joining(k) && After(c, zero, acts[..p]).now == start
  }

  ghost predicate Registration(c: Config, zero: nat, acts: seq<Action>, k: nat, i: nat, start: nat) {
    exists p: nat :: RegisteredAt(c, zero, acts, k, i, start, p)
  }

  /** Past its registration. */
  predicate Enrolled(w: Worker) {
    w.place.Registered? || Underway(w)
  }

  ghost predicate Enrolments(c: Config, zero: nat, acts: seq<Action>, s: State) {
    s.seqr.Joining? ==>
      forall i | 0 <= i < |s.workers| && Enrolled(s.workers[i]) ::
        Registration(c, zero, acts, s.seqr.k, i, s.workers[i].start)
  }

  lemma RegistrationLater(c: Config, zero: nat, acts: seq<Action>, a: Action, k: nat, i: nat, start: nat)
    requires Registration(c, zero, acts, k, i, start)
    ensures Registration(c, zero, acts + [a], k, i, start)
  {
    var p: nat :| RegisteredAt(c, zero, acts, k, i, start, p);
    assert (acts + [a])[..p] == acts[..p];
    assert RegisteredAt(c, zero, acts + [a], k, i, start, p);
  }

  /** A worker registers once, and keeps its start time. */
  lemma EnrolMove(c: Config, t: Test, w: Worker, sh: Shared, now: nat, m: Move)
    requires w.place.Born? ==> !w.synced
    ensures var p := WorkerMove(c, t, w, sh, now, m);
            Enrolled(p.w) ==> if Enrolled(w) then p.w.start == w.start else m == Register && p.w.start == now
  {
    match m
    case Fail(flag) =>
    case Guard =>
    case Receive(received, bits) =>
    case Acknowledge(received, records) =>
    case Answer(reply) =>
    case _ =>
  }

  lemma EnrolWork(c: Config, zero: nat, acts: seq<Action>, i: nat, m: Move)
    requires var s := After(c, zero, acts);
             Barriers(c, s) && Enrolments(c, zero, acts, s) && s.seqr.Joining? && i < |s.workers|
    ensures Enrolments(c, zero, acts + [Work(i, m)], DoWork(c, After(c, zero, acts), i, m))
  {
    var s, a := After(c, zero, acts), Work(i, m);
    var q := DoWork(c, s, i, m);
    EnrolMove(c, CurrentTest(s), s.workers[i], s.sh, s.now, m);
    forall j | 0 <= j < |q.workers| && Enrolled(q.workers[j])
      ensures Registration(c, zero, acts + [a], s.seqr.k, j, q.workers[j].start)
    {
      assert Entry(s.workers[j], s.sh.syncing);
      if Enrolled(s.workers[j]) {
        RegistrationLater(c, zero, acts, a, s.seqr.k, j, s.workers[j].start);
      } else {
        assert (acts + [a])[..|acts|] == acts;
        assert RegisteredAt(c, zero, acts + [a], s.seqr.k, j, q.workers[j].start, |acts|);
      }
    }
  }

  lemma EnrolOther(c: Config, zero: nat, acts: seq<Action>, a: Action)
    requires Enrolments(c, zero, acts, After(c, zero, acts)) && !a.Work?
    ensures Enrolments(c, zero, acts + [a], Do(c, After(c, zero, acts), a))
  {
    var s := After(c, zero, acts);
    var q := Do(c, s, a);
    if q.seqr.Joining? && s.seqr.Joining? {
      forall i | 0 <= i < |q.workers| && Enrolled(q.workers[i])
        ensures Registration(c, zero, acts + [a], q.seqr.k, i, q.workers[i].start)
      {
        RegistrationLater(c, zero, acts, a, s.seqr.k, i, s.workers[i].start);
      }
    }
  }

  lemma {:induction false} EnrolAlways(c: Config, zero: nat, acts: seq<Action>)
    requires Sane(c)
    ensures Enrolments(c, zero, acts, After(c, zero, acts))
  {
    if acts != [] {
      var init, a := acts[..|acts| - 1], acts[|acts| - 1];
      var s := After(c, zero, init);
      assert init + [a] == acts;
      EnrolAlways(c, zero, init);
      BaseAlways(c, zero, init);
      if a.Work? && s.seqr.Joining? && a.i < |s.workers| {
        EnrolWork(c, zero, init, a.i, a.move);
      } else if a.Work? {
        EnrolStill(c, zero, init, a);
      } else {
        EnrolOther(c, zero, init, a);
      }
    }
  }

  lemma EnrolStill(c: Config, zero: nat, acts: seq<Action>, a: Action)
    requires Enrolments(c, zero, acts, After(c, zero, acts))
    requires Do(c, After(c, zero, acts), a) == After(c, zero, acts)
    ensures Enrolments(c, zero, acts + [a], After(c, zero, acts))
  {
    var s := After(c, zero, acts);
    if s.seqr.Joining? {
      forall i | 0 <= i < |s.workers| && Enrolled(s.workers[i])
        ensures Registration(c, zero, acts + [a], s.seqr.k, i, s.workers[i].start)
      {
        RegistrationLater(c, zero, acts, a, s.seqr.k, i, s.workers[i].start);
      }
    }
  }

  // ----- the times of every entry

  /** The entry of stream k in row i, which was read when the clock showed `now`, of a stream that registered
      when it showed `start`, in a client that started at `zero`: both elapsed times run up to the reading,
      less the half seconds of the rows that follow. */
  ghost predicate RunsFrom(d: Cell, rows: nat, i: nat, k: nat, zero: nat, start: nat, now: nat) {
    && d.step == i + 1 && d.stream == k && d.relativeNs == 500000000 * (i + 1)
    && d.totalNs + 500000000 * (rows - 1 - i) == 1000 * (now - start)
    && d.sinceStartNs + 500000000 * (rows - 1 - i) == 1000 * (now - zero)
  }

  /** The entries of a report or final result, as they are handed over. */
  ghost function EntriesOf(zero: nat, e: Event): seq<Cell>
    requires e.Report? || e.Finish?
  {
    Rows(Frame(KindOf(e.test), |e.readings|, zero * 1000), e.readings, |e.readings|)
  }

  lemma ShownRunsFrom(zero: nat, kind: Kind, rs: seq<Reading>, i: nat, k: nat)
    requires i < |rs| && k < |rs[i].snaps|
    ensures RunsFrom(Shown(zero, kind, rs, i, k), |rs|, i, k, zero, rs[i].snaps[k].startTime, rs[i].now)
  {
    CellDated(Frame(kind, |rs|, zero * 1000), rs[i], i + 1, k);
  }

  /** The moments of a reading: the worker registered with step p of the run, the clock was read at moment m,
      and the stream at moment n, all in one test. */
  ghost predicate Moments(c: Config, zero: nat, acts: seq<Action>, t: Test, k: nat, r: Reading, p: nat, m: nat, n: nat)
  {
    && p <= n && m <= n <= |acts| && k < |r.snaps|
    && ReadFrom(After(c, zero, acts[..n]), t, k, r.snaps[k])
    && After(c, zero, acts[..m]).now == r.now && InCallback(After(c, zero, acts[..m]))
    && RegisteredAt(c, zero, acts, Position(t), k, After(c, zero, acts[..n]).workers[k].start, p)
  }

  lemma ReadEnrolled(c: Config, zero: nat, s: State, t: Test, k: nat, snap: Snapshot)
    requires Base(c, zero, s) && ReadFrom(s, t, k, snap)
    ensures s.seqr == Joining(Position(t)) && Enrolled(s.workers[k]) && snap.startTime == s.workers[k].start
  {
    assert s.workers[k].synced;
  }

  lemma ReadMoments(c: Config, zero: nat, acts: seq<Action>, t: Test, k: nat, r: Reading, mark: Mark, n: nat)
    returns (p: nat, m: nat)
    requires Sane(c) && ReadAt(c, zero, acts, t, k, r, mark, n)
    ensures Moments(c, zero, acts, t, k, r, p, m, n)
    ensures r.snaps[k].startTime == After(c, zero, acts[..n]).workers[k].start
  {
    var s := After(c, zero, acts[..n]);
    m :| m <= n && ClockAt(c, zero, acts, r.now, mark, m);
    BaseAlways(c, zero, acts[..n]);
    ReadEnrolled(c, zero, s, t, k, r.snaps[k]);
    p := EnrolledAt(c, zero, acts, n, k);
  }

  lemma EnrolledAt(c: Config, zero: nat, acts: seq<Action>, n: nat, k: nat) returns (p: nat)
    requires Sane(c) && n <= |acts| && After(c, zero, acts[..n]).seqr.Joining?
    requires var s := After(c, zero, acts[..n]); k < |s.workers| && Enrolled(s.workers[k])
    ensures var s := After(c, zero, acts[..n]);
            p <= n && RegisteredAt(c, zero, acts, s.seqr.k, k, s.workers[k].start, p)
  {
    var s := After(c, zero, acts[..n]);
    EnrolAlways(c, zero, acts[..n]);
    assert Registration(c, zero, acts[..n], s.seqr.k, k, s.workers[k].start);
    p :| RegisteredAt(c, zero, acts[..n], s.seqr.k, k, s.workers[k].start, p);
    assert acts[..n][..p] == acts[..p];
  }

  /** The entry of stream k in row i of what is handed over. */
  lemma EntryRunsFrom(c: Config, zero: nat, acts: seq<Action>, j: nat, i: nat, k: nat)
    requires Sane(c) && j < |Trace(c, zero, acts)|
    requires Trace(c, zero, acts)[j].Report? || Trace(c, zero, acts)[j].Finish?
    requires i < |Trace(c, zero, acts)[j].readings| && k < Instances(c, Trace(c, zero, acts)[j].test)
    ensures var e, at := Trace(c, zero, acts)[j], i * Instances(c, Trace(c, zero, acts)[j].test) + k;
            && 0 <= at < |EntriesOf(zero, e)| && k < |e.readings[i].snaps|
            && RunsFrom(EntriesOf(zero, e)[at], |e.readings|, i, k, zero, e.readings[i].snaps[k].startTime,
                        e.readings[i].now)
  {
    var e := Trace(c, zero, acts)[j];
    Guarantees.ReportEntries(c, zero, acts, j, i + 1, k);
    ShownRunsFrom(zero, KindOf(e.test), e.readings, i, k);
  }

  /** In every run, every entry of every report and final result: the elapsed time of the stream is that since
      the moment its worker registered, and that of the measurement is that since the client started, both
      up to the moment the clock was read for the row. */
  lemma EntryTimes(c: Config, zero: nat, acts: seq<Action>, j: nat, i: nat, k: nat) returns (p: nat, m: nat, n: nat)
    requires Sane(c) && j < |Trace(c, zero, acts)|
    requires Trace(c, zero, acts)[j].Report? || Trace(c, zero, acts)[j].Finish?
    requires i < |Trace(c, zero, acts)[j].readings| && k < Instances(c, Trace(c, zero, acts)[j].test)
    ensures var e, streams := Trace(c, zero, acts)[j], Instances(c, Trace(c, zero, acts)[j].test);
            && Moments(c, zero, acts, e.test, k, e.readings[i], p, m, n)
            && 0 <= i * streams + k < |EntriesOf(zero, e)|
            && RunsFrom(EntriesOf(zero, e)[i * streams + k], |e.readings|, i, k, zero,
                        After(c, zero, acts[..p]).now, After(c, zero, acts[..m]).now)
  {
    var e := Trace(c, zero, acts)[j];
    var mark, ns := EntriesWitnessed(c, zero, acts, j, k);
    n := ns[i];
    assert ReadAt(c, zero, acts, e.test, k, e.readings[i], mark, n);
    p, m := ReadMoments(c, zero, acts, e.test, k, e.readings[i], mark, n);
    EntryRunsFrom(c, zero, acts, j, i, k);
  }

  /** In every run, two streams of one row: their elapsed times differ by what lies between their
      registrations. */
  lemma StreamsDiffer(c: Config, zero: nat, acts: seq<Action>, j: nat, i: nat, k: nat, l: nat) returns (p: nat, q: nat)
    requires Sane(c) && j < |Trace(c, zero, acts)|
    requires Trace(c, zero, acts)[j].Report? || Trace(c, zero, acts)[j].Finish?
    requires var streams := Instances(c, Trace(c, zero, acts)[j].test); k < streams && l < streams
    requires i < |Trace(c, zero, acts)[j].readings|
    ensures p < |acts| && acts[p] == Work(k, Register) && q < |acts| && acts[q] == Work(l, Register)
    ensures var e, streams := Trace(c, zero, acts)[j], Instances(c, Trace(c, zero, acts)[j].test);
            && 0 <= i * streams + k < |EntriesOf(zero, e)| && 0 <= i * streams + l < |EntriesOf(zero, e)|
            && EntriesOf(zero, e)[i * streams + k].totalNs - EntriesOf(zero, e)[i * streams + l].totalNs
               == 1000 * (After(c, zero, acts[..q]).now - After(c, zero, acts[..p]).now)
  {
    var m, n;
    p, m, n := EntryTimes(c, zero, acts, j, i, k);
    q, m, n := EntryTimes(c, zero, acts, j, i, l);
  }

  // ----- the start-up delay

  /** What the timer waits after the barrier: nothing for the IP test, a second for the ping test, three
      seconds for a download or upload. */
  predicate StartUp(k: nat, delay: nat) {
    delay == if k == 0 then 0 else if k == 1 then 1000000 else 3000000
  }

  /** At this moment of test k the timer found all workers ready. */
  ghost predicate BarrierAt(c: Config, zero: nat, acts: seq<Action>, k: nat, p: nat, now: int) {
    && p <= |acts| && After(c, zero, acts[..p]).seqr == Joining(k) && After(c, zero, acts[..p]).timer.at.Barrier?
    && After(c, zero, acts[..p]).now == now
    && |Ready(After(c, zero, acts[..p]).sh.syncing)| == Instances(c, TestAt(k))
  }

  ghost predicate Opened(c: Config, zero: nat, acts: seq<Action>, k: nat, now: int) {
    exists p: nat :: BarrierAt(c, zero, acts, k, p, now)
  }

  /** At some such moment not after the bound. */
  ghost predicate OpenedBy(c: Config, zero: nat, acts: seq<Action>, k: nat, bound: int) {
    exists now: nat :: now <= bound && Opened(c, zero, acts, k, now)
  }

  /** The delay of the test is its own, and the timer has kept it since some barrier. */
  ghost predicate Kept(c: Config, zero: nat, acts: seq<Action>, s: State) {
    s.seqr.Preparing? || s.seqr.Joining? ==>
      && s.seqr.k < 4 && StartUp(s.seqr.k, s.timer.delay)
      && (s.timer.at.Delay? ==> Opened(c, zero, acts, s.seqr.k, s.timer.at.until - s.timer.delay))
      && (s.timer.at.Stamp? ==> OpenedBy(c, zero, acts, s.seqr.k, s.now - s.timer.delay))
      && (Stamped(s) ==> OpenedBy(c, zero, acts, s.seqr.k, s.timer.time1 - s.timer.delay))
  }

  lemma OpenedLater(c: Config, zero: nat, acts: seq<Action>, a: Action, k: nat, now: int)
    requires Opened(c, zero, acts, k, now)
    ensures Opened(c, zero, acts + [a], k, now)
  {
    var p: nat :| BarrierAt(c, zero, acts, k, p, now);
    assert (acts + [a])[..p] == acts[..p];
    assert BarrierAt(c, zero, acts + [a], k, p, now);
  }

  lemma OpenedByLater(c: Config, zero: nat, acts: seq<Action>, a: Action, k: nat, bound: int)
    requires OpenedBy(c, zero, acts, k, bound)
    ensures OpenedBy(c, zero, acts + [a], k, bound)
  {
    var now: nat :| now <= bound && Opened(c, zero, acts, k, now);
    OpenedLater(c, zero, acts, a, k, now);
  }

  lemma OpenedByMore(c: Config, zero: nat, acts: seq<Action>, k: nat, bound: int, more: int)
    requires OpenedBy(c, zero, acts, k, bound) && bound <= more
    ensures OpenedBy(c, zero, acts, k, more)
  {
    var now: nat :| now <= bound && Opened(c, zero, acts, k, now);
    assert now <= more;
  }

  lemma OpenedThen(c: Config, zero: nat, acts: seq<Action>, k: nat, now: int, bound: int)
    requires Opened(c, zero, acts, k, now) && now <= bound
    ensures OpenedBy(c, zero, acts, k, bound)
  {
    var p: nat :| BarrierAt(c, zero, acts, k, p, now);
    var at: nat := now;
    assert at <= bound && Opened(c, zero, acts, k, at);
  }

  lemma KeptLater(c: Config, zero: nat, acts: seq<Action>, a: Action, s: State)
    requires Kept(c, zero, acts, s)
    ensures Kept(c, zero, acts + [a], s)
  {
    if s.seqr.Preparing? || s.seqr.Joining? {
      if s.timer.at.Delay? {
        OpenedLater(c, zero, acts, a, s.seqr.k, s.timer.at.until - s.timer.delay);
      }
      if s.timer.at.Stamp? {
        OpenedByLater(c, zero, acts, a, s.seqr.k, s.now - s.timer.delay);
      }
      if Stamped(s) {
        OpenedByLater(c, zero, acts, a, s.seqr.k, s.timer.time1 - s.timer.delay);
      }
    }
  }

  /** What leaves the timer and the start of the clock alone. */
  lemma KeptSame(c: Config, zero: nat, acts: seq<Action>, s: State, q: State)
    requires Kept(c, zero, acts, s) && q.timer == s.timer && s.now <= q.now && q.sh.tick.running == s.sh.tick.running
    requires q.seqr == s.seqr || (s.seqr.Preparing? && q.seqr == Joining(s.seqr.k))
    ensures Kept(c, zero, acts, q)
  {
    if (s.seqr.Preparing? || s.seqr.Joining?) && s.timer.at.Stamp? {
      OpenedByMore(c, zero, acts, s.seqr.k, s.now - s.timer.delay, q.now - q.timer.delay);
    }
  }

  /** The timer enters its delay at the barrier, leaves it when it is over, and then takes its time stamp. */
  ghost predicate Follows(s: State, q: State) {
    && q.seqr == s.seqr && q.now == s.now && q.timer.delay == s.timer.delay
    && (q.timer.at.Delay? && q.timer != s.timer ==>
          s.timer.at.Barrier? && |Ready(s.sh.syncing)| == s.timer.instances
          && q.timer.at.until == s.now + s.timer.delay)
    && (q.timer.at.Stamp? && q.timer != s.timer ==> s.timer.at.Delay? && s.timer.at.until <= s.now)
    && (Stamped(q) ==>
          if s.timer.at.Stamp? then q.timer.time1 == s.now else q.timer.time1 == s.timer.time1 && Stamped(s))
  }

  lemma TimerFollows(c: Config, s: State)
    ensures Follows(s, DoTimer(c, s))
  {
    if DoTimer(c, s) != s {
      TimerFrame(Result(s.sh, s.timer, []), s.now);
    }
  }

  lemma KeptTimer(c: Config, zero: nat, acts: seq<Action>)
    requires Base(c, zero, After(c, zero, acts)) && Kept(c, zero, acts, After(c, zero, acts))
    ensures Kept(c, zero, acts, DoTimer(c, After(c, zero, acts)))
  {
    TimerFollows(c, After(c, zero, acts));
    KeptLook(c, zero, acts, After(c, zero, acts), DoTimer(c, After(c, zero, acts)));
  }

  /** At the barrier, all workers of a test that is being joined may be ready; before, none is there. */
  lemma BarrierMet(c: Config, s: State)
    requires Sane(c) && Barriers(c, s) && (s.seqr.Preparing? || s.seqr.Joining?)
    requires |Ready(s.sh.syncing)| == s.timer.instances
    ensures s.seqr.Joining? && s.timer.instances == Instances(c, TestAt(s.seqr.k))
  {
    assert s.seqr.Preparing? ==> Ready(s.sh.syncing) == {};
  }

  lemma OpenedNow(c: Config, zero: nat, acts: seq<Action>, s: State)
    requires s == After(c, zero, acts) && Sane(c) && Barriers(c, s) && (s.seqr.Preparing? || s.seqr.Joining?)
    requires s.timer.at.Barrier? && |Ready(s.sh.syncing)| == s.timer.instances
    ensures Opened(c, zero, acts, s.seqr.k, s.now)
  {
    BarrierMet(c, s);
    assert acts[..|acts|] == acts;
    assert BarrierAt(c, zero, acts, s.seqr.k, |acts|, s.now);
  }

  lemma KeptLook(c: Config, zero: nat, acts: seq<Action>, s: State, q: State)
    requires s == After(c, zero, acts) && Sane(c) && Barriers(c, s) && Kept(c, zero, acts, s) && Follows(s, q)
    ensures Kept(c, zero, acts, q)
  {
    if s.seqr.Preparing? || s.seqr.Joining? {
      if q.timer.at.Delay? && q.timer != s.timer {
        OpenedNow(c, zero, acts, s);
      }
      if q.timer.at.Stamp? && q.timer != s.timer {
        OpenedThen(c, zero, acts, s.seqr.k, s.timer.at.until - s.timer.delay, s.now - s.timer.delay);
      }
    }
  }

  lemma KeptStep(c: Config, zero: nat, acts: seq<Action>, a: Action)
    requires Base(c, zero, After(c, zero, acts)) && Kept(c, zero, acts, After(c, zero, acts))
    ensures Kept(c, zero, acts, Do(c, After(c, zero, acts), a))
  {
    var s := After(c, zero, acts);
    match a
    case TimerStep => KeptTimer(c, zero, acts);
    case Decide => KeptDecide(c, zero, acts, s);
    case Join =>
    case CalcEnd => KeptEnd(c, zero, acts, s);
    case Work(i, m) =>
      if s.seqr.Joining? && i < |s.workers| {
        WorkerFrame(c, CurrentTest(s), s.workers[i], s.sh, s.now, m);
        KeptSame(c, zero, acts, s, DoWork(c, s, i, m));
      }
    case _ => KeptSame(c, zero, acts, s, Do(c, s, a));
  }

  lemma KeptDecide(c: Config, zero: nat, acts: seq<Action>, s: State)
    requires Kept(c, zero, acts, s)
    ensures Kept(c, zero, acts, DoDecide(c, s))
  {
  }

  lemma KeptEnd(c: Config, zero: nat, acts: seq<Action>, s: State)
    requires Kept(c, zero, acts, s)
    ensures Kept(c, zero, acts, DoEnd(c, s))
  {
  }

  lemma {:induction false} KeptAlways(c: Config, zero: nat, acts: seq<Action>)
    requires Sane(c)
    ensures Kept(c, zero, acts, After(c, zero, acts))
  {
    if acts != [] {
      var init, a := acts[..|acts| - 1], acts[|acts| - 1];
      assert init + [a] == acts;
      KeptAlways(c, zero, init);
      BaseAlways(c, zero, init);
      KeptStep(c, zero, init, a);
      KeptLater(c, zero, init, a, After(c, zero, acts));
    }
  }

  /** In every run: when the clock of a test has started, the start-up delay of the test had passed since a
      moment at which all its workers were ready. */
  lemma StartsAfterDelay(c: Config, zero: nat, acts: seq<Action>) returns (p: nat, now: nat)
    requires Sane(c) && After(c, zero, acts).seqr.Joining? && Stamped(After(c, zero, acts))
    ensures var s := After(c, zero, acts);
            && BarrierAt(c, zero, acts, s.seqr.k, p, now)
            && now + (if s.seqr.k == 0 then 0 else if s.seqr.k == 1 then 1000000 else 3000000) <= s.timer.time1
  {
    var s := After(c, zero, acts);
    KeptAlways(c, zero, acts);
    now :| now <= s.timer.time1 - s.timer.delay && Opened(c, zero, acts, s.seqr.k, now);
    p :| BarrierAt(c, zero, acts, s.seqr.k, p, now);
  }

  /** While the timer waits, it waits until exactly that delay after such a moment. */
  lemma WaitsForDelay(c: Config, zero: nat, acts: seq<Action>) returns (p: nat, now: nat)
    requires Sane(c) && After(c, zero, acts).seqr.Joining? && After(c, zero, acts).timer.at.Delay?
    ensures var s := After(c, zero, acts);
            && BarrierAt(c, zero, acts, s.seqr.k, p, now)
            && now + (if s.seqr.k == 0 then 0 else if s.seqr.k == 1 then 1000000 else 3000000) == s.timer.at.until
  {
    var s := After(c, zero, acts);
    KeptAlways(c, zero, acts);
    p :| BarrierAt(c, zero, acts, s.seqr.k, p, s.timer.at.until - s.timer.delay);
    now := s.timer.at.until - s.timer.delay;
  }
}
