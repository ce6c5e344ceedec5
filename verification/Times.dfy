/** The times of a report: never negative, and advancing by half a second from step to step. */
module Times {
  import opened Aggregator
  import opened Protocol
  import opened Timer
  import opened Session
  import opened Invariants
  import opened Clocks
  import opened Histories

  // ----- what a report under way has read

  /** A step read the start times the workers have now, not later than now. */
  ghost predicate ReadNow(s: State, r: Reading) {
    && r.now <= s.now && |r.snaps| <= |s.workers|
    && forall k | 0 <= k < |r.snaps| :: r.snaps[k].startTime == s.workers[k].start
  }

  ghost predicate Ordered(rs: seq<Reading>) {
    forall i, j | 0 <= i < j < |rs| :: rs[i].now <= rs[j].now
  }

  ghost predicate Steady(s: State) {
    s.pending.Pending? ==>
      && Ordered(s.pending.rows)
      && (forall i | 0 <= i < |s.pending.rows| :: ReadNow(s, s.pending.rows[i]))
      && (s.pending.open ==>
            && ReadNow(s, s.pending.row)
            && forall i | 0 <= i < |s.pending.rows| :: s.pending.rows[i].now <= s.pending.row.now)
  }

  /** A report is only under way while the sequencer waits for its test. */
  lemma PendingJoins(c: Config, zero: nat, s: State)
    requires Base(c, zero, s) && s.pending.Pending? && s.pending.maxSteps > 0
    ensures s.seqr.Joining? && Stamped(s) && AllSynced(s.workers)
  {
    CallbackPassed(c, s);
  }

  lemma SteadyKept(s: State, q: State)
    requires Steady(s) && q.pending == s.pending && s.now <= q.now && |q.workers| == |s.workers|
    requires forall k | 0 <= k < |s.workers| :: q.workers[k].start == s.workers[k].start
    ensures Steady(q)
  {
  }

  lemma SteadyWork(c: Config, zero: nat, s: State, i: nat, m: Move)
    requires Base(c, zero, s) && Steady(s)
    ensures Steady(DoWork(c, s, i, m))
  {
    if s.pending.Pending? && s.pending.maxSteps > 0 && s.seqr.Joining? && i < |s.workers| {
      PendingJoins(c, zero, s);
      assert Punctual(s.workers[i], zero, s.now) && Entry(s.workers[i], s.sh.syncing);
      WorkerBorn(c, CurrentTest(s), s.workers[i], s.sh, zero, s.now, m);
      SteadyKept(s, DoWork(c, s, i, m));
    }
  }

  lemma SteadyRead(s: State)
    requires Steady(s) && (s.pending.Pending? && s.pending.open ==> |s.pending.row.snaps| <= |s.workers|)
    ensures Steady(DoRead(s)) && Steady(DoStamp(s))
  {
  }

  lemma SteadyRow(s: State)
    requires Steady(s)
    ensures Steady(DoRow(s))
  {
    if DoRow(s) != s {
      var rs := s.pending.rows + [s.pending.row];
      forall i, j | 0 <= i < j < |rs| ensures rs[i].now <= rs[j].now {
      }
    }
  }

  lemma SteadyOther(c: Config, zero: nat, s: State, a: Action)
    requires Base(c, zero, s) && Steady(s)
    requires !a.Work? && !a.CalcRead? && !a.CalcStamp? && !a.CalcRow?
    ensures Steady(Do(c, s, a))
  {
    if s.pending.Pending? && s.pending.maxSteps > 0 {
      PendingJoins(c, zero, s);
    }
  }

  lemma SteadyStep(c: Config, zero: nat, s: State, a: Action)
    requires Base(c, zero, s) && Steady(s)
    ensures Steady(Do(c, s, a))
  {
    match a
    case Work(i, m) => SteadyWork(c, zero, s, i, m);
    case CalcRead => SteadyRead(s);
    case CalcStamp => SteadyRead(s);
    case CalcRow => SteadyRow(s);
    case _ => SteadyOther(c, zero, s, a);
  }

  // ----- what a report shows

  /** An entry: its relative time is not negative, the elapsed times are not below it, and no
      measurement started before the client. */
  ghost predicate TimesFit(d: Cell) {
    0 <= d.relativeNs <= d.totalNs <= d.sinceStartNs
  }

  /** The next entry of the same stream: half a second later, plus what the clock has moved between the
      two readings. */
  ghost predicate TimesFollow(d: Cell, e: Cell, moved: nat) {
    && e.relativeNs == d.relativeNs + 500000000
    && e.totalNs == d.totalNs + 500000000 + moved * 1000
    && e.sinceStartNs == d.sinceStartNs + 500000000 + moved * 1000
  }

  /** The entry of stream k in row i of a report. */
  ghost function Shown(zero: nat, kind: Kind, rs: seq<Reading>, i: nat, k: nat): Cell
    requires i < |rs| && k < |rs[i].snaps|
  {
    CellOf(Frame(kind, |rs|, zero * 1000), rs[i], i + 1, k)
  }

  ghost predicate RowFits(zero: nat, kind: Kind, rs: seq<Reading>, i: nat)
    requires i < |rs|
  {
    forall k | 0 <= k < |rs[i].snaps| :: TimesFit(Shown(zero, kind, rs, i, k))
  }

  ghost predicate RowFollows(zero: nat, kind: Kind, rs: seq<Reading>, i: nat)
    requires i + 1 < |rs|
  {
    rs[i].now <= rs[i + 1].now && |rs[i].snaps| == |rs[i + 1].snaps| &&
    forall k | 0 <= k < |rs[i].snaps| ::
      TimesFollow(Shown(zero, kind, rs, i, k), Shown(zero, kind, rs, i + 1, k), rs[i + 1].now - rs[i].now)
  }

  ghost predicate ReportTimes(zero: nat, kind: Kind, rs: seq<Reading>) {
    && (forall i | 0 <= i < |rs| :: RowFits(zero, kind, rs, i))
    && (forall i | 0 <= i < |rs| - 1 :: RowFollows(zero, kind, rs, i))
  }

  /** Every step shows all streams of the test. */
  ghost predicate AllStreams(rs: seq<Reading>, streams: nat) {
    forall i | 0 <= i < |rs| :: |rs[i].snaps| == streams
  }

  ghost predicate EventTimes(c: Config, zero: nat, e: Event) {
    e.Report? || e.Finish? ==>
      ReportTimes(zero, KindOf(e.test), e.readings) && AllStreams(e.readings, Instances(c, e.test))
  }

  /** A report of n steps is only made once n half seconds have been measured. */
  lemma StepsElapsed(s: State)
    ensures StepsNow(s) * 500000 <= s.sh.tick.elapsed
  {
  }

  /** The half seconds that are still to come at a step have passed since the start as well. */
  lemma RowTimes(zero: nat, kind: Kind, rs: seq<Reading>, i: nat, time1: nat, elapsed: nat)
    requires i < |rs| && Timely(rs[i], zero, time1, elapsed) && |rs| * 500000 <= elapsed
    ensures RowFits(zero, kind, rs, i)
  {
  }

  lemma RowsFollow(zero: nat, kind: Kind, rs: seq<Reading>, i: nat, s: State)
    requires i + 1 < |rs| && ReadNow(s, rs[i]) && ReadNow(s, rs[i + 1])
    requires rs[i].now <= rs[i + 1].now && |rs[i].snaps| == |rs[i + 1].snaps|
    ensures RowFollows(zero, kind, rs, i)
  {
  }

  lemma PendingTimes(c: Config, zero: nat, s: State)
    requires Base(c, zero, s) && Steady(s) && s.pending.Pending? && |s.pending.rows| == s.pending.maxSteps
    ensures ReportTimes(zero, KindOf(CurrentTest(s)), s.pending.rows)
    ensures AllStreams(s.pending.rows, Instances(c, CurrentTest(s)))
  {
    if s.pending.maxSteps > 0 {
      PendingJoins(c, zero, s);
    }
    var kind, rs := KindOf(CurrentTest(s)), s.pending.rows;
    StepsElapsed(s);
    forall i | 0 <= i < |rs| ensures RowFits(zero, kind, rs, i) {
      RowTimes(zero, kind, rs, i, s.timer.time1, s.sh.tick.elapsed);
    }
    forall i | 0 <= i < |rs| - 1 ensures RowFollows(zero, kind, rs, i) {
      RowsFollow(zero, kind, rs, i, s);
    }
  }

  ghost predicate AllTimes(c: Config, zero: nat, trace: seq<Event>) {
    forall i | 0 <= i < |trace| :: EventTimes(c, zero, trace[i])
  }

  lemma AllTimesMore(c: Config, zero: nat, trace: seq<Event>, es: seq<Event>)
    requires AllTimes(c, zero, trace) && AllTimes(c, zero, es)
    ensures AllTimes(c, zero, trace + es)
  {
  }

  lemma EmittedTimes(c: Config, zero: nat, performed: set<Test>, e: Event)
    requires EventTimes(c, zero, e)
    ensures AllTimes(c, zero, Emitted(c, performed, e))
  {
  }

  lemma TimesEnd(c: Config, zero: nat, s: State)
    requires Base(c, zero, s) && Steady(s) && AllTimes(c, zero, s.trace)
    ensures AllTimes(c, zero, DoEnd(c, s).trace)
  {
    var q := DoEnd(c, s);
    if q != s {
      PendingTimes(c, zero, s);
      EmittedTimes(c, zero, q.performed, Handed(s));
      AllTimesMore(c, zero, s.trace, Emitted(c, q.performed, Handed(s)));
    }
  }

  lemma TimesTimer(c: Config, zero: nat, s: State)
    requires AllTimes(c, zero, s.trace)
    ensures AllTimes(c, zero, DoTimer(c, s).trace)
  {
    if DoTimer(c, s).trace != s.trace {
      AllTimesMore(c, zero, s.trace, Emitted(c, s.performed, EventOf(Step(Result(s.sh, s.timer, []), s.now).calls[0])));
    }
  }

  lemma TimesStep(c: Config, zero: nat, s: State, a: Action)
    requires Base(c, zero, s) && Steady(s) && AllTimes(c, zero, s.trace)
    ensures AllTimes(c, zero, Do(c, s, a).trace)
  {
    match a
    case CalcEnd => TimesEnd(c, zero, s);
    case TimerStep => TimesTimer(c, zero, s);
    case Decide => AllTimesMore(c, zero, s.trace, [Started(CurrentTest(s))]);
    case _ =>
  }

  lemma {:induction false} TimesAlways(c: Config, zero: nat, acts: seq<Action>)
    requires Sane(c)
    ensures var s := After(c, zero, acts); Base(c, zero, s) && Steady(s) && AllTimes(c, zero, s.trace)
  {
    BaseAlways(c, zero, acts);
    if acts != [] {
      var s, a := After(c, zero, acts[..|acts| - 1]), acts[|acts| - 1];
      TimesAlways(c, zero, acts[..|acts| - 1]);
      SteadyStep(c, zero, s, a);
      TimesStep(c, zero, s, a);
    }
  }

  /** In every run, no entry of any report or final result has a time that an unsigned subtraction
      would have wrapped, and consecutive entries of a stream differ by exactly half a second plus the
      time between their readings. */
  lemma RelativeTimes(c: Config, zero: nat, acts: seq<Action>, n: nat, i: nat, k: nat)
    requires Sane(c) && n < |Trace(c, zero, acts)|
    requires Trace(c, zero, acts)[n].Report? || Trace(c, zero, acts)[n].Finish?
    requires i < |Trace(c, zero, acts)[n].readings| && k < |Trace(c, zero, acts)[n].readings[i].snaps|
    ensures var kind, rs := KindOf(Trace(c, zero, acts)[n].test), Trace(c, zero, acts)[n].readings;
            && TimesFit(Shown(zero, kind, rs, i, k))
            && (i + 1 < |rs| ==>
                  && rs[i].now <= rs[i + 1].now && k < |rs[i + 1].snaps|
                  && TimesFollow(Shown(zero, kind, rs, i, k), Shown(zero, kind, rs, i + 1, k),
                                 rs[i + 1].now - rs[i].now))
  {
    TimesAlways(c, zero, acts);
    var e := Trace(c, zero, acts)[n];
    assert EventTimes(c, zero, e);
    assert RowFits(zero, KindOf(e.test), e.readings, i);
    assert i + 1 < |e.readings| ==> RowFollows(zero, KindOf(e.test), e.readings, i);
  }
}
