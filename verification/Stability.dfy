/** Reports of a download are prefix-stable: once a step has been reported, every later report shows
    the same counters for it, although the workers never pause. */
module Stability {
  import opened OrderedMaps
  import opened Aggregator
  import opened Protocol
  import opened Timer
  import opened Session
  import opened Invariants
  import opened Histories
  import opened Reports
  import Download

  // ----- one stream

  ghost predicate InDomain(w: Worker, duration: nat) {
    forall c | c in w.chunks :: c.index <= duration * 2
  }

  lemma SnapValues(w: Worker, sh: Shared)
    requires InDomain(w, sh.duration)
    ensures Counted(DOWNLOAD, Snap(DownloadTest, w, sh)) ==
            Values(Download.AccountAll(sh.duration, w.chunks).results, TickKeys(sh.duration * 2 + 1))
  {
    DownloadDomain(sh.duration, w.chunks);
    DownloadPositions(Snap(DownloadTest, w, sh), sh.duration);
  }

  /** A settled step stays settled when the stream accounts a chunk of the current tick: the chunk goes
      to the bucket of that tick, which the step does not count, and the slow start is only touched in
      bucket 0. */
  lemma SettledMore(a: Snapshot, w: Worker, w': Worker, sh: Shared, c: Download.Chunk, n: nat)
    requires 1 <= n <= c.index <= sh.duration * 2 && w'.chunks == w.chunks + [c]
    requires InDomain(w, sh.duration) && Settled(DOWNLOAD, a, Snap(DownloadTest, w, sh), n)
    ensures Settled(DOWNLOAD, a, Snap(DownloadTest, w', sh), n)
  {
    SnapValues(w, sh);
    SnapValues(w', sh);
    Download.AccountMore(sh.duration, w.chunks, c);
    var vs := Counted(DOWNLOAD, Snap(DownloadTest, w, sh));
    var ws := Counted(DOWNLOAD, Snap(DownloadTest, w', sh));
    assert vs[..n] == ws[..n];
  }

  lemma SettledSelf(w: Worker, sh: Shared, n: nat)
    requires InDomain(w, sh.duration) && n <= sh.duration * 2
    ensures Settled(DOWNLOAD, Snap(DownloadTest, w, sh), Snap(DownloadTest, w, sh), n)
  {
    SnapValues(w, sh);
  }

  /** A snapshot only depends on the chunks and the duration. */
  lemma SnapSame(w: Worker, w': Worker, sh: Shared, sh': Shared)
    requires w'.chunks == w.chunks && sh'.duration == sh.duration
    ensures var a, b := Snap(DownloadTest, w, sh), Snap(DownloadTest, w', sh');
            a.results == b.results && a.slowStart == b.slowStart && Counted(DOWNLOAD, a) == Counted(DOWNLOAD, b)
  {
    var keys := SortedKeys(Snap(DownloadTest, w, sh).results.Keys);
    CountedSame(Snap(DownloadTest, w, sh), Snap(DownloadTest, w', sh'), keys, |keys|);
  }

  lemma {:induction false} CountedSame(a: Snapshot, b: Snapshot, keys: seq<int>, n: nat)
    requires a.results == b.results && n <= |keys|
    ensures CountedTo(DOWNLOAD, a, keys, n) == CountedTo(DOWNLOAD, b, keys, n)
  {
    if n > 0 {
      CountedSame(a, b, keys, n - 1);
    }
  }

  // ----- all streams

  /** The first `upto` entries of a step agree with what the streams hold now. */
  ghost predicate Current(s: State, r: Reading, step: nat, upto: nat) {
    upto <= |r.snaps| && upto <= |s.workers| &&
    forall k | 0 <= k < upto :: Settled(DOWNLOAD, r.snaps[k], Snap(DownloadTest, s.workers[k], s.sh), step)
  }

  /** Readings of consecutive steps, as far as the tick has passed them. */
  ghost predicate CurrentRows(s: State, rs: seq<Reading>) {
    forall i | 0 <= i < |rs| && i + 1 <= s.sh.tick.index ::
      |rs[i].snaps| == |s.workers| && Current(s, rs[i], i + 1, |s.workers|)
  }

  ghost predicate InDownload(s: State) {
    s.seqr.Joining? && s.seqr.k == 2
  }

  ghost predicate IsDownload(e: Event) {
    (e.Report? || e.Finish?) && e.test == DownloadTest
  }

  /** Everything the reports of the running download said about passed steps. */
  ghost predicate ReportsCurrent(s: State) {
    forall i | 0 <= i < |s.trace| && s.trace[i].Report? && IsDownload(s.trace[i]) ::
      |s.trace[i].readings| <= s.sh.tick.index && CurrentRows(s, s.trace[i].readings)
  }

  /** What the report under way has read. */
  ghost predicate PendingCurrent(s: State) {
    s.pending.Pending? ==>
      && CurrentRows(s, s.pending.rows)
      && (s.pending.open && |s.pending.rows| + 1 <= s.sh.tick.index ==>
            Current(s, s.pending.row, |s.pending.rows| + 1, |s.pending.row.snaps|))
  }

  /** While the download runs, all this is still what the streams hold. */
  ghost predicate Stable(s: State) {
    InDownload(s) ==> ReportsCurrent(s) && PendingCurrent(s)
  }

  /** What one step of the system may do to the download streams. */
  ghost predicate Grows(s: State, q: State) {
    && q.sh.duration == s.sh.duration && |q.workers| == |s.workers|
    && forall k | 0 <= k < |s.workers| ::
         InDomain(s.workers[k], s.sh.duration) &&
         (q.workers[k].chunks == s.workers[k].chunks
          || exists c: Download.Chunk :: s.sh.tick.index <= c.index <= s.sh.duration * 2
                                         && q.workers[k].chunks == s.workers[k].chunks + [c])
  }

  lemma CurrentGrows(s: State, q: State, r: Reading, step: nat, upto: nat)
    requires Grows(s, q) && Current(s, r, step, upto) && 1 <= step <= s.sh.tick.index
    ensures Current(q, r, step, upto)
  {
    forall k | 0 <= k < upto ensures Settled(DOWNLOAD, r.snaps[k], Snap(DownloadTest, q.workers[k], q.sh), step) {
      SnapSame(q.workers[k], q.workers[k], s.sh, q.sh);
      if q.workers[k].chunks == s.workers[k].chunks {
        SnapSame(s.workers[k], q.workers[k], s.sh, q.sh);
      } else {
        var c: Download.Chunk :| s.sh.tick.index <= c.index <= s.sh.duration * 2
                                 && q.workers[k].chunks == s.workers[k].chunks + [c];
        SettledMore(r.snaps[k], s.workers[k], q.workers[k], s.sh, c, step);
      }
    }
  }

  /** Readings of a finished report: all their steps lie behind the tick. */
  lemma CurrentRowsGrow(s: State, q: State, rs: seq<Reading>)
    requires Grows(s, q) && CurrentRows(s, rs)
    requires q.sh.tick.index == s.sh.tick.index || |rs| <= s.sh.tick.index
    ensures CurrentRows(q, rs)
  {
    forall i | 0 <= i < |rs| && i + 1 <= q.sh.tick.index
      ensures |rs[i].snaps| == |q.workers| && Current(q, rs[i], i + 1, |q.workers|)
    {
      CurrentGrows(s, q, rs[i], i + 1, |s.workers|);
    }
  }

  /** The download reports of q are those of s. */
  ghost predicate SameReports(s: State, q: State) {
    forall i | 0 <= i < |q.trace| && q.trace[i].Report? && IsDownload(q.trace[i]) ::
      i < |s.trace| && q.trace[i] == s.trace[i]
  }

  lemma ReportsGrow(s: State, q: State)
    requires ReportsCurrent(s) && Grows(s, q) && s.sh.tick.index <= q.sh.tick.index && SameReports(s, q)
    ensures ReportsCurrent(q)
  {
    forall i | 0 <= i < |q.trace| && q.trace[i].Report? && IsDownload(q.trace[i])
      ensures |q.trace[i].readings| <= q.sh.tick.index && CurrentRows(q, q.trace[i].readings)
    {
      CurrentRowsGrow(s, q, s.trace[i].readings);
    }
  }

  lemma PendingGrows(s: State, q: State)
    requires PendingCurrent(s) && Grows(s, q) && q.pending == s.pending
    requires s.pending.Pending? ==> q.sh.tick.index == s.sh.tick.index
    ensures PendingCurrent(q)
  {
    if s.pending.Pending? {
      CurrentRowsGrow(s, q, s.pending.rows);
      if s.pending.open && |s.pending.rows| + 1 <= s.sh.tick.index {
        CurrentGrows(s, q, s.pending.row, |s.pending.rows| + 1, |s.pending.row.snaps|);
      }
    }
  }

  /** A step that grows the streams and neither reports nor reads keeps everything stable. The tick may
      only move while no report is under way. */
  lemma StableGrows(s: State, q: State)
    requires InDownload(s) && InDownload(q) && Stable(s) && Grows(s, q) && SameReports(s, q)
    requires q.pending == s.pending && s.sh.tick.index <= q.sh.tick.index
    requires s.pending.Pending? ==> q.sh.tick.index == s.sh.tick.index
    ensures Stable(q)
  {
    ReportsGrow(s, q);
    PendingGrows(s, q);
  }

  // ----- the steps of the system

  lemma DomainNow(c: Config, zero: nat, s: State)
    requires Base(c, zero, s) && InDownload(s)
    ensures s.sh.duration == c.downloadDuration && s.sh.tick.index < s.sh.duration * 2
    ensures forall k | 0 <= k < |s.workers| :: InDomain(s.workers[k], s.sh.duration)
  {
    forall k | 0 <= k < |s.workers| ensures InDomain(s.workers[k], s.sh.duration) {
      assert Accounted(s.workers[k], s.sh);
    }
  }

  lemma StableWork(c: Config, zero: nat, s: State, i: nat, m: Move)
    requires Base(c, zero, s) && Stable(s)
    ensures Stable(DoWork(c, s, i, m))
  {
    if InDownload(s) && i < |s.workers| {
      var q := DoWork(c, s, i, m);
      DomainNow(c, zero, s);
      WorkerFrame(c, DownloadTest, s.workers[i], s.sh, s.now, m);
      AccountedMove(c, DownloadTest, s.workers[i], s.sh, s.now, m);
      StableGrows(s, q);
    }
  }

  lemma StableTimer(c: Config, zero: nat, s: State)
    requires Base(c, zero, s) && Stable(s)
    ensures Stable(DoTimer(c, s))
  {
    if InDownload(s) && !InCallback(s) {
      var q := DoTimer(c, s);
      DomainNow(c, zero, s);
      TimerFrame(Result(s.sh, s.timer, []), s.now);
      TickRises(c, zero, s);
      StableGrows(s, q);
    }
  }

  lemma StableFlags(c: Config, zero: nat, s: State, a: Action)
    requires Base(c, zero, s) && Stable(s)
    requires a.Tick? || a.Stop? || a.Abort? || a.Decide? || a.Release? || a.Join?
    ensures Stable(Do(c, s, a))
  {
    if InDownload(s) && InDownload(Do(c, s, a)) {
      DomainNow(c, zero, s);
      StableGrows(s, Do(c, s, a));
    }
  }

  /** The streams' buckets are those of the pre-filled domain. */
  ghost predicate Domains(s: State) {
    forall k | 0 <= k < |s.workers| :: InDomain(s.workers[k], s.sh.duration)
  }

  lemma Still(s: State, q: State)
    requires InDownload(s) && Stable(s) && Domains(s)
    requires q.workers == s.workers && q.sh.duration == s.sh.duration && q.sh.tick == s.sh.tick && q.trace == s.trace
    ensures Grows(s, q) && ReportsCurrent(q)
  {
    ReportsGrow(s, q);
  }

  lemma ReadStable(s: State)
    requires InDownload(s) && Stable(s) && Domains(s) && s.sh.tick.index <= s.sh.duration * 2 && DoRead(s) != s
    ensures Stable(DoRead(s))
  {
    var q, k, step := DoRead(s), |s.pending.row.snaps|, |s.pending.rows| + 1;
    Still(s, q);
    CurrentRowsGrow(s, q, s.pending.rows);
    if step <= s.sh.tick.index {
      SettledSelf(s.workers[k], s.sh, step);
      CurrentGrows(s, q, s.pending.row, step, k);
    }
  }

  lemma StableRead(c: Config, zero: nat, s: State)
    requires Base(c, zero, s) && Stable(s) && InDownload(s)
    ensures Stable(DoRead(s))
  {
    if DoRead(s) != s {
      DomainNow(c, zero, s);
      ReadStable(s);
    }
  }

  lemma CurrentRowsMore(s: State, rs: seq<Reading>, r: Reading)
    requires CurrentRows(s, rs)
    requires |rs| + 1 <= s.sh.tick.index ==> |r.snaps| == |s.workers| && Current(s, r, |rs| + 1, |s.workers|)
    ensures CurrentRows(s, rs + [r])
  {
  }

  lemma RowStable(s: State)
    requires InDownload(s) && Stable(s) && Domains(s) && DoRow(s) != s
    ensures Stable(DoRow(s))
  {
    Still(s, DoRow(s));
    CurrentRowsMore(s, s.pending.rows, s.pending.row);
    CurrentRowsGrow(s, DoRow(s), s.pending.rows + [s.pending.row]);
  }

  lemma BeginStable(s: State)
    requires InDownload(s) && Stable(s) && Domains(s)
    ensures Stable(DoStamp(s)) && Stable(DoBegin(s))
  {
    Still(s, DoStamp(s));
    Still(s, DoBegin(s));
    if s.pending.Pending? {
      CurrentRowsGrow(s, DoStamp(s), s.pending.rows);
    }
  }

  lemma StableRow(c: Config, zero: nat, s: State)
    requires Base(c, zero, s) && Stable(s) && InDownload(s)
    ensures Stable(DoRow(s)) && Stable(DoStamp(s)) && Stable(DoBegin(s))
  {
    DomainNow(c, zero, s);
    BeginStable(s);
    if DoRow(s) != s {
      RowStable(s);
    }
  }

  /** The report that is handed over has at most as many steps as ticks have passed. */
  lemma ReportLength(c: Config, zero: nat, s: State)
    requires Base(c, zero, s) && InDownload(s) && s.pending.Pending? && s.timer.at.Reporting?
    ensures s.pending.maxSteps == s.sh.tick.index
  {
    DomainNow(c, zero, s);
  }

  lemma StableEnd(c: Config, zero: nat, s: State)
    requires Base(c, zero, s) && Stable(s) && InDownload(s)
    ensures Stable(DoEnd(c, s))
  {
    var q := DoEnd(c, s);
    DomainNow(c, zero, s);
    if q != s {
      var e := Handed(s);
      CurrentRowsGrow(s, q, s.pending.rows);
      if s.timer.at.Reporting? {
        ReportLength(c, zero, s);
      }
      forall i | 0 <= i < |q.trace| && q.trace[i].Report? && IsDownload(q.trace[i])
        ensures |q.trace[i].readings| <= q.sh.tick.index && CurrentRows(q, q.trace[i].readings)
      {
        if i < |s.trace| {
          assert q.trace[i] == s.trace[i];
          CurrentRowsGrow(s, q, s.trace[i].readings);
        } else {
          assert q.trace[i] == e;
        }
      }
    }
  }

  // ----- before and after the download

  /** No download report is made before the download. */
  ghost predicate NotYet(s: State) {
    (match s.seqr
     case Deciding(k) => k <= 2
     case Preparing(k) => k <= 2
     case Joining(k) => k <= 1
     case Over => false)
    ==> forall i | 0 <= i < |s.trace| :: !IsDownload(s.trace[i])
  }

  /** Only a callback of the download itself hands over something of it. */
  lemma HandedBefore(c: Config, zero: nat, s: State)
    requires Base(c, zero, s) && NotYet(s)
    ensures NotYet(DoEnd(c, s))
  {
    if s.seqr.Preparing? && s.seqr.k == 2 && InCallback(s) {
      CallbackPassed(c, s);
    }
  }

  lemma NotYetStep(c: Config, zero: nat, s: State, a: Action)
    requires Base(c, zero, s) && NotYet(s)
    ensures NotYet(Do(c, s, a))
  {
    if a.CalcEnd? {
      HandedBefore(c, zero, s);
    } else {
      var q := Do(c, s, a);
      forall i | 0 <= i < |q.trace| && i < |s.trace| ensures q.trace[i] == s.trace[i] {
      }
    }
  }

  lemma StableCreate(c: Config, zero: nat, s: State, pids: seq<nat>)
    requires Base(c, zero, s) && Stable(s) && NotYet(s)
    ensures Stable(DoCreate(c, s, pids))
  {
    if s.seqr.Preparing? && s.seqr.k == 2 && InCallback(s) {
      CallbackPassed(c, s);
    }
  }

  /** Every interleaving keeps the download reports stable. */
  lemma StableStep(c: Config, zero: nat, s: State, a: Action)
    requires Base(c, zero, s) && Stable(s) && NotYet(s)
    ensures Stable(Do(c, s, a))
  {
    match a
    case Work(i, m) => StableWork(c, zero, s, i, m);
    case TimerStep => StableTimer(c, zero, s);
    case Create(pids) => StableCreate(c, zero, s, pids);
    case CalcRead => if InDownload(s) { StableRead(c, zero, s); }
    case CalcBegin => if InDownload(s) { StableRow(c, zero, s); }
    case CalcStamp => if InDownload(s) { StableRow(c, zero, s); }
    case CalcRow => if InDownload(s) { StableRow(c, zero, s); }
    case CalcEnd => if InDownload(s) { StableEnd(c, zero, s); }
    case _ => StableFlags(c, zero, s, a);
  }

  // ----- the reports of a run, two by two

  /** Two download reports agree on the counters of every step and stream they both show. */
  ghost predicate Agree(a: seq<Reading>, b: seq<Reading>) {
    forall i | 0 <= i < |a| && i < |b| :: SameRow(a[i], b[i], i + 1)
  }

  ghost predicate SameRow(a: Reading, b: Reading, step: nat) {
    |a.snaps| == |b.snaps| && forall k | 0 <= k < |a.snaps| :: Settled(DOWNLOAD, a.snaps[k], b.snaps[k], step)
  }

  /** Any report of the download agrees with any later report or final result of it. */
  ghost predicate PrefixStable(trace: seq<Event>) {
    forall i, j | 0 <= i < j < |trace| && trace[i].Report? && IsDownload(trace[i]) && IsDownload(trace[j]) ::
      Agree(trace[i].readings, trace[j].readings)
  }

  lemma CurrentAgree(s: State, a: seq<Reading>, b: seq<Reading>)
    requires CurrentRows(s, a) && CurrentRows(s, b) && |a| <= s.sh.tick.index
    ensures Agree(a, b)
  {
    forall i | 0 <= i < |a| && i < |b| ensures SameRow(a[i], b[i], i + 1) {
      assert Current(s, a[i], i + 1, |s.workers|) && Current(s, b[i], i + 1, |s.workers|);
    }
  }

  /** A callback keeps a run prefix-stable if it agrees with all reports so far. */
  lemma PrefixStableOne(trace: seq<Event>, e: Event)
    requires PrefixStable(trace)
    requires IsDownload(e) ==>
               forall i | 0 <= i < |trace| && trace[i].Report? && IsDownload(trace[i]) ::
                 Agree(trace[i].readings, e.readings)
    ensures PrefixStable(trace + [e])
  {
  }

  lemma PrefixStableMore(c: Config, performed: set<Test>, trace: seq<Event>, e: Event)
    requires PrefixStable(trace)
    requires IsDownload(e) ==>
               forall i | 0 <= i < |trace| && trace[i].Report? && IsDownload(trace[i]) ::
                 Agree(trace[i].readings, e.readings)
    ensures PrefixStable(trace + Emitted(c, performed, e))
  {
    PrefixStableOne(trace, e);
    PrefixStableOne(trace, MeasurementEnd);
    PrefixStableOne(trace + [MeasurementEnd], e);
    PrefixStableOne(trace + [MeasurementEnd] + [e], Completed);
    assert trace + [MeasurementEnd] + [e] == trace + [MeasurementEnd, e];
    assert trace + [MeasurementEnd] + [e] + [Completed] == trace + [MeasurementEnd, e, Completed];
  }

  lemma PrefixStableEnd(c: Config, zero: nat, s: State)
    requires Base(c, zero, s) && Stable(s) && PrefixStable(s.trace)
    ensures PrefixStable(DoEnd(c, s).trace)
  {
    var q := DoEnd(c, s);
    if q != s {
      var e := Handed(s);
      if IsDownload(e) {
        CallbackPassed(c, s);
        forall i | 0 <= i < |s.trace| && s.trace[i].Report? && IsDownload(s.trace[i])
          ensures Agree(s.trace[i].readings, e.readings)
        {
          CurrentAgree(s, s.trace[i].readings, s.pending.rows);
        }
      }
      PrefixStableMore(c, q.performed, s.trace, e);
    }
  }

  lemma PrefixStableStep(c: Config, zero: nat, s: State, a: Action)
    requires Base(c, zero, s) && Stable(s) && PrefixStable(s.trace)
    ensures PrefixStable(Do(c, s, a).trace)
  {
    match a
    case CalcEnd => PrefixStableEnd(c, zero, s);
    case TimerStep =>
      if DoTimer(c, s).trace != s.trace {
        PrefixStableMore(c, s.performed, s.trace, EventOf(Step(Result(s.sh, s.timer, []), s.now).calls[0]));
      }
    case Decide =>
      if DoDecide(c, s).trace != s.trace {
        PrefixStableOne(s.trace, Started(TestAt(s.seqr.k)));
      }
    case _ =>
  }

  lemma {:induction false} StableAlways(c: Config, zero: nat, acts: seq<Action>)
    requires Sane(c)
    ensures var s := After(c, zero, acts); Base(c, zero, s) && Stable(s) && NotYet(s) && PrefixStable(s.trace)
  {
    BaseAlways(c, zero, acts);
    if acts != [] {
      var s, a := After(c, zero, acts[..|acts| - 1]), acts[|acts| - 1];
      StableAlways(c, zero, acts[..|acts| - 1]);
      StableStep(c, zero, s, a);
      NotYetStep(c, zero, s, a);
      PrefixStableStep(c, zero, s, a);
    }
  }

  /** In every run, whatever the interleaving: if an earlier and a later callback of the download both
      contain a step, then every stream's `bytes`, `bytes_distinct`, `bytes_slow_start` and
      `bytes_total` at that step are the same in both. */
  lemma DownloadPrefixStable(c: Config, zero: nat, acts: seq<Action>, i: nat, j: nat, step: nat, k: nat)
    requires Sane(c)
    requires i < j < |Trace(c, zero, acts)|
    requires Trace(c, zero, acts)[i].Report? && IsDownload(Trace(c, zero, acts)[i])
    requires IsDownload(Trace(c, zero, acts)[j])
    requires 1 <= step <= |Trace(c, zero, acts)[i].readings| && step <= |Trace(c, zero, acts)[j].readings|
    requires k < |Trace(c, zero, acts)[i].readings[step - 1].snaps|
    ensures var a, b := Trace(c, zero, acts)[i].readings, Trace(c, zero, acts)[j].readings;
            && k < |b[step - 1].snaps|
            && var e := CellOf(Frame(DOWNLOAD, |a|, zero * 1000), a[step - 1], step, k);
               var l := CellOf(Frame(DOWNLOAD, |b|, zero * 1000), b[step - 1], step, k);
               e.bytes == l.bytes && e.distinct == l.distinct && e.slowStart == l.slowStart && e.total == l.total
  {
    StableAlways(c, zero, acts);
    var a, b := Trace(c, zero, acts)[i].readings, Trace(c, zero, acts)[j].readings;
    assert Agree(a, b);
    assert SameRow(a[step - 1], b[step - 1], step - 1 + 1);
    var f, g := Frame(DOWNLOAD, |a|, zero * 1000), Frame(DOWNLOAD, |b|, zero * 1000);
    SettledCells(f, g, a[step - 1], b[step - 1], step, k);
  }
}
