/** Where the entries of a report come from: every stream a report read is a state the stream had
    earlier in the run, and the streams of an upload agree on the elected key. */
module Witnesses {
  import opened Aggregator
  import opened Protocol
  import opened Timer
  import opened Session
  import opened Invariants
  import opened Histories
  import Upload

  // ----- the election of the first key, by all upload streams together

  /** What a stream took for the first key, if anything. */
  function ChosenBy(w: Worker): nat {
    Upload.ProcessAll(0, w.records).first
  }

  /** All streams that know a first key know the one that all others use. */
  ghost predicate Elected(s: State) {
    s.seqr.Joining? ==>
      forall i | 0 <= i < |s.workers| :: ChosenBy(s.workers[i]) == 0 || ChosenBy(s.workers[i]) == s.sh.first
  }

  /** Records met after the election choose the elected key. */
  lemma {:induction false} ChosenMore(tr: seq<Upload.Step>, more: seq<Upload.Step>, first: nat)
    requires Upload.ProcessAll(0, tr).first == 0 || Upload.ProcessAll(0, tr).first == first
    requires forall u | u in more :: u.view.others == first
    requires first != 0
    ensures Upload.ProcessAll(0, tr + more).first == 0 || Upload.ProcessAll(0, tr + more).first == first
  {
    if more == [] {
      assert tr + more == tr;
    } else {
      var init, step := more[..|more| - 1], more[|more| - 1];
      assert step in more && tr + more == tr + init + [step];
      ChosenMore(tr, init, first);
      Upload.ProcessMore(0, tr + init, step);
      Upload.FirstStep(Upload.ProcessAll(0, tr + init), 0, step);
    }
  }

  lemma ElectedRecords(w: Worker, sh: Shared, received: int, records: seq<Upload.Record>)
    requires ChosenBy(w) == 0 || ChosenBy(w) == sh.first
    ensures var p := AcknowledgeMove(w, sh, received, records);
            && (ChosenBy(p.w) == 0 || ChosenBy(p.w) == p.sh.first)
            && (sh.first != 0 ==> p.sh.first == sh.first)
  {
    var more := ToSteps(records, sh);
    Upload.FirstAnyDuration(sh.duration, 0, w.records + more);
    if sh.first != 0 {
      ChosenMore(w.records, more, sh.first);
    }
  }

  lemma RecordsKept(c: Config, t: Test, w: Worker, sh: Shared, now: nat, m: Move)
    requires !t.UploadTest? || !m.Acknowledge?
    ensures var p := WorkerMove(c, t, w, sh, now, m); p.w.records == w.records && p.sh.first == sh.first
  {
  }

  lemma ElectedMove(c: Config, t: Test, w: Worker, sh: Shared, now: nat, m: Move)
    requires ChosenBy(w) == 0 || ChosenBy(w) == sh.first
    ensures var p := WorkerMove(c, t, w, sh, now, m);
            && (ChosenBy(p.w) == 0 || ChosenBy(p.w) == p.sh.first)
            && (sh.first != 0 ==> p.sh.first == sh.first)
  {
    if t.UploadTest? && m.Acknowledge? {
      ElectedRecords(w, sh, m.received, m.records);
    } else {
      RecordsKept(c, t, w, sh, now, m);
    }
  }

  lemma ElectedStep(c: Config, s: State, a: Action)
    requires Elected(s)
    ensures Elected(Do(c, s, a))
  {
    match a
    case Work(i, m) =>
      if s.seqr.Joining? && i < |s.workers| {
        ElectedMove(c, CurrentTest(s), s.workers[i], s.sh, s.now, m);
      }
    case TimerStep => TimerFrame(Result(s.sh, s.timer, []), s.now);
    case _ =>
  }

  lemma {:induction false} ElectedAlways(c: Config, zero: nat, acts: seq<Action>)
    ensures Elected(After(c, zero, acts))
  {
    if acts != [] {
      ElectedAlways(c, zero, acts[..|acts| - 1]);
      ElectedStep(c, After(c, zero, acts[..|acts| - 1]), acts[|acts| - 1]);
    }
  }

  // ----- every column of a report was read from states of the run

  /** Stream k of the test showed this in the state s, while the clock of the test ran. */
  ghost predicate ReadFrom(s: State, t: Test, k: nat, snap: Snapshot) {
    && s.seqr.Joining? && TestAt(s.seqr.k) == t && k < |s.workers| && snap == Snap(t, s.workers[k], s.sh)
    && s.sh.tick.running
  }

  /** When a report was read: at which tick, and after how many callbacks. */
  datatype Mark = Mark(tick: nat, events: nat)

  function MarkOf(s: State): Mark {
    Mark(s.sh.tick.index, |s.trace|)
  }

  /** The timer is inside the callback in which the report is read. */
  ghost predicate Marks(s: State, mark: Mark) {
    InCallback(s) && MarkOf(s) == mark
  }

  /** What the rows show of stream k was read one after the other, after the given numbers of steps of the
      run, and all in one callback. */
  ghost predicate ColumnRead(c: Config, zero: nat, acts: seq<Action>, t: Test, k: nat, rs: seq<Reading>, mark: Mark,
                         ns: seq<nat>)
  {
    && |ns| == |rs|
    && (forall i, j | 0 <= i < j < |ns| :: ns[i] <= ns[j])
    && forall i | 0 <= i < |rs| :: ReadAt(c, zero, acts, t, k, rs[i], mark, ns[i])
  }

  ghost predicate ReadAt(c: Config, zero: nat, acts: seq<Action>, t: Test, k: nat, r: Reading, mark: Mark, n: nat) {
    && n <= |acts| && k < |r.snaps|
    && ReadFrom(After(c, zero, acts[..n]), t, k, r.snaps[k]) && Marks(After(c, zero, acts[..n]), mark)
    && StampedBefore(c, zero, acts, r.now, mark, n)
  }

  /** The clock showed this time after m steps of the run, in the same callback. */
  ghost predicate ClockAt(c: Config, zero: nat, acts: seq<Action>, now: nat, mark: Mark, m: nat) {
    m <= |acts| && Marks(After(c, zero, acts[..m]), mark) && After(c, zero, acts[..m]).now == now
  }

  ghost predicate StampedBefore(c: Config, zero: nat, acts: seq<Action>, now: nat, mark: Mark, n: nat) {
    exists m: nat :: m <= n && ClockAt(c, zero, acts, now, mark, m)
  }

  /** The clock of the row under way was read in this callback. */
  ghost predicate PendingStamp(c: Config, zero: nat, acts: seq<Action>, s: State) {
    s.pending.Pending? && s.pending.open ==>
      StampedBefore(c, zero, acts, s.pending.row.now, MarkOf(s), |acts|)
  }

  lemma StampLater(c: Config, zero: nat, acts: seq<Action>, a: Action, now: nat, mark: Mark, n: nat)
    requires n <= |acts| && StampedBefore(c, zero, acts, now, mark, n)
    ensures StampedBefore(c, zero, acts + [a], now, mark, n) && StampedBefore(c, zero, acts + [a], now, mark, n + 1)
  {
    var m: nat :| m <= n && ClockAt(c, zero, acts, now, mark, m);
    assert (acts + [a])[..m] == acts[..m];
    assert ClockAt(c, zero, acts + [a], now, mark, m);
  }

  lemma ReadAtLater(c: Config, zero: nat, acts: seq<Action>, a: Action, t: Test, k: nat, r: Reading, mark: Mark, n: nat)
    requires ReadAt(c, zero, acts, t, k, r, mark, n)
    ensures ReadAt(c, zero, acts + [a], t, k, r, mark, n)
  {
    assert (acts + [a])[..n] == acts[..n];
    StampLater(c, zero, acts, a, r.now, mark, n);
  }

  ghost predicate HasColumn(c: Config, zero: nat, acts: seq<Action>, t: Test, k: nat, rs: seq<Reading>, mark: Mark) {
    exists ns :: ColumnRead(c, zero, acts, t, k, rs, mark, ns)
  }

  /** The rows that show stream k so far. */
  function ReadSoFar(p: Pending, k: nat): seq<Reading>
    requires p.Pending?
  {
    p.rows + if p.open && k < |p.row.snaps| then [p.row] else []
  }

  ghost predicate PendingColumns(c: Config, zero: nat, acts: seq<Action>, s: State) {
    s.pending.Pending? ==>
      forall k | 0 <= k < |s.workers| ::
        HasColumn(c, zero, acts, CurrentTest(s), k, ReadSoFar(s.pending, k), MarkOf(s))
  }

  ghost predicate Columns(c: Config, zero: nat, acts: seq<Action>, t: Test, rs: seq<Reading>, mark: Mark) {
    forall k | 0 <= k < Instances(c, t) :: HasColumn(c, zero, acts, t, k, rs, mark)
  }

  /** The event was read under this mark: a report at its own tick, and after all the callbacks before it,
      except that the end of the measurement is noted while a final result is handed over. */
  ghost predicate Fits(trace: seq<Event>, j: nat, mark: Mark)
    requires j < |trace|
  {
    && (trace[j].Report? ==> mark.tick == trace[j].index)
    && mark.events <= j && forall p | mark.events <= p < j :: trace[p] == MeasurementEnd
  }

  ghost predicate EventMarked(c: Config, zero: nat, acts: seq<Action>, trace: seq<Event>, j: nat, mark: Mark)
    requires j < |trace| && (trace[j].Report? || trace[j].Finish?)
  {
    Columns(c, zero, acts, trace[j].test, trace[j].readings, mark) && Fits(trace, j, mark)
  }

  ghost predicate EventColumns(c: Config, zero: nat, acts: seq<Action>, trace: seq<Event>, j: nat)
    requires j < |trace|
  {
    trace[j].Report? || trace[j].Finish? ==> exists mark :: EventMarked(c, zero, acts, trace, j, mark)
  }

  ghost predicate TraceColumns(c: Config, zero: nat, acts: seq<Action>, trace: seq<Event>) {
    forall j | 0 <= j < |trace| :: EventColumns(c, zero, acts, trace, j)
  }

  lemma ColumnLater(c: Config, zero: nat, acts: seq<Action>, a: Action, t: Test, k: nat, rs: seq<Reading>, mark: Mark)
    requires HasColumn(c, zero, acts, t, k, rs, mark)
    ensures HasColumn(c, zero, acts + [a], t, k, rs, mark)
  {
    var ns :| ColumnRead(c, zero, acts, t, k, rs, mark, ns);
    forall i | 0 <= i < |rs| ensures ReadAt(c, zero, acts + [a], t, k, rs[i], mark, ns[i]) {
      ReadAtLater(c, zero, acts, a, t, k, rs[i], mark, ns[i]);
    }
    assert ColumnRead(c, zero, acts + [a], t, k, rs, mark, ns);
  }

  lemma ColumnsLater(c: Config, zero: nat, acts: seq<Action>, a: Action, t: Test, rs: seq<Reading>, mark: Mark)
    requires Columns(c, zero, acts, t, rs, mark)
    ensures Columns(c, zero, acts + [a], t, rs, mark)
  {
    forall k | 0 <= k < Instances(c, t) ensures HasColumn(c, zero, acts + [a], t, k, rs, mark) {
      ColumnLater(c, zero, acts, a, t, k, rs, mark);
    }
  }

  lemma TraceLater(c: Config, zero: nat, acts: seq<Action>, a: Action, trace: seq<Event>)
    requires TraceColumns(c, zero, acts, trace)
    ensures TraceColumns(c, zero, acts + [a], trace)
  {
    forall j | 0 <= j < |trace| && (trace[j].Report? || trace[j].Finish?)
      ensures EventColumns(c, zero, acts + [a], trace, j)
    {
      assert EventColumns(c, zero, acts, trace, j);
      var mark :| EventMarked(c, zero, acts, trace, j, mark);
      ColumnsLater(c, zero, acts, a, trace[j].test, trace[j].readings, mark);
      assert EventMarked(c, zero, acts + [a], trace, j, mark);
    }
  }

  lemma PendingLater(c: Config, zero: nat, acts: seq<Action>, a: Action, s: State)
    requires PendingColumns(c, zero, acts, s)
    ensures PendingColumns(c, zero, acts + [a], s)
  {
    if s.pending.Pending? {
      forall k | 0 <= k < |s.workers|
        ensures HasColumn(c, zero, acts + [a], CurrentTest(s), k, ReadSoFar(s.pending, k), MarkOf(s))
      {
        ColumnLater(c, zero, acts, a, CurrentTest(s), k, ReadSoFar(s.pending, k), MarkOf(s));
      }
    }
  }

  /** A column only depends on what the rows show of its own stream. */
  lemma ColumnSame(c: Config, zero: nat, acts: seq<Action>, t: Test, k: nat, rs: seq<Reading>, qs: seq<Reading>,
                   mark: Mark)
    requires HasColumn(c, zero, acts, t, k, rs, mark) && |qs| == |rs|
    requires forall i | 0 <= i < |rs| && k < |rs[i].snaps| ::
               k < |qs[i].snaps| && qs[i].snaps[k] == rs[i].snaps[k] && qs[i].now == rs[i].now
    ensures HasColumn(c, zero, acts, t, k, qs, mark)
  {
    var ns :| ColumnRead(c, zero, acts, t, k, rs, mark, ns);
    forall i | 0 <= i < |qs| ensures ReadAt(c, zero, acts, t, k, qs[i], mark, ns[i]) {
      assert ReadAt(c, zero, acts, t, k, rs[i], mark, ns[i]);
    }
    assert ColumnRead(c, zero, acts, t, k, qs, mark, ns);
  }

  /** One more row, read now. */
  lemma ColumnMore(c: Config, zero: nat, acts: seq<Action>, a: Action, t: Test, k: nat, rs: seq<Reading>, r: Reading,
                   mark: Mark)
    requires HasColumn(c, zero, acts, t, k, rs, mark) && k < |r.snaps|
    requires ReadFrom(After(c, zero, acts), t, k, r.snaps[k]) && Marks(After(c, zero, acts), mark)
    requires StampedBefore(c, zero, acts, r.now, mark, |acts|)
    ensures HasColumn(c, zero, acts + [a], t, k, rs + [r], mark)
  {
    var ns: seq<nat> :| ColumnRead(c, zero, acts, t, k, rs, mark, ns);
    var ms: seq<nat> := ns + [|acts|];
    forall i | 0 <= i < |rs| ensures ns[i] <= |acts| && ReadAt(c, zero, acts + [a], t, k, rs[i], mark, ns[i]) {
      assert ReadAt(c, zero, acts, t, k, rs[i], mark, ns[i]);
      ReadAtLater(c, zero, acts, a, t, k, rs[i], mark, ns[i]);
    }
    assert (acts + [a])[..|acts|] == acts;
    StampLater(c, zero, acts, a, r.now, mark, |acts|);
    assert ReadAt(c, zero, acts + [a], t, k, r, mark, |acts|);
    assert ColumnRead(c, zero, acts + [a], t, k, rs + [r], mark, ms);
  }

  /** Reading a stream: the state it is read in is the witness. */
  lemma ReadColumns(c: Config, zero: nat, acts: seq<Action>, a: Action)
    requires var s := After(c, zero, acts);
             && Base(c, zero, s) && PendingColumns(c, zero, acts, s) && PendingColumns(c, zero, acts + [a], s)
             && PendingStamp(c, zero, acts, s)
    ensures PendingColumns(c, zero, acts + [a], DoRead(After(c, zero, acts)))
  {
    var s := After(c, zero, acts);
    var q := DoRead(s);
    if q != s {
      CallbackPassed(c, s);
      var t, mark, n := CurrentTest(s), MarkOf(s), |s.pending.row.snaps|;
      forall k | 0 <= k < |q.workers| ensures HasColumn(c, zero, acts + [a], t, k, ReadSoFar(q.pending, k), mark) {
        assert HasColumn(c, zero, acts, t, k, ReadSoFar(s.pending, k), mark);
        if k == n {
          assert ReadFrom(s, t, k, q.pending.row.snaps[k]);
          assert ReadSoFar(s.pending, k) == s.pending.rows;
          ColumnMore(c, zero, acts, a, t, k, s.pending.rows, q.pending.row, mark);
        } else {
          assert HasColumn(c, zero, acts + [a], t, k, ReadSoFar(s.pending, k), mark);
          ColumnSame(c, zero, acts + [a], t, k, ReadSoFar(s.pending, k), ReadSoFar(q.pending, k), mark);
        }
      }
    }
  }

  /** A row is done when it shows all streams. */
  lemma RowColumns(c: Config, zero: nat, acts: seq<Action>, s: State)
    requires PendingColumns(c, zero, acts, s)
    ensures PendingColumns(c, zero, acts, DoRow(s)) && PendingColumns(c, zero, acts, DoStamp(s))
  {
    if s.pending.Pending? {
      forall k | 0 <= k < |s.workers|
        ensures HasColumn(c, zero, acts, CurrentTest(s), k, ReadSoFar(DoRow(s).pending, k), MarkOf(s))
        ensures HasColumn(c, zero, acts, CurrentTest(s), k, ReadSoFar(DoStamp(s).pending, k), MarkOf(s))
      {
        assert HasColumn(c, zero, acts, CurrentTest(s), k, ReadSoFar(s.pending, k), MarkOf(s));
        assert ReadSoFar(DoRow(s).pending, k) == ReadSoFar(s.pending, k) == ReadSoFar(DoStamp(s).pending, k);
      }
    }
  }

  lemma BeginColumns(c: Config, zero: nat, acts: seq<Action>, s: State)
    requires PendingColumns(c, zero, acts, s)
    ensures PendingColumns(c, zero, acts, DoBegin(s))
  {
    if s.pending.Nothing? {
      forall k | 0 <= k < |s.workers|
        ensures HasColumn(c, zero, acts, CurrentTest(s), k, [], MarkOf(s))
      {
        assert ColumnRead(c, zero, acts, CurrentTest(s), k, [], MarkOf(s), []);
      }
      assert MarkOf(DoBegin(s)) == MarkOf(s);
      assert DoBegin(s).pending.Pending? ==> forall k :: ReadSoFar(DoBegin(s).pending, k) == [];
    }
  }

  /** While a report is under way, neither its test nor the tick changes, and nothing else is handed over. */
  lemma PendingStays(c: Config, zero: nat, s: State, a: Action)
    requires Base(c, zero, s) && s.pending.Pending?
    requires !a.CalcBegin? && !a.CalcRead? && !a.CalcStamp? && !a.CalcRow?
    ensures var q := Do(c, s, a);
            q.pending.Nothing? ||
            (q.pending == s.pending && CurrentTest(q) == CurrentTest(s) && MarkOf(q) == MarkOf(s)
             && (|q.workers| == |s.workers| || (s.pending.rows == [] && !s.pending.open)))
  {
    match a
    case Work(i, m) =>
      if s.seqr.Joining? && i < |s.workers| {
        WorkerFrame(c, CurrentTest(s), s.workers[i], s.sh, s.now, m);
      }
    case Create(pids) =>
      if s.pending.maxSteps > 0 {
        CallbackPassed(c, s);
      }
    case _ =>
  }

  lemma PendingOther(c: Config, zero: nat, acts: seq<Action>, s: State, a: Action)
    requires Base(c, zero, s) && PendingColumns(c, zero, acts, s)
    requires !a.CalcBegin? && !a.CalcRead? && !a.CalcStamp? && !a.CalcRow?
    ensures PendingColumns(c, zero, acts, Do(c, s, a))
  {
    var q := Do(c, s, a);
    if s.pending.Pending? {
      PendingStays(c, zero, s, a);
      if q.pending.Pending? {
        forall k | 0 <= k < |q.workers|
          ensures HasColumn(c, zero, acts, CurrentTest(q), k, ReadSoFar(q.pending, k), MarkOf(q))
        {
          if k < |s.workers| {
            assert HasColumn(c, zero, acts, CurrentTest(s), k, ReadSoFar(s.pending, k), MarkOf(s));
          } else {
            assert ColumnRead(c, zero, acts, CurrentTest(q), k, ReadSoFar(q.pending, k), MarkOf(q), []);
          }
        }
      }
    }
  }

  lemma PendingStep(c: Config, zero: nat, acts: seq<Action>, a: Action)
    requires var s := After(c, zero, acts);
             Base(c, zero, s) && PendingColumns(c, zero, acts, s) && PendingStamp(c, zero, acts, s)
    ensures PendingColumns(c, zero, acts + [a], Do(c, After(c, zero, acts), a))
  {
    var s := After(c, zero, acts);
    PendingLater(c, zero, acts, a, s);
    match a
    case CalcRead => ReadColumns(c, zero, acts, a);
    case CalcBegin => BeginColumns(c, zero, acts + [a], s);
    case CalcStamp => RowColumns(c, zero, acts + [a], s);
    case CalcRow => RowColumns(c, zero, acts + [a], s);
    case _ => PendingOther(c, zero, acts + [a], s, a);
  }

  /** A row begins with reading the clock. */
  lemma StampStep(c: Config, zero: nat, acts: seq<Action>, a: Action)
    requires Base(c, zero, After(c, zero, acts)) && PendingStamp(c, zero, acts, After(c, zero, acts))
    ensures PendingStamp(c, zero, acts + [a], Do(c, After(c, zero, acts), a))
  {
    var s := After(c, zero, acts);
    var q := Do(c, s, a);
    if q.pending.Pending? && q.pending.open {
      if s.pending.Pending? && s.pending.open {
        StampKept(c, zero, s, a);
        StampLater(c, zero, acts, a, s.pending.row.now, MarkOf(s), |acts|);
      } else {
        StampNew(c, zero, s, a);
        assert (acts + [a])[..|acts|] == acts;
        assert ClockAt(c, zero, acts + [a], s.now, MarkOf(s), |acts|);
      }
    }
  }

  lemma StampKept(c: Config, zero: nat, s: State, a: Action)
    requires Base(c, zero, s) && s.pending.Pending? && s.pending.open
    requires Do(c, s, a).pending.Pending? && Do(c, s, a).pending.open
    ensures Do(c, s, a).pending.row.now == s.pending.row.now && MarkOf(Do(c, s, a)) == MarkOf(s)
  {
    match a
    case CalcBegin =>
    case CalcRead =>
    case CalcStamp =>
    case CalcRow =>
    case _ => PendingStays(c, zero, s, a);
  }

  lemma StampNew(c: Config, zero: nat, s: State, a: Action)
    requires Base(c, zero, s) && !(s.pending.Pending? && s.pending.open)
    requires Do(c, s, a).pending.Pending? && Do(c, s, a).pending.open
    ensures Do(c, s, a).pending.row.now == s.now && MarkOf(Do(c, s, a)) == MarkOf(s) && InCallback(s)
  {
    match a
    case CalcStamp =>
    case _ => NoStamp(c, s, a);
  }

  lemma NoStamp(c: Config, s: State, a: Action)
    requires !a.CalcStamp? && !(s.pending.Pending? && s.pending.open)
    ensures !(Do(c, s, a).pending.Pending? && Do(c, s, a).pending.open)
  {
  }

  /** What is handed over are the columns read so far. */
  lemma HandedColumns(c: Config, zero: nat, acts: seq<Action>, s: State)
    requires Base(c, zero, s) && PendingColumns(c, zero, acts, s) && DoEnd(c, s) != s
    ensures Columns(c, zero, acts, CurrentTest(s), s.pending.rows, MarkOf(s))
  {
    var t, mark := CurrentTest(s), MarkOf(s);
    if |s.pending.rows| > 0 {
      CallbackPassed(c, s);
    }
    forall k | 0 <= k < Instances(c, t) ensures HasColumn(c, zero, acts, t, k, s.pending.rows, mark) {
      if |s.pending.rows| > 0 {
        assert ReadSoFar(s.pending, k) == s.pending.rows;
      } else {
        assert ColumnRead(c, zero, acts, t, k, s.pending.rows, mark, []);
      }
    }
  }

  /** Callbacks that are added leave the earlier ones as they are. */
  lemma TraceMore(c: Config, zero: nat, acts: seq<Action>, trace: seq<Event>, more: seq<Event>)
    requires TraceColumns(c, zero, acts, trace)
    requires forall j | |trace| <= j < |trace + more| :: EventColumns(c, zero, acts, trace + more, j)
    ensures TraceColumns(c, zero, acts, trace + more)
  {
    var all := trace + more;
    forall j | 0 <= j < |trace| && (trace[j].Report? || trace[j].Finish?)
      ensures EventColumns(c, zero, acts, all, j)
    {
      assert EventColumns(c, zero, acts, trace, j);
      var mark :| EventMarked(c, zero, acts, trace, j, mark);
      assert EventMarked(c, zero, acts, all, j, mark);
    }
  }

  lemma TraceSilent(c: Config, zero: nat, acts: seq<Action>, trace: seq<Event>, performed: set<Test>, e: Event)
    requires TraceColumns(c, zero, acts, trace) && !e.Report? && !e.Finish?
    ensures TraceColumns(c, zero, acts, trace + Emitted(c, performed, e))
  {
    TraceMore(c, zero, acts, trace, Emitted(c, performed, e));
  }

  lemma TraceHanded(c: Config, zero: nat, acts: seq<Action>, trace: seq<Event>, performed: set<Test>, e: Event,
                    mark: Mark)
    requires TraceColumns(c, zero, acts, trace) && (e.Report? || e.Finish?)
    requires Columns(c, zero, acts, e.test, e.readings, mark)
    requires mark.events == |trace| && (e.Report? ==> mark.tick == e.index)
    ensures TraceColumns(c, zero, acts, trace + Emitted(c, performed, e))
  {
    var all := trace + Emitted(c, performed, e);
    forall j | |trace| <= j < |all| && (all[j].Report? || all[j].Finish?) ensures EventColumns(c, zero, acts, all, j) {
      assert all[j] == e && Fits(all, j, mark);
      assert EventMarked(c, zero, acts, all, j, mark);
    }
    TraceMore(c, zero, acts, trace, Emitted(c, performed, e));
  }

  lemma TraceStep(c: Config, zero: nat, acts: seq<Action>, s: State, a: Action)
    requires Base(c, zero, s) && TraceColumns(c, zero, acts, s.trace) && PendingColumns(c, zero, acts, s)
    ensures TraceColumns(c, zero, acts, Do(c, s, a).trace)
  {
    match a
    case CalcEnd =>
      if DoEnd(c, s) != s {
        HandedColumns(c, zero, acts, s);
        TraceHanded(c, zero, acts, s.trace, DoEnd(c, s).performed, Handed(s), MarkOf(s));
      }
    case TimerStep =>
      if DoTimer(c, s).trace != s.trace {
        var e := EventOf(Step(Result(s.sh, s.timer, []), s.now).calls[0]);
        TraceSilent(c, zero, acts, s.trace, s.performed, e);
      }
    case Decide =>
      if DoDecide(c, s).trace != s.trace {
        TraceMore(c, zero, acts, s.trace, [Started(TestAt(s.seqr.k))]);
      }
    case _ =>
  }

  ghost predicate AllColumns(c: Config, zero: nat, acts: seq<Action>) {
    var s := After(c, zero, acts);
    PendingColumns(c, zero, acts, s) && PendingStamp(c, zero, acts, s) && TraceColumns(c, zero, acts, s.trace)
  }

  lemma ColumnsBegin(c: Config, zero: nat)
    ensures AllColumns(c, zero, [])
  {
  }

  lemma ColumnsStep(c: Config, zero: nat, acts: seq<Action>, a: Action)
    requires Base(c, zero, After(c, zero, acts)) && AllColumns(c, zero, acts)
    ensures AllColumns(c, zero, acts + [a])
  {
    var s := After(c, zero, acts);
    assert (acts + [a])[..|acts|] == acts;
    assert After(c, zero, acts + [a]) == Do(c, s, a);
    PendingStep(c, zero, acts, a);
    StampStep(c, zero, acts, a);
    PendingLater(c, zero, acts, a, s);
    TraceLater(c, zero, acts, a, s.trace);
    TraceStep(c, zero, acts + [a], s, a);
  }

  lemma {:induction false} ColumnsAlways(c: Config, zero: nat, acts: seq<Action>)
    requires Sane(c)
    ensures AllColumns(c, zero, acts)
  {
    if acts == [] {
      ColumnsBegin(c, zero);
    } else {
      var init, a := acts[..|acts| - 1], acts[|acts| - 1];
      BaseAlways(c, zero, init);
      ColumnsAlways(c, zero, init);
      ColumnsStep(c, zero, init, a);
      assert init + [a] == acts;
    }
  }

  /** Every stream of every report or final result of a run was read from states this run was in, row after
      row and all in one callback: at one tick, which for a report is its own, and after the callbacks
      before it. */
  lemma EntriesWitnessed(c: Config, zero: nat, acts: seq<Action>, j: nat, k: nat) returns (mark: Mark, ns: seq<nat>)
    requires Sane(c) && j < |Trace(c, zero, acts)|
    requires Trace(c, zero, acts)[j].Report? || Trace(c, zero, acts)[j].Finish?
    requires k < Instances(c, Trace(c, zero, acts)[j].test)
    ensures var e := Trace(c, zero, acts)[j];
            ColumnRead(c, zero, acts, e.test, k, e.readings, mark, ns) && Fits(Trace(c, zero, acts), j, mark)
  {
    ColumnsAlways(c, zero, acts);
    var t := Trace(c, zero, acts);
    assert EventColumns(c, zero, acts, t, j);
    mark :| EventMarked(c, zero, acts, t, j, mark);
    assert HasColumn(c, zero, acts, t[j].test, k, t[j].readings, mark);
    ns :| ColumnRead(c, zero, acts, t[j].test, k, t[j].readings, mark, ns);
  }

  // ----- the order of the readings of two reports

  lemma TraceRises(c: Config, s: State, a: Action)
    ensures |s.trace| <= |Do(c, s, a).trace|
  {
  }

  lemma {:induction false} TraceSince(c: Config, zero: nat, acts: seq<Action>, n: nat)
    requires n <= |acts|
    ensures |After(c, zero, acts[..n]).trace| <= |After(c, zero, acts).trace|
  {
    if n == |acts| {
      assert acts[..n] == acts;
    } else {
      var init := acts[..|acts| - 1];
      assert init[..n] == acts[..n];
      TraceSince(c, zero, init, n);
      TraceRises(c, After(c, zero, init), acts[|acts| - 1]);
    }
  }

  /** Whatever a report shows was read before whatever a later report or the final result shows. */
  lemma ReadInOrder(c: Config, zero: nat, acts: seq<Action>, i: nat, j: nat, a: Mark, b: Mark, n: nat, m: nat)
    requires i < j < |Trace(c, zero, acts)| && Trace(c, zero, acts)[i].Report?
    requires Fits(Trace(c, zero, acts), i, a) && Fits(Trace(c, zero, acts), j, b)
    requires n <= |acts| && Marks(After(c, zero, acts[..n]), a)
    requires m <= |acts| && Marks(After(c, zero, acts[..m]), b)
    ensures n <= m
  {
    var e := Trace(c, zero, acts)[i];
    assert b.events <= i ==> e == MeasurementEnd;
    if m < n {
      assert acts[..n][..m] == acts[..m];
      TraceSince(c, zero, acts[..n], m);
    }
  }
}
