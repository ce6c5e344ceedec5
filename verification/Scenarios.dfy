/** Runs of the client, undisturbed from outside, that show that the hypotheses of the guarantees occur and
    that the properties the code does not have fail. */
module Scenarios {
  import opened OrderedMaps
  import opened Aggregator
  import opened Protocol
  import opened Timer
  import opened Session
  import opened Invariants
  import opened Clocks
  import opened Histories
  import opened Course
  import opened Stability
  import opened Times
  import opened Conformance
  import opened Witnesses
  import opened Reports
  import opened Sums
  import opened Possibility
  import Guarantees
  import LateRecords
  import Download
  import Upload

  // ----- at the first poll of a measurement

  /** Test k has just passed its barrier, every worker has received something once, and no tick has
      passed. */
  ghost predicate JustStarted(c: Config, zero: nat, s: State, k: nat) {
    && Reaches(c, zero, s) && s.seqr == Joining(k) && s.timer.at.Poll? && Calm(s.sh.flags) && s.pending.Nothing?
    && s.sh.tick == Ticking(true, true, false, 0, 0) && s.sh.first == 0 && s.sh.duration == Duration(c, TestAt(k))
    && s.timer.current == 0 && OnTheHour(s, 0)
    && |s.workers| == Instances(c, TestAt(k)) && forall i | 0 <= i < |s.workers| :: Entered(TestAt(k), s.workers[i])
  }

  lemma StartDuration(c: Config, zero: nat, s: State, k: nat)
    requires Sane(c) && Reaches(c, zero, s) && s.seqr == Joining(k) && Passed(s)
    ensures s.sh.duration == Duration(c, TestAt(k))
  {
    ReachedBase(c, zero, s);
    NoStaleDuration(c, s);
  }

  lemma ToStart(c: Config, zero: nat, k: nat) returns (q: State)
    requires Sane(c) && 2 <= k < 4 && Enabled(c, k)
    ensures JustStarted(c, zero, q, k)
  {
    q := AllTests(c, zero, k);
    q := Launch(c, zero, q, k);
    q := EnterAll(c, zero, q);
    q := ToBarrier(c, zero, q);
    q := ToPoll(c, zero, q);
    StartDuration(c, zero, q, k);
  }

  // ----- two reports

  lemma HandedOver(c: Config, trace: seq<Event>, performed: set<Test>, e: Event) returns (i: nat)
    ensures |trace| <= i < |trace + Emitted(c, performed, e)| && (trace + Emitted(c, performed, e))[i] == e
  {
    i := |trace| + if performed == EnabledBelow(c, 4) then 1 else 0;
  }

  /** The download runs, its clock shows m half seconds, and a stream is alive. */
  ghost predicate Downloading(c: Config, zero: nat, s: State, m: nat) {
    && Reaches(c, zero, s) && s.seqr == Joining(2) && s.timer.at.Poll? && Calm(s.sh.flags) && s.pending.Nothing?
    && s.sh.tick.running && !s.sh.tick.stopped && s.sh.duration == c.downloadDuration
    && s.timer.current == m && OnTheHour(s, m) && |s.workers| > 0 && s.workers[0].response > 0
  }

  ghost predicate ReportIn(trace: seq<Event>, i: nat, n: nat) {
    i < |trace| && trace[i].Report? && IsDownload(trace[i]) && |trace[i].readings| == n
  }

  lemma StepsAt(s: State, n: nat)
    requires s.seqr == Joining(2) && s.sh.tick.elapsed == n * 500000 && n <= s.sh.duration * 2
    ensures StepsNow(s) == n
  {
  }

  /** A report can be made at any later half second. */
  lemma MakeReport(c: Config, zero: nat, s: State, m: nat, n: nat) returns (q: State, i: nat)
    requires Sane(c) && Downloading(c, zero, s, m) && m < n < c.downloadDuration * 2
    ensures Downloading(c, zero, q, n) && s.trace <= q.trace && |s.trace| <= i && ReportIn(q.trace, i, n)
  {
    var p := ToReport(c, zero, s, m, n);
    StepsAt(p, n);
    var r, e := Deliver(c, zero, p);
    i := HandedOver(c, p.trace, r.performed, e);
    assert s.trace <= r.trace && ReportIn(r.trace, i, n);
    q := PollOn(c, zero, r);
  }

  /** Every configuration with a download of at least two seconds has a run with two download reports, of
      one and of two steps. */
  lemma TwoReports(c: Config, zero: nat) returns (acts: seq<Action>, i: nat, j: nat)
    requires Sane(c) && c.download && c.downloadDuration >= 2
    ensures Undisturbed(acts) && i < j && ReportIn(Trace(c, zero, acts), i, 1) && ReportIn(Trace(c, zero, acts), j, 2)
  {
    var s := ToStart(c, zero, 2);
    s, i := MakeReport(c, zero, s, 0, 1);
    var q;
    q, j := MakeReport(c, zero, s, 1, 2);
    assert q.trace[i] == s.trace[i];
    acts :| Undisturbed(acts) && After(c, zero, acts) == q;
  }

  // ----- data from before the start may be lost

  lemma AtFinish(c: Config, zero: nat, s: State)
    requires Sane(c) && Reaches(c, zero, s) && InDownload(s) && s.timer.at.Finishing?
    ensures StepsNow(s) == c.downloadDuration * 2 && |s.workers| > 0 && InForceOther(c, s)
    ensures InDomain(s.workers[0], c.downloadDuration) && Accounted(s.workers[0], s.sh)
  {
    ReachedBase(c, zero, s);
    Lengths(c, zero, s, 2);
    DomainNow(c, zero, s);
  }

  /** Every configuration with a download has a run in which a stream received data before the start, and
      no entry of its final result shows any of it. */
  lemma BeforeStartIsLost(c: Config, zero: nat) returns (acts: seq<Action>, j: nat)
    requires Sane(c) && c.download
    ensures Undisturbed(acts) && j < |Trace(c, zero, acts)|
    ensures var e, s := Trace(c, zero, acts)[j], After(c, zero, acts);
            && e.Finish? && IsDownload(e) && InDownload(s) && |e.readings| > 0 && |s.workers| > 0
            && Download.AccountAll(c.downloadDuration, s.workers[0].chunks).total == 8
            && forall i | 0 <= i < |e.readings| ::
                 |e.readings[i].snaps| > 0 && Shown(zero, DOWNLOAD, e.readings, i, 0).total == 0
  {
    var s := ToStart(c, zero, 2);
    s := ToFinish(c, zero, s);
    AtFinish(c, zero, s);
    var q, e := Deliver(c, zero, s);
    j := HandedOver(c, s.trace, q.performed, e);
    forall i | 0 <= i < |e.readings| ensures Shown(zero, DOWNLOAD, e.readings, i, 0).total == 0 {
      assert RowOf(s, e.readings[i]);
      OneEarlyChunk(c, zero, s, e.readings, i);
    }
    OneChunk(c.downloadDuration);
    acts :| Undisturbed(acts) && After(c, zero, acts) == q;
  }

  lemma OneChunk(d: nat)
    ensures var cs := [Download.Chunk(8, false, false, 0)];
            && Download.AccountAll(d, cs).total == 8 && Download.Before(cs) == 8
            && Download.FirstHits(cs) == 0 && Download.Suppressed(cs) == 0
  {
    var c := Download.Chunk(8, false, false, 0);
    Download.AccountMore(d, [], c);
    assert [] + [c] == [c] && [c][..0] == [];
  }

  lemma OneEarlyChunk(c: Config, zero: nat, s: State, rs: seq<Reading>, i: nat)
    requires InForceOther(c, s) && i < |rs| <= c.downloadDuration * 2 && 0 < |rs[i].snaps|
    requires ReadFrom(s, DownloadTest, 0, rs[i].snaps[0])
    requires InDomain(s.workers[0], c.downloadDuration) && Accounted(s.workers[0], s.sh)
    requires s.workers[0].chunks == [Download.Chunk(8, false, false, 0)]
    ensures Shown(zero, DOWNLOAD, rs, i, 0).total == 0
  {
    OneChunk(c.downloadDuration);
    Guarantees.DownloadState(c, zero, s, rs, i, 0);
  }

  // ----- a final result that does not add up

  /** A download of one second on one stream. */
  const Short: Config := Config(false, true, false, 0, 1, 1, 1, 1)

  /** The one worker waits in its receive, while the timer has begun the final result. */
  ghost predicate Waiting(c: Config, zero: nat, s: State) {
    && Reaches(c, zero, s) && InDownload(s) && s.timer.at.Finishing? && Calm(s.sh.flags) && s.pending.Nothing?
    && s.sh.tick.running && s.sh.tick.index == 0
    && |s.workers| == 1 && s.workers[0].place.Waiting? && s.workers[0].response > 0 && s.workers[0].synced
    && s.workers[0].chunks == [Download.Chunk(8, false, false, 0)]
  }

  lemma ToWaiting(zero: nat) returns (q: State)
    ensures Waiting(Short, zero, q)
  {
    q := ToStart(Short, zero, 2);
    assert Entered(DownloadTest, q.workers[0]);
    q := Take(Short, zero, q, Work(0, Guard));
    q := ToFinish(Short, zero, q);
  }

  /** The final result is begun: two rows to read. */
  lemma ToRows(zero: nat, s: State) returns (q: State)
    requires Waiting(Short, zero, s)
    ensures Reaches(Short, zero, q) && q == s.(pending := Pending(2, [], false, Blank))
  {
    AtFinish(Short, zero, s);
    q := Take(Short, zero, s, CalcBegin);
  }

  lemma GrownReceive(c: Config, s: State, q: State)
    requires InDownload(s) && |s.workers| == 1 && s.workers[0].place.Waiting?
    requires !s.sh.flags.hasError && s.sh.tick.running
    requires q == DoWork(c, s, 0, Receive(1, 8))
    ensures Grown(s, q) && q.sh.tick == s.sh.tick && q.sh.flags == s.sh.flags && q.seqr == s.seqr
    ensures |q.workers| == 1 && q.workers[0].response == 8
    ensures q.workers[0].chunks == s.workers[0].chunks + [Download.Chunk(8, true, false, s.sh.tick.index)]
    ensures q.timer == s.timer && q.pending == s.pending
  {
  }

  lemma SomethingNew(s: State, q: State, k: nat, c: Download.Chunk)
    requires k < |s.workers| && k < |q.workers|
    requires q.workers[k].chunks == s.workers[k].chunks + [c] && Download.Counted(c)
    ensures !NothingNew(s, q, k)
  {
    assert q.workers[k].chunks[|s.workers[k].chunks|..] == [c];
    assert c in q.workers[k].chunks[|s.workers[k].chunks|..];
  }

  lemma ReadTwiceIs(c: Config, zero: nat, s: State, q: State, k: nat, a: Snapshot, b: Snapshot)
    requires Sane(c) && Reaches(c, zero, s) && Reaches(c, zero, q) && InDownload(s) && q.seqr == s.seqr
    requires Grown(s, q) && q.sh.tick == s.sh.tick && s.sh.tick.running && k < |s.workers| == |q.workers|
    requires a == Snap(DownloadTest, s.workers[k], s.sh) && b == Snap(DownloadTest, q.workers[k], q.sh)
    ensures ReadTwice(c, zero, s, q, k, a, b)
  {
    ReachedBase(c, zero, s);
    ReachedBase(c, zero, q);
  }

  /** Two rows, read in s and in q, with a chunk of the current tick in between. */
  lemma TwoRows(c: Config, zero: nat, s: State, q: State, rs: seq<Reading>, i: nat, k: nat)
    requires Sane(c) && Reaches(c, zero, s) && Reaches(c, zero, q) && InDownload(s) && q.seqr == s.seqr
    requires Grown(s, q) && q.sh.tick == s.sh.tick && s.sh.tick.running && s.sh.tick.index <= i
    requires k < |s.workers| == |q.workers| && !s.sh.flags.hasError
    requires q.workers[k].chunks == s.workers[k].chunks + [Download.Chunk(8, true, false, s.sh.tick.index)]
    requires i + 1 < |rs| <= c.downloadDuration * 2 && RowOf(s, rs[i]) && RowOf(q, rs[i + 1])
    ensures k < |rs[i].snaps| && k < |rs[i + 1].snaps| && !Continues(zero, DOWNLOAD, rs, i, k)
  {
    ReadTwiceIs(c, zero, s, q, k, rs[i].snaps[k], rs[i + 1].snaps[k]);
    StatesAddUp(c, zero, s, q, rs, i, k);
    SomethingNew(s, q, k, Download.Chunk(8, true, false, s.sh.tick.index));
  }

  /** Two consecutive entries of a stream whose byte counts do not add up. */
  ghost predicate Breaks(zero: nat, rs: seq<Reading>, i: nat, k: nat) {
    i + 1 < |rs| && k < |rs[i].snaps| && k < |rs[i + 1].snaps| && !Continues(zero, DOWNLOAD, rs, i, k)
  }

  /** The two rows of the final result, with a receive in between. */
  lemma RowsWithReceive(zero: nat) returns (q: State, i: nat, k: nat)
    ensures Reaches(Short, zero, q) && InDownload(q) && q.timer.at.Finishing?
    ensures q.pending.Pending? && q.pending.maxSteps == |q.pending.rows| && !q.pending.open
    ensures Breaks(zero, q.pending.rows, i, k)
  {
    var s := ToWaiting(zero);
    s := ToRows(zero, s);
    var s1, r1 := OneRow(Short, zero, s);
    var s2 := Take(Short, zero, s1, Work(0, Receive(1, 8)));
    GrownReceive(Short, s1, s2);
    var r2;
    q, r2 := OneRow(Short, zero, s2);
    assert q.pending.rows == [r1, r2];
    assert RowOf(s1, r1) && RowOf(s2, r2);
    i, k :| i == k == 0;
    TwoRows(Short, zero, s1, s2, q.pending.rows, i, k);
  }

  /** A run of one second with one poll: no tick has passed when the timer stops the test, a chunk arrives
      between the two rows of the final result, and its byte counts do not add up. */
  lemma FinishDoesNotAddUp(zero: nat) returns (acts: seq<Action>, j: nat, i: nat, k: nat)
    ensures Undisturbed(acts) && j < |Trace(Short, zero, acts)|
    ensures Trace(Short, zero, acts)[j].Finish? && IsDownload(Trace(Short, zero, acts)[j])
    ensures Breaks(zero, Trace(Short, zero, acts)[j].readings, i, k)
  {
    var s;
    s, i, k := RowsWithReceive(zero);
    var q := Take(Short, zero, s, CalcEnd);
    j := HandedOver(Short, s.trace, q.performed, Handed(s));
    acts :| Undisturbed(acts) && After(Short, zero, acts) == q;
  }

  // ----- data received with an error flagged

  /** Some run reaches the state. */
  ghost predicate Leads(c: Config, zero: nat, s: State) {
    exists acts :: After(c, zero, acts) == s
  }

  lemma Act(c: Config, zero: nat, s: State, a: Action) returns (q: State)
    requires Leads(c, zero, s)
    ensures q == Do(c, s, a) && Leads(c, zero, q)
  {
    q := Do(c, s, a);
    var acts :| After(c, zero, acts) == s;
    assert (acts + [a])[..|acts|] == acts;
    assert After(c, zero, acts + [a]) == q;
  }

  /** What the one worker has received before the start, in bucket 0, and later on. */
  const Met: seq<Download.Chunk> := [Download.Chunk(8, false, false, 0), Download.Chunk(8, true, false, 0)]
  const Missed: Download.Chunk := Download.Chunk(8, true, true, 1)

  lemma MetCounts()
    ensures Download.FirstHits(Met + [Missed]) == 1 && Download.Suppressed(Met + [Missed]) == 8
  {
    var cs := Met + [Missed];
    assert cs[..2] == Met && Met[..1] == [Download.Chunk(8, false, false, 0)];
    OneChunk(1);
  }

  /** The one worker waits in its receive with these chunks, and the first report is being made. */
  ghost predicate Midway(zero: nat, s: State) {
    && s.seqr == Joining(2) && s.timer.at.Reporting? && s.pending.Nothing?
    && s.sh.tick.running && s.sh.tick.index == 1 && s.sh.duration == 1 && StepsNow(s) == 1
    && |s.workers| == 1 && s.workers[0].place.Waiting? && s.workers[0].response > 0 && s.workers[0].chunks == Met
  }

  lemma ToMidway(zero: nat) returns (q: State)
    ensures Reaches(Short, zero, q) && Midway(zero, q)
  {
    q := ToStart(Short, zero, 2);
    assert Entered(DownloadTest, q.workers[0]);
    q := Take(Short, zero, q, Work(0, Guard));
    q := Take(Short, zero, q, Work(0, Receive(1, 8)));
    q := Take(Short, zero, q, Work(0, Guard));
    q := ToReport(Short, zero, q, 0, 1);
    StepsAt(q, 1);
  }

  /** An error comes in from outside, and then one more chunk. */
  lemma HitMidway(zero: nat, s: State) returns (q: State)
    requires Leads(Short, zero, s) && Midway(zero, s)
    ensures Leads(Short, zero, q)
    ensures q.seqr == s.seqr && q.timer == s.timer && q.pending == Pending(1, [], false, Blank) && q.trace == s.trace
    ensures q.sh.tick == s.sh.tick && q.sh.duration == s.sh.duration
    ensures |q.workers| == 1 && q.workers[0].chunks == Met + [Missed]
  {
    q := Act(Short, zero, s, CalcBegin);
    q := Act(Short, zero, q, Abort);
    q := Act(Short, zero, q, Work(0, Receive(1, 8)));
  }

  lemma ReadOnly(zero: nat, s: State) returns (q: State)
    requires Leads(Short, zero, s) && s.seqr == Joining(2) && s.timer.at.Reporting?
    requires s.pending == Pending(1, [], false, Blank) && |s.workers| == 1
    ensures Leads(Short, zero, q)
    ensures q == s.(pending := Pending(1, [], true, Reading(s.now, [Snap(DownloadTest, s.workers[0], s.sh)])))
  {
    q := Act(Short, zero, s, CalcStamp);
    q := Act(Short, zero, q, CalcRead);
    assert q.pending.row.snaps == [Snap(DownloadTest, s.workers[0], s.sh)];
  }

  /** The report is read and handed over. */
  lemma ReadMidway(zero: nat, s: State) returns (q: State, j: nat)
    requires Leads(Short, zero, s) && s.seqr == Joining(2) && s.timer.at.Reporting?
    requires s.pending == Pending(1, [], false, Blank) && |s.workers| == 1
    ensures Leads(Short, zero, q) && q.seqr == s.seqr && q.workers == s.workers
    ensures q.sh.tick == s.sh.tick && q.sh.duration == s.sh.duration
    ensures j < |q.trace| && q.trace[j].Report? && IsDownload(q.trace[j]) && |q.trace[j].readings| == 1
    ensures q.trace[j].readings[0].snaps == [Snap(DownloadTest, q.workers[0], q.sh)]
  {
    var p := ReadOnly(zero, s);
    p := Act(Short, zero, p, CalcRow);
    q := Act(Short, zero, p, CalcEnd);
    j := HandedOver(Short, p.trace, q.performed, Handed(p));
  }

  lemma EntryOfState(zero: nat, s: State, rs: seq<Reading>, i: nat, k: nat)
    requires Leads(Short, zero, s) && InDownload(s) && s.sh.tick.running && |s.workers| == 1
    requires i == 0 && k == 0 && |rs| == 1 && rs[i].snaps == [Snap(DownloadTest, s.workers[k], s.sh)]
    ensures Guarantees.DownloadEntry(Short, zero, s, rs, i, k)
  {
    var acts :| After(Short, zero, acts) == s;
    BaseAlways(Short, zero, acts);
    DomainNow(Short, zero, s);
    Guarantees.DataBeforeStart(Short, zero, acts, k);
    Guarantees.DownloadState(Short, zero, s, rs, i, k);
  }

  /** A run in which a stream received data before the start and in bucket 0, and a report that was read after
      an error does not show all of it. */
  lemma ErrorHidesData(zero: nat) returns (acts: seq<Action>, j: nat, i: nat, k: nat)
    ensures j < |Trace(Short, zero, acts)|
    ensures var e, s := Trace(Short, zero, acts)[j], After(Short, zero, acts);
            && e.Report? && IsDownload(e) && i < |e.readings| && k < |e.readings[i].snaps| && k < |s.workers|
            && ReadFrom(s, DownloadTest, k, e.readings[i].snaps[k])
            && i + 1 <= |Counted(DOWNLOAD, e.readings[i].snaps[k])|
            && Download.FirstHits(s.workers[k].chunks) == 1
            && Guarantees.ShownBits(zero, e.readings, i, k) + 8 == Download.AccountAll(1, s.workers[k].chunks).total
  {
    var s := ToMidway(zero);
    assert Leads(Short, zero, s) by {
      var some :| Undisturbed(some) && After(Short, zero, some) == s;
    }
    s := HitMidway(zero, s);
    s, j := ReadMidway(zero, s);
    i, k :| i == 0 && k == 0;
    EntryOfState(zero, s, s.trace[j].readings, i, k);
    MetCounts();
    acts :| After(Short, zero, acts) == s;
  }

  // ----- completion with an error

  lemma DeadRowRead(c: Config, zero: nat, s: State) returns (q: State, r: Reading)
    requires Reaches(c, zero, s) && InCallback(s) && s.pending.Pending? && !s.pending.open
    requires |s.pending.rows| < s.pending.maxSteps
    requires |s.workers| == 1 && s.workers[0].response == 0
    ensures Reaches(c, zero, q) && q.sh.flags.hasError
    ensures q.sh == s.sh.(flags := q.sh.flags) && q.timer == s.timer && q.workers == s.workers && q.seqr == s.seqr
    ensures q.performed == s.performed && q.trace == s.trace
    ensures q.pending == Pending(s.pending.maxSteps, s.pending.rows + [r], false, Blank)
  {
    q := ReadRow(c, zero, s);
    r := q.pending.row;
    assert Alive(r, 1) == Alive(r, 0) + if r.snaps[0].response > 0 then 1 else 0;
    q := Take(c, zero, q, CalcRow);
  }

  lemma LastPerformed(zero: nat, s: State)
    requires Reaches(Short, zero, s) && InDownload(s) && s.timer.at.Finishing?
    ensures s.performed + {DownloadTest} == EnabledBelow(Short, 4)
  {
    ReachedBase(Short, zero, s);
    EnabledMore(Short, 2);
    EnabledAll(Short, 3);
  }

  /** The stream ends before the final result is read, and the first row flags an error. */
  lemma FirstDeadRow(zero: nat) returns (q: State)
    ensures Reaches(Short, zero, q) && InDownload(q) && q.timer.at.Finishing? && q.sh.flags.hasError
    ensures q.pending.Pending? && q.pending.maxSteps == 2 && |q.pending.rows| == 1 && !q.pending.open
    ensures |q.workers| == 1 && q.workers[0].response == 0 && q.workers[0].place.Ended?
    ensures q.performed + {DownloadTest} == EnabledBelow(Short, 4)
  {
    q := ToWaiting(zero);
    LastPerformed(zero, q);
    q := ToRows(zero, q);
    q := Take(Short, zero, q, Work(0, Receive(0, 0)));
    var r;
    q, r := DeadRowRead(Short, zero, q);
  }

  /** A run that nobody disturbs, and that completes with an error. */
  lemma CompletesWithError(zero: nat) returns (acts: seq<Action>)
    ensures Undisturbed(acts) && Completed in Trace(Short, zero, acts) && After(Short, zero, acts).sh.flags.hasError
  {
    var s := FirstDeadRow(zero);
    var r;
    s, r := DeadRowRead(Short, zero, s);
    var q := Take(Short, zero, s, CalcEnd);
    assert q.trace == s.trace + [MeasurementEnd, Handed(s), Completed];
    assert q.trace[|q.trace| - 1] == Completed;
    acts :| Undisturbed(acts) && After(Short, zero, acts) == q;
  }

  // ----- a stream that is read after it was deleted

  /** An undisturbed run in which the stream ends before the final result is read, the first row of it flags an
      error, the stream is deleted, and the second row is about to read it. */
  lemma ReadsDeletedStream(zero: nat) returns (acts: seq<Action>)
    ensures Undisturbed(acts)
    ensures var s := After(Short, zero, acts);
            InDownload(s) && s.timer.at.Finishing? && s.released && DoRead(s) != s
  {
    var s := FirstDeadRow(zero);
    s := Take(Short, zero, s, Release);
    s := Take(Short, zero, s, CalcStamp);
    assert |DoRead(s).pending.row.snaps| == 1;
    acts :| Undisturbed(acts) && After(Short, zero, acts) == s;
  }

  // ----- upload reports that disagree

  /** An upload of one second on one stream. */
  const ShortUpload: Config := Config(false, false, true, 0, 1, 1, 1, 1)

  /** A record, and another one half a second later by the server's clock. */
  const Early: Upload.Step := Upload.Step(Upload.Full(1, 5), Upload.View(true, 0, false))
  const Belated: Upload.Step := Upload.Step(Upload.Full(1, 10), Upload.View(true, 5, false))

  lemma EarlyState()
    ensures var u := Upload.ProcessAll(0, [Early]); u.first == 5 && u.key == 5
  {
    assert [] + [Early] == [Early];
    Upload.ProcessMore(0, [], Early);
    Upload.FirstStep(Upload.Empty, 0, Early);
  }

  lemma EarlyIncreases()
    ensures Upload.IncreasingKeys([Early] + [Belated]) && Upload.IncreasingKeys([Early])
  {
    assert [Early] + [Belated] == [Early, Belated];
  }

  lemma EarlyHistory()
    ensures var u := Upload.ProcessAll(0, [Early]);
            u.first == 5 && u.key == 5 && Upload.Reached([Early]) && Upload.ProcessAll(0, [Early, Belated]).first == 5
    ensures Upload.IncreasingKeys([Early] + [Belated]) && Upload.IncreasingKeys([Early])
  {
    EarlyState();
    EarlyIncreases();
    LateRecords.FirstKeeps([Early], [Belated]);
    assert [Early] + [Belated] == [Early, Belated];
  }

  lemma EarlyKeys(d: nat, q: Snapshot)
    requires ShowsUpload(q, d, [Early] + [Belated]) && d >= 1
    ensures Kept(q) == Upload.Window(5, d)
  {
    var tr := [Early] + [Belated];
    EarlyHistory();
    LateRecords.ReachedKeeps([Early], [Belated]);
    Upload.FirstAnyDuration(d, 0, tr);
    assert tr == [Early, Belated];
    Upload.GridHas(5, d * 2 + 1, 5);
    Upload.GridHas(5, d * 2 + 1, 10);
    UploadAligned(d, tr, q);
  }

  /** The keys the second half second counts, once both records are there. */
  lemma KeysThen(d: nat, q: Snapshot)
    requires ShowsUpload(q, d, [Early] + [Belated]) && d >= 1
    ensures var keys := SortedKeys(Kept(q)); |keys| >= 2 && LateRecords.Late([Belated], keys, 2)
  {
    EarlyKeys(d, q);
    GridElements(5, d * 2 + 1);
    var keys := GridKeys(5, d * 2 + 1);
    assert forall k :: k in keys <==> k in Elements(keys);
    SortedUnique(Kept(q), keys);
    assert keys[1] == 10 && LateRecords.LateAt([Belated], keys[1]) by {
      assert [Belated][0].record.key == 10;
    }
  }

  /** The entries of the second step, before and after the second record. */
  lemma EntriesDiffer(zero: nat, d: nat, rs: seq<Reading>, qs: seq<Reading>, i: nat, k: nat)
    requires i == 1 && i < |rs| && i < |qs| && k < |rs[i].snaps| && k < |qs[i].snaps| && d >= 1
    requires ShowsUpload(rs[i].snaps[k], d, [Early]) && ShowsUpload(qs[i].snaps[k], d, [Early] + [Belated])
    ensures Shown(zero, UPLOAD, rs, i, k).bytes != Shown(zero, UPLOAD, qs, i, k).bytes
  {
    EarlyHistory();
    Upload.FirstAnyDuration(d, 0, [Early]);
    Upload.FirstAnyDuration(d, 0, [Early] + [Belated]);
    assert [Early] + [Belated] == [Early, Belated];
    KeysThen(d, qs[i].snaps[k]);
    LateRecords.UploadBytesIff(d, [Early], [Belated], rs[i].snaps[k], qs[i].snaps[k], 2);
  }

  /** The one worker has accounted the given history, the clock shows m half seconds. */
  ghost predicate Uploading(zero: nat, s: State, m: nat, tr: seq<Upload.Step>) {
    && Reaches(ShortUpload, zero, s) && s.seqr == Joining(3) && s.timer.at.Poll? && Calm(s.sh.flags)
    && s.pending.Nothing?
    && s.sh.tick.active && s.sh.tick.running && !s.sh.tick.stopped && s.sh.duration == 3
    && s.timer.current == m && OnTheHour(s, m)
    && |s.workers| == 1 && s.workers[0].place.Looping? && s.workers[0].response > 0 && s.workers[0].records == tr
  }

  /** One more record is acknowledged. */
  lemma Acknowledged(zero: nat, s: State, m: nat, tr: seq<Upload.Step>, r: Upload.Record) returns (q: State)
    requires Uploading(zero, s, m, tr)
    ensures Uploading(zero, q, m, tr + [Upload.Step(r, Upload.View(true, s.sh.first, false))])
    ensures s.sh.first != 0 ==> q.sh.first == s.sh.first
    ensures q.trace == s.trace
  {
    q := Take(ShortUpload, zero, s, Work(0, Guard));
    q := Take(ShortUpload, zero, q, Work(0, Acknowledge(1, [r])));
    assert q.workers[0].records == tr + [Upload.Step(r, Upload.View(true, s.sh.first, false))];
  }

  /** What a row of the current state shows of the worker. */
  lemma RowShows(zero: nat, s: State, r: Reading, k: nat, tr: seq<Upload.Step>)
    requires Reaches(ShortUpload, zero, s) && s.seqr == Joining(3) && |s.workers| == 1 && k == 0
    requires s.workers[k].records == tr && s.sh.duration == 3 && RowOf(s, r)
    ensures ShowsUpload(r.snaps[k], 3, tr)
  {
    var acts :| Undisturbed(acts) && After(ShortUpload, zero, acts) == s;
    ElectedAlways(ShortUpload, zero, acts);
    Guarantees.UploadShown(s.workers[k], s.sh, 3);
  }

  lemma UploadSteps(zero: nat, s: State)
    requires s.seqr == Joining(3) && s.sh.duration == 3 && s.sh.tick.elapsed >= 1000000
    ensures StepsNow(s) == 2
  {
  }

  /** A report of two steps, after the first record. */
  lemma FirstUploadReport(zero: nat, k: nat) returns (q: State, j: nat)
    requires k == 0
    ensures Uploading(zero, q, 2, [Early]) && q.sh.first == 5
    ensures j < |q.trace| && q.trace[j].Report? && q.trace[j].test == UploadTest && |q.trace[j].readings| == 2
    ensures forall i | 0 <= i < 2 :: |q.trace[j].readings[i].snaps| == 1
                                     && ShowsUpload(q.trace[j].readings[i].snaps[k], 3, [Early])
  {
    var s := ToStart(ShortUpload, zero, 3);
    assert Entered(UploadTest, s.workers[0]);
    s := Acknowledged(zero, s, 0, [], Upload.Full(1, 5));
    assert [] + [Early] == [Early];
    var p := ToReport(ShortUpload, zero, s, 0, 2);
    UploadSteps(zero, p);
    var r, e := Deliver(ShortUpload, zero, p);
    j := HandedOver(ShortUpload, p.trace, r.performed, e);
    forall i | 0 <= i < 2 ensures |e.readings[i].snaps| == 1 && ShowsUpload(e.readings[i].snaps[k], 3, [Early]) {
      assert RowOf(p, e.readings[i]);
      RowShows(zero, p, e.readings[i], k, [Early]);
    }
    FirstElected(zero, p);
    q := PollOn(ShortUpload, zero, r);
  }

  lemma FirstElected(zero: nat, s: State)
    requires Reaches(ShortUpload, zero, s) && s.seqr == Joining(3) && |s.workers| == 1
    requires s.workers[0].records == [Early]
    ensures s.sh.first == 5
  {
    var acts :| Undisturbed(acts) && After(ShortUpload, zero, acts) == s;
    ElectedAlways(ShortUpload, zero, acts);
    EarlyHistory();
    assert ChosenBy(s.workers[0]) == 5;
  }

  lemma FinishSteps(zero: nat, s: State)
    requires Reaches(ShortUpload, zero, s) && s.seqr == Joining(3) && s.timer.at.Finishing?
    ensures StepsNow(s) == 2
  {
    ReachedBase(ShortUpload, zero, s);
    Lengths(ShortUpload, zero, s, 3);
  }

  /** The final result, after the second record. */
  lemma SecondUploadResult(zero: nat, s: State, k: nat) returns (q: State, l: nat)
    requires Uploading(zero, s, 2, [Early]) && s.sh.first == 5 && k == 0
    ensures Reaches(ShortUpload, zero, q) && s.trace <= q.trace && |s.trace| <= l < |q.trace|
    ensures q.trace[l].Finish? && q.trace[l].test == UploadTest && |q.trace[l].readings| == 2
    ensures forall i | 0 <= i < 2 :: |q.trace[l].readings[i].snaps| == 1
                                     && ShowsUpload(q.trace[l].readings[i].snaps[k], 3, [Early] + [Belated])
  {
    var p := Acknowledged(zero, s, 2, [Early], Upload.Full(1, 10));
    p := ToFinish(ShortUpload, zero, p);
    FinishSteps(zero, p);
    var f;
    q, f := Deliver(ShortUpload, zero, p);
    l := HandedOver(ShortUpload, p.trace, q.performed, f);
    forall i | 0 <= i < 2
      ensures |f.readings[i].snaps| == 1 && ShowsUpload(f.readings[i].snaps[k], 3, [Early] + [Belated])
    {
      assert RowOf(p, f.readings[i]);
      RowShows(zero, p, f.readings[i], k, [Early] + [Belated]);
    }
  }

  /** A run in which an upload report and the final result disagree about the second half second: a record
      for it arrived after the report. */
  lemma UploadReportsDisagree(zero: nat) returns (acts: seq<Action>, j: nat, l: nat, i: nat, k: nat)
    ensures Undisturbed(acts) && j < l < |Trace(ShortUpload, zero, acts)|
    ensures var e, f := Trace(ShortUpload, zero, acts)[j], Trace(ShortUpload, zero, acts)[l];
            && e.Report? && f.Finish? && e.test == f.test == UploadTest && i < |e.readings| && i < |f.readings|
            && k < |e.readings[i].snaps| && k < |f.readings[i].snaps|
            && Shown(zero, UPLOAD, e.readings, i, k).bytes != Shown(zero, UPLOAD, f.readings, i, k).bytes
  {
    var s, q;
    i, k :| i == 1 && k == 0;
    s, j := FirstUploadReport(zero, k);
    q, l := SecondUploadResult(zero, s, k);
    assert q.trace[j] == s.trace[j];
    EntriesDiffer(zero, 3, q.trace[j].readings, q.trace[l].readings, i, k);
    acts :| Undisturbed(acts) && After(ShortUpload, zero, acts) == q;
  }

  // ----- an upload result that does not add up

  /** The one worker waits in its receive and has met no record yet, while the timer has begun the result. */
  ghost predicate UploadWaiting(zero: nat, s: State) {
    && Reaches(ShortUpload, zero, s) && s.seqr == Joining(3) && s.timer.at.Finishing? && Calm(s.sh.flags)
    && s.sh.tick.running && s.sh.first == 0 && s.sh.duration == 3
    && |s.workers| == 1 && s.workers[0].place.Waiting? && s.workers[0].response > 0 && s.workers[0].records == []
  }

  lemma ToUploadWaiting(zero: nat) returns (q: State)
    ensures UploadWaiting(zero, q) && q.pending.Nothing?
  {
    q := ToStart(ShortUpload, zero, 3);
    assert Entered(UploadTest, q.workers[0]);
    q := Take(ShortUpload, zero, q, Work(0, Guard));
    q := ToFinish(ShortUpload, zero, q);
  }

  /** The first row of the result is read. */
  lemma FirstUploadRow(zero: nat, s: State) returns (q: State, r: Reading)
    requires UploadWaiting(zero, s) && s.pending.Nothing?
    ensures UploadWaiting(zero, q) && RowOf(q, r) && q.pending == Pending(2, [r], false, Blank)
  {
    FinishSteps(zero, s);
    q := Take(ShortUpload, zero, s, CalcBegin);
    q, r := OneRow(ShortUpload, zero, q);
  }

  lemma FirstRecord(w: Worker, sh: Shared, rs: seq<Upload.Record>)
    requires w.place.Waiting? && w.records == [] && sh.first == 0 && sh.tick.running && !sh.flags.hasError
    requires rs == [Upload.Full(1, 5)]
    ensures var p := AcknowledgeMove(w, sh, 1, rs);
            && p.w.records == [Early] && p.w.response > 0 && p.w.chunks == w.chunks && p.sh.first == 5
            && p.sh.tick == sh.tick && p.sh.duration == sh.duration && p.sh.flags == sh.flags
  {
    assert w.records + ToSteps(rs, sh) == [Early];
    EarlyState();
    Upload.FirstAnyDuration(sh.duration, 0, [Early]);
  }

  /** The first record arrives. */
  ghost predicate RecordCame(s: State, q: State) {
    && Grown(s, q) && q.sh.first == 5 && q.sh.tick == s.sh.tick && q.sh.duration == s.sh.duration
    && q.sh.flags == s.sh.flags && q.seqr == s.seqr && q.timer == s.timer && q.pending == s.pending
    && |q.workers| == 1 && q.workers[0].records == [Early] && q.workers[0].response > 0
  }

  lemma CameWith(s: State, p: Pair)
    requires |s.workers| == 1 && s.workers[0].records == [] && s.sh.first == 0
    requires p.w.records == [Early] && p.w.response > 0 && p.w.chunks == s.workers[0].chunks && p.sh.first == 5
    requires p.sh.tick == s.sh.tick && p.sh.duration == s.sh.duration && p.sh.flags == s.sh.flags
    ensures RecordCame(s, s.(workers := [p.w], sh := p.sh))
  {
    assert GrownWorker(s.workers[0], p.w, s.sh.tick);
  }

  lemma Acknowledges(s: State, rs: seq<Upload.Record>)
    requires s.seqr == Joining(3) && |s.workers| == 1
    ensures var p := AcknowledgeMove(s.workers[0], s.sh, 1, rs);
            Do(ShortUpload, s, Work(0, Acknowledge(1, rs))) == s.(workers := [p.w], sh := p.sh)
  {
  }

  lemma RecordArrives(zero: nat, s: State) returns (q: State)
    requires UploadWaiting(zero, s)
    ensures Reaches(ShortUpload, zero, q) && RecordCame(s, q)
  {
    var rs: seq<Upload.Record> :| rs == [Upload.Full(1, 5)];
    FirstRecord(s.workers[0], s.sh, rs);
    Acknowledges(s, rs);
    CameWith(s, AcknowledgeMove(s.workers[0], s.sh, 1, rs));
    q := Take(ShortUpload, zero, s, Work(0, Acknowledge(1, rs)));
  }

  /** The keys a stream counts that has met only this record. */
  lemma KeysOfEarly(d: nat, q: Snapshot)
    requires ShowsUpload(q, d, [Early])
    ensures var keys := SortedKeys(Kept(q)); |keys| >= 1 && LateRecords.Late([Early], keys, 1)
  {
    EarlyHistory();
    Upload.FirstAnyDuration(d, 0, [Early]);
    Upload.GridHas(5, d * 2 + 1, 5);
    UploadAligned(d, [Early], q);
    assert Kept(q) == Upload.Window(5, d);
    GridElements(5, d * 2 + 1);
    var keys := GridKeys(5, d * 2 + 1);
    assert forall k :: k in keys <==> k in Elements(keys);
    SortedUnique(Kept(q), keys);
    assert keys[0] == 5 && LateRecords.LateAt([Early], keys[0]) by {
      assert [Early][0].record.key == 5;
    }
  }

  lemma UploadReachedFacts(zero: nat, s: State)
    requires Reaches(ShortUpload, zero, s)
    ensures InForceOther(ShortUpload, s) && Elected(s)
  {
    var acts :| Undisturbed(acts) && After(ShortUpload, zero, acts) == s;
    ReachedBase(ShortUpload, zero, s);
    ElectedAlways(ShortUpload, zero, acts);
  }

  lemma RecordShown(zero: nat, q: State, k: nat, r: Reading)
    requires Reaches(ShortUpload, zero, q) && q.seqr == Joining(3) && q.sh.duration == 3 && k == 0 && RowOf(q, r)
    requires |q.workers| == 1 && q.workers[k].records == [Early]
    ensures var keys := SortedKeys(Kept(r.snaps[k])); |keys| >= 1 && LateRecords.Late([Early], keys, 1)
  {
    UploadReachedFacts(zero, q);
    Guarantees.UploadShown(q.workers[k], q.sh, 3);
    KeysOfEarly(3, r.snaps[k]);
  }

  /** A row that was read before a first key was elected, and one after it. */
  lemma BrokenByFirst(zero: nat, s: State, q: State, rs: seq<Reading>, i: nat, k: nat, all: seq<Upload.Step>)
    requires i + 1 < |rs| && UploadAddUpIff(zero, s, q, rs, i, k) && s.sh.first == 0 < q.sh.first && i == 0
    requires q.workers[k].records == all && Upload.IncreasingKeys(all)
    requires var keys := SortedKeys(Kept(rs[i + 1].snaps[k])); |keys| >= 1 && LateRecords.Late(all, keys, 1)
    ensures !Continues(zero, UPLOAD, rs, i, k)
  {
  }

  lemma UploadAddsUpIff(zero: nat, s: State, q: State, rs: seq<Reading>, i: nat, k: nat)
    requires UploadWaiting(zero, s) && Reaches(ShortUpload, zero, q) && RecordCame(s, q) && i == 0 && k == 0
    requires |rs| == 2 && RowOf(s, rs[i]) && RowOf(q, rs[i + 1])
    ensures UploadAddUpIff(zero, s, q, rs, i, k)
  {
    UploadReachedFacts(zero, s);
    UploadReachedFacts(zero, q);
    UploadStatesAddUp(ShortUpload, zero, s, q, rs, i, k);
  }

  /** Two rows, read in s and in q, with the first record in between. */
  lemma UploadRowsBreak(zero: nat, s: State, q: State, rs: seq<Reading>, i: nat, k: nat)
    requires UploadWaiting(zero, s) && Reaches(ShortUpload, zero, q) && RecordCame(s, q) && i == 0 && k == 0
    requires |rs| == 2 && RowOf(s, rs[i]) && RowOf(q, rs[i + 1])
    ensures k < |rs[i].snaps| && k < |rs[i + 1].snaps| && !Continues(zero, UPLOAD, rs, i, k)
  {
    UploadAddsUpIff(zero, s, q, rs, i, k);
    RecordShown(zero, q, k, rs[i + 1]);
    EarlyIncreases();
    BrokenByFirst(zero, s, q, rs, i, k, [Early]);
  }

  /** The two rows of the result, with the first record in between. */
  lemma UploadRowsRead(zero: nat) returns (q: State, i: nat, k: nat)
    ensures Reaches(ShortUpload, zero, q) && q.seqr == Joining(3) && q.timer.at.Finishing?
    ensures q.pending.Pending? && q.pending.maxSteps == |q.pending.rows| == 2 && !q.pending.open && i == 0
    ensures var rs := q.pending.rows;
            k < |rs[i].snaps| && k < |rs[i + 1].snaps| && !Continues(zero, UPLOAD, rs, i, k)
  {
    var s := ToUploadWaiting(zero);
    var p, r := FirstUploadRow(zero, s);
    var t := RecordArrives(zero, p);
    var r';
    q, r' := OneRow(ShortUpload, zero, t);
    i, k :| i == 0 && k == 0;
    UploadRowsBreak(zero, p, t, [r, r'], i, k);
    assert q.pending.rows == [r, r'];
  }

  /** A run in which the first record of the only stream arrives between the two rows of the final result, and
      its byte counts do not add up. */
  lemma UploadDoesNotAddUp(zero: nat) returns (acts: seq<Action>, j: nat, i: nat, k: nat)
    ensures Undisturbed(acts) && j < |Trace(ShortUpload, zero, acts)|
    ensures var e := Trace(ShortUpload, zero, acts)[j];
            && e.Finish? && IsUpload(e) && i + 1 < |e.readings|
            && k < |e.readings[i].snaps| && k < |e.readings[i + 1].snaps| && !Continues(zero, UPLOAD, e.readings, i, k)
  {
    var s;
    s, i, k := UploadRowsRead(zero);
    var q := Take(ShortUpload, zero, s, CalcEnd);
    j := HandedOver(ShortUpload, s.trace, q.performed, Handed(s));
    acts :| Undisturbed(acts) && After(ShortUpload, zero, acts) == q;
  }
}
