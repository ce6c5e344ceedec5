/** What holds in every run of the client, whatever the interleaving of its threads and the stops
    from outside. */
module Guarantees {
  import opened OrderedMaps
  import opened Aggregator
  import opened Protocol
  import opened Timer
  import opened Session
  import opened Invariants
  import opened Clocks
  import opened Histories
  import opened Stability
  import opened Times
  import opened Conformance
  import opened Witnesses
  import opened Reports
  import Course
  import Download
  import Upload

  // ----- completion and errors

  /** Tests are made one at a time, each once, in the order IP, RTT, download, upload: the finished ones
      are a prefix of the started ones, which are a prefix of the enabled ones. Completion is signalled
      exactly when all enabled tests have finished. */
  lemma Completion(c: Config, zero: nat, acts: seq<Action>)
    requires Sane(c)
    ensures Finished(Trace(c, zero, acts)) <= Begun(Trace(c, zero, acts)) <= Plan(c, 4)
    ensures |Begun(Trace(c, zero, acts))| <= |Finished(Trace(c, zero, acts))| + 1
    ensures Completed in Trace(c, zero, acts) <==> Finished(Trace(c, zero, acts)) == Plan(c, 4)
    ensures MeasurementEnd in Trace(c, zero, acts) <==> Completed in Trace(c, zero, acts)
  {
    var t := Trace(c, zero, acts);
    RunsAreAccepted(c, zero, acts);
    TestsInTurn(c, t);
    AllFinished(c, t);
    if Completed in t {
      var i :| 0 <= i < |t| && t[i] == Completed;
      CompletedLast(c, t, i);
      assert t[i - 2] == MeasurementEnd;
    }
    if Follow(c, t) == Complete {
      CompleteHasEvent(c, t);
    }
    if MeasurementEnd in t {
      var i :| 0 <= i < |t| && t[i] == MeasurementEnd;
      EndLeads(c, t, i);
    }
  }

  lemma CompleteHasEvent(c: Config, t: seq<Event>)
    requires Follow(c, t) == Complete
    ensures Completed in t
  {
    assert t[|t| - 1] == Completed;
  }

  /** Once the end of the measurement is noted, nothing rests before completion. */
  lemma EndLeads(c: Config, t: seq<Event>, i: nat)
    requires Accepted(c, t) && Resting(Follow(c, t)) && i < |t| && t[i] == MeasurementEnd
    ensures Completed in t
  {
    assert t[..|t|] == t;
    StepAt(c, t, i);
    if i + 1 < |t| {
      StepAt(c, t, i + 1);
    }
    if i + 2 < |t| {
      EndOnce(c, t, i, i + 2);
    }
  }

  /** Completion and an error are each the last callback of all: after them no test starts, reports or
      finishes. The end of the measurement is noted once, directly before the last finish. */
  lemma LastCallback(c: Config, zero: nat, acts: seq<Action>, i: nat)
    requires Sane(c) && i < |Trace(c, zero, acts)|
    ensures var t := Trace(c, zero, acts);
            && (t[i].Completed? || t[i].Error? ==> i == |t| - 1)
            && (t[i].Completed? ==> i >= 2 && t[i - 1].Finish? && t[i - 2].MeasurementEnd?)
            && (t[i].MeasurementEnd? ==> i == |t| - 3)
  {
    var t := Trace(c, zero, acts);
    RunsAreAccepted(c, zero, acts);
    if t[i].Completed? {
      CompletedLast(c, t, i);
    } else if t[i].Error? {
      ErrorLast(c, t, i);
    } else if t[i].MeasurementEnd? {
      EndLeads(c, t, i);
      var j :| 0 <= j < |t| && t[j] == Completed;
      CompletedLast(c, t, j);
      EndOnce(c, t, i, j);
    }
  }

  // ----- the length of reports

  /** Reports of a measurement have one step per half second that has passed and never none; a finish
      has all of them. Ticks increase strictly from report to report. */
  lemma ReportLengths(c: Config, zero: nat, acts: seq<Action>, i: nat)
    requires Sane(c) && i < |Trace(c, zero, acts)|
    ensures var e := Trace(c, zero, acts)[i];
            && (e.Report? ==> 1 <= e.index < 2 * Duration(c, e.test))
            && (e.Report? && Measures(e.test) ==> |e.readings| == Least(e.index, FullSteps(c, e.test)) >= 1)
            && (e.Finish? && Measures(e.test) ==> |e.readings| == FullSteps(c, e.test) >= 2)
  {
    var t := Trace(c, zero, acts);
    RunsAreAccepted(c, zero, acts);
    if t[i].Report? {
      ReportAt(c, t, i);
    } else if t[i].Finish? && Measures(t[i].test) {
      FinishFull(c, t, i);
    }
  }

  lemma TicksIncrease(c: Config, zero: nat, acts: seq<Action>, i: nat, j: nat)
    requires Sane(c) && i < j < |Trace(c, zero, acts)|
    requires Trace(c, zero, acts)[i].Report? && Trace(c, zero, acts)[j].Report?
    requires Trace(c, zero, acts)[i].test == Trace(c, zero, acts)[j].test
    ensures Trace(c, zero, acts)[i].index < Trace(c, zero, acts)[j].index
  {
    RunsAreAccepted(c, zero, acts);
    ReportsIncrease(c, Trace(c, zero, acts), i, j);
  }

  /** The list of entries that `Aggregator.Calculate` makes of a report or final result of a run: one for
      every step and every stream of the test, in that order. */
  lemma ReportEntries(c: Config, zero: nat, acts: seq<Action>, j: nat, step: nat, k: nat)
    requires Sane(c) && j < |Trace(c, zero, acts)|
    requires Trace(c, zero, acts)[j].Report? || Trace(c, zero, acts)[j].Finish?
    requires 1 <= step <= |Trace(c, zero, acts)[j].readings| && k < Instances(c, Trace(c, zero, acts)[j].test)
    ensures var rs, streams := Trace(c, zero, acts)[j].readings, Instances(c, Trace(c, zero, acts)[j].test);
            var kind := KindOf(Trace(c, zero, acts)[j].test);
            var entries := Rows(Frame(kind, |rs|, zero * 1000), rs, |rs|);
            && |entries| == |rs| * streams && 0 <= (step - 1) * streams + k < |entries| && k < |rs[step - 1].snaps|
            && entries[(step - 1) * streams + k] == Shown(zero, kind, rs, step - 1, k)
  {
    TimesAlways(c, zero, acts);
    var e := Trace(c, zero, acts)[j];
    assert EventTimes(c, zero, e);
    EntryAt(Frame(KindOf(e.test), |e.readings|, zero * 1000), e.readings, Instances(c, e.test), step, k);
  }

  // ----- the shared state

  /** While a test runs, the tick stays below twice its duration, the duration is not a stale one once
      the barrier is passed, and then every worker has made its first receive. */
  lemma SharedState(c: Config, zero: nat, acts: seq<Action>)
    requires Sane(c) && After(c, zero, acts).seqr.Joining?
    ensures var s := After(c, zero, acts);
            var t := TestAt(s.seqr.k);
            && s.sh.tick.index <= 2 * Duration(c, t) - 1
            && |s.workers| == Instances(c, t)
            && (Passed(s) ==> s.sh.duration == Duration(c, t) && AllSynced(s.workers))
            && (Passed(s) ==> forall i | 0 <= i < |s.workers| :: s.workers[i].pid in Ready(s.sh.syncing))
  {
    BaseAlways(c, zero, acts);
    var s := After(c, zero, acts);
    if Passed(s) {
      NoStaleDuration(c, s);
      forall i | 0 <= i < |s.workers| ensures s.workers[i].pid in Ready(s.sh.syncing) {
        assert Entry(s.workers[i], s.sh.syncing);
      }
    }
  }

  lemma EntryStaysWork(c: Config, s: State, i: nat, m: Move, p: nat)
    requires Barriers(c, s) && s.seqr.Joining? && p in Ready(s.sh.syncing)
    ensures p in Ready(DoWork(c, s, i, m).sh.syncing)
  {
    if i < |s.workers| {
      assert Entry(s.workers[i], s.sh.syncing);
      WorkerEntry(c, CurrentTest(s), s.workers[i], s.sh, s.now, m);
    }
  }

  lemma EntryStaysStep(c: Config, zero: nat, s: State, a: Action, p: nat)
    requires Base(c, zero, s) && s.seqr.Joining? && Do(c, s, a).seqr.Joining? && p in Ready(s.sh.syncing)
    ensures p in Ready(Do(c, s, a).sh.syncing)
  {
    if a.Work? {
      EntryStaysWork(c, s, a.i, a.move, p);
    } else {
      TimerFrame(Result(s.sh, s.timer, []), s.now);
      assert Do(c, s, a).sh.syncing == s.sh.syncing;
    }
  }

  lemma {:induction false} EntrySince(c: Config, zero: nat, acts: seq<Action>, n: nat, k: nat, p: nat)
    requires Sane(c) && n <= |acts|
    requires After(c, zero, acts[..n]).seqr == Joining(k) == After(c, zero, acts).seqr
    requires p in Ready(After(c, zero, acts[..n]).sh.syncing)
    ensures p in Ready(After(c, zero, acts).sh.syncing)
  {
    if n == |acts| {
      assert acts[..n] == acts;
    } else {
      var init := acts[..|acts| - 1];
      assert init[..n] == acts[..n];
      Course.Onward(c, zero, init, n, k);
      Course.PastStep(c, After(c, zero, init), acts[|acts| - 1], k);
      EntrySince(c, zero, init, n, k, p);
      BaseAlways(c, zero, init);
      EntryStaysStep(c, zero, After(c, zero, init), acts[|acts| - 1], p);
    }
  }

  /** In every run, a barrier entry that is 1 at some moment of a test is 1 at every later moment of it. */
  lemma EntryStays(c: Config, zero: nat, acts: seq<Action>, n: nat, m: nat, k: nat, p: nat)
    requires Sane(c) && n <= m <= |acts|
    requires After(c, zero, acts[..n]).seqr == Joining(k) == After(c, zero, acts[..m]).seqr
    requires p in Ready(After(c, zero, acts[..n]).sh.syncing)
    ensures p in Ready(After(c, zero, acts[..m]).sh.syncing)
  {
    assert acts[..m][..n] == acts[..n];
    EntrySince(c, zero, acts[..m], n, k, p);
  }

  /** The poll that stops a test makes no report. */
  lemma StoppingPollIsSilent(c: Config, zero: nat, acts: seq<Action>)
    requires Sane(c)
    requires var s := After(c, zero, acts); s.seqr.Joining? && s.timer.at.Poll? && !s.sh.tick.stopped
    requires DoTimer(c, After(c, zero, acts)).sh.tick.stopped
    ensures !DoTimer(c, After(c, zero, acts)).timer.at.Reporting?
  {
    BaseAlways(c, zero, acts);
  }

  /** Every write of a download worker hits a pre-filled bucket: its map never leaves the domain 0..2D,
      and the tick it would write to next lies in it. */
  lemma DownloadDomainKept(c: Config, zero: nat, acts: seq<Action>, k: nat)
    requires Sane(c) && InDownload(After(c, zero, acts)) && k < |After(c, zero, acts).workers|
    ensures var s := After(c, zero, acts);
            && Snap(DownloadTest, s.workers[k], s.sh).results.Keys == Upto(c.downloadDuration * 2 + 1)
            && s.sh.tick.index in Snap(DownloadTest, s.workers[k], s.sh).results
  {
    BaseAlways(c, zero, acts);
    var s := After(c, zero, acts);
    DomainNow(c, zero, s);
    assert InDomain(s.workers[k], s.sh.duration);
    DownloadDomain(c.downloadDuration, s.workers[k].chunks);
  }

  // ----- the totals

  /** A download worker that has accounted anything began before the clock of the test did, because its
      first receive is what the barrier waits for. */
  ghost predicate Prompt(w: Worker) {
    && (w.chunks != [] ==> !w.chunks[0].running)
    && (w.chunks == [] && w.synced ==> w.place.Ended?)
  }

  ghost predicate AllPrompt(s: State) {
    InDownload(s) ==> forall i | 0 <= i < |s.workers| :: Prompt(s.workers[i])
  }

  lemma PromptMove(c: Config, w: Worker, sh: Shared, now: nat, m: Move)
    requires Prompt(w) && (sh.tick.running ==> w.synced)
    ensures Prompt(WorkerMove(c, DownloadTest, w, sh, now, m).w)
  {
    match m
    case Receive(received, bits) =>
    case Fail(flag) =>
    case Guard =>
    case _ =>
  }

  lemma PromptStep(c: Config, s: State, a: Action)
    requires Barriers(c, s) && AllPrompt(s)
    ensures AllPrompt(Do(c, s, a))
  {
    match a
    case Work(i, m) =>
      if InDownload(s) && i < |s.workers| {
        PromptMove(c, s.workers[i], s.sh, s.now, m);
      }
    case _ =>
  }

  lemma {:induction false} PromptAlways(c: Config, zero: nat, acts: seq<Action>)
    requires Sane(c)
    ensures AllPrompt(After(c, zero, acts))
  {
    if acts != [] {
      PromptAlways(c, zero, acts[..|acts| - 1]);
      BaseAlways(c, zero, acts[..|acts| - 1]);
      PromptStep(c, After(c, zero, acts[..|acts| - 1]), acts[|acts| - 1]);
    }
  }

  /** In every run, a download worker that has received data has received some before the start. So the
      history of DoubleCount does not occur. */
  lemma DataBeforeStart(c: Config, zero: nat, acts: seq<Action>, k: nat)
    requires Sane(c) && InDownload(After(c, zero, acts)) && k < |After(c, zero, acts).workers|
    ensures var cs := After(c, zero, acts).workers[k].chunks;
            cs != [] ==> !cs[0].running && Download.Before(cs) > 0
  {
    PromptAlways(c, zero, acts);
    BaseAlways(c, zero, acts);
    var s := After(c, zero, acts);
    assert Prompt(s.workers[k]) && Accounted(s.workers[k], s.sh);
    if s.workers[k].chunks != [] {
      assert s.workers[k].chunks[0] in s.workers[k].chunks;
      Download.BeforeFirst(s.workers[k].chunks);
    }
  }

  /** The bits of an entry's total and of the buckets still to come. */
  ghost function ShownBits(zero: nat, rs: seq<Reading>, i: nat, k: nat): int
    requires i < |rs| && k < |rs[i].snaps| && i + 1 <= |Counted(DOWNLOAD, rs[i].snaps[k])|
  {
    var vs := Counted(DOWNLOAD, rs[i].snaps[k]);
    8 * Shown(zero, DOWNLOAD, rs, i, k).total + (Bits(vs, |vs|) - Bits(vs, i + 1))
  }

  /** A stream of a download in some state, and the entry a report shows of it: the bits of the entry's
      total and of the buckets still to come are all that was received, exactly if nothing was received
      with an error flagged after the start, and either nothing was received at all or some chunk landed in
      bucket 0. Otherwise what was received with the error, and without a chunk in bucket 0 all data from
      before the start, is missing. */
  ghost predicate DownloadEntry(c: Config, zero: nat, s: State, rs: seq<Reading>, i: nat, k: nat)
    requires i < |rs| && k < |rs[i].snaps| && k < |s.workers|
  {
    var cs, vs := s.workers[k].chunks, Counted(DOWNLOAD, rs[i].snaps[k]);
    var received := Download.AccountAll(c.downloadDuration, cs).total;
    && i + 1 <= |vs| == c.downloadDuration * 2 + 1 && Bits(vs, i + 1) <= Bits(vs, |vs|)
    && (cs != [] ==> Download.Before(cs) > 0)
    && (Download.Suppressed(cs) == 0 <==> forall e | e in cs :: !Download.Hidden(e))
    && (!s.sh.flags.hasError ==> Download.Suppressed(cs) == 0)
    && received == ShownBits(zero, rs, i, k) + Download.Suppressed(cs)
                   + (if Download.FirstHits(cs) == 0 then Download.Before(cs) else 0)
    && (ShownBits(zero, rs, i, k) == received
        <==> Download.Suppressed(cs) == 0 && (cs == [] || Download.FirstHits(cs) >= 1))
  }

  lemma NotHidden(w: Worker, sh: Shared)
    requires Accounted(w, sh)
    ensures Download.Suppressed(w.chunks) == 0 <==> forall e | e in w.chunks :: !Download.Hidden(e)
    ensures !sh.flags.hasError ==> Download.Suppressed(w.chunks) == 0
  {
    Download.SuppressedNone(w.chunks);
  }

  lemma DownloadState(c: Config, zero: nat, s: State, rs: seq<Reading>, i: nat, k: nat)
    requires InForceOther(c, s) && i < |rs| <= c.downloadDuration * 2 && k < |rs[i].snaps|
    requires ReadFrom(s, DownloadTest, k, rs[i].snaps[k])
    requires InDomain(s.workers[k], c.downloadDuration) && Accounted(s.workers[k], s.sh)
    requires s.workers[k].chunks != [] ==> Download.Before(s.workers[k].chunks) > 0
    ensures DownloadEntry(c, zero, s, rs, i, k)
  {
    var cs, d := s.workers[k].chunks, c.downloadDuration;
    DownloadTotal(d, cs, Frame(DOWNLOAD, |rs|, zero * 1000), rs[i], i + 1, k);
    Download.Shortfall(d, cs);
    NotHidden(s.workers[k], s.sh);
  }

  /** Every stream of every row of every report or final result of a run was read from a state of the run,
      in the order of the rows. */
  lemma EntryRead(c: Config, zero: nat, acts: seq<Action>, j: nat, i: nat, k: nat) returns (n: nat)
    requires Sane(c) && j < |Trace(c, zero, acts)|
    requires Trace(c, zero, acts)[j].Report? || Trace(c, zero, acts)[j].Finish?
    requires i < |Trace(c, zero, acts)[j].readings| && k < |Trace(c, zero, acts)[j].readings[i].snaps|
    ensures var e := Trace(c, zero, acts)[j];
            n <= |acts| && ReadFrom(After(c, zero, acts[..n]), e.test, k, e.readings[i].snaps[k])
  {
    var e := Trace(c, zero, acts)[j];
    TimesAlways(c, zero, acts);
    assert EventTimes(c, zero, e);
    var mark, ns := EntriesWitnessed(c, zero, acts, j, k);
    assert ReadAt(c, zero, acts, e.test, k, e.readings[i], mark, ns[i]);
    n := ns[i];
  }

  /** Conservation of the download, in every run and for every entry of every report. */
  lemma DownloadConserved(c: Config, zero: nat, acts: seq<Action>, j: nat, i: nat, k: nat)
    requires Sane(c) && j < |Trace(c, zero, acts)| && IsDownload(Trace(c, zero, acts)[j])
    requires i < |Trace(c, zero, acts)[j].readings| && k < |Trace(c, zero, acts)[j].readings[i].snaps|
    ensures exists n :: 0 <= n <= |acts|
              && ReadFrom(After(c, zero, acts[..n]), DownloadTest, k, Trace(c, zero, acts)[j].readings[i].snaps[k])
              && DownloadEntry(c, zero, After(c, zero, acts[..n]), Trace(c, zero, acts)[j].readings, i, k)
  {
    var rs := Trace(c, zero, acts)[j].readings;
    var n := EntryRead(c, zero, acts, j, i, k);
    BaseAlways(c, zero, acts[..n]);
    DomainNow(c, zero, After(c, zero, acts[..n]));
    DataBeforeStart(c, zero, acts[..n], k);
    ReportLengths(c, zero, acts, j);
    DownloadState(c, zero, After(c, zero, acts[..n]), rs, i, k);
  }

  /** The same for a stream of an upload whose server clock moves on: no entry claims more than the server
      had acknowledged to the stream, whatever its keys. Once the stream has met the elected key, the
      total of the entry and the buckets still to come are exactly that. */
  ghost predicate UploadEntry(c: Config, zero: nat, s: State, rs: seq<Reading>, i: nat, k: nat)
    requires i < |rs| && k < |rs[i].snaps| && k < |s.workers|
  {
    var d, tr, vs := c.uploadDuration + 2, s.workers[k].records, Counted(UPLOAD, rs[i].snaps[k]);
    var shown, acknowledged := 8 * Shown(zero, UPLOAD, rs, i, k).total, Upload.ProcessAll(d, tr).total;
    Upload.IncreasingKeys(tr) ==>
      && shown <= acknowledged
      && (Upload.Reached(tr) ==>
            && Upload.ProcessAll(d, tr).first == s.sh.first
            && i + 1 <= |vs| && Bits(vs, i + 1) <= Bits(vs, |vs|)
            && shown + (Bits(vs, |vs|) - Bits(vs, i + 1)) == acknowledged)
  }

  lemma UploadShown(w: Worker, sh: Shared, d: nat)
    requires sh.duration == d && (ChosenBy(w) == 0 || ChosenBy(w) == sh.first)
    ensures ShowsUpload(Snap(UploadTest, w, sh), d, w.records)
  {
    Upload.FirstAnyDuration(d, 0, w.records);
  }

  lemma UploadState(c: Config, zero: nat, s: State, rs: seq<Reading>, i: nat, k: nat)
    requires InForceOther(c, s) && Elected(s) && i < |rs| <= c.uploadDuration * 2 && k < |rs[i].snaps|
    requires ReadFrom(s, UploadTest, k, rs[i].snaps[k])
    ensures UploadEntry(c, zero, s, rs, i, k)
  {
    var d, tr := c.uploadDuration + 2, s.workers[k].records;
    if Upload.IncreasingKeys(tr) {
      UploadShown(s.workers[k], s.sh, d);
      UploadTotal(d, tr, Frame(UPLOAD, |rs|, zero * 1000), rs[i], i + 1, k);
      if Upload.Reached(tr) {
        ReachedFirst(d, tr, rs[i].snaps[k]);
      }
    }
  }

  lemma UploadConserved(c: Config, zero: nat, acts: seq<Action>, j: nat, i: nat, k: nat)
    requires Sane(c) && j < |Trace(c, zero, acts)|
    requires Trace(c, zero, acts)[j].Report? || Trace(c, zero, acts)[j].Finish?
    requires Trace(c, zero, acts)[j].test == UploadTest
    requires i < |Trace(c, zero, acts)[j].readings| && k < |Trace(c, zero, acts)[j].readings[i].snaps|
    ensures exists n :: 0 <= n <= |acts|
              && ReadFrom(After(c, zero, acts[..n]), UploadTest, k, Trace(c, zero, acts)[j].readings[i].snaps[k])
              && UploadEntry(c, zero, After(c, zero, acts[..n]), Trace(c, zero, acts)[j].readings, i, k)
  {
    var rs := Trace(c, zero, acts)[j].readings;
    var n := EntryRead(c, zero, acts, j, i, k);
    BaseAlways(c, zero, acts[..n]);
    ElectedAlways(c, zero, acts[..n]);
    ReportLengths(c, zero, acts, j);
    UploadState(c, zero, After(c, zero, acts[..n]), rs, i, k);
  }
}
