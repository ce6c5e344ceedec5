/** The callbacks a measurement may emit, and in which order: a small automaton that the whole
    client is proved to follow. */
module Protocol {
  import opened Aggregator
  import Ping

  datatype Test = IpTest | RttTest | DownloadTest | UploadTest

  /** What the caller asked for. The IP test is always made. */
  datatype Config = Config(rtt: bool, download: bool, upload: bool, pingQuery: nat,
                           downloadStreams: nat, uploadStreams: nat, downloadDuration: nat, uploadDuration: nat)

  ghost predicate Sane(c: Config) {
    c.downloadStreams >= 1 && c.uploadStreams >= 1 && c.downloadDuration >= 1 && c.uploadDuration >= 1
  }

  /** The order of the tests. */
  function TestAt(k: nat): Test {
    if k == 0 then IpTest else if k == 1 then RttTest else if k == 2 then DownloadTest else UploadTest
  }

  function Position(t: Test): (k: nat)
    ensures k < 4 && TestAt(k) == t
  {
    match t case IpTest => 0 case RttTest => 1 case DownloadTest => 2 case UploadTest => 3
  }

  predicate Enabled(c: Config, k: nat) {
    if k == 0 then true
    else if k == 1 then c.rtt else if k == 2 then c.download else k == 3 && c.upload
  }

  /** The enabled tests among the first k. */
  function EnabledBelow(c: Config, k: nat): set<Test> {
    set t | t in {IpTest, RttTest, DownloadTest, UploadTest} && Position(t) < k && Enabled(c, Position(t))
  }

  /** Number of worker threads. */
  function Instances(c: Config, t: Test): nat {
    match t case IpTest => 1 case RttTest => 1
            case DownloadTest => c.downloadStreams case UploadTest => c.uploadStreams
  }

  /** `MEASUREMENT_DURATION` in seconds. */
  function Duration(c: Config, t: Test): nat {
    match t
    case IpTest => 60
    case RttTest => Ping.Duration(c.pingQuery)
    case DownloadTest => c.downloadDuration
    case UploadTest => c.uploadDuration + 2
  }

  predicate Measures(t: Test) {
    t.DownloadTest? || t.UploadTest?
  }

  function KindOf(t: Test): Kind {
    if t.UploadTest? then UPLOAD else DOWNLOAD
  }

  /** The number of half-second steps of a complete measurement. */
  function FullSteps(c: Config, t: Test): nat {
    match t
    case DownloadTest => c.downloadDuration * 2
    case UploadTest => c.uploadDuration * 2
    case _ => 0
  }

  /** The callbacks. A report carries the tick it was made for, and both it and the final result carry
      what they read of the streams. */
  datatype Event =
    | Started(test: Test)
    | Starting
    | Running
    | Report(test: Test, index: nat, readings: seq<Reading>)
    | Error(code: nat)
    | MeasurementEnd
    | Finish(test: Test, readings: seq<Reading>)
    | Completed

  /** Idle(k): the tests before k are over. Testing: test k runs; the stage counts its two info
      callbacks, `last` is the tick of its last report. Ending: the end of the measurement has been
      noted. Dead: an error was reported. */
  datatype Phase =
    | Idle(next: nat)
    | Testing(k: nat, stage: nat, last: nat)
    | Ending(k: nat, stage: nat)
    | Last
    | Complete
    | Dead
    | Rejected

  predicate NoneBetween(c: Config, lo: nat, hi: nat) {
    forall k | lo <= k < hi :: !Enabled(c, k)
  }

  /** A report for tick n of a measurement has n steps; the upload stops counting two seconds early. */
  predicate ReportFits(c: Config, t: Test, e: Event)
    requires e.Report?
  {
    && e.test == t
    && |e.readings| == if Measures(t) then Least(e.index, FullSteps(c, t)) else 0
  }

  predicate FinishFits(c: Config, t: Test, stage: nat, e: Event)
    requires e.Finish?
  {
    && e.test == t
    && (Measures(t) ==> stage == 2)
    && |e.readings| == FullSteps(c, t)
  }

  function Advance(c: Config, p: Phase, e: Event): Phase {
    match (p, e)
    case (Idle(j), Started(t)) =>
      if j <= Position(t) && Enabled(c, Position(t)) && NoneBetween(c, j, Position(t))
      then Testing(Position(t), 0, 0) else Rejected
    case (Idle(j), Error(code)) =>
      if j == 0 && code == 1 && NoneBetween(c, 1, 4) then Dead else Rejected
    case (Testing(k, stage, last), Starting) =>
      if stage == 0 then Testing(k, 1, 0) else Rejected
    case (Testing(k, stage, last), Running) =>
      if stage == 1 then Testing(k, 2, 0) else Rejected
    case (Testing(k, stage, last), Report(_, index, _)) =>
      if stage == 2 && last < index < 2 * Duration(c, TestAt(k)) && ReportFits(c, TestAt(k), e)
      then Testing(k, 2, index) else Rejected
    case (Testing(k, stage, last), Error(code)) =>
      if code in {4, 7, 8} || (code == 9 && stage == 2) then Dead else Rejected
    case (Testing(k, stage, last), MeasurementEnd) =>
      if NoneBetween(c, k + 1, 4) then Ending(k, stage) else Rejected
    case (Testing(k, stage, last), Finish(_, _)) =>
      if !NoneBetween(c, k + 1, 4) && FinishFits(c, TestAt(k), stage, e) then Idle(k + 1) else Rejected
    case (Ending(k, stage), Finish(_, _)) =>
      if FinishFits(c, TestAt(k), stage, e) then Last else Rejected
    case (Last, Completed) => Complete
    case _ => Rejected
  }

  function Follow(c: Config, trace: seq<Event>): Phase {
    if trace == [] then Idle(0) else Advance(c, Follow(c, trace[..|trace| - 1]), trace[|trace| - 1])
  }

  lemma FollowMore(c: Config, trace: seq<Event>, e: Event)
    ensures Follow(c, trace + [e]) == Advance(c, Follow(c, trace), e)
  {
    assert (trace + [e])[..|trace|] == trace;
  }

  // ----- what an accepted trace means

  ghost predicate Accepted(c: Config, trace: seq<Event>) {
    Follow(c, trace) != Rejected
  }

  /** The tests finished, in order. */
  function Finished(trace: seq<Event>): seq<Test> {
    if trace == [] then []
    else
      var e := trace[|trace| - 1];
      Finished(trace[..|trace| - 1]) + if e.Finish? then [e.test] else []
  }

  /** The enabled tests among the first k, in order. */
  function Plan(c: Config, k: nat): seq<Test> {
    if k == 0 then [] else Plan(c, k - 1) + if Enabled(c, k - 1) then [TestAt(k - 1)] else []
  }

  lemma {:induction false} PlanSkips(c: Config, lo: nat, hi: nat)
    requires lo <= hi && NoneBetween(c, lo, hi)
    ensures Plan(c, lo) == Plan(c, hi)
  {
    if lo < hi {
      PlanSkips(c, lo, hi - 1);
    }
  }

  lemma {:induction false} PlanPrefix(c: Config, lo: nat, hi: nat)
    requires lo <= hi
    ensures Plan(c, lo) <= Plan(c, hi)
  {
    if lo < hi {
      PlanPrefix(c, lo, hi - 1);
    }
  }

  /** The finished tests, given where the automaton stands. */
  ghost predicate FinishedAt(c: Config, p: Phase, done: seq<Test>) {
    match p
    case Idle(j) => j < 4 && !NoneBetween(c, j, 4) && done == Plan(c, j)
    case Testing(k, _, _) => k < 4 && Enabled(c, k) && done == Plan(c, k)
    case Ending(k, _) => k < 4 && Enabled(c, k) && NoneBetween(c, k + 1, 4) && done == Plan(c, k)
    case Last => done == Plan(c, 4)
    case Complete => done == Plan(c, 4)
    case Dead => exists j :: 0 <= j < 4 && Enabled(c, j) && done == Plan(c, j)
    case Rejected => true
  }

  lemma FinishedStep(c: Config, p: Phase, done: seq<Test>, e: Event)
    requires FinishedAt(c, p, done)
    ensures FinishedAt(c, Advance(c, p, e), done + if e.Finish? then [e.test] else [])
  {
    match p
    case Idle(j) =>
      if e.Started? && Advance(c, p, e) != Rejected {
        PlanSkips(c, j, Position(e.test));
      }
    case Testing(k, _, _) =>
    case Ending(k, _) =>
      PlanSkips(c, k + 1, 4);
    case _ =>
  }

  /** Where the automaton stands tells which tests have finished. */
  lemma {:induction false} FinishedIs(c: Config, trace: seq<Event>)
    ensures FinishedAt(c, Follow(c, trace), Finished(trace))
  {
    if trace == [] {
      assert Enabled(c, 0);
    } else {
      var init, e := trace[..|trace| - 1], trace[|trace| - 1];
      FinishedIs(c, init);
      FinishedStep(c, Follow(c, init), Finished(init), e);
    }
  }

  /** The finish callbacks of any accepted trace are a prefix of the enabled tests in the order IP,
      RTT, download, upload. */
  lemma FinishedPrefix(c: Config, trace: seq<Event>)
    requires Accepted(c, trace)
    ensures Finished(trace) <= Plan(c, 4)
  {
    FinishedIs(c, trace);
    match Follow(c, trace)
    case Idle(j) => PlanPrefix(c, j, 4);
    case Testing(k, _, _) => PlanPrefix(c, k, 4);
    case Ending(k, _) => PlanPrefix(c, k, 4);
    case Dead =>
      var j :| 0 <= j < 4 && Enabled(c, j) && Finished(trace) == Plan(c, j);
      PlanPrefix(c, j, 4);
    case _ =>
  }

  /** The tests started, in order. */
  function Begun(trace: seq<Event>): seq<Test> {
    if trace == [] then []
    else
      var e := trace[|trace| - 1];
      Begun(trace[..|trace| - 1]) + if e.Started? then [e.test] else []
  }

  /** The tests started are those finished, and the one that runs. */
  ghost predicate BegunAt(c: Config, p: Phase, done: seq<Test>, begun: seq<Test>) {
    match p
    case Testing(k, _, _) => begun == done + [TestAt(k)]
    case Ending(k, _) => begun == done + [TestAt(k)]
    case Dead =>
      begun == done || exists k :: 0 <= k < 4 && Enabled(c, k) && done == Plan(c, k) && begun == done + [TestAt(k)]
    case Rejected => true
    case _ => begun == done
  }

  lemma BegunStep(c: Config, p: Phase, done: seq<Test>, begun: seq<Test>, e: Event)
    requires FinishedAt(c, p, done) && BegunAt(c, p, done, begun)
    ensures BegunAt(c, Advance(c, p, e), done + (if e.Finish? then [e.test] else []),
                    begun + (if e.Started? then [e.test] else []))
  {
  }

  lemma {:induction false} BegunIs(c: Config, trace: seq<Event>)
    ensures BegunAt(c, Follow(c, trace), Finished(trace), Begun(trace))
  {
    if trace != [] {
      var init, e := trace[..|trace| - 1], trace[|trace| - 1];
      BegunIs(c, init);
      FinishedIs(c, init);
      BegunStep(c, Follow(c, init), Finished(init), Begun(init), e);
    }
  }

  /** Tests are made one at a time, in the order of the plan: what has finished is a prefix of what was
      started, at most one test short of it, and that is a prefix of the plan. */
  lemma TestsInTurn(c: Config, trace: seq<Event>)
    requires Accepted(c, trace)
    ensures Finished(trace) <= Begun(trace) <= Plan(c, 4) && |Begun(trace)| <= |Finished(trace)| + 1
  {
    BegunIs(c, trace);
    FinishedIs(c, trace);
    FinishedPrefix(c, trace);
    if Begun(trace) != Finished(trace) {
      var k :| 0 <= k < 4 && Enabled(c, k) && Finished(trace) == Plan(c, k) && Begun(trace) == Plan(c, k) + [TestAt(k)];
      PlanPrefix(c, k + 1, 4);
    }
  }

  lemma PlanStrict(c: Config, j: nat)
    requires j < 4 && !NoneBetween(c, j, 4)
    ensures Plan(c, j) != Plan(c, 4)
  {
    var k :| j <= k < 4 && Enabled(c, k);
    PlanPrefix(c, j, k);
    PlanPrefix(c, k + 1, 4);
    assert |Plan(c, k + 1)| == |Plan(c, k)| + 1;
  }

  /** All enabled tests have finished exactly when nothing but the completed callback can follow. */
  lemma AllFinished(c: Config, trace: seq<Event>)
    requires Accepted(c, trace)
    ensures Finished(trace) == Plan(c, 4) <==> Follow(c, trace) in {Last, Complete}
  {
    FinishedIs(c, trace);
    match Follow(c, trace)
    case Idle(j) => PlanStrict(c, j);
    case Testing(k, _, _) => PlanStrict(c, k);
    case Ending(k, _) => PlanStrict(c, k);
    case Dead =>
      var j :| 0 <= j < 4 && Enabled(c, j) && Finished(trace) == Plan(c, j);
      PlanStrict(c, j);
    case _ =>
  }

  /** An accepted trace stays accepted when it is cut. */
  lemma {:induction false} AcceptedPrefix(c: Config, trace: seq<Event>, n: nat)
    requires Accepted(c, trace) && n <= |trace|
    ensures Accepted(c, trace[..n])
  {
    if n < |trace| {
      assert trace[..|trace| - 1][..n] == trace[..n];
      AcceptedPrefix(c, trace[..|trace| - 1], n);
    } else {
      assert trace[..n] == trace;
    }
  }

  /** Completion: the completed callback is the last of all, it comes directly after the finish of the
      last enabled test, at which the end of the measurement was noted, and all enabled tests have
      finished. */
  lemma CompletedLast(c: Config, trace: seq<Event>, i: nat)
    requires Accepted(c, trace) && i < |trace| && trace[i].Completed?
    ensures i == |trace| - 1 && i >= 2
    ensures trace[i - 1].Finish? && trace[i - 2].MeasurementEnd?
    ensures Finished(trace) == Plan(c, 4)
  {
    StepAt(c, trace, i);
    if i + 1 < |trace| {
      StepAt(c, trace, i + 1);
    }
    assert trace[..i + 1] == trace;
    FinishedIs(c, trace);
    LastComesFrom(c, trace, i);
  }

  lemma LastComesFrom(c: Config, trace: seq<Event>, i: nat)
    requires Accepted(c, trace) && i <= |trace| && Follow(c, trace[..i]) == Last
    ensures i >= 2 && trace[i - 1].Finish? && trace[i - 2].MeasurementEnd?
  {
    assert trace[..0] == [];
    StepAt(c, trace, i - 1);
    EndingComesFrom(c, trace, i - 1);
  }

  lemma EndingComesFrom(c: Config, trace: seq<Event>, i: nat)
    requires Accepted(c, trace) && i <= |trace| && Follow(c, trace[..i]).Ending?
    ensures i >= 1 && trace[i - 1].MeasurementEnd?
  {
    assert trace[..0] == [];
    StepAt(c, trace, i - 1);
  }

  /** The automaton makes one accepted step at every position. */
  lemma StepAt(c: Config, trace: seq<Event>, i: nat)
    requires Accepted(c, trace) && i < |trace|
    ensures Follow(c, trace[..i + 1]) == Advance(c, Follow(c, trace[..i]), trace[i]) != Rejected
    ensures Follow(c, trace[..i]) == Idle(0) || i > 0
  {
    assert trace[..i + 1][..i] == trace[..i];
    AcceptedPrefix(c, trace, i + 1);
    if i == 0 {
      assert trace[..i] == [];
    }
  }

  /** The end of the measurement is noted at most once, and only a finish and the completed callback
      can follow it. */
  lemma EndOnce(c: Config, trace: seq<Event>, i: nat, j: nat)
    requires Accepted(c, trace) && i < j < |trace| && trace[i].MeasurementEnd?
    ensures (j == i + 1 && trace[j].Finish?) || (j == i + 2 && trace[j].Completed?)
  {
    StepAt(c, trace, i);
    StepAt(c, trace, i + 1);
    assert Follow(c, trace[..i + 1]).Ending?;
    if j > i + 1 {
      StepAt(c, trace, i + 2);
      assert Follow(c, trace[..i + 2]) == Last;
    }
    if j > i + 2 {
      CompletedLast(c, trace, i + 2);
    }
  }

  /** After an error callback nothing is reported, finished or started any more. */
  lemma ErrorLast(c: Config, trace: seq<Event>, i: nat)
    requires Accepted(c, trace) && i < |trace| && trace[i].Error?
    ensures i == |trace| - 1
  {
    StepAt(c, trace, i);
    if i + 1 < |trace| {
      StepAt(c, trace, i + 1);
    }
  }

  /** Test number `at` has made a report for a tick, and goes on with at least that tick or has been
      left for good. */
  ghost predicate Beyond(p: Phase, at: nat, tick: nat) {
    match p
    case Testing(k, stage, last) => k >= at && (k == at ==> last >= tick && stage == 2)
    case Idle(j) => j > at
    case _ => true
  }

  lemma BeyondStays(c: Config, p: Phase, e: Event, at: nat, tick: nat)
    requires Beyond(p, at, tick) && Advance(c, p, e) != Rejected
    ensures Beyond(Advance(c, p, e), at, tick)
    ensures p.Testing? && p.k == at && e.Report? ==> e.index > tick
  {
  }

  lemma {:induction false} TickFloor(c: Config, trace: seq<Event>, i: nat, n: nat)
    requires Accepted(c, trace) && i < n <= |trace| && trace[i].Report?
    ensures Beyond(Follow(c, trace[..n]), Position(trace[i].test), trace[i].index)
  {
    StepAt(c, trace, n - 1);
    if n == i + 1 {
      ReportAt(c, trace, i);
    } else {
      TickFloor(c, trace, i, n - 1);
      BeyondStays(c, Follow(c, trace[..n - 1]), trace[n - 1], Position(trace[i].test), trace[i].index);
    }
  }

  /** A report belongs to the running test and to a later tick than the report before it. */
  lemma ReportAt(c: Config, trace: seq<Event>, i: nat)
    requires Accepted(c, trace) && i < |trace| && trace[i].Report?
    ensures var p := Follow(c, trace[..i]);
            && p.Testing? && p.k == Position(trace[i].test) && p.stage == 2
            && p.last < trace[i].index < 2 * Duration(c, trace[i].test)
            && ReportFits(c, trace[i].test, trace[i])
            && Follow(c, trace[..i + 1]) == Testing(p.k, 2, trace[i].index)
  {
    StepAt(c, trace, i);
    AcceptedPrefix(c, trace, i);
    FinishedIs(c, trace[..i]);
  }

  /** The reports of one test carry strictly increasing ticks, at least 1 and below twice the
      duration. */
  lemma ReportsIncrease(c: Config, trace: seq<Event>, i: nat, j: nat)
    requires Accepted(c, trace) && i < j < |trace|
    requires trace[i].Report? && trace[j].Report? && trace[i].test == trace[j].test
    ensures 1 <= trace[i].index < trace[j].index < 2 * Duration(c, trace[j].test)
  {
    ReportAt(c, trace, i);
    ReportAt(c, trace, j);
    TickFloor(c, trace, i, j);
    StepAt(c, trace, j);
    BeyondStays(c, Follow(c, trace[..j]), trace[j], Position(trace[i].test), trace[i].index);
  }

  /** A download or upload that finishes was started and has its full number of steps, so its list of
      results is never empty. */
  lemma FinishFull(c: Config, trace: seq<Event>, i: nat)
    requires Accepted(c, trace) && i < |trace| && trace[i].Finish? && Measures(trace[i].test)
    ensures |trace[i].readings| == FullSteps(c, trace[i].test)
    ensures Sane(c) ==> |trace[i].readings| >= 2
  {
    StepAt(c, trace, i);
  }
}
