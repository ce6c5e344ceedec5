/** The code of the sequencer on its own fields: the callback object, the test cases one after the
    other, and the set-up of one measurement. */
module Client {
  import opened Protocol
  import opened Timer
  import opened Session
  import opened Invariants

  datatype MeasurementPhase = INIT | IP | PING | DOWNLOAD | UPLOAD | END

  function PhaseOf(t: Test): MeasurementPhase {
    match t case IpTest => IP case RttTest => PING case DownloadTest => DOWNLOAD case UploadTest => UPLOAD
  }

  /** `CCallback`: which tests have been performed, and what it has handed to the platform. */
  class CCallback {
    const config: Config
    var PERFORMED_IP: bool
    var PERFORMED_RTT: bool
    var PERFORMED_DOWNLOAD: bool
    var PERFORMED_UPLOAD: bool
    var mTestCase: nat
    var currentTestPhase: MeasurementPhase
    var trace: seq<Event>

    constructor (config: Config)
      ensures this.config == config && Performed() == {} && trace == [] && currentTestPhase == INIT
    {
      this.config := config;
      PERFORMED_IP, PERFORMED_RTT, PERFORMED_DOWNLOAD, PERFORMED_UPLOAD := false, false, false, false;
      mTestCase, currentTestPhase, trace := 0, INIT, [];
    }

    function Performed(): set<Test>
      reads this
    {
      (if PERFORMED_IP then {IpTest} else {}) + (if PERFORMED_RTT then {RttTest} else {})
      + (if PERFORMED_DOWNLOAD then {DownloadTest} else {}) + (if PERFORMED_UPLOAD then {UploadTest} else {})
    }

    /** The comparison of the four flags; the IP test is always enabled. */
    predicate AllPerformed()
      reads this
    {
      && PERFORMED_IP && config.rtt == PERFORMED_RTT
      && config.download == PERFORMED_DOWNLOAD && config.upload == PERFORMED_UPLOAD
    }

    lemma AllPerformedIff()
      ensures AllPerformed() <==> Performed() == EnabledBelow(config, 4)
    {
      assert forall t :: t in EnabledBelow(config, 4) <==> Enabled(config, Position(t));
      assert IpTest in Performed() <==> PERFORMED_IP;
      assert RttTest in Performed() <==> PERFORMED_RTT;
      assert DownloadTest in Performed() <==> PERFORMED_DOWNLOAD;
      assert UploadTest in Performed() <==> PERFORMED_UPLOAD;
    }

    method Perform(e: Event)
      requires e.Finish? && mTestCase == Position(e.test) + 1
      modifies this
      ensures Performed() == old(Performed()) + {e.test}
      ensures mTestCase == old(mTestCase) && currentTestPhase == old(currentTestPhase) && trace == old(trace)
    {
      if mTestCase == 1 {
        PERFORMED_IP := true;
      }
      if mTestCase == 2 {
        PERFORMED_RTT := true;
      }
      if mTestCase == 3 {
        PERFORMED_DOWNLOAD := true;
      }
      if mTestCase == 4 {
        PERFORMED_UPLOAD := true;
      }
    }

    /** One callback. What reaches the platform, and in which order, is `Emitted`; the phase ends with
        completion. */
    method Callback(e: Event)
      requires e.Finish? ==> mTestCase == Position(e.test) + 1
      modifies this
      ensures Performed() == old(Performed()) + if e.Finish? then {e.test} else {}
      ensures trace == old(trace) + Emitted(config, Performed(), e)
      ensures currentTestPhase ==
              if e.Finish? && Performed() == EnabledBelow(config, 4) then END else old(currentTestPhase)
      ensures mTestCase == old(mTestCase)
    {
      if e.Finish? {
        Perform(e);
      }
      AllPerformedIff();
      if AllPerformed() {
        trace := trace + [MeasurementEnd];
      }
      trace := trace + [e];
      AllPerformedIff();
      if e.Finish? && AllPerformed() {
        currentTestPhase := END;
        trace := trace + [Completed];
      }
    }
  }

  // ----- the sequence of test cases

  /** The tests that the first k decisions of the sequencer start, given the state of the system in which
      each of them is made. */
  function Decided(c: Config, vs: seq<State>, k: nat): seq<Test>
    requires k <= |vs|
  {
    if k == 0 then []
    else Decided(c, vs, k - 1) + if DoDecide(c, vs[k - 1]).seqr.Preparing? then [TestAt(k - 1)] else []
  }

  /** The states in which the system is when its sequencer decides, one for each test and one for the
      end. */
  ghost predicate InOrder(vs: seq<State>) {
    forall k | 0 <= k < |vs| :: vs[k].seqr == Deciding(k)
  }

  class Client {
    const config: Config
    const callback: CCallback
    var RUNNING: bool
    var hasError: bool
    var made: seq<Test>

    constructor (config: Config)
      ensures this.config == config == callback.config && fresh(callback)
      ensures callback.trace == [] && made == [] && RUNNING
    {
      this.config := config;
      callback := new CCallback(config);
      RUNNING, hasError, made := true, false, [];
    }

    /** The thread looks at the globals, as the other threads have left them by then. */
    method Look(s: State)
      modifies `RUNNING, `hasError
      ensures RUNNING == s.sh.flags.running && hasError == s.sh.flags.hasError
    {
      RUNNING, hasError := s.sh.flags.running, s.sh.flags.hasError;
    }

    method StartTestCase(nTestCase: nat)
      requires 1 <= nTestCase <= 4
      modifies `made, callback
      ensures made == old(made) + [TestAt(nTestCase - 1)]
      ensures callback.mTestCase == nTestCase && callback.currentTestPhase == PhaseOf(TestAt(nTestCase - 1))
      ensures callback.currentTestPhase ==
              match nTestCase case 1 => IP case 2 => PING case 3 => DOWNLOAD case _ => UPLOAD
      ensures callback.trace == old(callback.trace) + [Started(TestAt(nTestCase - 1))]
    {
      callback.currentTestPhase := PhaseOf(TestAt(nTestCase - 1));
      callback.mTestCase := nTestCase;
      callback.trace := callback.trace + [Started(TestAt(nTestCase - 1))];
      made := made + [TestAt(nTestCase - 1)];
    }

    method Shutdown()
      modifies `RUNNING
      ensures !RUNNING
    {
      RUNNING := false;
    }

    /** Without an enabled test the client reports an error and stops. */
    method CheckTests()
      requires callback.config == config
      modifies this, callback
      ensures made == old(made) && hasError == old(hasError)
      ensures RUNNING == (old(RUNNING) && (config.rtt || config.download || config.upload))
      ensures callback.trace == old(callback.trace)
                + if config.rtt || config.download || config.upload then []
                  else Emitted(config, callback.Performed(), Error(1))
    {
      if !config.rtt && !config.download && !config.upload {
        callback.Callback(Error(1));
        Shutdown();
      }
    }

    /** The guard of one test case: exactly the step of the system's sequencer, in the test it starts and in
        what it hands to the platform. */
    method TakeTestCase(nTestCase: nat, enabled: bool, s: State)
      requires 1 <= nTestCase <= 4 && enabled == Enabled(config, nTestCase - 1) && s.seqr == Deciding(nTestCase - 1)
      modifies this, callback
      ensures made == old(made) + if DoDecide(config, s).seqr.Preparing? then [TestAt(nTestCase - 1)] else []
      ensures old(callback.trace) <= callback.trace
      ensures s.trace + callback.trace[|old(callback.trace)|..] == DoDecide(config, s).trace
    {
      Look(s);
      if enabled && RUNNING && (nTestCase == 1 || !hasError) {
        StartTestCase(nTestCase);
      }
    }

    /** `measurementStart` from the reset of the flags on. Whatever the other threads do between its looks at
        the globals, it makes exactly the decisions of the system's sequencer, and then stops the client,
        as the system does. */
    method MeasurementStart(vs: seq<State>)
      requires |vs| == 5 && InOrder(vs) && made == [] && callback.config == config
      modifies this, callback
      ensures made == Decided(config, vs, 4)
      ensures RUNNING == DoDecide(config, vs[4]).sh.flags.running == false
      ensures callback.currentTestPhase == END
    {
      hasError := false;
      CheckTests();
      TakeTestCase(1, true, vs[0]);
      assert made == Decided(config, vs, 1);
      TakeTestCase(2, config.rtt, vs[1]);
      assert made == Decided(config, vs, 2);
      TakeTestCase(3, config.download, vs[2]);
      assert made == Decided(config, vs, 3);
      TakeTestCase(4, config.upload, vs[3]);
      callback.currentTestPhase := END;
      Shutdown();
    }
  }

  // ----- the decisions of a run

  /** The states in which the decisions of a run were made. */
  ghost function Looks(c: Config, zero: nat, acts: seq<Action>): seq<State> {
    if acts == [] then []
    else
      var s := After(c, zero, acts[..|acts| - 1]);
      Looks(c, zero, acts[..|acts| - 1]) + if acts[|acts| - 1].Decide? && s.seqr.Deciding? then [s] else []
  }

  /** How many decisions have been made, and what they started. */
  ghost predicate Tracked(c: Config, s: State, vs: seq<State>) {
    && InOrder(vs) && |vs| <= 5
    && (match s.seqr
        case Deciding(k) => k == |vs| <= 4
        case Preparing(k) => k + 1 == |vs| <= 4
        case Joining(k) => k + 1 == |vs| <= 4
        case Over => |vs| == 5)
    && Begun(s.trace) == Decided(c, vs, if |vs| <= 4 then |vs| else 4)
  }

  lemma BegunMore(trace: seq<Event>, e: Event)
    ensures Begun(trace + [e]) == Begun(trace) + if e.Started? then [e.test] else []
  {
    assert (trace + [e])[..|trace|] == trace;
  }

  lemma BegunEmitted(c: Config, trace: seq<Event>, performed: set<Test>, e: Event)
    requires !e.Started?
    ensures Begun(trace + Emitted(c, performed, e)) == Begun(trace)
  {
    BegunMore(trace, e);
    BegunMore(trace, MeasurementEnd);
    BegunMore(trace + [MeasurementEnd], e);
    BegunMore(trace + [MeasurementEnd] + [e], Completed);
    assert trace + [MeasurementEnd] + [e] == trace + [MeasurementEnd, e];
    assert trace + [MeasurementEnd] + [e] + [Completed] == trace + [MeasurementEnd, e, Completed];
  }

  lemma {:induction false} DecidedPrefix(c: Config, vs: seq<State>, s: State, k: nat)
    requires k <= |vs|
    ensures Decided(c, vs + [s], k) == Decided(c, vs, k)
  {
    if k > 0 {
      DecidedPrefix(c, vs, s, k - 1);
    }
  }

  lemma TrackedDecide(c: Config, s: State, vs: seq<State>)
    requires Tracked(c, s, vs) && s.seqr.Deciding?
    ensures Tracked(c, DoDecide(c, s), vs + [s])
  {
    var n := if |vs| <= 4 then |vs| else 4;
    DecidedPrefix(c, vs, s, n);
    if |vs| < 4 {
      BegunMore(s.trace, Started(TestAt(s.seqr.k)));
      assert (vs + [s])[|vs|] == s;
    }
  }

  /** Neither what a test hands over nor what the timer tells starts a test. */
  lemma BegunSame(c: Config, s: State, a: Action)
    requires a.CalcEnd? || a.TimerStep?
    ensures Begun(Do(c, s, a).trace) == Begun(s.trace)
  {
    match a
    case CalcEnd =>
      if DoEnd(c, s) != s {
        BegunEmitted(c, s.trace, DoEnd(c, s).performed, Handed(s));
      }
    case TimerStep =>
      if DoTimer(c, s).trace != s.trace {
        BegunEmitted(c, s.trace, s.performed, EventOf(Step(Result(s.sh, s.timer, []), s.now).calls[0]));
      }
  }

  lemma TrackedOther(c: Config, s: State, a: Action, vs: seq<State>)
    requires Tracked(c, s, vs) && !(a.Decide? && s.seqr.Deciding?)
    ensures Tracked(c, Do(c, s, a), vs)
  {
    if a.CalcEnd? || a.TimerStep? {
      BegunSame(c, s, a);
    }
  }

  lemma TrackedBegin(c: Config, zero: nat)
    ensures Tracked(c, Begin(c, zero), [])
  {
    BegunEmitted(c, [], {}, Error(1));
    assert [] + Emitted(c, {}, Error(1)) == Emitted(c, {}, Error(1));
  }

  lemma {:induction false} TrackedAlways(c: Config, zero: nat, acts: seq<Action>)
    ensures Tracked(c, After(c, zero, acts), Looks(c, zero, acts))
  {
    if acts == [] {
      TrackedBegin(c, zero);
    } else {
      var init, a := acts[..|acts| - 1], acts[|acts| - 1];
      var s := After(c, zero, init);
      TrackedAlways(c, zero, init);
      if a.Decide? && s.seqr.Deciding? {
        TrackedDecide(c, s, Looks(c, zero, init));
      } else {
        TrackedOther(c, s, a, Looks(c, zero, init));
        assert Looks(c, zero, acts) == Looks(c, zero, init);
      }
    }
  }

  /** The looks of a run that is over are an input of `MeasurementStart`, and the tests it makes for them
      are exactly those the run started. */
  lemma SequencerMatches(c: Config, zero: nat, acts: seq<Action>)
    requires After(c, zero, acts).seqr.Over?
    ensures |Looks(c, zero, acts)| == 5 && InOrder(Looks(c, zero, acts))
    ensures Decided(c, Looks(c, zero, acts), 4) == Begun(Trace(c, zero, acts))
  {
    TrackedAlways(c, zero, acts);
  }

  /** The client was stopped, or, from the first test on, an error flagged. */
  ghost predicate Halted(s: State) {
    !s.sh.flags.running || (s.sh.flags.hasError && s.seqr != Deciding(0))
  }

  lemma HaltedWork(c: Config, s: State, i: nat, m: Move)
    requires Halted(s)
    ensures Halted(DoWork(c, s, i, m))
  {
    if s.seqr.Joining? && i < |s.workers| {
      WorkerFlags(c, CurrentTest(s), s.workers[i], s.sh, s.now, m);
    }
  }

  /** Nothing starts any more, and nothing makes the client go on. */
  lemma HaltedStep(c: Config, s: State, a: Action)
    requires Halted(s)
    ensures Halted(Do(c, s, a)) && Begun(Do(c, s, a).trace) == Begun(s.trace)
  {
    match a
    case Work(i, m) => HaltedWork(c, s, i, m);
    case CalcEnd => BegunSame(c, s, a);
    case TimerStep =>
      TimerFrame(Result(s.sh, s.timer, []), s.now);
      BegunSame(c, s, a);
    case _ =>
  }

  lemma AfterMore(c: Config, zero: nat, acts: seq<Action>, a: Action)
    ensures After(c, zero, acts + [a]) == Do(c, After(c, zero, acts), a)
  {
    assert (acts + [a])[..|acts|] == acts;
  }

  /** Once the client was stopped or a test has flagged an error, no further test is started, however the
      run goes on. */
  lemma {:induction false} NoneAfterFailure(c: Config, zero: nat, acts: seq<Action>, more: seq<Action>)
    requires Halted(After(c, zero, acts))
    ensures Begun(Trace(c, zero, acts + more)) == Begun(Trace(c, zero, acts)) && Halted(After(c, zero, acts + more))
  {
    if more == [] {
      assert acts + more == acts;
    } else {
      var init, a := more[..|more| - 1], more[|more| - 1];
      NoneAfterFailure(c, zero, acts, init);
      assert acts + more == acts + init + [a];
      AfterMore(c, zero, acts + init, a);
      HaltedStep(c, After(c, zero, acts + init), a);
    }
  }

  // ----- one measurement

  class CMeasurement {
    const config: Config
    const mTestCase: nat
    var instances: nat
    var mInitialCallbackDelay: nat
    var MEASUREMENT_DURATION: nat
    var workers: seq<Worker>

    /** The number of workers and the delay; the timer's own constructor leaves the duration at 0. */
    constructor (config: Config, nTestCase: nat)
      requires 1 <= nTestCase <= 4
      ensures this.config == config && mTestCase == nTestCase && workers == [] && MEASUREMENT_DURATION == 0
      ensures instances == Instances(config, TestAt(nTestCase - 1))
      ensures mInitialCallbackDelay == DelayOf(TestAt(nTestCase - 1))
      ensures nTestCase == 1 ==> instances == 1 && mInitialCallbackDelay == 0
      ensures nTestCase == 2 ==> instances == 1 && mInitialCallbackDelay == 1000000
      ensures nTestCase == 3 ==> instances == config.downloadStreams && mInitialCallbackDelay == 3000000
      ensures nTestCase == 4 ==> instances == config.uploadStreams && mInitialCallbackDelay == 3000000
    {
      this.config := config;
      mTestCase, workers, MEASUREMENT_DURATION := nTestCase, [], 0;
      instances, mInitialCallbackDelay := 1, 1000000;
      if nTestCase == 1 {
        mInitialCallbackDelay := 0;
      } else if nTestCase == 3 {
        instances, mInitialCallbackDelay := config.downloadStreams, 3000000;
      } else if nTestCase == 4 {
        instances, mInitialCallbackDelay := config.uploadStreams, 3000000;
      }
    }

    /** Sets the duration, except for the ping test, and then creates the workers: the step `DoCreate`
        of the system. */
    method StartMeasurement(pids: seq<nat>, ghost s: State)
      requires 1 <= mTestCase <= 4 && |pids| == instances == Instances(config, TestAt(mTestCase - 1))
      requires s.seqr == Preparing(mTestCase - 1) && Distinct(pids) && s.sh.duration == MEASUREMENT_DURATION
      modifies `MEASUREMENT_DURATION, `workers
      ensures workers == DoCreate(config, s, pids).workers
      ensures MEASUREMENT_DURATION == DoCreate(config, s, pids).sh.duration
      ensures MEASUREMENT_DURATION == match mTestCase case 1 => 60
                                      case 2 => old(MEASUREMENT_DURATION)
                                      case 3 => config.downloadDuration case _ => config.uploadDuration + 2
    {
      if mTestCase == 1 {
        MEASUREMENT_DURATION := 60;
      } else if mTestCase == 3 {
        MEASUREMENT_DURATION := config.downloadDuration;
      } else if mTestCase == 4 {
        MEASUREMENT_DURATION := config.uploadDuration + 2;
      }
      workers := [];
      for i := 0 to instances
        invariant MEASUREMENT_DURATION == DurationSet(config, TestAt(mTestCase - 1), old(MEASUREMENT_DURATION))
        invariant |workers| == i && forall j | 0 <= j < i :: workers[j] == NewWorker(pids[j])
      {
        workers := workers + [NewWorker(pids[i])];
      }
      assert workers == NewWorkers(pids);
    }
  }
}
