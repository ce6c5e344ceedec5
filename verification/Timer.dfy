/** `CTimer`: the thread that starts a test once all its workers are ready, ticks every half second,
    and ends the test. */
module Timer {

  /** The globals the threads share. `syncing` holds an entry per worker: 0 registered, 1 ready. */
  datatype Shared = Shared(flags: Flags, tick: Ticking, duration: nat, first: nat, syncing: map<nat, nat>)

  /** `RUNNING`, `hasError` and the error flags. */
  datatype Flags = Flags(running: bool, hasError: bool, unreachable: bool, forbidden: bool, tlsMissing: bool,
                         dropped: bool)

  /** `TIMER_ACTIVE`, `TIMER_RUNNING`, `TIMER_STOPPED`, `TIMER_INDEX` and `TIMER_DURATION`. */
  datatype Ticking = Ticking(active: bool, running: bool, stopped: bool, index: nat, elapsed: nat)

  /** Where the timer thread stands. Reporting and Finishing: it is inside the callback. */
  datatype Point =
    | Head | TestUnreachable | TestForbidden | TestTls | Barrier
    | Delay(until: nat) | Stamp
    | Poll | Reporting | Loop
    | End | Finishing | Close | Done

  datatype Timer = Timer(at: Point, instances: nat, delay: nat, time1: nat, current: nat, signaled: Signaled)

  /** Which errors the timer has already reported. */
  datatype Signaled = Signaled(unreachable: bool, forbidden: bool, tls: bool, dropped: bool)

  /** What the timer asks the callback object for. */
  datatype Call = InfoStarting | InfoRunning | CallReport | CallError(code: nat) | CallFinish

  function Ready(syncing: map<nat, nat>): set<nat> {
    set p | p in syncing && syncing[p] == 1
  }

  // ----- the constructor

  function NewTimer(instances: nat, delay: nat): Timer {
    Timer(Head, instances, delay, 0, 0, Signaled(false, false, false, false))
  }

  function Reset(sh: Shared): Shared {
    sh.(tick := Ticking(true, false, false, 0, 0), duration := 0, first := 0)
  }

  // ----- one step of the thread

  /** The globals, the thread and the calls it has made. */
  datatype Result = Result(sh: Shared, t: Timer, calls: seq<Call>)

  function Goto(r: Result, next: Point): Result {
    r.(t := r.t.(at := next))
  }

  function Made(r: Result, c: Call, next: Point): Result {
    Result(r.sh, r.t.(at := next), r.calls + [c])
  }

  /** An error callback ends the timer loop. */
  function Failed(r: Result, code: nat, next: Point): Result {
    Result(r.sh.(tick := r.sh.tick.(stopped := true)), r.t.(at := next), r.calls + [CallError(code)])
  }

  /** The stop test and the tick. A stopping poll leaves the tick alone. */
  function Clock(k: Ticking, duration: nat, time1: nat, now: nat): Ticking {
    var diff := if now >= time1 then now - time1 else 0;
    if duration <= diff / 1000000 then k.(elapsed := diff, stopped := true)
    else k.(elapsed := diff, index := diff / 500000)
  }

  function Step(r: Result, now: nat): Result {
    var sh, t := r.sh, r.t;
    match t.at
    case Head =>
      Goto(r, if sh.flags.running && !sh.tick.stopped then TestUnreachable else End)
    case TestUnreachable =>
      if sh.flags.unreachable && !t.signaled.unreachable
      then Failed(r.(t := t.(signaled := t.signaled.(unreachable := true))), 7, End)
      else Goto(r, TestForbidden)
    case TestForbidden =>
      if sh.flags.forbidden && !t.signaled.forbidden
      then Failed(r.(t := t.(signaled := t.signaled.(forbidden := true))), 4, End)
      else Goto(r, TestTls)
    case TestTls =>
      if sh.flags.tlsMissing && !t.signaled.tls
      then Failed(r.(t := t.(signaled := t.signaled.(tls := true))), 8, End)
      else Goto(r, Barrier)
    case Barrier =>
      if sh.tick.running then Goto(r.(t := t.(current := 0)), Poll)
      else if |Ready(sh.syncing)| == t.instances then Made(r, InfoStarting, Delay(now + t.delay))
      else Goto(r, Head)
    case Delay(until) =>
      Made(r.(sh := sh.(tick := sh.tick.(running := true))), InfoRunning, Stamp)
    case Stamp =>
      Goto(r.(t := t.(time1 := now)), Head)
    case Poll =>
      if sh.flags.dropped && !t.signaled.dropped
      then Failed(r.(t := t.(signaled := t.signaled.(dropped := true))), 9, Head)
      else
        var k := Clock(sh.tick, sh.duration, t.time1, now);
        if k.index != t.current
        then Made(Result(sh.(tick := k), t.(current := k.index), r.calls), CallReport, Reporting)
        else Goto(r.(sh := sh.(tick := k)), Loop)
    case Reporting =>
      Goto(r, Loop)
    case Loop =>
      Goto(r, if sh.flags.running && !sh.tick.stopped then Poll else Head)
    case End =>
      if sh.flags.running && !sh.flags.hasError then Made(r, CallFinish, Finishing) else Goto(r, Close)
    case Finishing =>
      Goto(r, Close)
    case Close =>
      Goto(r.(sh := sh.(tick := sh.tick.(active := false))), Done)
    case Done =>
      r
  }

  // ----- the thread itself

  /** What the timer thread finds when it looks again: the clock, and the globals as the other threads
      have left them. They never touch those that only the timer writes. */
  datatype View = View(now: nat, sh: Shared)

  /** The globals of a view, with the timer's own ones as it left them. */
  function Merge(own: Shared, v: View): Shared {
    v.sh.(tick := own.tick.(stopped := own.tick.stopped || v.sh.tick.stopped))
  }

  /** One look of the thread and what it does about it. */
  function Applied(r: Result, v: View): Result {
    Step(r.(sh := Merge(r.sh, v)), v.now)
  }

  /** The state and the calls after the first n looks. */
  function Runs(start: Result, vs: seq<View>, n: nat): Result
    requires n <= |vs|
  {
    if n == 0 then start else Applied(Runs(start, vs, n - 1), vs[n - 1])
  }

  class CTimer {
    const mInstances: nat
    const mInitialCallbackDelay: nat
    var sh: Shared
    var unreachableSignaled: bool
    var forbiddenSignaled: bool
    var tlsParametersMissingSignaled: bool
    var streamsDroppedSignaled: bool
    var time1: nat
    var current_index: nat
    var calls: seq<Call>

    /** The constructor resets every global that the timer of an earlier test may have left behind. */
    constructor (nInstances: nat, nInitialCallbackDelay: nat, before: Shared)
      ensures Here(Head) == Result(Reset(before), NewTimer(nInstances, nInitialCallbackDelay), [])
      ensures sh == before.(tick := Ticking(true, false, false, 0, 0), first := 0, duration := 0)
      ensures mInstances == nInstances && mInitialCallbackDelay == nInitialCallbackDelay && calls == []
    {
      mInstances := nInstances;
      mInitialCallbackDelay := nInitialCallbackDelay;
      unreachableSignaled, streamsDroppedSignaled := false, false;
      forbiddenSignaled, tlsParametersMissingSignaled := false, false;
      time1, current_index, calls := 0, 0, [];
      sh := before.(tick := Ticking(true, false, false, 0, 0), first := 0, duration := 0);
    }

    /** The thread's variables, the globals and the calls made so far, with the thread at a point. */
    function Here(at: Point): Result
      reads this
    {
      Result(sh, Timer(at, mInstances, mInitialCallbackDelay, time1, current_index,
                       Signaled(unreachableSignaled, forbiddenSignaled, tlsParametersMissingSignaled,
                                streamsDroppedSignaled)),
             calls)
    }

    /** An error callback, after which the loop is told to stop. */
    method Fail(code: nat)
      modifies `sh, `calls
      ensures sh == old(sh).(tick := old(sh).tick.(stopped := true)) && calls == old(calls) + [CallError(code)]
    {
      calls := calls + [CallError(code)];
      sh := sh.(tick := sh.tick.(stopped := true));
    }

    method CheckUnreachable(v: View) returns (failed: bool)
      modifies this
      ensures failed <==> v.sh.flags.unreachable && !old(unreachableSignaled)
      ensures unreachableSignaled == (old(unreachableSignaled) || failed)
      ensures calls == old(calls) + (if failed then [CallError(7)] else []) && (failed ==> sh.tick.stopped)
      ensures Here(if failed then End else TestForbidden) == Applied(old(Here(TestUnreachable)), v)
    {
      sh := Merge(sh, v);
      failed := sh.flags.unreachable && !unreachableSignaled;
      if failed {
        unreachableSignaled := true;
        Fail(7);
      }
    }

    method CheckForbidden(v: View) returns (failed: bool)
      modifies this
      ensures failed <==> v.sh.flags.forbidden && !old(forbiddenSignaled)
      ensures forbiddenSignaled == (old(forbiddenSignaled) || failed)
      ensures calls == old(calls) + (if failed then [CallError(4)] else []) && (failed ==> sh.tick.stopped)
      ensures Here(if failed then End else TestTls) == Applied(old(Here(TestForbidden)), v)
    {
      sh := Merge(sh, v);
      failed := sh.flags.forbidden && !forbiddenSignaled;
      if failed {
        forbiddenSignaled := true;
        Fail(4);
      }
    }

    method CheckTls(v: View) returns (failed: bool)
      modifies this
      ensures failed <==> v.sh.flags.tlsMissing && !old(tlsParametersMissingSignaled)
      ensures tlsParametersMissingSignaled == (old(tlsParametersMissingSignaled) || failed)
      ensures calls == old(calls) + (if failed then [CallError(8)] else []) && (failed ==> sh.tick.stopped)
      ensures Here(if failed then End else Barrier) == Applied(old(Here(TestTls)), v)
    {
      sh := Merge(sh, v);
      failed := sh.flags.tlsMissing && !tlsParametersMissingSignaled;
      if failed {
        tlsParametersMissingSignaled := true;
        Fail(8);
      }
    }

    /** The barrier: counts the entries that are 1, by a loop over the map. */
    method CountReady(syncing: map<nat, nat>) returns (sync_counter: nat)
      ensures sync_counter == |Ready(syncing)|
    {
      sync_counter := 0;
      var left := syncing.Keys;
      while left != {}
        invariant left <= syncing.Keys
        invariant sync_counter == |Ready(syncing) - left|
        decreases |left|
      {
        var p :| p in left;
        if syncing[p] == 1 {
          assert Ready(syncing) - (left - {p}) == Ready(syncing) - left + {p};
          sync_counter := sync_counter + 1;
        } else {
          assert Ready(syncing) - (left - {p}) == Ready(syncing) - left;
        }
        left := left - {p};
      }
      assert Ready(syncing) - {} == Ready(syncing);
    }

    method PassBarrier(v: View) returns (next: Point)
      modifies this
      ensures Here(next) == Applied(old(Here(Barrier)), v)
      ensures old(sh).tick.running ==> next == Poll && calls == old(calls)
      ensures !old(sh).tick.running ==>
                if |Ready(v.sh.syncing)| == mInstances
                then next == Delay(v.now + mInitialCallbackDelay) && calls == old(calls) + [InfoStarting]
                else next == Head && calls == old(calls)
    {
      sh := Merge(sh, v);
      next := Head;
      if sh.tick.running {
        current_index := 0;
        next := Poll;
      } else {
        var sync_counter := CountReady(sh.syncing);
        if sync_counter == mInstances {
          calls := calls + [InfoStarting];
          next := Delay(v.now + mInitialCallbackDelay);
        }
      }
    }

    method StartRunning(until: nat, v: View)
      modifies this
      ensures Here(Stamp) == Applied(old(Here(Delay(until))), v)
      ensures sh.tick.running && calls == old(calls) + [InfoRunning]
    {
      sh := Merge(sh, v);
      calls := calls + [InfoRunning];
      sh := sh.(tick := sh.tick.(running := true));
    }

    method TakeStamp(v: View)
      modifies this
      ensures Here(Head) == Applied(old(Here(Stamp)), v)
      ensures time1 == v.now
    {
      sh := Merge(sh, v);
      time1 := v.now;
    }

    /** The stop test and the tick of one poll. The poll stops the test exactly when the duration has
        passed, and then leaves the tick as it was; otherwise the tick counts the half seconds that have
        fully passed, and stays below twice the duration. */
    method ReadClock(time2: nat)
      modifies `sh
      ensures sh == old(sh).(tick := Clock(old(sh).tick, old(sh).duration, time1, time2))
      ensures time1 <= time2 ==> sh.tick.elapsed == time2 - time1
      ensures sh.tick.elapsed >= old(sh).duration * 1000000 ==> sh.tick.stopped && sh.tick.index == old(sh).tick.index
      ensures sh.tick.elapsed < old(sh).duration * 1000000 ==>
                && sh.tick.stopped == old(sh).tick.stopped && sh.tick.index < 2 * old(sh).duration
                && sh.tick.index * 500000 <= sh.tick.elapsed < (sh.tick.index + 1) * 500000
    {
      var time_diff := if time2 >= time1 then time2 - time1 else 0;
      sh := sh.(tick := sh.tick.(elapsed := time_diff));
      if sh.duration <= time_diff / 1000000 {
        sh := sh.(tick := sh.tick.(stopped := true));
      } else {
        sh := sh.(tick := sh.tick.(index := time_diff / 500000));
      }
    }

    /** The body of the inner loop up to the report. */
    method DoPoll(v: View) returns (next: Point)
      modifies this
      ensures Here(next) == Applied(old(Here(Poll)), v)
      ensures next == Head || next == Reporting || next == Loop
      ensures next == Head <==> v.sh.flags.dropped && !old(streamsDroppedSignaled)
      ensures streamsDroppedSignaled == (old(streamsDroppedSignaled) || next == Head)
      ensures calls == old(calls) + match next case Head => [CallError(9)] case Reporting => [CallReport] case _ => []
      ensures next == Reporting <==> next != Head && sh.tick.index != old(current_index)
    {
      sh := Merge(sh, v);
      if sh.flags.dropped && !streamsDroppedSignaled {
        streamsDroppedSignaled := true;
        Fail(9);
        return Head;
      }
      ReadClock(v.now);
      next := Loop;
      if sh.tick.index != current_index {
        current_index := sh.tick.index;
        calls := calls + [CallReport];
        next := Reporting;
      }
    }

    /** After the loops: the finish callback, unless the client was stopped or an error flagged. */
    method DoEnd(v: View) returns (next: Point)
      modifies this
      ensures Here(next) == Applied(old(Here(End)), v)
      ensures next == (if v.sh.flags.running && !v.sh.flags.hasError then Finishing else Close)
      ensures calls == old(calls) + if next == Finishing then [CallFinish] else []
    {
      sh := Merge(sh, v);
      next := Close;
      if sh.flags.running && !sh.flags.hasError {
        calls := calls + [CallFinish];
        next := Finishing;
      }
    }

    /** A loop guard. */
    method Guard(at: Point, v: View) returns (go: bool)
      requires at == Head || at == Loop
      modifies this
      ensures Here(if at == Head then if go then TestUnreachable else End
                   else if go then Poll else Head) == Applied(old(Here(at)), v)
      ensures go <==> v.sh.flags.running && !old(sh).tick.stopped && !v.sh.tick.stopped
    {
      sh := Merge(sh, v);
      go := sh.flags.running && !sh.tick.stopped;
    }

    /** The callback object returns. */
    method Return(at: Point, v: View)
      requires at == Reporting || at == Finishing
      modifies this
      ensures Here(if at == Reporting then Loop else Close) == Applied(old(Here(at)), v)
    {
      sh := Merge(sh, v);
    }

    method Leave(v: View)
      modifies this
      ensures Here(Done) == Applied(old(Here(Close)), v)
      ensures !sh.tick.active && calls == old(calls)
    {
      sh := Merge(sh, v);
      sh := sh.(tick := sh.tick.(active := false));
    }

    /** The head of the outer loop: the three error checks, each with a look of its own. */
    method CheckErrors(vs: seq<View>, n: nat, ghost start: Result) returns (m: nat, at: Point)
      requires n <= |vs| && Here(TestUnreachable) == Runs(start, vs, n)
      modifies this
      ensures n <= m <= |vs| && Here(at) == Runs(start, vs, m)
      ensures at == End || at == Barrier || m == |vs|
    {
      m, at := n, TestUnreachable;
      if m == |vs| { return; }
      var failed := CheckUnreachable(vs[m]);
      m, at := m + 1, if failed then End else TestForbidden;
      assert Here(at) == Runs(start, vs, m);
      if failed || m == |vs| { return; }
      failed := CheckForbidden(vs[m]);
      m, at := m + 1, if failed then End else TestTls;
      assert Here(at) == Runs(start, vs, m);
      if failed || m == |vs| { return; }
      failed := CheckTls(vs[m]);
      m, at := m + 1, if failed then End else Barrier;
      assert Here(at) == Runs(start, vs, m);
    }

    /** One poll, and the return of its report. */
    method OnePoll(vs: seq<View>, n: nat, ghost start: Result) returns (m: nat, at: Point)
      requires n < |vs| && Here(Poll) == Runs(start, vs, n)
      modifies this
      ensures n < m <= |vs| && Here(at) == Runs(start, vs, m)
      ensures at == Head || at == Loop || m == |vs|
    {
      at := DoPoll(vs[n]);
      m := n + 1;
      assert Here(at) == Runs(start, vs, m);
      if at == Reporting && m < |vs| {
        Return(Reporting, vs[m]);
        m, at := m + 1, Loop;
        assert Here(at) == Runs(start, vs, m);
      }
    }

    /** The inner loop: poll, report when the tick has changed, sleep, until told to stop. */
    method PollLoop(vs: seq<View>, n: nat, ghost start: Result) returns (m: nat, at: Point)
      requires n <= |vs| && Here(Poll) == Runs(start, vs, n)
      modifies this
      ensures n <= m <= |vs| && Here(at) == Runs(start, vs, m)
      ensures at == Head || m == |vs|
    {
      m, at := n, Poll;
      while m < |vs| && at == Poll
        invariant n <= m <= |vs| && Here(at) == Runs(start, vs, m)
        invariant at == Head || at == Poll || m == |vs|
        decreases |vs| - m
      {
        m, at := OnePoll(vs, m, start);
        if at == Loop && m < |vs| {
          m, at := Again(vs, m, start);
        }
      }
    }

    /** The guard of the inner loop. */
    method Again(vs: seq<View>, n: nat, ghost start: Result) returns (m: nat, at: Point)
      requires n < |vs| && Here(Loop) == Runs(start, vs, n)
      modifies this
      ensures m == n + 1 && Here(at) == Runs(start, vs, m)
      ensures at == Head || at == Poll
    {
      var go := Guard(Loop, vs[n]);
      m, at := n + 1, if go then Poll else Head;
    }

    /** From the barrier: wait on, or start the clock. */
    method AwaitStart(vs: seq<View>, n: nat, ghost start: Result) returns (m: nat, at: Point)
      requires n <= |vs| && Here(Barrier) == Runs(start, vs, n)
      modifies this
      ensures n <= m <= |vs| && Here(at) == Runs(start, vs, m)
      ensures at == Head || at == Poll || m == |vs|
    {
      m, at := n, Barrier;
      if m == |vs| { return; }
      at := PassBarrier(vs[m]);
      m := m + 1;
      assert Here(at) == Runs(start, vs, m);
      if at == Poll || at == Head || m == |vs| { return; }
      StartRunning(at.until, vs[m]);
      m, at := m + 1, Stamp;
      assert Here(at) == Runs(start, vs, m);
      if m == |vs| { return; }
      TakeStamp(vs[m]);
      m, at := m + 1, Head;
      assert Here(at) == Runs(start, vs, m);
    }

    /** After the loops. */
    method EndThread(vs: seq<View>, n: nat, ghost start: Result) returns (m: nat, at: Point)
      requires n <= |vs| && Here(End) == Runs(start, vs, n)
      modifies this
      ensures n <= m <= |vs| && Here(at) == Runs(start, vs, m)
      ensures at == Done || m == |vs|
    {
      m, at := n, End;
      if m == |vs| { return; }
      at := DoEnd(vs[m]);
      m := m + 1;
      assert Here(at) == Runs(start, vs, m);
      if at == Finishing {
        if m == |vs| { return; }
        Return(Finishing, vs[m]);
        m, at := m + 1, Close;
        assert Here(at) == Runs(start, vs, m);
      }
      if m == |vs| { return; }
      Leave(vs[m]);
      m, at := m + 1, Done;
      assert Here(at) == Runs(start, vs, m);
    }

    /** The guard of the outer loop. */
    method Enter(vs: seq<View>, n: nat, ghost start: Result) returns (m: nat, at: Point)
      requires n < |vs| && Here(Head) == Runs(start, vs, n)
      modifies this
      ensures m == n + 1 && Here(at) == Runs(start, vs, m)
      ensures at == TestUnreachable || at == End
    {
      var go := Guard(Head, vs[n]);
      m, at := n + 1, if go then TestUnreachable else End;
    }

    /** One turn of the outer loop, behind its guard. */
    method OuterTurn(vs: seq<View>, n: nat, ghost start: Result) returns (m: nat, at: Point)
      requires n <= |vs| && Here(TestUnreachable) == Runs(start, vs, n)
      modifies this
      ensures n <= m <= |vs| && Here(at) == Runs(start, vs, m)
      ensures at == End || at == Head || m == |vs|
    {
      m, at := CheckErrors(vs, n, start);
      if at == Barrier {
        m, at := AwaitStart(vs, m, start);
      }
      if at == Poll {
        m, at := PollLoop(vs, m, start);
      }
    }

    /** The thread: the outer loop with its checks and its barrier, the inner polling loop, and the
        finish. Whatever the other threads do between its looks, it makes exactly the steps of Step;
        `n` counts its looks, and it ends at Done unless the looks run out first. */
    method Run(vs: seq<View>) returns (n: nat, at: Point)
      modifies this
      ensures n <= |vs| && Here(at) == Runs(old(Here(Head)), vs, n)
      ensures at == Done || n == |vs|
    {
      ghost var start := Here(Head);
      n, at := 0, Head;
      while n < |vs|
        invariant n <= |vs| && Here(at) == Runs(start, vs, n)
        invariant at == Head || n == |vs|
        decreases |vs| - n
      {
        n, at := Enter(vs, n, start);
        if at == TestUnreachable {
          n, at := OuterTurn(vs, n, start);
        }
        if at == End {
          n, at := EndThread(vs, n, start);
          return;
        }
      }
    }
  }
}
