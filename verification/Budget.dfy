/** The time budget of the ping test, over runs: if no echo turn takes longer than its receive timeout and
    its pause, the clock never ends the test; only the last turn of the worker does. */
module Budget {
  import opened Protocol
  import opened Timer
  import opened Session
  import opened Invariants
  import opened Clocks
  import opened Histories
  import Ping

  // ----- the turns of a run

  /** The ping worker's loop guard is evaluated in the state s. */
  predicate Guards(s: State, a: Action) {
    s.seqr == Joining(1) && |s.workers| > 0 && s.workers[0].place.Looping? && a == Work(0, Guard)
  }

  /** When the current turn of the ping worker began: the last time its loop guard was evaluated. */
  ghost function TurnBegan(c: Config, zero: nat, acts: seq<Action>): nat {
    if acts == [] then zero
    else
      var s := After(c, zero, acts[..|acts| - 1]);
      if Guards(s, acts[|acts| - 1]) then s.now else TurnBegan(c, zero, acts[..|acts| - 1])
  }

  /** When its first turn began. */
  ghost function LoopBegan(c: Config, zero: nat, acts: seq<Action>): nat {
    if acts == [] then zero
    else
      var s := After(c, zero, acts[..|acts| - 1]);
      if Guards(s, acts[|acts| - 1]) && !s.workers[0].synced then s.now else LoopBegan(c, zero, acts[..|acts| - 1])
  }

  predicate InTurn(w: Worker) {
    w.synced && (w.place.Waiting? || w.place.Looping?)
  }

  /** At most a second of waiting for the reply and half a second of pause, from one guard to the next. */
  ghost predicate InTime(s: State, began: nat) {
    s.seqr == Joining(1) && |s.workers| > 0 && InTurn(s.workers[0]) ==> s.now <= began + 1500000
  }

  /** No turn of the run was late at any moment. */
  ghost predicate Prompt(c: Config, zero: nat, acts: seq<Action>) {
    && InTime(After(c, zero, acts), TurnBegan(c, zero, acts))
    && (acts == [] || Prompt(c, zero, acts[..|acts| - 1]))
  }

  // ----- where the worker and the timer are

  /** Turn number `turns` + 1 is being made, or that many have been made; a worker that leaves its loop ends
      the test itself. */
  ghost predicate Paced(c: Config, s: State, w: Worker, loop: nat, turn: nat) {
    && (w.place.Born? || w.place.Registered? ==> !w.synced && w.turns == 0)
    && (w.place.Looping? && !w.synced ==> w.turns == 0)
    && (w.synced ==> loop <= s.now)
    && (w.place.Waiting? ==> w.synced && w.turns <= c.pingQuery && turn <= loop + 1500000 * w.turns)
    && (w.place.Looping? && w.synced ==> 1 <= w.turns <= c.pingQuery + 1 && turn + 1500000 <= loop + 1500000 * w.turns)
    && (w.place.Ended? && w.synced ==> s.sh.tick.stopped || s.sh.flags.hasError)
  }

  /** Only the worker has ended the test, after all its turns. */
  ghost predicate SelfEnded(c: Config, s: State, w: Worker) {
    s.sh.tick.stopped && s.sh.flags.running && !s.sh.flags.hasError ==>
      w.place.Ended? && w.synced && w.turns == c.pingQuery + 1
  }

  /** The timer takes its time stamp at least a second after the worker entered its loop. */
  ghost predicate Delayed(s: State, loop: nat) {
    && s.timer.delay == 1000000
    && (s.timer.at.Delay? ==> s.timer.at.until >= loop + 1000000)
    && (s.timer.at.Stamp? ==> s.now >= loop + 1000000)
    && (Stamped(s) ==> s.timer.time1 >= loop + 1000000)
  }

  ghost predicate Measured(c: Config, s: State, loop: nat, turn: nat) {
    |s.workers| == 1 && SelfEnded(c, s, s.workers[0]) && Paced(c, s, s.workers[0], loop, turn) && Delayed(s, loop)
  }

  /** Before the worker is there, only an error stops the test. */
  ghost predicate Unstarted(s: State) {
    s.timer.delay == 1000000 && (s.sh.tick.stopped ==> s.sh.flags.hasError)
  }

  ghost predicate OnTime(c: Config, zero: nat, acts: seq<Action>) {
    var s := After(c, zero, acts);
    && (s.seqr == Preparing(1) ==> Unstarted(s))
    && (s.seqr == Joining(1) ==> Measured(c, s, LoopBegan(c, zero, acts), TurnBegan(c, zero, acts)))
  }

  lemma PacedMove(c: Config, s: State, w: Worker, m: Move, loop: nat, turn: nat)
    requires Paced(c, s, w, loop, turn) && (InTurn(w) ==> s.now <= turn + 1500000) && loop <= s.now
    ensures var p := WorkerMove(c, RttTest, w, s.sh, s.now, m);
            var loop' := if w.place.Looping? && m.Guard? && !w.synced then s.now else loop;
            var turn' := if w.place.Looping? && m.Guard? then s.now else turn;
            Paced(c, s.(sh := p.sh), p.w, loop', turn')
  {
    match m
    case Fail(flag) =>
    case Guard =>
    case Echo =>
    case Throw =>
    case _ =>
  }

  // ----- the clock does not end the test

  /** 1.5 seconds per turn are over before a second and the whole part of 1.65 seconds per turn. */
  lemma Enough(query: nat, turns: nat)
    requires turns <= query + 1
    ensures 1500000 * turns < 1000000 + 1000000 * Ping.Duration(query)
  {
  }

  lemma NotOver(c: Config, s: State, w: Worker, loop: nat, turn: nat)
    requires Paced(c, s, w, loop, turn) && (InTurn(w) ==> s.now <= turn + 1500000) && w.synced
    requires s.timer.time1 >= loop + 1000000 && s.sh.duration == Ping.Duration(c.pingQuery)
    requires s.timer.at.Poll? && s.sh.flags.running && !s.sh.flags.hasError && Flagged(s.sh.flags) && !s.sh.tick.stopped
    ensures !Step(Result(s.sh, s.timer, []), s.now).sh.tick.stopped
  {
    if w.place.Waiting? {
      Enough(c.pingQuery, w.turns + 1);
    } else if w.place.Looping? {
      Enough(c.pingQuery, w.turns);
    }
  }

  lemma PollFacts(c: Config, zero: nat, s: State)
    requires Base(c, zero, s) && s.seqr == Joining(1) && s.timer.at.Poll?
    ensures Stamped(s) && AllSynced(s.workers) && s.sh.duration == Ping.Duration(c.pingQuery) && Flagged(s.sh.flags)
  {
    NoStaleDuration(c, s);
  }

  /** A poll does not end the test. */
  lemma PollOnTime(c: Config, zero: nat, s: State, loop: nat, turn: nat)
    requires Base(c, zero, s) && s.seqr == Joining(1) && |s.workers| == 1 && InTime(s, turn) && s.timer.at.Poll?
    requires Paced(c, s, s.workers[0], loop, turn) && Delayed(s, loop)
    requires s.sh.flags.running && !s.sh.flags.hasError && !s.sh.tick.stopped
    ensures !DoTimer(c, s).sh.tick.stopped
  {
    PollFacts(c, zero, s);
    NotOver(c, s, s.workers[0], loop, turn);
  }

  /** Other steps of the timer only end it for an error. */
  lemma StoppedByError(sh: Shared, t: Timer, now: nat)
    requires !t.at.Poll? && !sh.tick.stopped && Flagged(sh.flags) && !sh.flags.hasError
    ensures !Step(Result(sh, t, []), now).sh.tick.stopped
  {
  }

  lemma SelfEndedTimer(c: Config, zero: nat, s: State, loop: nat, turn: nat)
    requires Base(c, zero, s) && s.seqr == Joining(1) && |s.workers| == 1 && InTime(s, turn)
    requires Paced(c, s, s.workers[0], loop, turn) && Delayed(s, loop) && SelfEnded(c, s, s.workers[0])
    ensures SelfEnded(c, DoTimer(c, s), s.workers[0])
  {
    TimerFrame(Result(s.sh, s.timer, []), s.now);
    if s.sh.flags.running && !s.sh.flags.hasError && !s.sh.tick.stopped {
      if s.timer.at.Poll? {
        PollOnTime(c, zero, s, loop, turn);
      } else {
        StoppedByError(s.sh, s.timer, s.now);
      }
    }
  }

  lemma SelfEndedMove(c: Config, s: State, w: Worker, m: Move, loop: nat, turn: nat)
    requires Paced(c, s, w, loop, turn) && SelfEnded(c, s, w)
    ensures var p := WorkerMove(c, RttTest, w, s.sh, s.now, m); SelfEnded(c, s.(sh := p.sh), p.w)
  {
    match m
    case Fail(flag) =>
    case Guard =>
    case _ =>
  }

  // ----- every step keeps this

  lemma BegunLater(c: Config, zero: nat, init: seq<Action>, a: Action)
    ensures var s := After(c, zero, init);
            && After(c, zero, init + [a]) == Do(c, s, a)
            && TurnBegan(c, zero, init + [a]) == (if Guards(s, a) then s.now else TurnBegan(c, zero, init))
            && LoopBegan(c, zero, init + [a])
               == (if Guards(s, a) && !s.workers[0].synced then s.now else LoopBegan(c, zero, init))
  {
    assert (init + [a])[..|init|] == init;
  }

  /** A test whose timer is not past the barrier has nothing to be delayed. */
  lemma NotDelayed(c: Config, s: State, loop: nat)
    requires Ticks(c, s) && (s.seqr.Preparing? || s.seqr.Joining?) && !Passed(s) && s.timer.delay == 1000000
    ensures Delayed(s, loop)
  {
  }

  lemma WorkOnTime(c: Config, zero: nat, s: State, m: Move, loop: nat, turn: nat)
    requires Base(c, zero, s) && s.seqr == Joining(1) && |s.workers| == 1 && InTime(s, turn)
    requires Paced(c, s, s.workers[0], loop, turn) && Delayed(s, loop) && loop <= s.now
    ensures var q := DoWork(c, s, 0, m);
            var g := s.workers[0].place.Looping? && m.Guard?;
            var loop' := if g && !s.workers[0].synced then s.now else loop;
            |q.workers| == 1 && Paced(c, q, q.workers[0], loop', if g then s.now else turn) && Delayed(q, loop')
  {
    var q := DoWork(c, s, 0, m);
    PacedMove(c, s, s.workers[0], m, loop, turn);
    WorkerFrame(c, RttTest, s.workers[0], s.sh, s.now, m);
    if !s.workers[0].synced {
      assert !Passed(s);
      NotDelayed(c, s, loop);
      NotDelayed(c, s, s.now);
    }
  }

  lemma PacedTimer(c: Config, s: State, w: Worker, loop: nat, turn: nat)
    requires Paced(c, s, w, loop, turn)
    ensures Paced(c, DoTimer(c, s), w, loop, turn)
  {
    TimerFrame(Result(s.sh, s.timer, []), s.now);
  }

  /** The timer enters its delay behind the barrier, which the worker has passed by then. */
  lemma DelayBegins(c: Config, s: State)
    requires Sane(c) && Barriers(c, s) && s.seqr == Joining(1) && |s.workers| == 1
    requires DoTimer(c, s).timer.at.Delay?
    ensures s.workers[0].synced
  {
    BarriersTimer(c, s);
    assert AllSynced(DoTimer(c, s).workers);
  }

  lemma DelayedStep(s: State, r: Result, loop: nat)
    requires r == Step(Result(s.sh, s.timer, []), s.now) && !InCallback(s)
    requires Delayed(s, loop) && TickAt(s.sh.tick, s.timer, s.sh.flags)
    requires s.timer.at.Delay? ==> s.now >= s.timer.at.until
    requires r.t.at.Delay? ==> loop <= s.now
    ensures Delayed(s.(sh := r.sh, timer := r.t), loop)
  {
  }

  lemma TimerOnTime(c: Config, zero: nat, s: State, loop: nat, turn: nat)
    requires Base(c, zero, s) && s.seqr == Joining(1) && |s.workers| == 1
    requires Paced(c, s, s.workers[0], loop, turn) && Delayed(s, loop)
    ensures var q := DoTimer(c, s); Paced(c, q, q.workers[0], loop, turn) && Delayed(q, loop)
  {
    PacedTimer(c, s, s.workers[0], loop, turn);
    if DoTimer(c, s) != s {
      if DoTimer(c, s).timer.at.Delay? {
        DelayBegins(c, s);
      }
      DelayedStep(s, Step(Result(s.sh, s.timer, []), s.now), loop);
    }
  }

  lemma OtherOnTime(c: Config, zero: nat, s: State, a: Action, loop: nat, turn: nat)
    requires s.seqr == Joining(1) && Measured(c, s, loop, turn)
    requires !a.Work? && !a.TimerStep? && Do(c, s, a).seqr == s.seqr
    ensures Measured(c, Do(c, s, a), loop, turn)
  {
  }

  /** The ping worker is created. */
  lemma CreateOnTime(c: Config, zero: nat, s: State, pids: seq<nat>, loop: nat, turn: nat)
    requires Base(c, zero, s) && s.seqr == Preparing(1) && Unstarted(s)
    requires DoCreate(c, s, pids).seqr == Joining(1)
    ensures Measured(c, DoCreate(c, s, pids), loop, turn)
  {
    NotDelayed(c, s, loop);
  }

  lemma PreparingTimer(c: Config, s: State)
    requires Ticks(c, s) && s.seqr == Preparing(1) && !Passed(s) && Unstarted(s)
    ensures Unstarted(DoTimer(c, s))
  {
  }

  lemma PreparingOnTime(c: Config, zero: nat, s: State, a: Action)
    requires Base(c, zero, s) && Do(c, s, a).seqr == Preparing(1) && (s.seqr == Preparing(1) ==> Unstarted(s))
    ensures Unstarted(Do(c, s, a))
  {
    if a.TimerStep? {
      PreparingTimer(c, s);
    }
  }

  lemma LoopNow(c: Config, zero: nat, acts: seq<Action>)
    ensures LoopBegan(c, zero, acts) <= After(c, zero, acts).now
  {
    if acts != [] {
      LoopNow(c, zero, acts[..|acts| - 1]);
      NowRises(c, After(c, zero, acts[..|acts| - 1]), acts[|acts| - 1]);
    }
  }

  lemma NowRises(c: Config, s: State, a: Action)
    ensures s.now <= Do(c, s, a).now
  {
  }

  lemma MeasuredStep(c: Config, zero: nat, s: State, a: Action, loop: nat, turn: nat)
    requires Base(c, zero, s) && s.seqr == Joining(1) == Do(c, s, a).seqr && InTime(s, turn) && loop <= s.now
    requires Measured(c, s, loop, turn)
    ensures var loop' := if Guards(s, a) && !s.workers[0].synced then s.now else loop;
            Measured(c, Do(c, s, a), loop', if Guards(s, a) then s.now else turn)
  {
    match a
    case Work(i, m) =>
      if i == 0 {
        WorkOnTime(c, zero, s, m, loop, turn);
        SelfEndedMove(c, s, s.workers[0], m, loop, turn);
      }
    case TimerStep =>
      TimerOnTime(c, zero, s, loop, turn);
      SelfEndedTimer(c, zero, s, loop, turn);
    case _ => OtherOnTime(c, zero, s, a, loop, turn);
  }

  lemma OnTimeJoining(c: Config, zero: nat, init: seq<Action>, a: Action)
    requires Base(c, zero, After(c, zero, init)) && OnTime(c, zero, init)
    requires InTime(After(c, zero, init), TurnBegan(c, zero, init))
    requires After(c, zero, init).seqr == Joining(1) == Do(c, After(c, zero, init), a).seqr
    ensures OnTime(c, zero, init + [a])
  {
    BegunLater(c, zero, init, a);
    LoopNow(c, zero, init);
    MeasuredStep(c, zero, After(c, zero, init), a, LoopBegan(c, zero, init), TurnBegan(c, zero, init));
  }

  lemma OnTimeStep(c: Config, zero: nat, init: seq<Action>, a: Action)
    requires Base(c, zero, After(c, zero, init)) && OnTime(c, zero, init)
    requires InTime(After(c, zero, init), TurnBegan(c, zero, init))
    ensures OnTime(c, zero, init + [a])
  {
    var s := After(c, zero, init);
    BegunLater(c, zero, init, a);
    if Do(c, s, a).seqr == Preparing(1) {
      PreparingOnTime(c, zero, s, a);
    } else if Do(c, s, a).seqr == Joining(1) {
      if s.seqr == Joining(1) {
        OnTimeJoining(c, zero, init, a);
      } else {
        CreateOnTime(c, zero, s, a.pids, LoopBegan(c, zero, init), TurnBegan(c, zero, init));
      }
    }
  }

  lemma {:induction false} OnTimeAlways(c: Config, zero: nat, acts: seq<Action>)
    requires Sane(c) && Prompt(c, zero, acts)
    ensures OnTime(c, zero, acts)
  {
    if acts != [] {
      var init, a := acts[..|acts| - 1], acts[|acts| - 1];
      assert init + [a] == acts;
      OnTimeAlways(c, zero, init);
      BaseAlways(c, zero, init);
      OnTimeStep(c, zero, init, a);
    }
  }

  /** In every run in which no echo turn takes longer than a receive timeout and a pause, no poll of the timer
      ends the ping test, unless the client was stopped or an error was flagged. */
  lemma PingNotCutShort(c: Config, zero: nat, acts: seq<Action>)
    requires Sane(c) && Prompt(c, zero, acts)
    requires var s := After(c, zero, acts);
             && s.seqr == Joining(1) && s.timer.at.Poll? && s.sh.flags.running && !s.sh.flags.hasError
             && !s.sh.tick.stopped
    ensures !DoTimer(c, After(c, zero, acts)).sh.tick.stopped
  {
    BaseAlways(c, zero, acts);
    OnTimeAlways(c, zero, acts);
    PollOnTime(c, zero, After(c, zero, acts), LoopBegan(c, zero, acts), TurnBegan(c, zero, acts));
  }

  /** In such a run, when the ping test has ended, its worker has made all its turns and left. */
  lemma PingEndsItself(c: Config, zero: nat, acts: seq<Action>)
    requires Sane(c) && Prompt(c, zero, acts)
    requires var s := After(c, zero, acts);
             s.seqr == Joining(1) && s.sh.tick.stopped && s.sh.flags.running && !s.sh.flags.hasError
    ensures var ws := After(c, zero, acts).workers;
            |ws| == 1 && ws[0].place.Ended? && ws[0].turns == c.pingQuery + 1
  {
    OnTimeAlways(c, zero, acts);
  }
}
