/** Two runs of the ping test: one in which no turn is late and the worker ends the test itself, and one in
    which a turn is late and the clock ends it. */
module PingRuns {
  import opened Protocol
  import opened Timer
  import opened Session
  import opened Invariants
  import opened Budget
  import opened Possibility
  import Course

  /** A poll at which the clock could end the ping test. */
  predicate FreePoll(s: State) {
    s.seqr == Joining(1) && s.timer.at.Poll? && s.sh.flags.running && !s.sh.flags.hasError && !s.sh.tick.stopped
  }

  ghost predicate PolledIn(c: Config, zero: nat, acts: seq<Action>, n: nat) {
    n <= |acts| && FreePoll(After(c, zero, acts[..n]))
  }

  ghost predicate Polled(c: Config, zero: nat, acts: seq<Action>) {
    exists n: nat :: PolledIn(c, zero, acts, n)
  }

  /** An undisturbed prompt run to the state, whose current turn began at `began`; it may have to contain such
      a poll. */
  ghost predicate Along(c: Config, zero: nat, acts: seq<Action>, s: State, began: nat, polled: bool) {
    && Undisturbed(acts) && Prompt(c, zero, acts) && After(c, zero, acts) == s && TurnBegan(c, zero, acts) == began
    && (polled ==> Polled(c, zero, acts))
  }

  ghost predicate Arrives(c: Config, zero: nat, s: State, began: nat, polled: bool) {
    exists acts :: Along(c, zero, acts, s, began, polled)
  }

  lemma ArrivesReaches(c: Config, zero: nat, s: State, began: nat, polled: bool)
    requires Arrives(c, zero, s, began, polled)
    ensures Reaches(c, zero, s) && InTime(s, began)
  {
    var acts :| Along(c, zero, acts, s, began, polled);
  }

  lemma PolledMore(c: Config, zero: nat, acts: seq<Action>, a: Action)
    requires Polled(c, zero, acts)
    ensures Polled(c, zero, acts + [a])
  {
    var n: nat :| PolledIn(c, zero, acts, n);
    assert (acts + [a])[..n] == acts[..n];
    assert PolledIn(c, zero, acts + [a], n);
  }

  lemma AlongMore(c: Config, zero: nat, acts: seq<Action>, s: State, began: nat, polled: bool, a: Action)
    requires Along(c, zero, acts, s, began, polled) && Harmless(a)
    requires InTime(Do(c, s, a), if Guards(s, a) then s.now else began)
    ensures Along(c, zero, acts + [a], Do(c, s, a), if Guards(s, a) then s.now else began, polled)
  {
    BegunLater(c, zero, acts, a);
    assert (acts + [a])[..|acts|] == acts;
    if polled {
      PolledMore(c, zero, acts, a);
    }
  }

  lemma Go(c: Config, zero: nat, s: State, began: nat, polled: bool, a: Action) returns (q: State, later: nat)
    requires Arrives(c, zero, s, began, polled) && Harmless(a)
    requires InTime(Do(c, s, a), if Guards(s, a) then s.now else began)
    ensures q == Do(c, s, a) && later == (if Guards(s, a) then s.now else began) && Arrives(c, zero, q, later, polled)
  {
    q := Do(c, s, a);
    later := if Guards(s, a) then s.now else began;
    var acts :| Along(c, zero, acts, s, began, polled);
    AlongMore(c, zero, acts, s, began, polled, a);
  }

  lemma PollNow(c: Config, zero: nat, s: State, began: nat)
    requires Arrives(c, zero, s, began, false) && FreePoll(s)
    ensures Arrives(c, zero, s, began, true)
  {
    var acts :| Along(c, zero, acts, s, began, false);
    assert acts[..|acts|] == acts;
    assert PolledIn(c, zero, acts, |acts|);
    assert Along(c, zero, acts, s, began, true);
  }

  /** Before the ping test, nothing can be late. */
  lemma {:induction false} NotYetLate(c: Config, zero: nat, acts: seq<Action>)
    requires After(c, zero, acts).seqr != Joining(1) && !Course.Past(After(c, zero, acts).seqr, 1)
    ensures Prompt(c, zero, acts)
  {
    if acts != [] {
      var init := acts[..|acts| - 1];
      var q := After(c, zero, init).seqr;
      if q == Joining(1) || Course.Past(q, 1) {
        Course.PastStep(c, After(c, zero, init), acts[|acts| - 1], 1);
      }
      NotYetLate(c, zero, init);
    }
  }

  lemma ArrivesFirst(c: Config, zero: nat, s: State) returns (began: nat)
    requires Reaches(c, zero, s) && s.seqr == Deciding(1)
    ensures Arrives(c, zero, s, began, false)
  {
    var acts :| Undisturbed(acts) && After(c, zero, acts) == s;
    began := TurnBegan(c, zero, acts);
    NotYetLate(c, zero, acts);
    assert Along(c, zero, acts, s, began, false);
  }

  // ----- the steps of the run

  lemma TimerGoes(c: Config, zero: nat, s: State, began: nat) returns (q: State)
    requires Arrives(c, zero, s, began, false) && !InCallback(s) && (s.timer.at.Delay? ==> s.now >= s.timer.at.until)
    ensures Arrives(c, zero, q, began, false) && Around(s, q) && q.now == s.now
    ensures var r := Step(Result(s.sh, s.timer, []), s.now); q.sh == r.sh && q.timer == r.t
  {
    ArrivesReaches(c, zero, s, began, false);
    var later;
    q, later := Go(c, zero, s, began, false, TimerStep);
  }

  lemma InTurnMove(c: Config, w: Worker, sh: Shared, now: nat, m: Move)
    requires w.place.Born? || w.place.Registered? ==> !w.synced
    ensures InTurn(WorkerMove(c, RttTest, w, sh, now, m).w) ==> InTurn(w) || (w.place.Looping? && m.Guard?)
  {
    match m
    case Fail(flag) =>
    case Guard =>
    case _ =>
  }

  lemma WorkerGoes(c: Config, zero: nat, s: State, began: nat, polled: bool, m: Move) returns (q: State, later: nat)
    requires Arrives(c, zero, s, began, polled) && s.seqr == Joining(1) && |s.workers| == 1 && !m.Throw?
    requires var w := s.workers[0];
             (w.place.Born? || w.place.Registered? ==> !w.synced) && (InTurn(w) ==> s.now <= began + 1500000)
    ensures Arrives(c, zero, q, later, polled) && Aside(s, q)
    ensures var p := WorkerMove(c, RttTest, s.workers[0], s.sh, s.now, m); q.workers == [p.w] && q.sh == p.sh
    ensures later == if s.workers[0].place.Looping? && m.Guard? then s.now else began
  {
    InTurnMove(c, s.workers[0], s.sh, s.now, m);
    q, later := Go(c, zero, s, began, polled, Work(0, m));
  }

  lemma TimeGoes(c: Config, zero: nat, s: State, began: nat, us: nat) returns (q: State)
    requires Arrives(c, zero, s, began, false) && s.now + us <= began + 1500000
    ensures Arrives(c, zero, q, began, false) && q == s.(now := s.now + us)
  {
    var later;
    q, later := Go(c, zero, s, began, false, Tick(us));
  }

  lemma PingLaunch(c: Config, zero: nat, s: State) returns (q: State, began: nat)
    requires Sane(c) && Reaches(c, zero, s) && s.seqr == Deciding(1) && c.rtt && Calm(s.sh.flags)
    ensures Arrives(c, zero, q, began, false) && q.seqr == Joining(1) && Calm(q.sh.flags)
    ensures q.sh.tick == Ticking(true, false, false, 0, 0) && q.timer.at.Head? && q.timer.delay == 1000000
    ensures |q.workers| == 1 && Newborn(q.workers[0])
  {
    began := ArrivesFirst(c, zero, s);
    q, began := Go(c, zero, s, began, false, Decide);
    q, began := Go(c, zero, q, began, false, Create([0]));
  }

  /** The worker enters its loop. */
  lemma PingEnter(c: Config, zero: nat, s: State, began: nat) returns (q: State, later: nat)
    requires Arrives(c, zero, s, began, false) && s.seqr == Joining(1) && Calm(s.sh.flags)
    requires |s.workers| == 1 && Newborn(s.workers[0])
    ensures Arrives(c, zero, q, later, false) && Aside(s, q) && later == q.now
    ensures q.sh.flags == s.sh.flags && q.sh.tick == s.sh.tick
    ensures q.workers[0].synced && q.workers[0].place.Waiting? && q.workers[0].turns == 0
  {
    q, later := WorkerGoes(c, zero, s, began, false, Register);
    q, later := WorkerGoes(c, zero, q, later, false, Connect);
    q, later := WorkerGoes(c, zero, q, later, false, Guard);
  }

  /** The looks at the error flags, on the way to the barrier. */
  function NextLook(at: Point): Point {
    match at
    case Head => TestUnreachable
    case TestUnreachable => TestForbidden
    case TestForbidden => TestTls
    case _ => Barrier
  }

  lemma PingLook(c: Config, zero: nat, s: State, began: nat) returns (q: State)
    requires Arrives(c, zero, s, began, false) && Calm(s.sh.flags) && !s.sh.tick.stopped
    requires s.timer.at.Head? || s.timer.at.TestUnreachable? || s.timer.at.TestForbidden? || s.timer.at.TestTls?
    ensures Arrives(c, zero, q, began, false) && Around(s, q) && q.now == s.now
    ensures q.sh == s.sh && q.timer == s.timer.(at := NextLook(s.timer.at))
  {
    q := TimerGoes(c, zero, s, began);
  }

  lemma PingToBarrier(c: Config, zero: nat, s: State, began: nat) returns (q: State)
    requires Arrives(c, zero, s, began, false) && s.timer.at.Head? && Calm(s.sh.flags) && !s.sh.tick.stopped
    ensures Arrives(c, zero, q, began, false) && Around(s, q) && q.now == s.now
    ensures q.sh == s.sh && q.timer == s.timer.(at := Barrier)
  {
    q := PingLook(c, zero, s, began);
    q := PingLook(c, zero, q, began);
    q := PingLook(c, zero, q, began);
    q := PingLook(c, zero, q, began);
  }

  lemma PingReady(c: Config, zero: nat, s: State, began: nat)
    requires Sane(c) && Arrives(c, zero, s, began, false) && s.seqr == Joining(1) && AllSynced(s.workers)
    ensures |Ready(s.sh.syncing)| == s.timer.instances
  {
    ArrivesReaches(c, zero, s, began, false);
    AllReady(c, zero, s);
  }

  lemma PingPass(c: Config, zero: nat, s: State, began: nat) returns (q: State)
    requires Sane(c) && Arrives(c, zero, s, began, false) && s.seqr == Joining(1) && s.timer.at.Barrier?
    requires !s.sh.tick.running && AllSynced(s.workers)
    ensures Arrives(c, zero, q, began, false) && Around(s, q) && q.now == s.now
    ensures q.sh == s.sh && q.timer == s.timer.(at := Delay(s.now + s.timer.delay))
  {
    PingReady(c, zero, s, began);
    q := TimerGoes(c, zero, s, began);
  }

  /** A second passes at the barrier, in the first turn. */
  lemma PingDelay(c: Config, zero: nat, s: State, began: nat) returns (q: State)
    requires Sane(c) && Arrives(c, zero, s, began, false) && s.seqr == Joining(1) && s.timer.at.Barrier?
    requires !s.sh.tick.running && AllSynced(s.workers)
    requires s.timer.delay == 1000000 && began == s.now
    ensures Arrives(c, zero, q, began, false) && Around(s, q) && q.now == s.now + 1000000
    ensures q.sh == s.sh && q.timer == s.timer.(at := Delay(q.now))
  {
    q := PingPass(c, zero, s, began);
    q := TimeGoes(c, zero, q, began, 1000000);
  }

  lemma PingDelayed(c: Config, zero: nat, s: State, began: nat) returns (q: State)
    requires Arrives(c, zero, s, began, false) && s.timer.at == Delay(s.now)
    ensures Arrives(c, zero, q, began, false) && Around(s, q) && q.now == s.now
    ensures q.sh == s.sh.(tick := s.sh.tick.(running := true)) && q.timer == s.timer.(at := Stamp)
  {
    q := TimerGoes(c, zero, s, began);
  }

  /** After the delay the timer takes its time stamp. */
  lemma PingStamp(c: Config, zero: nat, s: State, began: nat) returns (q: State)
    requires Arrives(c, zero, s, began, false) && s.timer.at == Delay(s.now)
    ensures Arrives(c, zero, q, began, false) && Around(s, q) && q.now == s.now
    ensures q.sh == s.sh.(tick := s.sh.tick.(running := true)) && q.timer == s.timer.(at := Head, time1 := s.now)
  {
    q := PingDelayed(c, zero, s, began);
    q := TimerGoes(c, zero, q, began);
  }

  lemma PingPoll(c: Config, zero: nat, s: State, began: nat) returns (q: State)
    requires Arrives(c, zero, s, began, false) && s.timer.at.Barrier? && s.sh.tick.running
    ensures Arrives(c, zero, q, began, false) && Around(s, q) && q.now == s.now
    ensures q.sh == s.sh && q.timer.at.Poll?
  {
    q := TimerGoes(c, zero, s, began);
  }

  /** In the first turn of its worker, the timer is at the barrier. */
  ghost predicate Entering(c: Config, zero: nat, s: State, began: nat) {
    && Arrives(c, zero, s, began, false) && s.seqr == Joining(1) && Calm(s.sh.flags)
    && s.timer.at.Barrier? && s.timer.delay == 1000000 && s.sh.tick == Ticking(true, false, false, 0, 0)
    && |s.workers| == 1 && s.workers[0].synced && s.workers[0].place.Waiting? && s.workers[0].turns == 0
    && began == s.now
  }

  lemma PingToPoll(c: Config, zero: nat, s: State, began: nat) returns (q: State)
    requires Sane(c) && Entering(c, zero, s, began)
    ensures Arrives(c, zero, q, began, true) && FreePoll(q) && Calm(q.sh.flags)
    ensures q.workers == s.workers && q.now == began + 1000000
  {
    q := PingDelay(c, zero, s, began);
    q := PingStamp(c, zero, q, began);
    q := PingToBarrier(c, zero, q, began);
    q := PingPoll(c, zero, q, began);
    PollNow(c, zero, q, began);
  }

  lemma PingBegins(c: Config, zero: nat, s: State) returns (q: State, began: nat)
    requires Sane(c) && Reaches(c, zero, s) && s.seqr == Deciding(1) && c.rtt && Calm(s.sh.flags)
    ensures Entering(c, zero, q, began)
  {
    q, began := PingLaunch(c, zero, s);
    q, began := PingEnter(c, zero, q, began);
    q := PingToBarrier(c, zero, q, began);
  }

  /** The worker is in its loop, and nothing else moves. */
  ghost predicate Pinging(c: Config, zero: nat, s: State, began: nat) {
    && Arrives(c, zero, s, began, true) && s.seqr == Joining(1) && Calm(s.sh.flags)
    && |s.workers| == 1 && s.workers[0].synced && s.now <= began + 1500000
  }

  lemma EchoMove(c: Config, w: Worker, sh: Shared, now: nat)
    requires w.place.Waiting? && w.turns <= c.pingQuery && w.synced && Calm(sh.flags)
    ensures var p := WorkerMove(c, RttTest, w, sh, now, Echo);
            var r := WorkerMove(c, RttTest, p.w, p.sh, now, Guard);
            && r.w.turns == w.turns + 1 && r.w.synced && r.sh.flags == sh.flags
            && if r.w.turns <= c.pingQuery then r.w.place.Waiting? else r.w.place.Ended? && r.sh.tick.stopped
  {
  }

  lemma PingEcho(c: Config, zero: nat, s: State, began: nat) returns (q: State, later: nat)
    requires Pinging(c, zero, s, began) && s.workers[0].place.Waiting? && s.workers[0].turns <= c.pingQuery
    ensures Pinging(c, zero, q, later) && q.workers[0].turns == s.workers[0].turns + 1
    ensures if q.workers[0].turns <= c.pingQuery then q.workers[0].place.Waiting?
            else q.workers[0].place.Ended? && q.sh.tick.stopped
  {
    EchoMove(c, s.workers[0], s.sh, s.now);
    q, later := WorkerGoes(c, zero, s, began, true, Echo);
    q, later := WorkerGoes(c, zero, q, later, true, Guard);
  }

  lemma AllEchoes(c: Config, zero: nat, s: State, began: nat) returns (q: State, later: nat)
    requires Pinging(c, zero, s, began) && s.workers[0].place.Waiting? && s.workers[0].turns == 0
    ensures Pinging(c, zero, q, later) && q.workers[0].turns == c.pingQuery + 1
    ensures q.workers[0].place.Ended? && q.sh.tick.stopped
  {
    q, later := s, began;
    while q.workers[0].turns <= c.pingQuery
      invariant Pinging(c, zero, q, later) && q.workers[0].turns <= c.pingQuery + 1
      invariant if q.workers[0].turns <= c.pingQuery then q.workers[0].place.Waiting?
                else q.workers[0].place.Ended? && q.sh.tick.stopped
      decreases c.pingQuery + 1 - q.workers[0].turns
    {
      q, later := PingEcho(c, zero, q, later);
    }
  }

  lemma PolledRun(c: Config, zero: nat, s: State, began: nat) returns (acts: seq<Action>, n: nat)
    requires Arrives(c, zero, s, began, true)
    ensures Undisturbed(acts) && Prompt(c, zero, acts) && After(c, zero, acts) == s && PolledIn(c, zero, acts, n)
  {
    acts :| Along(c, zero, acts, s, began, true);
    n :| PolledIn(c, zero, acts, n);
  }

  /** Every configuration with a ping test has an undisturbed prompt run in which the clock is polled during
      the test and the worker makes all its turns and ends the test. */
  lemma PromptPing(c: Config, zero: nat) returns (acts: seq<Action>, n: nat)
    requires Sane(c) && c.rtt
    ensures Undisturbed(acts) && Prompt(c, zero, acts) && PolledIn(c, zero, acts, n)
    ensures var s := After(c, zero, acts);
            && s.seqr == Joining(1) && s.sh.tick.stopped && s.sh.flags.running && !s.sh.flags.hasError
            && |s.workers| == 1 && s.workers[0].turns == c.pingQuery + 1
  {
    var s := AllTests(c, zero, 1);
    var began;
    s, began := PingBegins(c, zero, s);
    s := PingToPoll(c, zero, s, began);
    s, began := AllEchoes(c, zero, s, began);
    acts, n := PolledRun(c, zero, s, began);
  }

  /** And one, not prompt, in which the clock ends the test in the first turn. */
  lemma LatePing(c: Config, zero: nat) returns (acts: seq<Action>)
    requires Sane(c) && c.rtt
    ensures Undisturbed(acts) && !Prompt(c, zero, acts)
    ensures var s := After(c, zero, acts);
            && s.seqr == Joining(1) && s.sh.tick.stopped && s.sh.flags.running && !s.sh.flags.hasError
            && |s.workers| == 1 && s.workers[0].turns == 0
  {
    var s := AllTests(c, zero, 1);
    s := StartTest(c, zero, s, 1);
    ReachedBase(c, zero, s);
    acts :| Undisturbed(acts) && After(c, zero, acts) == s;
    if Prompt(c, zero, acts) {
      PingEndsItself(c, zero, acts);
    }
  }
}
