/** Every configuration has a run that completes: the guarantees of the other modules are not empty.
    The run is built step by step, one test after the other, with workers that receive something
    before the clock of the test runs out. */
module Possibility {
  import opened Aggregator
  import opened Protocol
  import opened Timer
  import opened Session
  import opened Invariants
  import opened Histories
  import opened Conformance
  import Guarantees
  import Download

  /** Some run that nobody disturbs reaches the state. */
  ghost predicate Reaches(c: Config, zero: nat, s: State) {
    exists acts :: Undisturbed(acts) && After(c, zero, acts) == s
  }

  lemma Take(c: Config, zero: nat, s: State, a: Action) returns (q: State)
    requires Reaches(c, zero, s) && Harmless(a)
    ensures q == Do(c, s, a) && Reaches(c, zero, q)
  {
    q := Do(c, s, a);
    var acts :| Undisturbed(acts) && After(c, zero, acts) == s;
    assert (acts + [a])[..|acts|] == acts;
    assert Undisturbed(acts + [a]) && After(c, zero, acts + [a]) == q;
  }

  lemma ReachedBase(c: Config, zero: nat, s: State)
    requires Sane(c) && Reaches(c, zero, s)
    ensures Base(c, zero, s) && Conforms(c, s)
  {
    var acts :| Undisturbed(acts) && After(c, zero, acts) == s;
    ConformsAlways(c, zero, acts);
  }

  /** Nothing has gone wrong. */
  predicate Calm(f: Flags) {
    f == Flags(true, false, false, false, false, false)
  }

  // ----- launching a test

  function Numbers(n: nat): (ps: seq<nat>)
    ensures |ps| == n && forall i | 0 <= i < n :: ps[i] == i
  {
    seq(n, i requires 0 <= i < n => i)
  }

  predicate Newborn(w: Worker) {
    w == NewWorker(w.pid)
  }

  lemma Launch(c: Config, zero: nat, s: State, k: nat) returns (q: State)
    requires Sane(c) && Reaches(c, zero, s) && s.seqr == Deciding(k) && k < 4 && Enabled(c, k) && Calm(s.sh.flags)
    ensures Reaches(c, zero, q) && q.seqr == Joining(k) && Calm(q.sh.flags) && q.pending.Nothing?
    ensures q.sh.tick == Ticking(true, false, false, 0, 0) && q.timer.at.Head? && q.sh.first == 0
    ensures |q.workers| == Instances(c, TestAt(k)) && forall i | 0 <= i < |q.workers| :: Newborn(q.workers[i])
  {
    ReachedBase(c, zero, s);
    var p := Take(c, zero, s, Decide);
    var n := Instances(c, TestAt(k));
    q := Take(c, zero, p, Create(Numbers(n)));
  }

  // ----- the workers get under way

  /** The worker has received something, once. */
  predicate Entered(t: Test, w: Worker) {
    && w.synced && (Measures(t) ==> w.response > 0)
    && w.chunks == (if t.DownloadTest? then [Download.Chunk(8, false, false, 0)] else [])
    && w.records == []
    && (if t.RttTest? then w.place.Waiting? && w.turns == 0 else w.place.Looping?)
  }

  function FirstReceive(t: Test): Move {
    match t
    case IpTest => Answer(OtherReply)
    case RttTest => Register
    case DownloadTest => Receive(1, 8)
    case UploadTest => Acknowledge(1, [])
  }

  lemma EnterMoves(c: Config, t: Test, w: Worker, sh: Shared, now: nat)
    requires Newborn(w) && Calm(sh.flags) && sh.tick == Ticking(true, false, false, 0, 0)
    ensures var p1 := WorkerMove(c, t, w, sh, now, Register);
            var p2 := WorkerMove(c, t, p1.w, p1.sh, now, Connect);
            var p3 := WorkerMove(c, t, p2.w, p2.sh, now, Guard);
            var p4 := WorkerMove(c, t, p3.w, p3.sh, now, FirstReceive(t));
            Entered(t, p4.w) && p4.sh.flags == sh.flags && p4.sh.tick == sh.tick && p4.sh.first == sh.first
  {
    match t
    case IpTest =>
    case RttTest =>
    case DownloadTest =>
    case UploadTest =>
  }

  /** What a worker's steps leave alone. */
  ghost predicate Beside(s: State, q: State, i: nat) {
    && q.seqr == s.seqr && q.timer == s.timer && q.pending == s.pending && q.performed == s.performed && q.now == s.now
    && |q.workers| == |s.workers| && (forall j | 0 <= j < |s.workers| && j != i :: q.workers[j] == s.workers[j])
  }

  lemma Enter(c: Config, zero: nat, s: State, i: nat) returns (q: State)
    requires Reaches(c, zero, s) && s.seqr.Joining? && i < |s.workers|
    requires Newborn(s.workers[i]) && Calm(s.sh.flags) && s.sh.tick == Ticking(true, false, false, 0, 0)
    ensures Reaches(c, zero, q) && Beside(s, q, i)
    ensures q.sh.flags == s.sh.flags && q.sh.tick == s.sh.tick && q.sh.first == s.sh.first
    ensures Entered(CurrentTest(s), q.workers[i])
  {
    EnterMoves(c, CurrentTest(s), s.workers[i], s.sh, s.now);
    q := Take(c, zero, s, Work(i, Register));
    q := Take(c, zero, q, Work(i, Connect));
    q := Take(c, zero, q, Work(i, Guard));
    q := Take(c, zero, q, Work(i, FirstReceive(CurrentTest(s))));
  }

  /** What all workers' steps together leave alone. */
  ghost predicate Aside(s: State, q: State) {
    && q.seqr == s.seqr && q.timer == s.timer && q.pending == s.pending && q.performed == s.performed && q.now == s.now
    && |q.workers| == |s.workers|
  }

  lemma EnterAll(c: Config, zero: nat, s: State) returns (q: State)
    requires Reaches(c, zero, s) && s.seqr.Joining?
    requires forall i | 0 <= i < |s.workers| :: Newborn(s.workers[i])
    requires Calm(s.sh.flags) && s.sh.tick == Ticking(true, false, false, 0, 0)
    ensures Reaches(c, zero, q) && Aside(s, q)
    ensures q.sh.flags == s.sh.flags && q.sh.tick == s.sh.tick && q.sh.first == s.sh.first
    ensures forall i | 0 <= i < |q.workers| :: Entered(CurrentTest(s), q.workers[i])
  {
    q := s;
    var i := 0;
    while i < |s.workers|
      invariant 0 <= i <= |s.workers| && Reaches(c, zero, q) && Aside(s, q)
      invariant q.sh.flags == s.sh.flags && q.sh.tick == s.sh.tick && q.sh.first == s.sh.first
      invariant forall j | 0 <= j < i :: Entered(CurrentTest(s), q.workers[j])
      invariant forall j | i <= j < |s.workers| :: q.workers[j] == s.workers[j]
    {
      q := Enter(c, zero, q, i);
      i := i + 1;
    }
  }

  // ----- the timer

  /** When all workers are ready, the barrier counts them all. */
  lemma BarrierFull(ws: seq<Worker>, syncing: map<nat, nat>)
    requires Pids(ws) && Known(ws, syncing) && AllSynced(ws)
    requires forall i | 0 <= i < |ws| :: Entry(ws[i], syncing)
    ensures |Ready(syncing)| == |ws|
  {
    PidsCount(ws);
    forall p ensures p in Ready(syncing) <==> p in PidsOf(ws) {
      if p in Ready(syncing) {
        var i :| 0 <= i < |ws| && ws[i].pid == p;
        assert ws[i] in ws;
      }
      if p in PidsOf(ws) {
        var w :| w in ws && w.pid == p;
        var i :| 0 <= i < |ws| && ws[i] == w;
        assert Entry(ws[i], syncing);
      }
    }
    assert Ready(syncing) == PidsOf(ws);
  }

  /** What the timer's steps leave alone. */
  ghost predicate Around(s: State, q: State) {
    q.workers == s.workers && q.seqr == s.seqr && q.pending == s.pending && q.performed == s.performed
  }

  /** A step of the timer that is neither waiting nor reporting. */
  lemma Turn(c: Config, zero: nat, s: State) returns (q: State)
    requires Reaches(c, zero, s) && !InCallback(s) && (s.timer.at.Delay? ==> s.now >= s.timer.at.until)
    ensures Reaches(c, zero, q) && q == DoTimer(c, s)
    ensures var r := Step(Result(s.sh, s.timer, []), s.now); q.sh == r.sh && q.timer == r.t
    ensures Around(s, q) && q.now == s.now
  {
    q := Take(c, zero, s, TimerStep);
  }

  /** From the head of the loop to the barrier. */
  lemma ToBarrier(c: Config, zero: nat, s: State) returns (q: State)
    requires Reaches(c, zero, s) && s.timer.at.Head? && Calm(s.sh.flags) && !s.sh.tick.stopped
    ensures Reaches(c, zero, q) && q == s.(timer := s.timer.(at := Barrier), trace := q.trace)
  {
    q := Turn(c, zero, s);
    q := Turn(c, zero, q);
    q := Turn(c, zero, q);
    q := Turn(c, zero, q);
  }

  lemma AllReady(c: Config, zero: nat, s: State)
    requires Sane(c) && Reaches(c, zero, s) && s.seqr.Joining? && AllSynced(s.workers)
    ensures |Ready(s.sh.syncing)| == s.timer.instances
  {
    ReachedBase(c, zero, s);
    BarrierFull(s.workers, s.sh.syncing);
  }

  lemma PassBarrier(c: Config, zero: nat, s: State) returns (q: State)
    requires Sane(c) && Reaches(c, zero, s) && s.seqr.Joining? && s.timer.at.Barrier?
    requires !s.sh.tick.running && AllSynced(s.workers)
    ensures Reaches(c, zero, q) && Around(s, q) && q.sh == s.sh && q.now == s.now
    ensures q.timer == s.timer.(at := Delay(s.now + s.timer.delay))
  {
    AllReady(c, zero, s);
    q := Turn(c, zero, s);
  }

  /** Through the barrier to the first poll. */
  lemma ToPoll(c: Config, zero: nat, s: State) returns (q: State)
    requires Sane(c) && Reaches(c, zero, s) && s.seqr.Joining? && s.timer.at.Barrier? && Calm(s.sh.flags)
    requires s.sh.tick == Ticking(true, false, false, 0, 0) && AllSynced(s.workers)
    ensures Reaches(c, zero, q) && q.timer.at.Poll? && q.timer.current == 0
    ensures q.sh == s.sh.(tick := s.sh.tick.(running := true)) && Around(s, q) && q.now == q.timer.time1
  {
    q := PassBarrier(c, zero, s);
    q := Take(c, zero, q, Tick(s.timer.delay));
    q := Turn(c, zero, q);
    q := Turn(c, zero, q);
    q := ToBarrier(c, zero, q);
    q := Turn(c, zero, q);
  }

  /** The clock runs out. */
  lemma Expire(c: Config, zero: nat, s: State) returns (q: State)
    requires Sane(c) && Reaches(c, zero, s) && s.seqr.Joining? && s.timer.at.Poll? && Calm(s.sh.flags)
    ensures Reaches(c, zero, q) && q.timer.at.Loop? && q.sh.flags == s.sh.flags && Around(s, q)
    ensures q.sh.tick.stopped && q.sh.tick.running && q.sh.tick.index == s.sh.tick.index
    ensures q.sh.duration == s.sh.duration && q.sh.first == s.sh.first && q.trace == s.trace
  {
    ReachedBase(c, zero, s);
    q := Take(c, zero, s, Tick(s.sh.duration * 1000000));
    assert q.now >= q.timer.time1 && q.sh.duration <= (q.now - q.timer.time1) / 1000000;
    q := Turn(c, zero, q);
  }

  lemma ToFinish(c: Config, zero: nat, s: State) returns (q: State)
    requires Sane(c) && Reaches(c, zero, s) && s.seqr.Joining? && s.timer.at.Poll? && Calm(s.sh.flags)
    ensures Reaches(c, zero, q) && q.timer.at.Finishing? && Calm(q.sh.flags) && Around(s, q)
    ensures q.sh.tick.stopped && q.sh.tick.running && q.sh.tick.index == s.sh.tick.index
    ensures q.sh.duration == s.sh.duration && q.sh.first == s.sh.first && q.trace == s.trace
  {
    q := Expire(c, zero, s);
    q := Turn(c, zero, q);
    q := Turn(c, zero, q);
    q := Turn(c, zero, q);
  }

  /** The clock of the test shows n half seconds. */
  ghost predicate OnTheHour(s: State, n: nat) {
    s.now == s.timer.time1 + n * 500000
  }

  /** The clock runs to the n-th half second, and the timer makes a report. */
  lemma ToReport(c: Config, zero: nat, s: State, m: nat, n: nat) returns (q: State)
    requires Reaches(c, zero, s) && s.timer.at.Poll? && Calm(s.sh.flags)
    requires m < n < 2 * s.sh.duration && OnTheHour(s, m) && s.timer.current == m
    ensures Reaches(c, zero, q) && q.timer.at.Reporting? && Around(s, q) && q.timer.time1 == s.timer.time1
    ensures q.sh == s.sh.(tick := s.sh.tick.(index := n, elapsed := n * 500000))
    ensures OnTheHour(q, n) && q.timer.current == n && q.trace == s.trace
  {
    q := Take(c, zero, s, Tick((n - m) * 500000));
    assert q.now - q.timer.time1 == n * 500000 && (n * 500000) / 500000 == n;
    q := Turn(c, zero, q);
  }

  /** After a report the timer polls on. */
  lemma PollOn(c: Config, zero: nat, s: State) returns (q: State)
    requires Reaches(c, zero, s) && s.timer.at.Loop? && Calm(s.sh.flags) && !s.sh.tick.stopped
    ensures Reaches(c, zero, q) && q == s.(timer := s.timer.(at := Poll))
  {
    q := Turn(c, zero, s);
  }

  // ----- reports

  lemma {:induction false} AliveSome(r: Reading, n: nat)
    requires 1 <= n <= |r.snaps| && r.snaps[0].response > 0
    ensures Alive(r, n) > 0
  {
    if n > 1 {
      AliveSome(r, n - 1);
    }
  }

  /** What a report leaves alone. */
  ghost predicate Reported(s: State, q: State) {
    q == s.(pending := q.pending)
  }

  /** A row that shows the streams as they are. */
  ghost predicate RowOf(s: State, r: Reading) {
    && |r.snaps| == |s.workers|
    && forall k | 0 <= k < |s.workers| :: r.snaps[k] == Snap(CurrentTest(s), s.workers[k], s.sh)
  }

  /** One stream is read. */
  lemma ReadStream(c: Config, zero: nat, s: State) returns (q: State)
    requires Reaches(c, zero, s) && InCallback(s) && s.pending.Pending? && s.pending.open
    requires |s.pending.row.snaps| < |s.workers|
    ensures Reaches(c, zero, q) && Reported(s, q)
    ensures var row := s.pending.row;
            q.pending
            == s.pending.(row := row.(snaps := row.snaps + [Snap(CurrentTest(s), s.workers[|row.snaps|], s.sh)]))
  {
    q := Take(c, zero, s, CalcRead);
  }

  /** One row of a report is read. */
  lemma ReadRow(c: Config, zero: nat, s: State) returns (q: State)
    requires Reaches(c, zero, s) && InCallback(s) && s.pending.Pending? && !s.pending.open
    requires |s.pending.rows| < s.pending.maxSteps
    ensures Reaches(c, zero, q) && Reported(s, q) && q.pending.Pending? && q.pending.open
    ensures q.pending.maxSteps == s.pending.maxSteps && q.pending.rows == s.pending.rows && RowOf(s, q.pending.row)
  {
    q := Take(c, zero, s, CalcStamp);
    var k := 0;
    while k < |s.workers|
      invariant 0 <= k <= |s.workers| && Reaches(c, zero, q) && Reported(s, q)
      invariant q.pending.Pending? && q.pending.open && |q.pending.row.snaps| == k
      invariant q.pending.maxSteps == s.pending.maxSteps && q.pending.rows == s.pending.rows
      invariant forall j | 0 <= j < k :: q.pending.row.snaps[j] == Snap(CurrentTest(s), s.workers[j], s.sh)
    {
      q := ReadStream(c, zero, q);
      k := k + 1;
    }
  }

  /** One row of a report whose first stream is alive. */
  lemma OneRow(c: Config, zero: nat, s: State) returns (q: State, r: Reading)
    requires Reaches(c, zero, s) && InCallback(s) && s.pending.Pending? && !s.pending.open
    requires |s.pending.rows| < s.pending.maxSteps
    requires |s.workers| > 0 && s.workers[0].response > 0
    ensures Reaches(c, zero, q) && Reported(s, q) && RowOf(s, r)
    ensures q.pending == Pending(s.pending.maxSteps, s.pending.rows + [r], false, Blank)
  {
    q := ReadRow(c, zero, s);
    r := q.pending.row;
    AliveSome(r, |s.workers|);
    q := Take(c, zero, q, CalcRow);
  }

  /** What reaches the platform when a report is handed over. */
  ghost predicate Delivered(c: Config, s: State, q: State, e: Event)
    requires e.Report? || e.Finish?
  {
    && (e == if s.timer.at.Finishing? then Event.Finish(CurrentTest(s), e.readings)
             else Event.Report(CurrentTest(s), s.sh.tick.index, e.readings))
    && |e.readings| == StepsNow(s) && (forall i | 0 <= i < |e.readings| :: RowOf(s, e.readings[i]))
    && q.trace == s.trace + Emitted(c, q.performed, e)
  }

  /** A whole report, while the streams stay as they are. */
  lemma Deliver(c: Config, zero: nat, s: State) returns (q: State, e: Event)
    requires Reaches(c, zero, s) && InCallback(s) && s.pending.Nothing?
    requires StepsNow(s) > 0 ==> |s.workers| > 0 && s.workers[0].response > 0
    ensures Reaches(c, zero, q) && q.timer == s.timer.(at := if s.timer.at.Finishing? then Close else Loop)
    ensures q.performed == if s.timer.at.Finishing? then s.performed + {CurrentTest(s)} else s.performed
    ensures q.sh == s.sh || (CurrentTest(s).IpTest? && q.sh == s.sh.(tick := s.sh.tick.(stopped := true)))
    ensures q.workers == s.workers && q.seqr == s.seqr && q.pending.Nothing? && q.now == s.now
    ensures (e.Report? || e.Finish?) && Delivered(c, s, q, e)
  {
    q := Take(c, zero, s, CalcBegin);
    while |q.pending.rows| < StepsNow(s)
      invariant Reaches(c, zero, q) && Reported(s, q) && q.pending.Pending? && !q.pending.open
      invariant q.pending.maxSteps == StepsNow(s) && |q.pending.rows| <= StepsNow(s)
      invariant forall i | 0 <= i < |q.pending.rows| :: RowOf(s, q.pending.rows[i])
      decreases StepsNow(s) - |q.pending.rows|
    {
      var r;
      q, r := OneRow(c, zero, q);
    }
    e := Handed(q);
    q := Take(c, zero, q, CalcEnd);
  }

  // ----- the workers leave

  /** The ping worker makes all its turns; the others find the timer stopped. */
  lemma Leave(c: Config, zero: nat, s: State, i: nat) returns (q: State)
    requires Reaches(c, zero, s) && s.seqr.Joining? && i < |s.workers| && Entered(CurrentTest(s), s.workers[i])
    requires Calm(s.sh.flags) && s.sh.tick.stopped
    ensures Reaches(c, zero, q) && Beside(s, q, i) && Calm(q.sh.flags) && q.sh.tick.stopped
    ensures q.workers[i].place.Ended?
  {
    q := s;
    if CurrentTest(s).RttTest? {
      while q.workers[i].turns < c.pingQuery
        invariant Reaches(c, zero, q) && Beside(s, q, i) && Calm(q.sh.flags) && q.sh.tick.stopped
        invariant q.workers[i].place.Waiting? && q.workers[i].turns <= c.pingQuery
        decreases c.pingQuery - q.workers[i].turns
      {
        q := Take(c, zero, q, Work(i, Echo));
        q := Take(c, zero, q, Work(i, Guard));
      }
      q := Take(c, zero, q, Work(i, Echo));
    }
    q := Take(c, zero, q, Work(i, Guard));
  }

  lemma LeaveAll(c: Config, zero: nat, s: State) returns (q: State)
    requires Reaches(c, zero, s) && s.seqr.Joining? && Calm(s.sh.flags) && s.sh.tick.stopped
    requires forall i | 0 <= i < |s.workers| :: Entered(CurrentTest(s), s.workers[i])
    ensures Reaches(c, zero, q) && Aside(s, q) && Calm(q.sh.flags) && AllEnded(q.workers)
  {
    q := s;
    var i := 0;
    while i < |s.workers|
      invariant 0 <= i <= |s.workers| && Reaches(c, zero, q) && Aside(s, q) && Calm(q.sh.flags) && q.sh.tick.stopped
      invariant forall j | 0 <= j < i :: q.workers[j].place.Ended?
      invariant forall j | i <= j < |s.workers| :: q.workers[j] == s.workers[j]
    {
      q := Leave(c, zero, q, i);
      i := i + 1;
    }
  }

  // ----- one test after the other

  /** Test k runs up to its finish. */
  ghost predicate Concluding(c: Config, zero: nat, s: State, k: nat) {
    && Reaches(c, zero, s) && s.seqr == Joining(k) && s.timer.at.Finishing? && Calm(s.sh.flags) && s.sh.tick.stopped
    && s.pending.Nothing? && forall i | 0 <= i < |s.workers| :: Entered(TestAt(k), s.workers[i])
  }

  lemma StartTest(c: Config, zero: nat, s: State, k: nat) returns (q: State)
    requires Sane(c) && Reaches(c, zero, s) && s.seqr == Deciding(k) && k < 4 && Enabled(c, k) && Calm(s.sh.flags)
    ensures Concluding(c, zero, q, k)
  {
    q := Launch(c, zero, s, k);
    q := EnterAll(c, zero, q);
    q := ToBarrier(c, zero, q);
    q := ToPoll(c, zero, q);
    q := ToFinish(c, zero, q);
  }

  lemma HasWorker(c: Config, zero: nat, s: State, k: nat)
    requires Sane(c) && Reaches(c, zero, s) && s.seqr == Joining(k)
    ensures |s.workers| > 0
  {
    ReachedBase(c, zero, s);
  }

  /** The workers are deleted, and then the timer is joined. */
  lemma CloseTest(c: Config, zero: nat, s: State) returns (q: State)
    requires Reaches(c, zero, s) && s.seqr.Joining? && AllEnded(s.workers) && CurrentTest(s) in s.performed
    requires s.timer.at.Done?
    ensures Reaches(c, zero, q) && q.seqr == Deciding(s.seqr.k + 1) && q.sh == s.sh
  {
    q := Take(c, zero, s, Release);
    q := Take(c, zero, q, Join);
  }

  lemma EndTest(c: Config, zero: nat, s: State, k: nat) returns (q: State)
    requires Sane(c) && Concluding(c, zero, s, k)
    ensures Reaches(c, zero, q) && q.seqr == Deciding(k + 1) && Calm(q.sh.flags)
  {
    HasWorker(c, zero, s, k);
    var e;
    q, e := Deliver(c, zero, s);
    q := Turn(c, zero, q);
    q := LeaveAll(c, zero, q);
    q := CloseTest(c, zero, q);
  }

  lemma {:induction false} AllTests(c: Config, zero: nat, k: nat) returns (q: State)
    requires Sane(c) && (c.rtt || c.download || c.upload) && k <= 4
    ensures Reaches(c, zero, q) && q.seqr == Deciding(k) && Calm(q.sh.flags)
  {
    if k == 0 {
      q := Begin(c, zero);
      assert Undisturbed([]) && After(c, zero, []) == q;
    } else {
      q := AllTests(c, zero, k - 1);
      if Enabled(c, k - 1) {
        q := StartTest(c, zero, q, k - 1);
        q := EndTest(c, zero, q, k - 1);
      } else {
        q := Take(c, zero, q, Decide);
      }
    }
  }

  /** Whatever tests are enabled, some run performs them all and completes. */
  lemma CanComplete(c: Config, zero: nat)
    requires Sane(c) && (c.rtt || c.download || c.upload)
    ensures exists acts :: Undisturbed(acts) && Completed in Trace(c, zero, acts)
                           && Finished(Trace(c, zero, acts)) == Plan(c, 4)
  {
    var q := AllTests(c, zero, 4);
    var acts :| Undisturbed(acts) && After(c, zero, acts) == q;
    ConformsAlways(c, zero, acts);
    FinishedIs(c, Trace(c, zero, acts));
    Guarantees.CompleteHasEvent(c, Trace(c, zero, acts));
  }
}
