/** How the streams of a test move on between two states of one run. */
module Course {
  import opened Protocol
  import opened Timer
  import opened Session
  import opened Invariants
  import opened Histories

  /** Test k is over for good. */
  predicate Past(q: Sequencer, k: nat) {
    match q
    case Deciding(j) => j > k
    case Preparing(j) => j > k
    case Joining(j) => j > k
    case Over => true
  }

  lemma PastStep(c: Config, s: State, a: Action, k: nat)
    requires Past(s.seqr, k) || s.seqr == Joining(k)
    ensures Past(Do(c, s, a).seqr, k) || (s.seqr == Joining(k) == Do(c, s, a).seqr)
  {
  }

  /** What the streams held and the shared state said is still there, and what came in since then met at
      least the tick of the earlier state. */
  ghost predicate Grown(s: State, q: State) {
    && |q.workers| == |s.workers|
    && (forall i | 0 <= i < |s.workers| :: GrownWorker(s.workers[i], q.workers[i], s.sh.tick))
    && (s.sh.first != 0 ==> q.sh.first == s.sh.first)
    && s.sh.tick.index <= q.sh.tick.index && (s.sh.tick.running ==> q.sh.tick.running)
  }

  ghost predicate GrownWorker(v: Worker, w: Worker, tick: Ticking) {
    && v.chunks <= w.chunks && v.records <= w.records
    && forall j | |v.chunks| <= j < |w.chunks| ::
         w.chunks[j].index >= tick.index && (tick.running ==> w.chunks[j].running)
  }

  /** A move of a worker, as far as others can see it later. */
  lemma GrownMove(c: Config, t: Test, v: Worker, w: Worker, tick: Ticking, sh: Shared, now: nat, m: Move)
    requires GrownWorker(v, w, tick) && tick.index <= sh.tick.index && (tick.running ==> sh.tick.running)
    ensures var p := WorkerMove(c, t, w, sh, now, m);
            GrownWorker(v, p.w, tick) && (sh.first != 0 ==> p.sh.first == sh.first)
  {
    match m
    case Receive(received, bits) =>
    case Acknowledge(received, records) =>
    case Answer(reply) =>
    case Fail(flag) =>
    case Guard =>
    case _ =>
  }

  lemma GrownWork(c: Config, s: State, q: State, i: nat, m: Move)
    requires Grown(s, q)
    ensures Grown(s, DoWork(c, q, i, m))
  {
    if q.seqr.Joining? && i < |q.workers| {
      GrownMove(c, CurrentTest(q), s.workers[i], q.workers[i], s.sh.tick, q.sh, q.now, m);
      WorkerFrame(c, CurrentTest(q), q.workers[i], q.sh, q.now, m);
    }
  }

  lemma GrownTimer(c: Config, zero: nat, s: State, q: State)
    requires Base(c, zero, q) && Grown(s, q) && q.seqr.Joining?
    ensures Grown(s, DoTimer(c, q))
  {
    TimerFrame(Result(q.sh, q.timer, []), q.now);
    TickRises(c, zero, q);
  }

  lemma GrownStep(c: Config, zero: nat, s: State, q: State, a: Action)
    requires Base(c, zero, q) && Grown(s, q) && q.seqr.Joining? && Do(c, q, a).seqr == q.seqr
    ensures Grown(s, Do(c, q, a))
  {
    match a
    case Work(i, m) => GrownWork(c, s, q, i, m);
    case TimerStep => GrownTimer(c, zero, s, q);
    case _ =>
  }

  lemma {:induction false} Onward(c: Config, zero: nat, acts: seq<Action>, n: nat, k: nat)
    requires n <= |acts| && After(c, zero, acts[..n]).seqr == Joining(k)
    ensures After(c, zero, acts).seqr == Joining(k) || Past(After(c, zero, acts).seqr, k)
  {
    if n == |acts| {
      assert acts[..n] == acts;
    } else {
      var init := acts[..|acts| - 1];
      assert init[..n] == acts[..n];
      Onward(c, zero, init, n, k);
      PastStep(c, After(c, zero, init), acts[|acts| - 1], k);
    }
  }

  /** A test is made once, so two states in which test k runs belong to the same test. */
  lemma {:induction false} GrownSince(c: Config, zero: nat, acts: seq<Action>, n: nat, k: nat)
    requires Sane(c) && n <= |acts|
    requires After(c, zero, acts[..n]).seqr == Joining(k) == After(c, zero, acts).seqr
    ensures Grown(After(c, zero, acts[..n]), After(c, zero, acts))
  {
    if n == |acts| {
      assert acts[..n] == acts;
    } else {
      var init := acts[..|acts| - 1];
      assert init[..n] == acts[..n];
      Onward(c, zero, init, n, k);
      PastStep(c, After(c, zero, init), acts[|acts| - 1], k);
      GrownSince(c, zero, init, n, k);
      BaseAlways(c, zero, init);
      GrownStep(c, zero, After(c, zero, acts[..n]), After(c, zero, init), acts[|acts| - 1]);
    }
  }

  /** The same for any two moments of a run. */
  lemma GrownBetween(c: Config, zero: nat, acts: seq<Action>, n: nat, m: nat, k: nat)
    requires Sane(c) && n <= m <= |acts|
    requires After(c, zero, acts[..n]).seqr == Joining(k) == After(c, zero, acts[..m]).seqr
    ensures Grown(After(c, zero, acts[..n]), After(c, zero, acts[..m]))
  {
    assert acts[..m][..n] == acts[..n];
    GrownSince(c, zero, acts[..m], n, k);
  }
}
