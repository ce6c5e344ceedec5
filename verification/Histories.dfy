/** What the workers have accounted and what a report under way has read. */
module Histories {
  import opened Aggregator
  import opened Protocol
  import opened Timer
  import opened Session
  import opened Invariants
  import opened Clocks
  import Download

  // ----- the chunks of the download workers

  /** What a worker has accounted agrees with the shared state: nothing from the future, whole bytes,
      and the order in which the timer starts, ticks and errors occur. */
  ghost predicate Accounted(w: Worker, sh: Shared) {
    && Download.WellTimed(w.chunks)
    && forall c | c in w.chunks ::
         && c.bits % 8 == 0 && c.index <= sh.tick.index
         && (c.running ==> sh.tick.running) && (c.hasError ==> sh.flags.hasError)
  }

  ghost predicate Chunked(s: State) {
    s.seqr.Joining? ==> forall i | 0 <= i < |s.workers| :: Accounted(s.workers[i], s.sh)
  }

  lemma AccountedLater(w: Worker, sh: Shared, sh': Shared)
    requires Accounted(w, sh)
    requires sh.tick.index <= sh'.tick.index && (sh.tick.running ==> sh'.tick.running)
    requires sh.flags.hasError ==> sh'.flags.hasError
    ensures Accounted(w, sh')
  {
  }

  lemma AccountedMore(w: Worker, sh: Shared, bits: nat)
    requires Accounted(w, sh) && bits > 0 && bits % 8 == 0
    ensures var c := Download.Chunk(bits, sh.tick.running, sh.flags.hasError, sh.tick.index);
            Accounted(w.(chunks := w.chunks + [c]), sh)
  {
    var c := Download.Chunk(bits, sh.tick.running, sh.flags.hasError, sh.tick.index);
    var cs := w.chunks + [c];
    forall i | 0 <= i < |w.chunks| ensures cs[i] == w.chunks[i] && w.chunks[i] in w.chunks {
    }
  }

  lemma AccountedMove(c: Config, t: Test, w: Worker, sh: Shared, now: nat, m: Move)
    requires Accounted(w, sh)
    ensures var p := WorkerMove(c, t, w, sh, now, m);
            && Accounted(p.w, sh)
            && (p.w.chunks != w.chunks ==> t.DownloadTest? && m.Receive? && m.bits > 0 && m.bits % 8 == 0)
            && (p.w.chunks == w.chunks
                || p.w.chunks == w.chunks + [Download.Chunk(m.bits, sh.tick.running, sh.flags.hasError, sh.tick.index)])
  {
    if m.Receive? && m.bits > 0 && m.bits % 8 == 0 {
      AccountedMore(w, sh, m.bits);
    }
  }

  lemma ChunkedWork(c: Config, s: State, i: nat, m: Move)
    requires Chunked(s)
    ensures Chunked(DoWork(c, s, i, m))
  {
    if s.seqr.Joining? && i < |s.workers| {
      var p := WorkerMove(c, CurrentTest(s), s.workers[i], s.sh, s.now, m);
      WorkerFrame(c, CurrentTest(s), s.workers[i], s.sh, s.now, m);
      WorkerFlags(c, CurrentTest(s), s.workers[i], s.sh, s.now, m);
      AccountedMove(c, CurrentTest(s), s.workers[i], s.sh, s.now, m);
      AccountedLater(p.w, s.sh, p.sh);
      forall j | 0 <= j < |s.workers| && j != i ensures Accounted(s.workers[j], p.sh) {
        AccountedLater(s.workers[j], s.sh, p.sh);
      }
    }
  }

  /** The tick never falls. */
  lemma TickRises(c: Config, zero: nat, s: State)
    requires Sane(c) && Barriers(c, s) && InForce(c, s) && InForceOther(c, s) && Timed(zero, s) && Ticks(c, s)
    requires s.seqr.Preparing? || s.seqr.Joining?
    ensures s.sh.tick.index <= DoTimer(c, s).sh.tick.index
  {
    if s.timer.at.Poll? {
      NoStaleDuration(c, s);
      ClockFits(c, TestAt(s.seqr.k), s.sh.tick, s.timer.time1, s.now);
    }
  }

  lemma ChunkedTimer(c: Config, zero: nat, s: State)
    requires Sane(c) && Barriers(c, s) && InForce(c, s) && InForceOther(c, s) && Timed(zero, s) && Ticks(c, s)
    requires Chunked(s)
    ensures Chunked(DoTimer(c, s))
  {
    if s.seqr.Joining? {
      TimerFrame(Result(s.sh, s.timer, []), s.now);
      TickRises(c, zero, s);
      forall j | 0 <= j < |s.workers| ensures Accounted(s.workers[j], DoTimer(c, s).sh) {
        AccountedLater(s.workers[j], s.sh, DoTimer(c, s).sh);
      }
    }
  }

  /** Every other step only touches the flags, or the workers as a whole. */
  lemma ChunkedOther(c: Config, s: State, a: Action)
    requires Chunked(s) && !a.TimerStep? && !a.Work?
    ensures Chunked(Do(c, s, a))
  {
    var q := Do(c, s, a);
    if s.seqr.Joining? && q.seqr.Joining? {
      forall j | 0 <= j < |s.workers| ensures Accounted(s.workers[j], q.sh) {
        AccountedLater(s.workers[j], s.sh, q.sh);
      }
    }
  }

  // ----- the report under way

  /** What a step of a report reads after `elapsed` microseconds of measured time. */
  ghost predicate Timely(r: Reading, zero: nat, time1: nat, elapsed: nat) {
    time1 + elapsed <= r.now && forall k | 0 <= k < |r.snaps| :: zero <= r.snaps[k].startTime <= time1
  }

  ghost predicate Rendering(zero: nat, s: State) {
    s.pending.Pending? ==>
      && InCallback(s)
      && s.pending.maxSteps == StepsNow(s)
      && |s.pending.rows| <= s.pending.maxSteps
      && (s.pending.open ==> |s.pending.rows| < s.pending.maxSteps && |s.pending.row.snaps| <= |s.workers|
                             && Timely(s.pending.row, zero, s.timer.time1, s.sh.tick.elapsed))
      && forall i | 0 <= i < |s.pending.rows| ::
           |s.pending.rows[i].snaps| == |s.workers| && Timely(s.pending.rows[i], zero, s.timer.time1, s.sh.tick.elapsed)
  }

  /** A report of a measurement reads its streams after the barrier. */
  lemma CallbackPassed(c: Config, s: State)
    requires Barriers(c, s) && Ticks(c, s) && (s.seqr.Preparing? || s.seqr.Joining?)
    requires InCallback(s) && Measures(CurrentTest(s))
    ensures s.seqr.Joining? && Stamped(s) && AllSynced(s.workers)
  {
  }

  lemma RenderingRead(c: Config, zero: nat, s: State)
    requires Barriers(c, s) && Timed(zero, s) && StartedBefore(s) && Ticks(c, s) && Rendering(zero, s)
    requires s.seqr.Preparing? || s.seqr.Joining?
    ensures Rendering(zero, DoRead(s)) && Rendering(zero, DoStamp(s)) && Rendering(zero, DoRow(s))
  {
    if s.pending.Pending? && s.pending.maxSteps > 0 {
      CallbackPassed(c, s);
      if |s.pending.row.snaps| < |s.workers| {
        assert Punctual(s.workers[|s.pending.row.snaps|], zero, s.now);
      }
    }
  }

  lemma RenderingWork(c: Config, zero: nat, s: State, i: nat, m: Move)
    requires Rendering(zero, s)
    ensures Rendering(zero, DoWork(c, s, i, m))
  {
    if s.seqr.Joining? && i < |s.workers| {
      WorkerFrame(c, CurrentTest(s), s.workers[i], s.sh, s.now, m);
    }
  }

  /** While the timer is not there, only the sequencer could disturb a report, and it waits. */
  ghost predicate Attended(s: State) {
    s.seqr.Deciding? || s.seqr.Over? ==> s.timer.at.Done?
  }

  lemma AttendedStep(c: Config, s: State, a: Action)
    requires Attended(s)
    ensures Attended(Do(c, s, a))
  {
    if a.TimerStep? {
      TimerFrame(Result(s.sh, s.timer, []), s.now);
    }
  }

  lemma RenderingStep(c: Config, zero: nat, s: State, a: Action)
    requires Barriers(c, s) && Timed(zero, s) && StartedBefore(s) && Ticks(c, s) && Attended(s) && Rendering(zero, s)
    ensures Rendering(zero, Do(c, s, a))
  {
    match a
    case Work(i, m) => RenderingWork(c, zero, s, i, m);
    case CalcRead => if s.pending.Pending? { RenderingRead(c, zero, s); }
    case CalcStamp => if s.pending.Pending? { RenderingRead(c, zero, s); }
    case CalcRow => if s.pending.Pending? { RenderingRead(c, zero, s); }
    case _ =>
  }

  // ----- all of it, together

  /** The invariants of the barrier, the clock, the tick, the chunks and the report under way. */
  ghost predicate Base(c: Config, zero: nat, s: State) {
    && Sane(c) && Barriers(c, s) && InForce(c, s) && InForceOther(c, s)
    && Timed(zero, s) && StartedBefore(s) && Ticks(c, s)
    && Chunked(s) && Attended(s) && Rendering(zero, s)
  }

  lemma BaseBegin(c: Config, zero: nat)
    requires Sane(c)
    ensures Base(c, zero, Begin(c, zero))
  {
  }

  lemma BaseStep(c: Config, zero: nat, s: State, a: Action)
    requires Base(c, zero, s)
    ensures Base(c, zero, Do(c, s, a))
  {
    BarriersStep(c, s, a);
    InForceStep(c, s, a);
    TimedStep(c, zero, s, a);
    AttendedStep(c, s, a);
    RenderingStep(c, zero, s, a);
    match a
    case TimerStep =>
      TicksTimer(c, zero, s);
      ChunkedTimer(c, zero, s);
    case Work(i, m) =>
      TicksWork(c, s, i, m);
      ChunkedWork(c, s, i, m);
    case _ =>
      TicksOther(c, s, a);
      ChunkedOther(c, s, a);
  }

  /** They hold in every state that any interleaving reaches. */
  lemma {:induction false} BaseAlways(c: Config, zero: nat, acts: seq<Action>)
    requires Sane(c)
    ensures Base(c, zero, After(c, zero, acts))
  {
    if acts == [] {
      BaseBegin(c, zero);
    } else {
      BaseAlways(c, zero, acts[..|acts| - 1]);
      BaseStep(c, zero, After(c, zero, acts[..|acts| - 1]), acts[|acts| - 1]);
    }
  }
}
