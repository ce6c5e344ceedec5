/** What every step of the client keeps: the barrier, the duration in force, the clock and the tick. */
module Invariants {
  import opened OrderedMaps
  import opened Protocol
  import opened Timer
  import opened Session
  import Upload

  // ----- what single steps leave alone

  /** The timer writes its own globals only. */
  lemma TimerFrame(r: Result, now: nat)
    ensures var q := Step(r, now);
            && q.sh == r.sh.(tick := q.sh.tick) && q.t.instances == r.t.instances
            && (r.sh.tick.running ==> q.sh.tick.running) && (r.sh.tick.stopped ==> q.sh.tick.stopped)
  {
  }

  /** An error flag never stands without `hasError`. */
  ghost predicate Flagged(f: Flags) {
    f.unreachable || f.forbidden || f.tlsMissing || f.dropped ==> f.hasError
  }

  /** The flags only change for the worse, and an error flag is set together with `hasError`. */
  ghost predicate Worse(f: Flags, g: Flags) {
    (g.running ==> f.running) && (f.hasError ==> g.hasError) && (Flagged(f) ==> Flagged(g))
  }

  lemma FailFlags(c: Config, t: Test, w: Worker, sh: Shared, flag: Flag)
    ensures Worse(sh.flags, FailMove(c, t, w, sh, flag).sh.flags)
  {
  }

  lemma AnswerFlags(w: Worker, sh: Shared, reply: IpReply)
    ensures Worse(sh.flags, AnswerMove(w, sh, reply).sh.flags)
  {
  }

  lemma AccountFlags(c: Config, t: Test, w: Worker, sh: Shared, received: int, bits: nat, records: seq<Upload.Record>)
    ensures ReceiveMove(w, sh, received, bits).sh.flags == sh.flags
    ensures AcknowledgeMove(w, sh, received, records).sh.flags == sh.flags
    ensures GuardMove(c, t, w, sh).sh.flags == sh.flags
  {
  }

  lemma WorkerFlags(c: Config, t: Test, w: Worker, sh: Shared, now: nat, m: Move)
    ensures Worse(sh.flags, WorkerMove(c, t, w, sh, now, m).sh.flags)
  {
    match m
    case Fail(flag) => FailFlags(c, t, w, sh, flag);
    case Answer(reply) => AnswerFlags(w, sh, reply);
    case Receive(received, bits) => AccountFlags(c, t, w, sh, received, bits, []);
    case Acknowledge(received, records) => AccountFlags(c, t, w, sh, received, 0, records);
    case Guard => AccountFlags(c, t, w, sh, 0, 0, []);
    case _ =>
  }

  /** A worker leaves the timer's globals alone; only the ping worker sets the duration and ends the
      test. */
  lemma WorkerFrame(c: Config, t: Test, w: Worker, sh: Shared, now: nat, m: Move)
    ensures var p := WorkerMove(c, t, w, sh, now, m);
            && p.w.pid == w.pid
            && (p.sh.tick == sh.tick || (t.RttTest? && p.sh.tick == sh.tick.(stopped := true)))
            && (p.sh.duration == sh.duration || (t.RttTest? && p.sh.duration == Duration(c, t)))
  {
    match m
    case Register =>
    case Fail(flag) =>
    case Connect =>
    case Guard =>
    case Receive(received, bits) =>
    case Acknowledge(received, records) =>
    case Answer(reply) =>
    case Echo =>
    case Throw =>
  }

  // ----- the barrier

  /** The barrier entry of a worker is 1 exactly when it has made its first receive (or entered the ping
      loop), and it is registered by then. */
  ghost predicate Entry(w: Worker, syncing: map<nat, nat>) {
    && (w.synced <==> w.pid in syncing && syncing[w.pid] == 1)
    && (w.place.Born? ==> !w.synced)
  }

  ghost predicate Pids(ws: seq<Worker>) {
    forall i, j | 0 <= i < j < |ws| :: ws[i].pid != ws[j].pid
  }

  /** Every entry of the barrier belongs to a worker of the current test. */
  ghost predicate Known(ws: seq<Worker>, syncing: map<nat, nat>) {
    forall p | p in syncing :: exists i :: 0 <= i < |ws| && ws[i].pid == p
  }

  ghost predicate AllSynced(ws: seq<Worker>) {
    forall i | 0 <= i < |ws| :: ws[i].synced
  }

  /** The timer is past the barrier of its test. */
  ghost predicate Passed(s: State) {
    s.sh.tick.running || s.timer.at.Delay?
  }

  ghost predicate Barriers(c: Config, s: State) {
    match s.seqr
    case Preparing(k) =>
      k < 4 && s.workers == [] && s.sh.syncing == map[] && s.timer.instances == Instances(c, TestAt(k)) && !Passed(s)
    case Joining(k) =>
      && k < 4 && |s.workers| == Instances(c, TestAt(k)) == s.timer.instances
      && Pids(s.workers) && Known(s.workers, s.sh.syncing)
      && (forall i | 0 <= i < |s.workers| :: Entry(s.workers[i], s.sh.syncing))
      && (Passed(s) ==> AllSynced(s.workers))
    case _ => true
  }

  function PidsOf(ws: seq<Worker>): set<nat> {
    set w | w in ws :: w.pid
  }

  lemma {:induction false} PidsCount(ws: seq<Worker>)
    requires Pids(ws)
    ensures |PidsOf(ws)| == |ws|
  {
    if ws != [] {
      var init, w := ws[..|ws| - 1], ws[|ws| - 1];
      PidsCount(init);
      assert ws == init + [w];
      assert PidsOf(ws) == PidsOf(init) + {w.pid};
      assert w.pid !in PidsOf(init);
    }
  }

  lemma SubsetFull(a: set<nat>, b: set<nat>)
    requires a <= b && |a| == |b|
    ensures a == b
  {
    if a != b {
      var x :| x in b && x !in a;
      assert a <= b - {x};
      SubsetLength(a, b - {x});
    }
  }

  /** Counting as many ready entries as there are workers means that every worker is ready: there are
      no entries of earlier tests to be counted. */
  lemma BarrierSound(ws: seq<Worker>, syncing: map<nat, nat>)
    requires Pids(ws) && Known(ws, syncing) && |Ready(syncing)| == |ws|
    requires forall i | 0 <= i < |ws| :: Entry(ws[i], syncing)
    ensures AllSynced(ws)
  {
    PidsCount(ws);
    assert Ready(syncing) <= PidsOf(ws) by {
      forall p | p in Ready(syncing) ensures p in PidsOf(ws) {
        var i :| 0 <= i < |ws| && ws[i].pid == p;
        assert ws[i] in ws;
      }
    }
    SubsetFull(Ready(syncing), PidsOf(ws));
    forall i | 0 <= i < |ws| ensures ws[i].synced {
      assert ws[i] in ws && ws[i].pid in PidsOf(ws);
      assert Entry(ws[i], syncing);
    }
  }

  /** One worker's step keeps its own entry and touches no other; an entry never falls back from 1. */
  lemma WorkerEntry(c: Config, t: Test, w: Worker, sh: Shared, now: nat, m: Move)
    requires Entry(w, sh.syncing)
    ensures var p := WorkerMove(c, t, w, sh, now, m);
            && Entry(p.w, p.sh.syncing)
            && (w.synced ==> p.w.synced)
            && (forall q | q in p.sh.syncing :: q in sh.syncing || q == w.pid)
            && (forall q | q != w.pid && q in sh.syncing :: q in p.sh.syncing && p.sh.syncing[q] == sh.syncing[q])
  {
  }

  lemma BarriersWork(c: Config, s: State, i: nat, m: Move)
    requires Barriers(c, s)
    ensures Barriers(c, DoWork(c, s, i, m))
  {
    if s.seqr.Joining? && i < |s.workers| {
      var p := WorkerMove(c, CurrentTest(s), s.workers[i], s.sh, s.now, m);
      var ws := s.workers[i := p.w];
      WorkerFrame(c, CurrentTest(s), s.workers[i], s.sh, s.now, m);
      WorkerEntry(c, CurrentTest(s), s.workers[i], s.sh, s.now, m);
      forall q | q in p.sh.syncing ensures exists j :: 0 <= j < |ws| && ws[j].pid == q {
        if q in s.sh.syncing {
          var j :| 0 <= j < |s.workers| && s.workers[j].pid == q;
          assert ws[j].pid == q;
        } else {
          assert ws[i].pid == q;
        }
      }
      forall j | 0 <= j < |ws| ensures Entry(ws[j], p.sh.syncing) {
        assert Entry(s.workers[j], s.sh.syncing);
      }
    }
  }

  lemma BarriersTimer(c: Config, s: State)
    requires Sane(c) && Barriers(c, s)
    ensures Barriers(c, DoTimer(c, s))
  {
    TimerFrame(Result(s.sh, s.timer, []), s.now);
    if s.seqr.Preparing? {
      assert Ready(s.sh.syncing) == {};
    } else if s.seqr.Joining? && s.timer.at.Barrier? && |Ready(s.sh.syncing)| == s.timer.instances {
      BarrierSound(s.workers, s.sh.syncing);
    }
  }

  lemma BarriersCreate(c: Config, s: State, pids: seq<nat>)
    requires Barriers(c, s)
    ensures Barriers(c, DoCreate(c, s, pids))
  {
  }

  /** The barrier invariant holds through every interleaving. */
  lemma BarriersStep(c: Config, s: State, a: Action)
    requires Sane(c) && Barriers(c, s)
    ensures Barriers(c, Do(c, s, a))
  {
    match a
    case Work(i, m) => BarriersWork(c, s, i, m);
    case TimerStep => BarriersTimer(c, s);
    case Create(pids) => BarriersCreate(c, s, pids);
    case _ =>
  }
}
