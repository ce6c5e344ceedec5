/** What the workers do over a run: what each of them has accounted is the list of its own receives, a stream is
    alive until a receive brings nothing, and behind a stop nobody begins anew. */
module Workers {
  import opened Protocol
  import opened Timer
  import opened Session
  import opened Invariants
  import opened Histories
  import Course
  import Download
  import Upload

  // ----- what a worker has accounted

  /** The receives of one worker in the test that runs: chunks and acknowledged records with what they met,
      echo turns, and whether the IP report has come. */
  datatype Log = Log(chunks: seq<Download.Chunk>, steps: seq<Upload.Step>, turns: nat, answered: bool)

  const Empty := Log([], [], 0, false)

  /** The records of one acknowledgement, with what they meet. */
  function Met(rs: seq<Upload.Record>, running: bool, first: nat, hasError: bool): seq<Upload.Step> {
    seq(|rs|, j requires 0 <= j < |rs| => Upload.Step(rs[j], Upload.View(running, first, hasError)))
  }

  /** One receive of a waiting worker in test k. */
  function Logged(log: Log, k: nat, sh: Shared, m: Move): Log {
    match m
    case Receive(received, bits) =>
      if k == 2 && received > 0 && bits > 0 && bits % 8 == 0
      then log.(chunks := log.chunks + [Download.Chunk(bits, sh.tick.running, sh.flags.hasError, sh.tick.index)])
      else log
    case Acknowledge(received, records) =>
      if k == 3 && received > 0
      then log.(steps := log.steps + Met(records, sh.tick.running, sh.first, sh.flags.hasError))
      else log
    case Echo => if k == 1 then log.(turns := log.turns + 1) else log
    case Answer(reply) =>
      if k == 0 && (reply == FullReport || reply == ReportWithoutTls) then log.(answered := true) else log
    case _ => log
  }

  ghost function LogOf(c: Config, zero: nat, acts: seq<Action>, i: nat): Log {
    if acts == [] then Empty
    else
      var init, a := acts[..|acts| - 1], acts[|acts| - 1];
      var s := After(c, zero, init);
      if a.Create? && s.seqr.Preparing? && Do(c, s, a).seqr.Joining? then Empty
      else if a.Work? && a.i == i && s.seqr.Joining? && i < |s.workers| && s.workers[i].place.Waiting?
      then Logged(LogOf(c, zero, init, i), s.seqr.k, s.sh, a.move)
      else LogOf(c, zero, init, i)
  }

  predicate Keeps(w: Worker, log: Log) {
    && w.chunks == log.chunks && w.records == log.steps && w.turns == log.turns && w.answered == log.answered
    && (w.answered ==> w.place.Ended?)
  }

  lemma LogMove(c: Config, w: Worker, sh: Shared, now: nat, m: Move, k: nat, log: Log)
    requires k < 4 && Keeps(w, log)
    ensures var p := WorkerMove(c, TestAt(k), w, sh, now, m);
            Keeps(p.w, if w.place.Waiting? then Logged(log, k, sh, m) else log)
  {
    match m
    case Fail(flag) =>
    case Guard =>
    case Receive(received, bits) =>
    case Acknowledge(received, records) =>
      assert ToSteps(records, sh) == Met(records, sh.tick.running, sh.first, sh.flags.hasError);
    case Answer(reply) =>
    case _ =>
  }

  ghost predicate Logs(c: Config, zero: nat, acts: seq<Action>, s: State) {
    s.seqr.Joining? ==> forall i | 0 <= i < |s.workers| :: Keeps(s.workers[i], LogOf(c, zero, acts, i))
  }

  lemma LogWork(c: Config, zero: nat, init: seq<Action>, i: nat, m: Move)
    requires Barriers(c, After(c, zero, init)) && Logs(c, zero, init, After(c, zero, init))
    ensures Logs(c, zero, init + [Work(i, m)], DoWork(c, After(c, zero, init), i, m))
  {
    var s := After(c, zero, init);
    assert (init + [Work(i, m)])[..|init|] == init;
    if s.seqr.Joining? && i < |s.workers| {
      LogMove(c, s.workers[i], s.sh, s.now, m, s.seqr.k, LogOf(c, zero, init, i));
    }
  }

  lemma LogStep(c: Config, zero: nat, init: seq<Action>, a: Action)
    requires Barriers(c, After(c, zero, init)) && Logs(c, zero, init, After(c, zero, init))
    ensures Logs(c, zero, init + [a], Do(c, After(c, zero, init), a))
  {
    var s := After(c, zero, init);
    assert (init + [a])[..|init|] == init;
    if a.Work? {
      LogWork(c, zero, init, a.i, a.move);
    }
  }

  /** In every run, what the workers of the running test have accounted is exactly what they have received,
      each chunk and each record with the clock, the error flag and the elected key that it met. */
  lemma {:induction false} LogsAlways(c: Config, zero: nat, acts: seq<Action>)
    requires Sane(c)
    ensures Logs(c, zero, acts, After(c, zero, acts))
  {
    if acts != [] {
      var init, a := acts[..|acts| - 1], acts[|acts| - 1];
      assert init + [a] == acts;
      LogsAlways(c, zero, init);
      BaseAlways(c, zero, init);
      LogStep(c, zero, init, a);
    }
  }

  // ----- streams that are alive

  /** Nothing makes the workers of a measurement leave. */
  predicate Open(sh: Shared) {
    sh.flags.running && !sh.flags.hasError && sh.tick.active && !sh.tick.stopped
  }

  /** A stream that has received lives on while its receives bring data; it only ends for one that brings
      none, or when it is told to. */
  predicate Lives(w: Worker, sh: Shared) {
    w.synced ==> if w.place.Ended? then w.response <= 0 || !Open(sh) else w.response > 0
  }

  ghost predicate AllLive(s: State) {
    s.seqr == Joining(2) || s.seqr == Joining(3) ==> forall i | 0 <= i < |s.workers| :: Lives(s.workers[i], s.sh)
  }

  lemma LivesMove(c: Config, t: Test, w: Worker, sh: Shared, now: nat, m: Move)
    requires t.DownloadTest? || t.UploadTest?
    requires Lives(w, sh) && (w.place.Born? || w.place.Registered? ==> !w.synced)
    ensures var p := WorkerMove(c, t, w, sh, now, m);
            Lives(p.w, p.sh) && (Open(p.sh) ==> Open(sh)) && (p.w.place.Born? || p.w.place.Registered? ==> !p.w.synced)
  {
    match m
    case Fail(flag) =>
    case Guard =>
    case Receive(received, bits) =>
    case Acknowledge(received, records) =>
    case _ =>
  }

  ghost predicate Fresh(s: State) {
    s.seqr.Joining? ==>
      forall i | 0 <= i < |s.workers| ::
        s.workers[i].place.Born? || s.workers[i].place.Registered? ==> !s.workers[i].synced
  }

  lemma FreshMove(c: Config, t: Test, w: Worker, sh: Shared, now: nat, m: Move)
    requires w.place.Born? || w.place.Registered? ==> !w.synced
    ensures var p := WorkerMove(c, t, w, sh, now, m); p.w.place.Born? || p.w.place.Registered? ==> !p.w.synced
  {
    match m
    case Fail(flag) =>
    case Guard =>
    case Receive(received, bits) =>
    case Acknowledge(received, records) =>
    case Answer(reply) =>
    case _ =>
  }

  lemma LiveWork(c: Config, s: State, i: nat, m: Move)
    requires AllLive(s) && Fresh(s)
    ensures AllLive(DoWork(c, s, i, m)) && Fresh(DoWork(c, s, i, m))
  {
    if s.seqr.Joining? && i < |s.workers| {
      FreshMove(c, CurrentTest(s), s.workers[i], s.sh, s.now, m);
      if s.seqr.k == 2 || s.seqr.k == 3 {
        LivesMove(c, CurrentTest(s), s.workers[i], s.sh, s.now, m);
      }
    }
  }

  lemma LiveOther(c: Config, s: State, a: Action)
    requires AllLive(s) && Fresh(s) && !a.Work?
    ensures AllLive(Do(c, s, a)) && Fresh(Do(c, s, a))
  {
    if a.TimerStep? {
      TimerFrame(Result(s.sh, s.timer, []), s.now);
      StaysInactive(s.sh, s.timer, s.now);
    }
  }

  /** The timer never becomes active again. */
  lemma StaysInactive(sh: Shared, t: Timer, now: nat)
    ensures Step(Result(sh, t, []), now).sh.tick.active ==> sh.tick.active
  {
  }

  lemma {:induction false} LiveAlways(c: Config, zero: nat, acts: seq<Action>)
    ensures AllLive(After(c, zero, acts)) && Fresh(After(c, zero, acts))
  {
    if acts != [] {
      var s, a := After(c, zero, acts[..|acts| - 1]), acts[|acts| - 1];
      LiveAlways(c, zero, acts[..|acts| - 1]);
      if a.Work? {
        LiveWork(c, s, a.i, a.move);
      } else {
        LiveOther(c, s, a);
      }
    }
  }

  /** In every run, while a download or upload goes on without an error: a stream that has received something has
      left its loop exactly if its last receive brought nothing or failed. */
  lemma LivesUntilSilent(c: Config, zero: nat, acts: seq<Action>, i: nat)
    requires var s := After(c, zero, acts);
             && (s.seqr == Joining(2) || s.seqr == Joining(3)) && i < |s.workers| && s.workers[i].synced
             && s.sh.flags.running && !s.sh.flags.hasError && s.sh.tick.active && !s.sh.tick.stopped
    ensures var w := After(c, zero, acts).workers[i]; w.place.Ended? <==> w.response <= 0
  {
    LiveAlways(c, zero, acts);
  }

  // ----- behind a stop

  /** The workers of test k are told to leave: the client was stopped, or, except for the ping, the timer has
      ended the test or gone. */
  predicate Told(k: nat, sh: Shared) {
    !sh.flags.running || (k != 1 && (sh.tick.stopped || !sh.tick.active))
  }

  predicate Rests(v: Worker, w: Worker) {
    w.chunks == v.chunks && w.records == v.records && w.turns == v.turns
  }

  /** A worker that does not wait in a receive accounts nothing any more; one that does returns at most
      once. */
  predicate Winds(v: Worker, w: Worker) {
    && (if v.place.Waiting? then Rests(v, w) || !w.place.Waiting? else Rests(v, w) && !w.place.Waiting?)
    && |w.chunks| <= |v.chunks| + 1 && w.turns <= v.turns + 1
  }

  lemma WindsMove(c: Config, k: nat, v: Worker, w: Worker, sh: Shared, now: nat, m: Move)
    requires k < 4 && Winds(v, w) && Told(k, sh)
    ensures Winds(v, WorkerMove(c, TestAt(k), w, sh, now, m).w)
  {
    match m
    case Fail(flag) =>
    case Guard =>
    case Receive(received, bits) =>
    case Acknowledge(received, records) =>
    case Answer(reply) =>
    case _ =>
  }

  lemma ToldStays(c: Config, s: State, a: Action)
    requires s.seqr.Joining? && Do(c, s, a).seqr == s.seqr && Told(s.seqr.k, s.sh)
    ensures Told(s.seqr.k, Do(c, s, a).sh)
  {
    match a
    case Work(i, m) =>
      if i < |s.workers| {
        WorkerFrame(c, CurrentTest(s), s.workers[i], s.sh, s.now, m);
        WorkerFlags(c, CurrentTest(s), s.workers[i], s.sh, s.now, m);
      }
    case TimerStep =>
      TimerFrame(Result(s.sh, s.timer, []), s.now);
      StaysInactive(s.sh, s.timer, s.now);
    case _ =>
  }

  ghost predicate AllWind(s: State, q: State) {
    |q.workers| == |s.workers| && forall i | 0 <= i < |s.workers| :: Winds(s.workers[i], q.workers[i])
  }

  lemma WindsStep(c: Config, s: State, q: State, a: Action)
    requires AllWind(s, q) && q.seqr.Joining? && q.seqr.k < 4 && Do(c, q, a).seqr == q.seqr && Told(q.seqr.k, q.sh)
    ensures AllWind(s, Do(c, q, a))
  {
    match a
    case Work(i, m) =>
      if i < |q.workers| {
        WindsMove(c, q.seqr.k, s.workers[i], q.workers[i], q.sh, q.now, m);
      }
    case _ =>
  }

  lemma {:induction false} WindsSince(c: Config, zero: nat, acts: seq<Action>, n: nat, k: nat)
    requires Sane(c) && n <= |acts| && Told(k, After(c, zero, acts[..n]).sh)
    requires After(c, zero, acts[..n]).seqr == Joining(k) == After(c, zero, acts).seqr
    ensures AllWind(After(c, zero, acts[..n]), After(c, zero, acts)) && Told(k, After(c, zero, acts).sh)
  {
    if n == |acts| {
      assert acts[..n] == acts;
    } else {
      var init, a := acts[..|acts| - 1], acts[|acts| - 1];
      assert init[..n] == acts[..n];
      Course.Onward(c, zero, init, n, k);
      Course.PastStep(c, After(c, zero, init), a, k);
      WindsSince(c, zero, init, n, k);
      BaseAlways(c, zero, init);
      ToldStays(c, After(c, zero, init), a);
      WindsStep(c, After(c, zero, acts[..n]), After(c, zero, init), a);
    }
  }

  /** In every run, between two moments of one test at the first of which its workers are told to leave: no worker
      begins another receive, so a worker that was not in one accounts nothing more, and one that was accounts
      at most that one. */
  lemma NothingBegins(c: Config, zero: nat, acts: seq<Action>, n: nat, m: nat, k: nat, i: nat)
    requires Sane(c) && n <= m <= |acts|
    requires After(c, zero, acts[..n]).seqr == Joining(k) == After(c, zero, acts[..m]).seqr
    requires i < |After(c, zero, acts[..n]).workers|
    requires var sh := After(c, zero, acts[..n]).sh;
             !sh.flags.running || (k != 1 && (sh.tick.stopped || !sh.tick.active))
    ensures i < |After(c, zero, acts[..m]).workers|
    ensures Winds(After(c, zero, acts[..n]).workers[i], After(c, zero, acts[..m]).workers[i])
  {
    assert acts[..m][..n] == acts[..n];
    WindsSince(c, zero, acts[..m], n, k);
  }

  // ----- failures

  /** Before which point a worker of test k can fail in which way: an unreachable peer shows before the
      connection, in the ping test only after the registration; a refusal, another failed request and a
      socket that cannot be opened after it. The IP test does not tell refusals apart, and the ping test
      makes no request. */
  predicate Exposed(k: nat, place: Place, flag: Flag) {
    match flag
    case Unreachable => place == Registered || (place == Born && k != 1)
    case Forbidden => place == Registered && k >= 2
    case Silent => place == Registered && k != 1
    case Socket => place == Registered && k == 1
  }

  /** A failure ends an exposed worker, and only such a one. It is flagged as what it is, except that nobody is
      told of a ping socket that cannot be opened. */
  lemma FailureIs(c: Config, s: State, i: nat, flag: Flag)
    requires s.seqr.Joining? && s.seqr.k < 4 && i < |s.workers|
    ensures var q, f := DoWork(c, s, i, Fail(flag)), s.sh.flags;
            if !Exposed(s.seqr.k, s.workers[i].place, flag) then q == s
            else
              && q.workers == s.workers[i := s.workers[i].(place := Ended)] && q.sh.tick == s.sh.tick
              && q.sh.flags == (match flag
                                case Unreachable => f.(unreachable := true, hasError := true)
                                case Forbidden => f.(forbidden := true, hasError := true)
                                case Silent => f.(hasError := true)
                                case Socket => f)
              && q.sh.duration == if flag.Socket? then Duration(c, RttTest) else s.sh.duration
  {
  }

  // ----- the barrier entries

  /** Every worker that has registered has an entry, which it raises with its first receive. */
  ghost predicate Listed(s: State) {
    s.seqr.Joining? ==>
      forall i | 0 <= i < |s.workers| ::
        s.workers[i].place.Registered? || s.workers[i].place.Looping? || s.workers[i].place.Waiting?
        ==> s.workers[i].pid in s.sh.syncing
  }

  lemma ListedMove(c: Config, t: Test, w: Worker, sh: Shared, now: nat, m: Move)
    ensures var p := WorkerMove(c, t, w, sh, now, m);
            && (forall q | q in sh.syncing :: q in p.sh.syncing) && p.w.pid == w.pid
            && ((w.place.Registered? || w.place.Looping? || w.place.Waiting? ==> w.pid in sh.syncing) ==>
                p.w.place.Registered? || p.w.place.Looping? || p.w.place.Waiting? ==> w.pid in p.sh.syncing)
  {
    match m
    case Fail(flag) =>
    case Guard =>
    case Receive(received, bits) =>
    case Acknowledge(received, records) =>
    case Answer(reply) =>
    case _ =>
  }

  lemma ListedStep(c: Config, s: State, a: Action)
    requires Listed(s)
    ensures Listed(Do(c, s, a))
  {
    match a
    case Work(i, m) =>
      if s.seqr.Joining? && i < |s.workers| {
        ListedMove(c, CurrentTest(s), s.workers[i], s.sh, s.now, m);
      }
    case TimerStep => TimerFrame(Result(s.sh, s.timer, []), s.now);
    case _ =>
  }

  lemma {:induction false} ListedAlways(c: Config, zero: nat, acts: seq<Action>)
    ensures Listed(After(c, zero, acts))
  {
    if acts != [] {
      ListedAlways(c, zero, acts[..|acts| - 1]);
      ListedStep(c, After(c, zero, acts[..|acts| - 1]), acts[|acts| - 1]);
    }
  }

  /** In every run, a worker that has registered has an entry, which is 1 exactly if it has received something. */
  lemma EntryIs(c: Config, zero: nat, acts: seq<Action>, i: nat)
    requires Sane(c) && After(c, zero, acts).seqr.Joining? && i < |After(c, zero, acts).workers|
    requires var w := After(c, zero, acts).workers[i]; !w.place.Born? && !w.place.Ended?
    ensures var s := After(c, zero, acts);
            && s.workers[i].pid in s.sh.syncing
            && (s.sh.syncing[s.workers[i].pid] == 1 <==> s.workers[i].synced)
  {
    ListedAlways(c, zero, acts);
    BaseAlways(c, zero, acts);
    assert Entry(After(c, zero, acts).workers[i], After(c, zero, acts).sh.syncing);
  }
}
