/** The whole client as a system of interleaved steps: the sequencer that runs the tests one after
    the other, the timer thread, the worker threads, the callback object, the clock, and a caller
    that may stop everything at any time. */
module Session {
  import opened Aggregator
  import opened Protocol
  import opened Timer
  import Download
  import Upload

  /** Where a worker thread stands. Born: created. Registered: its barrier entry is 0. Looping: at its
      loop guard. Waiting: inside `receive`. */
  datatype Place = Born | Registered | Looping | Waiting | Ended

  /** A worker, with the history of what it has accounted; `turns` are the turns of a ping worker,
      `answered` tells that the IP worker holds its result. */
  datatype Worker = Worker(pid: nat, place: Place, start: nat, synced: bool, response: int,
                           chunks: seq<Download.Chunk>, records: seq<Upload.Step>, turns: nat, answered: bool)

  /** Deciding(k): about to decide whether test k is made. Preparing(k): its timer runs, its workers are
      not there yet. Joining(k): waits for workers, result and timer. */
  datatype Sequencer = Deciding(k: nat) | Preparing(k: nat) | Joining(k: nat) | Over

  /** A report under way: the finished steps, and the step being read. */
  datatype Pending = Nothing | Pending(maxSteps: nat, rows: seq<Reading>, open: bool, row: Reading)

  /** `released`: the workers of the test have been deleted. */
  datatype State = State(now: nat, sh: Shared, timer: Timer, workers: seq<Worker>, seqr: Sequencer, released: bool,
                         pending: Pending, performed: set<Test>, trace: seq<Event>)

  // ----- the callback object

  /** `CCallback::callback`: the end of the measurement is noted before, and completion is signalled
      after a callback that finds the performed tests equal to the enabled ones. */
  function Emitted(c: Config, performed: set<Test>, e: Event): seq<Event> {
    if performed == EnabledBelow(c, 4) then
      if e.Finish? then [MeasurementEnd, e, Completed] else [MeasurementEnd, e]
    else [e]
  }

  /** The event a call of the timer amounts to, other than a report or a finish. */
  function EventOf(call: Call): Event {
    match call
    case InfoStarting => Starting
    case InfoRunning => Running
    case CallError(code) => Error(code)
    case _ => Starting
  }

  // ----- the start

  function NoTimer(): Timer {
    NewTimer(0, 0).(at := Done)
  }

  const Quiet: Shared :=
    Shared(Flags(true, false, false, false, false, false), Ticking(false, false, false, 0, 0), 0, 0, map[])

  /** Without an enabled test the client reports an error and stops. */
  function Begin(c: Config, now: nat): State {
    var idle := !c.rtt && !c.download && !c.upload;
    State(now, Quiet.(flags := Quiet.flags.(running := !idle)), NoTimer(), [], Deciding(0), false, Nothing, {},
          if idle then Emitted(c, {}, Error(1)) else [])
  }

  // ----- the workers

  datatype Flag = Unreachable | Forbidden | Silent | Socket

  /** What the IP worker receives: nothing, something else, or its report, which with TLS must name the
      TLS parameters. */
  datatype IpReply = NoReply | OtherReply | FullReport | ReportWithoutTls

  /** What happens to a worker. */
  datatype Move =
    | Register
    | Fail(flag: Flag)
    | Connect
    | Guard
    | Receive(received: int, bits: nat)
    | Acknowledge(received: int, records: seq<Upload.Record>)
    | Answer(reply: IpReply)
    | Echo
    | Throw

  datatype Pair = Pair(w: Worker, sh: Shared)

  /** A flag and `hasError` are set together. */
  function Raise(sh: Shared, flag: Flag): Shared {
    match flag
    case Unreachable => sh.(flags := sh.flags.(unreachable := true, hasError := true))
    case Forbidden => sh.(flags := sh.flags.(forbidden := true, hasError := true))
    case Silent => sh.(flags := sh.flags.(hasError := true))
    case Socket => sh
  }

  /** Which failures a test knows before its loop: an unreachable peer, a refusal by the server (which
      the IP test does not tell apart), another failed request, and a ping socket that cannot be opened
      (which nobody is told). */
  predicate CanFail(t: Test, place: Place, flag: Flag) {
    match flag
    case Unreachable => (place.Born? && !t.RttTest?) || place.Registered?
    case Forbidden => place.Registered? && Measures(t)
    case Silent => place.Registered? && !t.RttTest?
    case Socket => place.Registered? && t.RttTest?
  }

  function Sync(sh: Shared, w: Worker): Shared {
    sh.(syncing := sh.syncing[w.pid := 1])
  }

  /** The guard of the worker loops. The ping loop counts its turns, raises its barrier entry when it
      is entered, and ends the test when it is left. */
  function GuardMove(c: Config, t: Test, w: Worker, sh: Shared): Pair {
    if t.RttTest? then
      if sh.flags.running && w.turns < c.pingQuery + 1 then Pair(w.(place := Waiting, synced := true), Sync(sh, w))
      else Pair(w.(place := Ended), sh.(tick := sh.tick.(stopped := true)))
    else if sh.flags.running && sh.tick.active && !sh.tick.stopped then Pair(w.(place := Waiting), sh)
    else Pair(w.(place := Ended), sh)
  }

  function ToSteps(rs: seq<Upload.Record>, sh: Shared): seq<Upload.Step> {
    seq(|rs|, i requires 0 <= i < |rs| => Upload.Step(rs[i], Upload.View(sh.tick.running, sh.first, sh.flags.hasError)))
  }

  function FailMove(c: Config, t: Test, w: Worker, sh: Shared, flag: Flag): Pair {
    if !CanFail(t, w.place, flag) then Pair(w, sh)
    else Pair(w.(place := Ended), if flag.Socket? then sh.(duration := Duration(c, t)) else Raise(sh, flag))
  }

  /** The receive-and-account block of a download. Whatever it receives first raises its entry. */
  function ReceiveMove(w: Worker, sh: Shared, received: int, bits: nat): Pair {
    if !w.place.Waiting? || received < -1 || (received > 0 && (bits == 0 || bits % 8 != 0)) then Pair(w, sh)
    else if received <= 0 then Pair(w.(place := Ended, synced := true, response := received), Sync(sh, w))
    else
      Pair(w.(place := Looping, synced := true, response := bits,
              chunks := w.chunks + [Download.Chunk(bits, sh.tick.running, sh.flags.hasError, sh.tick.index)]),
           Sync(sh, w))
  }

  /** The receive-and-account block of an upload. */
  function AcknowledgeMove(w: Worker, sh: Shared, received: int, records: seq<Upload.Record>): Pair {
    if !w.place.Waiting? || received < -1 then Pair(w, sh)
    else if received <= 0 then Pair(w.(place := Ended, synced := true, response := received), Sync(sh, w))
    else
      var w' := w.(place := Looping, synced := true, response := received, records := w.records + ToSteps(records, sh));
      var first := Upload.ProcessAll(sh.duration, w'.records).first;
      Pair(w', Sync(sh, w).(first := if sh.first == 0 then first else sh.first))
  }

  function AnswerMove(w: Worker, sh: Shared, reply: IpReply): Pair {
    if !w.place.Waiting? then Pair(w, sh)
    else
      Pair(w.(place := if reply.OtherReply? then Looping else Ended, synced := true,
              answered := reply.FullReport? || reply.ReportWithoutTls?),
           if reply.ReportWithoutTls? then Sync(sh, w).(flags := sh.flags.(tlsMissing := true, hasError := true))
           else Sync(sh, w))
  }

  /** One step of a worker; a step it cannot make leaves everything as it is. */
  function WorkerMove(c: Config, t: Test, w: Worker, sh: Shared, now: nat, m: Move): Pair {
    match m
    case Register =>
      if w.place.Born? then Pair(w.(place := Registered, start := now), sh.(syncing := sh.syncing[w.pid := 0]))
      else Pair(w, sh)
    case Fail(flag) => FailMove(c, t, w, sh, flag)
    case Connect =>
      if w.place.Registered? then Pair(w.(place := Looping), if t.RttTest? then sh.(duration := Duration(c, t)) else sh)
      else Pair(w, sh)
    case Guard =>
      if w.place.Looping? then GuardMove(c, t, w, sh) else Pair(w, sh)
    case Receive(received, bits) =>
      if t.DownloadTest? then ReceiveMove(w, sh, received, bits) else Pair(w, sh)
    case Acknowledge(received, records) =>
      if t.UploadTest? then AcknowledgeMove(w, sh, received, records) else Pair(w, sh)
    case Answer(reply) =>
      if t.IpTest? then AnswerMove(w, sh, reply) else Pair(w, sh)
    case Echo =>
      if w.place.Waiting? && t.RttTest? then Pair(w.(place := Looping, turns := w.turns + 1), sh) else Pair(w, sh)
    case Throw =>
      if w.place.Ended? then Pair(w, sh)
      else Pair(w.(place := Ended), sh.(flags := sh.flags.(hasError := true, running := false)))
  }

  /** What a report sees of a worker. */
  function Snap(t: Test, w: Worker, sh: Shared): Snapshot {
    if t.UploadTest? then
      var u := Upload.ProcessAll(sh.duration, w.records);
      Snapshot(u.results, u.slowStart, w.start, w.response, sh.first)
    else
      var d := Download.AccountAll(sh.duration, w.chunks);
      Snapshot(d.results, d.slowStart, w.start, w.response, sh.first)
  }

  // ----- the steps of the system

  datatype Action =
    | Tick(us: nat)
    | Decide
    | Create(pids: seq<nat>)
    | Release
    | Join
    | TimerStep
    | CalcBegin | CalcStamp | CalcRead | CalcRow | CalcEnd
    | Work(i: nat, move: Move)
    | Stop
    | Abort

  function CurrentTest(s: State): Test {
    match s.seqr
    case Deciding(k) => TestAt(k)
    case Preparing(k) => TestAt(k)
    case Joining(k) => TestAt(k)
    case Over => UploadTest
  }

  /** The initial callback delay, in microseconds. */
  function DelayOf(t: Test): nat {
    match t case IpTest => 0 case RttTest => 1000000 case _ => 3000000
  }

  /** The next test may be made. */
  predicate Going(f: Flags, k: nat) {
    f.running && (k == 0 || !f.hasError)
  }

  /** The sequencer: starts the next enabled test unless the client was stopped or, after the first
      test, an error was flagged; stops the client after the last one. */
  function DoDecide(c: Config, s: State): State {
    if !s.seqr.Deciding? then s
    else
      var k := s.seqr.k;
      if k >= 4 then s.(seqr := Over, sh := s.sh.(flags := s.sh.flags.(running := false)))
      else if Enabled(c, k) && Going(s.sh.flags, k) then
        s.(seqr := Preparing(k), workers := [], released := false,
           sh := Reset(s.sh).(syncing := map[]), timer := NewTimer(Instances(c, TestAt(k)), DelayOf(TestAt(k))),
           trace := s.trace + [Started(TestAt(k))])
      else s.(seqr := Deciding(k + 1))
  }

  ghost predicate Distinct(pids: seq<nat>) {
    forall i, j | 0 <= i < j < |pids| :: pids[i] != pids[j]
  }

  function NewWorker(pid: nat): Worker {
    Worker(pid, Born, 0, false, 0, [], [], 0, false)
  }

  function NewWorkers(pids: seq<nat>): seq<Worker> {
    seq(|pids|, i requires 0 <= i < |pids| => NewWorker(pids[i]))
  }

  /** The duration as it is before the workers run: the ping worker sets its own. */
  function DurationSet(c: Config, t: Test, duration: nat): nat {
    if t.RttTest? then duration else Duration(c, t)
  }

  /** `startMeasurement`: sets the duration, except for the ping test, and creates the workers. */
  ghost function DoCreate(c: Config, s: State, pids: seq<nat>): State {
    if s.seqr.Preparing? && Distinct(pids) && |pids| == Instances(c, TestAt(s.seqr.k)) then
      s.(seqr := Joining(s.seqr.k),
         workers := NewWorkers(pids),
         sh := s.sh.(duration := DurationSet(c, TestAt(s.seqr.k), s.sh.duration)))
    else s
  }

  predicate AllEnded(ws: seq<Worker>) {
    forall i | 0 <= i < |ws| :: ws[i].place.Ended?
  }

  /** The workers have been joined, and the result is there or a reason not to wait for it: they are
      deleted, although the timer may still be inside a callback that reads them. */
  function DoRelease(s: State): State {
    if s.seqr.Joining? && AllEnded(s.workers)
       && (TestAt(s.seqr.k) in s.performed || s.sh.flags.hasError || !s.sh.flags.running)
    then s.(released := true)
    else s
  }

  /** After that, the timer is joined. */
  function DoJoin(s: State): State {
    if s.seqr.Joining? && s.released && s.timer.at.Done? then s.(seqr := Deciding(s.seqr.k + 1)) else s
  }

  predicate InCallback(s: State) {
    s.timer.at.Reporting? || s.timer.at.Finishing?
  }

  function DoTimer(c: Config, s: State): State {
    if InCallback(s) || (s.timer.at.Delay? && s.now < s.timer.at.until) then s
    else
      var r := Step(Result(s.sh, s.timer, []), s.now);
      s.(sh := r.sh, timer := r.t,
         trace := if r.calls == [] || r.calls[0].CallReport? || r.calls[0].CallFinish? then s.trace
                  else s.trace + Emitted(c, s.performed, EventOf(r.calls[0])))
  }

  /** The number of steps of the report that begins now. */
  function StepsNow(s: State): nat {
    var t := CurrentTest(s);
    if t.DownloadTest? then MaxSteps(DOWNLOAD, s.sh.tick.elapsed, s.sh.duration)
    else if t.UploadTest? && s.sh.duration >= 2 then MaxSteps(UPLOAD, s.sh.tick.elapsed, s.sh.duration)
    else 0
  }

  const Blank := Reading(0, [])

  function DoBegin(s: State): State {
    if InCallback(s) && s.pending.Nothing? then s.(pending := Pending(StepsNow(s), [], false, Blank)) else s
  }

  /** A step of the report begins with reading the clock. */
  function DoStamp(s: State): State {
    if InCallback(s) && s.pending.Pending? && !s.pending.open && |s.pending.rows| < s.pending.maxSteps
    then s.(pending := s.pending.(open := true, row := Reading(s.now, [])))
    else s
  }

  /** Then it reads the streams, one after the other. A deleted stream reads as what it held last. */
  function DoRead(s: State): State {
    if InCallback(s) && s.pending.Pending? && s.pending.open && |s.pending.row.snaps| < |s.workers| then
      var w := s.workers[|s.pending.row.snaps|];
      s.(pending := s.pending.(row := s.pending.row.(snaps := s.pending.row.snaps + [Snap(CurrentTest(s), w, s.sh)])))
    else s
  }

  /** A step that met no stream with data flags an error. */
  function DoRow(s: State): State {
    if InCallback(s) && s.pending.Pending? && s.pending.open && |s.pending.row.snaps| == |s.workers| then
      s.(pending := s.pending.(rows := s.pending.rows + [s.pending.row], open := false, row := Blank),
         sh := if Alive(s.pending.row, |s.pending.row.snaps|) == 0
               then s.sh.(flags := s.sh.flags.(hasError := true, dropped := true)) else s.sh)
    else s
  }

  predicate Answered(ws: seq<Worker>) {
    exists i :: 0 <= i < |ws| && ws[i].answered
  }

  /** What the callback object hands over. */
  function Handed(s: State): Event
    requires s.pending.Pending?
  {
    if s.timer.at.Finishing? then Event.Finish(CurrentTest(s), s.pending.rows)
    else Event.Report(CurrentTest(s), s.sh.tick.index, s.pending.rows)
  }

  /** The report is handed over and the callback returns. A finish marks the test as performed; a
      callback of the IP test ends it once the result is there. */
  function DoEnd(c: Config, s: State): State {
    if InCallback(s) && s.pending.Pending? && !s.pending.open && |s.pending.rows| == s.pending.maxSteps then
      var t := CurrentTest(s);
      var finish := s.timer.at.Finishing?;
      var performed := if finish then s.performed + {t} else s.performed;
      s.(pending := Nothing, performed := performed,
         sh := if t.IpTest? && Answered(s.workers) then s.sh.(tick := s.sh.tick.(stopped := true)) else s.sh,
         timer := s.timer.(at := if finish then Close else Loop),
         trace := s.trace + Emitted(c, performed, Handed(s)))
    else s
  }

  function DoWork(c: Config, s: State, i: nat, m: Move): State {
    if s.seqr.Joining? && i < |s.workers| then
      var p := WorkerMove(c, CurrentTest(s), s.workers[i], s.sh, s.now, m);
      s.(workers := s.workers[i := p.w], sh := p.sh)
    else s
  }

  /** One step of the system; an action that is not possible changes nothing. */
  ghost function Do(c: Config, s: State, a: Action): State {
    match a
    case Tick(us) => s.(now := s.now + us)
    case Decide => DoDecide(c, s)
    case Create(pids) => DoCreate(c, s, pids)
    case Release => DoRelease(s)
    case Join => DoJoin(s)
    case TimerStep => DoTimer(c, s)
    case CalcBegin => DoBegin(s)
    case CalcStamp => DoStamp(s)
    case CalcRead => DoRead(s)
    case CalcRow => DoRow(s)
    case CalcEnd => DoEnd(c, s)
    case Work(i, m) => DoWork(c, s, i, m)
    case Stop => s.(sh := s.sh.(flags := s.sh.flags.(running := false)))
    case Abort => s.(sh := s.sh.(flags := s.sh.flags.(running := false, hasError := true)))
  }

  /** Nobody stops the client from outside, and no worker throws. */
  predicate Harmless(a: Action) {
    !a.Stop? && !a.Abort? && !(a.Work? && a.move.Throw?)
  }

  ghost predicate Undisturbed(acts: seq<Action>) {
    forall a | a in acts :: Harmless(a)
  }

  /** The state after any interleaving of steps. */
  ghost function After(c: Config, start: nat, acts: seq<Action>): State {
    if acts == [] then Begin(c, start) else Do(c, After(c, start, acts[..|acts| - 1]), acts[|acts| - 1])
  }

  /** The callbacks of a run. */
  ghost function Trace(c: Config, start: nat, acts: seq<Action>): seq<Event> {
    After(c, start, acts).trace
  }
}
