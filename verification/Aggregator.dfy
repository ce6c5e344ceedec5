/** `CCallback::calculateMeasurementResultsDownloadUpload`: the report of a download or upload. For
    every half-second step and every stream it walks over the stream's buckets in key order. The
    worker threads go on writing meanwhile, so every (step, stream) pair reads its own snapshot. */
module Aggregator {
  import opened OrderedMaps

  datatype Kind = DOWNLOAD | UPLOAD

  /** What the report reads of one stream, and the elected first key of the upload. */
  datatype Snapshot = Snapshot(results: Buckets, slowStart: nat, startTime: nat, response: int, first: nat)

  /** One entry of the per-stream report. Times are exact integers: a negative one would be an
      unsigned underflow in the code. */
  datatype Cell = Cell(step: nat, stream: nat, bytes: nat, distinct: nat, slowStart: nat, total: nat,
                       relativeNs: nat, totalNs: int, sinceStartNs: int)

  /** One entry of the aggregate report. */
  datatype Aggregate = Aggregate(results: Buckets, bytes: nat, distinct: nat, slowStart: nat, total: nat,
                                 totalNs: int, sinceStartNs: int)

  /** What one step of a report reads: the clock, then every stream in turn. */
  datatype Reading = Reading(now: nat, snaps: seq<Snapshot>)

  /** What stays fixed during a report. */
  datatype Frame = Frame(kind: Kind, maxSteps: nat, measurementStart: nat)

  /** The whole half-second steps that have passed, up to the length of the measurement. */
  function MaxSteps(kind: Kind, timerDuration: nat, duration: nat): nat
    requires kind.UPLOAD? ==> duration >= 2
  {
    var steps := (timerDuration - timerDuration % 500000) / 500000;
    var limit := if kind.DOWNLOAD? then duration * 2 else (duration - 2) * 2;
    if steps > limit then limit else steps
  }

  // ----- the buckets of one stream, in the order in which they are counted

  predicate Skipped(kind: Kind, first: int, key: int) {
    kind.UPLOAD? && (key < first || first == 0)
  }

  /** The values of the kept ones among the first n keys. */
  function CountedTo(kind: Kind, s: Snapshot, keys: seq<int>, n: nat): seq<nat>
    requires n <= |keys|
  {
    if n == 0 then []
    else
      CountedTo(kind, s, keys, n - 1)
      + if Skipped(kind, s.first, keys[n - 1]) then [] else [Get(s.results, keys[n - 1])]
  }

  function Counted(kind: Kind, s: Snapshot): seq<nat> {
    var keys := SortedKeys(s.results.Keys);
    CountedTo(kind, s, keys, |keys|)
  }

  function Least(a: nat, b: nat): nat {
    if a <= b then a else b
  }

  /** The bytes of the first n values; each bucket is converted on its own. */
  function Bytes(vs: seq<nat>, n: nat): nat
    requires n <= |vs|
  {
    if n == 0 then 0 else Bytes(vs, n - 1) + vs[n - 1] / 8
  }

  function CellOf(f: Frame, r: Reading, step: nat, k: nat): Cell
    requires 1 <= step <= f.maxSteps && k < |r.snaps|
  {
    var s := r.snaps[k];
    var vs := Counted(f.kind, s);
    var bytes := Bytes(vs, Least(step, |vs|));
    var behind := (f.maxSteps - step) * 500000000;
    Cell(step, k, bytes, if step <= |vs| then vs[step - 1] / 8 else 0,
         s.slowStart / 8, s.slowStart / 8 + bytes, step * 500000000,
         (r.now - s.startTime) * 1000 - behind, r.now * 1000 - f.measurementStart - behind)
  }

  /** `results[i] += v` for the first n values in turn, from position 1. */
  function AddColumn(m: Buckets, vs: seq<nat>, n: nat): Buckets
    requires n <= |vs|
  {
    if n == 0 then m else Add(AddColumn(m, vs, n - 1), n, vs[n - 1])
  }

  /** What one stream adds to the positions of a step. */
  function AddStream(m: Buckets, kind: Kind, s: Snapshot, step: nat): Buckets {
    var vs := Counted(kind, s);
    AddColumn(m, vs, Least(step, |vs|))
  }

  // ----- the report

  /** The first k entries of one step. */
  function Row(f: Frame, r: Reading, step: nat, k: nat): seq<Cell>
    requires 1 <= step <= f.maxSteps && k <= |r.snaps|
  {
    if k == 0 then [] else Row(f, r, step, k - 1) + [CellOf(f, r, step, k - 1)]
  }

  /** The bits of the first k streams, position by position. */
  function Column(kind: Kind, r: Reading, step: nat, k: nat): Buckets
    requires k <= |r.snaps|
  {
    if k == 0 then map[] else AddStream(Column(kind, r, step, k - 1), kind, r.snaps[k - 1], step)
  }

  /** Streams whose last receive returned data. */
  function Alive(r: Reading, k: nat): nat
    requires k <= |r.snaps|
  {
    if k == 0 then 0 else Alive(r, k - 1) + if r.snaps[k - 1].response > 0 then 1 else 0
  }

  /** Which of the first k streams are alive: their last receive brought more than nothing and did not fail. */
  function LiveStreams(r: Reading, k: nat): set<int>
    requires k <= |r.snaps|
  {
    set j | 0 <= j < k && r.snaps[j].response >= 1
  }

  lemma {:induction false} AliveIs(r: Reading, k: nat)
    requires k <= |r.snaps|
    ensures Alive(r, k) == |LiveStreams(r, k)|
  {
    if k > 0 {
      AliveIs(r, k - 1);
      assert LiveStreams(r, k) == LiveStreams(r, k - 1) + if r.snaps[k - 1].response >= 1 then {k - 1} else {};
    }
  }

  /** Some step among the first n met no stream that still received data. */
  function Dropped(rs: seq<Reading>, n: nat): bool
    requires n <= |rs|
  {
    n > 0 && (Dropped(rs, n - 1) || Alive(rs[n - 1], |rs[n - 1].snaps|) == 0)
  }

  function Extend(a: Aggregate, results: Buckets, c: Cell): Aggregate {
    Aggregate(results, a.bytes + c.bytes, a.distinct + c.distinct, a.slowStart + c.slowStart,
              a.total + c.total, c.totalNs, c.sinceStartNs)
  }

  /** The sums over the first k streams. */
  function AggregateOf(f: Frame, r: Reading, step: nat, k: nat): Aggregate
    requires 1 <= step <= f.maxSteps && k <= |r.snaps|
  {
    if k == 0 then Aggregate(map[], 0, 0, 0, 0, 0, 0)
    else Extend(AggregateOf(f, r, step, k - 1), Column(f.kind, r, step, k), CellOf(f, r, step, k - 1))
  }

  /** The per-stream entries of the first n steps. */
  function Rows(f: Frame, rs: seq<Reading>, n: nat): seq<Cell>
    requires n <= f.maxSteps && n <= |rs|
  {
    if n == 0 then [] else Rows(f, rs, n - 1) + Row(f, rs[n - 1], n, |rs[n - 1].snaps|)
  }

  /** The aggregate entries of the first n steps. */
  function Aggregates(f: Frame, rs: seq<Reading>, n: nat): seq<Aggregate>
    requires n <= f.maxSteps && n <= |rs|
  {
    if n == 0 then [] else Aggregates(f, rs, n - 1) + [AggregateOf(f, rs[n - 1], n, |rs[n - 1].snaps|)]
  }

  // ----- the loops

  lemma {:induction false} CountedPrefix(kind: Kind, s: Snapshot, keys: seq<int>, n: nat, m: nat)
    requires n <= m <= |keys|
    ensures CountedTo(kind, s, keys, n) <= CountedTo(kind, s, keys, m)
  {
    if n < m {
      CountedPrefix(kind, s, keys, n, m - 1);
    }
  }

  lemma CountedNext(kind: Kind, s: Snapshot, keys: seq<int>, j: nat)
    requires j < |keys|
    ensures var n, vs := |CountedTo(kind, s, keys, j)|, CountedTo(kind, s, keys, |keys|);
            if Skipped(kind, s.first, keys[j]) then |CountedTo(kind, s, keys, j + 1)| == n <= |vs|
            else |CountedTo(kind, s, keys, j + 1)| == n + 1 <= |vs| && vs[n] == Get(s.results, keys[j])
  {
    CountedPrefix(kind, s, keys, j + 1, |keys|);
  }

  /** What a walk has gathered: the bytes so far, those of the current step, and the aggregate. */
  datatype Tally = Tally(bytes: nat, distinct: nat, results: Buckets)

  /** The i-th kept bucket of a walk. */
  function Count(t: Tally, i: nat, step: nat, second: nat): Tally {
    var u := if i <= step then Tally(t.bytes + second / 8, t.distinct, Add(t.results, i, second)) else t;
    if i == step then u.(distinct := second / 8) else u
  }

  function TallyTo(m: Buckets, vs: seq<nat>, step: nat, n: nat): Tally
    requires n <= |vs|
  {
    if n == 0 then Tally(0, 0, m) else Count(TallyTo(m, vs, step, n - 1), n, step, vs[n - 1])
  }

  /** Buckets after the current step leave no trace. */
  lemma {:induction false} TallyIs(m: Buckets, vs: seq<nat>, step: nat, n: nat)
    requires n <= |vs| && 1 <= step
    ensures TallyTo(m, vs, step, n) == Tally(Bytes(vs, Least(n, step)), if step <= n then vs[step - 1] / 8 else 0,
                                             AddColumn(m, vs, Least(n, step)))
  {
    if n > 0 {
      TallyIs(m, vs, step, n - 1);
    }
  }

  method CountOne(i: nat, current_step: nat, second: nat, b: nat, d: nat, r: Buckets)
    returns (bytes: nat, bytes_distinct: nat, results: Buckets)
    ensures Tally(bytes, bytes_distinct, results) == Count(Tally(b, d, r), i, current_step, second)
  {
    bytes, bytes_distinct, results := b, d, r;
    if i <= current_step {
      results := Add(results, i, second);
      bytes := bytes + second / 8;
    }
    if i == current_step {
      bytes_distinct := second / 8;
    }
  }

  /** The innermost loop: one walk over the buckets of a stream. It counts each kept bucket up to the
      current step, and stops at the last step of the report. */
  method Walk(kind: Kind, s: Snapshot, current_step: nat, max_steps: nat, aggregate: Buckets)
    returns (bytes: nat, bytes_distinct: nat, results: Buckets)
    requires 1 <= current_step <= max_steps
    ensures var vs := Counted(kind, s);
            Tally(bytes, bytes_distinct, results) == TallyTo(aggregate, vs, current_step, Least(max_steps, |vs|))
  {
    var keys := SortedKeys(s.results.Keys);
    ghost var vs := Counted(kind, s);
    assert vs == CountedTo(kind, s, keys, |keys|);
    bytes, bytes_distinct, results := 0, 0, aggregate;
    var i := 1;
    var j := 0;
    while j < |keys|
      invariant 0 <= j <= |keys| && 1 <= i <= max_steps
      invariant i - 1 == |CountedTo(kind, s, keys, j)| <= |vs|
      invariant Tally(bytes, bytes_distinct, results) == TallyTo(aggregate, vs, current_step, i - 1)
    {
      CountedNext(kind, s, keys, j);
      j := j + 1;
      if (keys[j - 1] < s.first || s.first == 0) && kind.UPLOAD? {
        continue;
      }
      var second := Get(s.results, keys[j - 1]);
      bytes, bytes_distinct, results := CountOne(i, current_step, second, bytes, bytes_distinct, results);
      if i == max_steps {
        return;
      }
      i := i + 1;
    }
  }

  /** An entry names its step and its stream, and its three times: half a second per step; the time from the
      start of the stream to the reading, and that from the start of the measurement, each without the half
      seconds of the steps that are still to come. */
  ghost predicate Dated(d: Cell, f: Frame, now: nat, start: nat, step: nat, k: nat) {
    && d.step == step && d.stream == k && d.relativeNs == 500000000 * step
    && d.totalNs + 500000000 * (f.maxSteps - step) == 1000 * (now - start)
    && d.sinceStartNs + 500000000 * (f.maxSteps - step) == 1000 * now - f.measurementStart
  }

  /** The body of the stream loop. The aggregate adds up the counters, and keeps the times of the last
      stream. */
  method OneStream(f: Frame, r: Reading, current_step: nat, streamId: nat, before: Aggregate)
    returns (cell: Cell, after: Aggregate)
    requires 1 <= current_step <= f.maxSteps && streamId < |r.snaps|
    ensures cell == CellOf(f, r, current_step, streamId)
    ensures Dated(cell, f, r.now, r.snaps[streamId].startTime, current_step, streamId)
    ensures after == Extend(before, AddStream(before.results, f.kind, r.snaps[streamId], current_step), cell)
    ensures after.totalNs == cell.totalNs && after.sinceStartNs == cell.sinceStartNs
  {
    var s := r.snaps[streamId];
    var bytes, bytes_distinct, results := Walk(f.kind, s, current_step, f.maxSteps, before.results);
    TallyIs(before.results, Counted(f.kind, s), current_step, Least(f.maxSteps, |Counted(f.kind, s)|));
    var bytes_slow_start := s.slowStart / 8;
    var behind := (f.maxSteps - current_step) * 500000000;
    cell := Cell(current_step, streamId, bytes, bytes_distinct, bytes_slow_start, bytes_slow_start + bytes,
                 current_step * 500000000, (r.now - s.startTime) * 1000 - behind,
                 r.now * 1000 - f.measurementStart - behind);
    after := Aggregate(results, before.bytes + cell.bytes, before.distinct + cell.distinct,
                       before.slowStart + cell.slowStart, before.total + cell.total,
                       cell.totalNs, cell.sinceStartNs);
  }

  /** The stream loop of one step. */
  method OneStep(f: Frame, r: Reading, current_step: nat)
    returns (row: seq<Cell>, aggregate: Aggregate, streams: nat)
    requires 1 <= current_step <= f.maxSteps
    ensures row == Row(f, r, current_step, |r.snaps|)
    ensures aggregate == AggregateOf(f, r, current_step, |r.snaps|)
    ensures streams == Alive(r, |r.snaps|) == |LiveStreams(r, |r.snaps|)|
  {
    row, streams, aggregate := [], 0, Aggregate(map[], 0, 0, 0, 0, 0, 0);
    var streamId := 0;
    while streamId < |r.snaps|
      invariant 0 <= streamId <= |r.snaps|
      invariant row == Row(f, r, current_step, streamId)
      invariant streams == Alive(r, streamId)
      invariant aggregate == AggregateOf(f, r, current_step, streamId)
      invariant aggregate.results == Column(f.kind, r, current_step, streamId)
    {
      if r.snaps[streamId].response > 0 {
        streams := streams + 1;
      }
      var cell;
      cell, aggregate := OneStream(f, r, current_step, streamId, aggregate);
      row := row + [cell];
      streamId := streamId + 1;
    }
    AliveIs(r, |r.snaps|);
  }

  /** As many steps as half seconds have fully passed and the measurement has room for: no step more
      would fit both. */
  method ClampSteps(kind: Kind, timerDuration: nat, duration: nat) returns (max_steps: nat)
    requires kind.UPLOAD? ==> duration >= 2
    ensures max_steps == MaxSteps(kind, timerDuration, duration)
    ensures var limit := if kind.DOWNLOAD? then duration * 2 else duration * 2 - 4;
            && max_steps * 500000 <= timerDuration && max_steps <= limit
            && forall n | max_steps < n :: n * 500000 > timerDuration || n > limit
  {
    max_steps := (timerDuration - timerDuration % 500000) / 500000;
    if kind.DOWNLOAD? {
      if max_steps > duration * 2 {
        max_steps := duration * 2;
      }
    } else {
      if max_steps > (duration - 2) * 2 {
        max_steps := (duration - 2) * 2;
      }
    }
  }

  /** The step loop. */
  method Calculate(kind: Kind, timerDuration: nat, duration: nat, measurementStart: nat, rs: seq<Reading>)
    returns (perStream: seq<Cell>, aggregates: seq<Aggregate>, dropped: bool)
    requires kind.UPLOAD? ==> duration >= 2
    requires |rs| == MaxSteps(kind, timerDuration, duration)
    ensures var f := Frame(kind, |rs|, measurementStart);
            perStream == Rows(f, rs, |rs|) && aggregates == Aggregates(f, rs, |rs|)
    ensures dropped == Dropped(rs, |rs|)
  {
    var max_steps := ClampSteps(kind, timerDuration, duration);
    var f := Frame(kind, max_steps, measurementStart);
    perStream, aggregates, dropped := [], [], false;
    var current_step := 1;
    while current_step <= max_steps
      invariant 1 <= current_step <= max_steps + 1
      invariant perStream == Rows(f, rs, current_step - 1)
      invariant aggregates == Aggregates(f, rs, current_step - 1)
      invariant dropped == Dropped(rs, current_step - 1)
    {
      var row, aggregate, streams := OneStep(f, rs[current_step - 1], current_step);
      perStream := perStream + row;
      if streams == 0 {
        dropped := true;
      }
      aggregates := aggregates + [aggregate];
      current_step := current_step + 1;
    }
  }
}
