/** What the entries of a report mean: sums over buckets, streams that line up, and totals that agree
    with what the workers received. */
module Reports {
  import opened OrderedMaps
  import opened Aggregator
  import Download
  import Upload

  // ----- per stream

  /** The bits of the first n values. */
  ghost function Bits(vs: seq<nat>, n: nat): nat
    requires n <= |vs|
  {
    if n == 0 then 0 else Bits(vs, n - 1) + vs[n - 1]
  }

  ghost predicate WholeBytes(vs: seq<nat>, n: nat)
    requires n <= |vs|
  {
    forall i | 0 <= i < n :: vs[i] % 8 == 0
  }

  /** Converting bucket by bucket loses nothing exactly when every bucket holds whole bytes. */
  lemma {:induction false} BytesExact(vs: seq<nat>, n: nat)
    requires n <= |vs|
    ensures 8 * Bytes(vs, n) <= Bits(vs, n)
    ensures 8 * Bytes(vs, n) == Bits(vs, n) <==> WholeBytes(vs, n)
  {
    if n > 0 {
      BytesExact(vs, n - 1);
    }
  }

  /** Two readings of a stream in which the buckets of the first n steps, and the slow start, have
      not moved. */
  predicate Settled(kind: Kind, s: Snapshot, t: Snapshot, n: nat) {
    var vs, ws := Counted(kind, s), Counted(kind, t);
    n <= |vs| && n <= |ws| && vs[..n] == ws[..n] && s.slowStart == t.slowStart
  }

  lemma {:induction false} BytesAgree(vs: seq<nat>, ws: seq<nat>, n: nat)
    requires n <= |vs| && n <= |ws| && vs[..n] == ws[..n]
    ensures Bytes(vs, n) == Bytes(ws, n)
  {
    if n > 0 {
      assert vs[..n][n - 1] == ws[..n][n - 1];
      assert vs[..n - 1] == vs[..n][..n - 1] && ws[..n - 1] == ws[..n][..n - 1];
      BytesAgree(vs, ws, n - 1);
    }
  }

  /** Entries of the same step agree in all their counters, whichever report they belong to. */
  lemma SettledCells(f: Frame, g: Frame, r: Reading, q: Reading, step: nat, k: nat)
    requires f.kind == g.kind && 1 <= step <= f.maxSteps && step <= g.maxSteps && k < |r.snaps| && k < |q.snaps|
    requires Settled(f.kind, r.snaps[k], q.snaps[k], step)
    ensures var c, d := CellOf(f, r, step, k), CellOf(g, q, step, k);
            c.bytes == d.bytes && c.distinct == d.distinct && c.slowStart == d.slowStart && c.total == d.total
  {
    var vs, ws := Counted(f.kind, r.snaps[k]), Counted(f.kind, q.snaps[k]);
    BytesAgree(vs, ws, step);
    assert vs[..step][step - 1] == ws[..step][step - 1];
  }

  /** The byte count of the next entry is this one's and the bytes of the new step. */
  ghost predicate AddsUp(c: Cell, d: Cell) {
    d.bytes == c.bytes + d.distinct
  }

  /** Two entries of a stream for consecutive steps, each with its own reading: they add up exactly if the
      readings agree on the bytes of the earlier step. */
  lemma NextCell(f: Frame, r: Reading, q: Reading, step: nat, k: nat)
    requires 1 <= step < f.maxSteps && k < |r.snaps| && k < |q.snaps|
    ensures var vs, ws := Counted(f.kind, r.snaps[k]), Counted(f.kind, q.snaps[k]);
            AddsUp(CellOf(f, r, step, k), CellOf(f, q, step + 1, k))
            <==> Bytes(vs, Least(step, |vs|)) == Bytes(ws, Least(step, |ws|))
  {
  }

  /** The bytes of the single steps 1..n, as the first n rows show them. */
  function Distincts(f: Frame, rs: seq<Reading>, k: nat, n: nat): nat
    requires n <= |rs| && n <= f.maxSteps && forall i | 0 <= i < n :: k < |rs[i].snaps|
  {
    if n == 0 then 0 else Distincts(f, rs, k, n - 1) + CellOf(f, rs[n - 1], n, k).distinct
  }

  /** They sum to the byte count of row n as long as all rows so far add up. */
  lemma {:induction false} DistinctsSum(f: Frame, rs: seq<Reading>, k: nat, n: nat)
    requires 1 <= n <= |rs| && n <= f.maxSteps && forall i | 0 <= i < n :: k < |rs[i].snaps|
    requires forall i | 0 <= i < n - 1 :: AddsUp(CellOf(f, rs[i], i + 1, k), CellOf(f, rs[i + 1], i + 2, k))
    ensures Distincts(f, rs, k, n) == CellOf(f, rs[n - 1], n, k).bytes
  {
    if n == 1 {
      var vs := Counted(f.kind, rs[0].snaps[k]);
      assert Distincts(f, rs, k, 0) == 0 && Bytes(vs, 0) == 0;
      assert 1 <= |vs| ==> Bytes(vs, 1) == Bytes(vs, 0) + vs[0] / 8;
    } else {
      DistinctsSum(f, rs, k, n - 1);
      assert AddsUp(CellOf(f, rs[n - 2], n - 2 + 1, k), CellOf(f, rs[n - 2 + 1], n - 2 + 2, k));
    }
  }

  // ----- positions in the report

  lemma {:induction false} RowAt(f: Frame, r: Reading, step: nat, n: nat, k: nat)
    requires 1 <= step <= f.maxSteps && k < n <= |r.snaps|
    ensures |Row(f, r, step, n)| == n && Row(f, r, step, n)[k] == CellOf(f, r, step, k)
  {
    if n > 1 {
      RowAt(f, r, step, n - 1, if k < n - 1 then k else 0);
    }
  }

  /** Where the entries of the steps after the first n begin. */
  function RowStart(streams: nat, n: nat): nat {
    if n == 0 then 0 else RowStart(streams, n - 1) + streams
  }

  lemma {:induction false} RowStartIs(streams: nat, n: nat)
    ensures RowStart(streams, n) == n * streams
  {
    if n > 0 {
      RowStartIs(streams, n - 1);
      assert n * streams == (n - 1) * streams + streams;
    }
  }

  /** The entry of stream k at a step stands at position (step - 1) * streams + k. */
  lemma {:induction false} RowsAt(f: Frame, rs: seq<Reading>, streams: nat, n: nat, step: nat, k: nat)
    requires n <= f.maxSteps && n <= |rs| && 1 <= step <= n && k < streams
    requires forall i | 0 <= i < n :: |rs[i].snaps| == streams
    ensures |Rows(f, rs, n)| == RowStart(streams, n)
    ensures RowStart(streams, step - 1) + k < RowStart(streams, n)
    ensures Rows(f, rs, n)[RowStart(streams, step - 1) + k] == CellOf(f, rs[step - 1], step, k)
  {
    RowAt(f, rs[n - 1], n, streams, if step == n then k else 0);
    if n == 1 {
      assert Rows(f, rs, 0) == [];
    } else {
      RowsAt(f, rs, streams, n - 1, if step < n then step else 1, k);
    }
  }

  /** Of a report with all its steps, in the plain terms of positions. */
  lemma EntryAt(f: Frame, rs: seq<Reading>, streams: nat, step: nat, k: nat)
    requires |rs| == f.maxSteps && 1 <= step <= |rs| && k < streams
    requires forall i | 0 <= i < |rs| :: |rs[i].snaps| == streams
    ensures |Rows(f, rs, |rs|)| == |rs| * streams && 0 <= (step - 1) * streams + k < |rs| * streams
    ensures Rows(f, rs, |rs|)[(step - 1) * streams + k] == CellOf(f, rs[step - 1], step, k)
  {
    RowsAt(f, rs, streams, |rs|, step, k);
    RowStartIs(streams, |rs|);
    RowStartIs(streams, step - 1);
  }

  /** What an entry says of its step, its stream and its times. */
  lemma CellDated(f: Frame, r: Reading, step: nat, k: nat)
    requires 1 <= step <= f.maxSteps && k < |r.snaps|
    ensures Dated(CellOf(f, r, step, k), f, r.now, r.snaps[k].startTime, step, k)
  {
  }

  // ----- the aggregate

  lemma {:induction false} AddColumnSum(m: Buckets, vs: seq<nat>, n: nat)
    requires n <= |vs|
    ensures Sum(AddColumn(m, vs, n)) == Sum(m) + Bits(vs, n)
  {
    if n > 0 {
      AddColumnSum(m, vs, n - 1);
      SumAdd(AddColumn(m, vs, n - 1), n, vs[n - 1]);
    }
  }

  lemma {:induction false} AddColumnAt(m: Buckets, vs: seq<nat>, n: nat, i: int)
    requires n <= |vs|
    ensures Get(AddColumn(m, vs, n), i) == Get(m, i) + if 1 <= i <= n then vs[i - 1] else 0
  {
    if n > 0 {
      AddColumnAt(m, vs, n - 1, i);
    }
  }

  /** The i-th half second of the first k streams. */
  ghost function Across(kind: Kind, r: Reading, i: nat, k: nat): nat
    requires k <= |r.snaps| && i >= 1
  {
    if k == 0 then 0
    else
      var vs := Counted(kind, r.snaps[k - 1]);
      Across(kind, r, i, k - 1) + if i <= |vs| then vs[i - 1] else 0
  }

  /** Position i of the aggregate holds the i-th counted half second of every stream, and nothing
      beyond the current step. */
  lemma {:induction false} ColumnAt(kind: Kind, r: Reading, step: nat, k: nat, i: nat)
    requires k <= |r.snaps|
    ensures Get(Column(kind, r, step, k), i) == if 1 <= i <= step then Across(kind, r, i, k) else 0
  {
    if k > 0 {
      ColumnAt(kind, r, step, k - 1, i);
      var vs := Counted(kind, r.snaps[k - 1]);
      AddColumnAt(Column(kind, r, step, k - 1), vs, Least(step, |vs|), i);
    }
  }

  ghost predicate AllWhole(kind: Kind, r: Reading, step: nat, k: nat)
    requires k <= |r.snaps|
  {
    forall j | 0 <= j < k ::
      var vs := Counted(kind, r.snaps[j]); WholeBytes(vs, Least(step, |vs|))
  }

  lemma {:induction false} AggregateSums(f: Frame, r: Reading, step: nat, k: nat)
    requires 1 <= step <= f.maxSteps && k <= |r.snaps|
    ensures var a := AggregateOf(f, r, step, k);
            a.results == Column(f.kind, r, step, k) && a.total == a.slowStart + a.bytes
  {
    if k > 0 {
      AggregateSums(f, r, step, k - 1);
    }
  }

  /** One more stream. */
  lemma StreamExact(m: Buckets, kind: Kind, s: Snapshot, step: nat)
    ensures var vs := Counted(kind, s);
            && Sum(m) + 8 * Bytes(vs, Least(step, |vs|)) <= Sum(AddStream(m, kind, s, step))
            && (Sum(m) + 8 * Bytes(vs, Least(step, |vs|)) == Sum(AddStream(m, kind, s, step))
                <==> WholeBytes(vs, Least(step, |vs|)))
  {
    var vs := Counted(kind, s);
    AddColumnSum(m, vs, Least(step, |vs|));
    BytesExact(vs, Least(step, |vs|));
  }

  /** The aggregate byte count is the sum over the streams, and eight times it is the sum of the
      aggregate buckets exactly when all counted buckets hold whole bytes. */
  lemma {:induction false} AggregateExact(f: Frame, r: Reading, step: nat, k: nat)
    requires 1 <= step <= f.maxSteps && k <= |r.snaps|
    ensures 8 * AggregateOf(f, r, step, k).bytes <= Sum(Column(f.kind, r, step, k))
    ensures 8 * AggregateOf(f, r, step, k).bytes == Sum(Column(f.kind, r, step, k)) <==> AllWhole(f.kind, r, step, k)
  {
    if k == 0 {
      SumOnZero(map[], {});
    } else {
      AggregateExact(f, r, step, k - 1);
      StreamExact(Column(f.kind, r, step, k - 1), f.kind, r.snaps[k - 1], step);
    }
  }

  /** What the counters of the entries of a row add up to. */
  datatype Totals = Totals(bytes: nat, distinct: nat, slowStart: nat, total: nat)

  function TotalsOf(row: seq<Cell>): Totals {
    if row == [] then Totals(0, 0, 0, 0)
    else
      var t, d := TotalsOf(row[..|row| - 1]), row[|row| - 1];
      Totals(t.bytes + d.bytes, t.distinct + d.distinct, t.slowStart + d.slowStart, t.total + d.total)
  }

  /** The aggregate of a step holds the sums over the entries of the step, and the times of its last
      stream. */
  lemma {:induction false} AggregateIs(f: Frame, r: Reading, step: nat, k: nat)
    requires 1 <= step <= f.maxSteps && k <= |r.snaps|
    ensures var a, row := AggregateOf(f, r, step, k), Row(f, r, step, k);
            && Totals(a.bytes, a.distinct, a.slowStart, a.total) == TotalsOf(row) && |row| == k
            && (k > 0 ==> a.totalNs == row[k - 1].totalNs && a.sinceStartNs == row[k - 1].sinceStartNs)
  {
    if k > 0 {
      AggregateIs(f, r, step, k - 1);
      assert Row(f, r, step, k)[..k - 1] == Row(f, r, step, k - 1);
    }
  }

  lemma {:induction false} AggregatesCount(f: Frame, rs: seq<Reading>, n: nat)
    requires n <= f.maxSteps && n <= |rs|
    ensures |Aggregates(f, rs, n)| == n
  {
    if n > 0 {
      AggregatesCount(f, rs, n - 1);
    }
  }

  /** The aggregate of a step stands at its position. */
  lemma {:induction false} AggregateAt(f: Frame, rs: seq<Reading>, n: nat, step: nat)
    requires n <= f.maxSteps && 1 <= step <= n <= |rs|
    ensures step <= |Aggregates(f, rs, n)| == n
    ensures Aggregates(f, rs, n)[step - 1] == AggregateOf(f, rs[step - 1], step, |rs[step - 1].snaps|)
  {
    AggregatesCount(f, rs, n);
    AggregatesCount(f, rs, n - 1);
    if step < n {
      AggregateAt(f, rs, n - 1, step);
    }
  }

  // ----- keyed lookup

  lemma {:induction false} CountedSplit(kind: Kind, s: Snapshot, lo: seq<int>, hi: seq<int>, n: nat)
    requires n <= |hi|
    requires forall i | 0 <= i < |lo| :: Skipped(kind, s.first, lo[i])
    requires forall i | 0 <= i < |hi| :: !Skipped(kind, s.first, hi[i])
    ensures CountedTo(kind, s, lo + hi, |lo| + n) == Values(s.results, hi[..n])
  {
    if n == 0 {
      CountedNone(kind, s, lo + hi, |lo|);
    } else {
      CountedSplit(kind, s, lo, hi, n - 1);
      assert (lo + hi)[|lo| + n - 1] == hi[n - 1];
    }
  }

  lemma {:induction false} CountedNone(kind: Kind, s: Snapshot, keys: seq<int>, n: nat)
    requires n <= |keys|
    requires forall i | 0 <= i < n :: Skipped(kind, s.first, keys[i])
    ensures CountedTo(kind, s, keys, n) == []
  {
    if n > 0 {
      CountedNone(kind, s, keys, n - 1);
    }
  }

  /** 0, 1, 2, ... */
  function TickKeys(n: nat): (ks: seq<int>)
    ensures |ks| == n
    ensures forall i | 0 <= i < n :: ks[i] == i
  {
    seq(n, i requires 0 <= i < n => i)
  }

  /** first, first + 5, first + 10, ... */
  function GridKeys(first: int, n: nat): (ks: seq<int>)
    ensures |ks| == n
    ensures forall i | 0 <= i < n :: ks[i] == first + 5 * i
  {
    seq(n, i requires 0 <= i < n => first + 5 * i)
  }

  lemma TicksElements(n: nat)
    ensures Elements(TickKeys(n)) == Upto(n)
    ensures Increasing(TickKeys(n))
  {
    forall k ensures k in TickKeys(n) <==> k in Upto(n) {
      if 0 <= k < n {
        assert TickKeys(n)[k] == k;
      }
    }
  }

  lemma TicksSorted(m: Buckets, n: nat)
    requires m.Keys == Upto(n)
    ensures SortedKeys(m.Keys) == TickKeys(n)
  {
    TicksElements(n);
    assert forall k :: k in TickKeys(n) <==> k in Elements(TickKeys(n));
    SortedUnique(m.Keys, TickKeys(n));
  }

  /** A download stream whose map is the pre-filled domain: the i-th counted bucket is bucket i - 1. */
  lemma DownloadPositions(s: Snapshot, duration: nat)
    requires s.results.Keys == Upto(duration * 2 + 1)
    ensures Counted(DOWNLOAD, s) == Values(s.results, TickKeys(duration * 2 + 1))
  {
    var n := duration * 2 + 1;
    var keys := TickKeys(n);
    TicksSorted(s.results, n);
    CountedSplit(DOWNLOAD, s, [], keys, n);
    assert [] + keys == keys && keys[..n] == keys;
  }

  lemma GridElements(first: nat, n: nat)
    ensures Elements(GridKeys(first, n)) == Upload.Grid(first, n)
    ensures Increasing(GridKeys(first, n))
  {
    var keys := GridKeys(first, n);
    forall k ensures k in keys <==> k in Upload.Grid(first, n) {
      Upload.GridHas(first, n, k);
      if k in Upload.Grid(first, n) {
        assert keys[(k - first) / 5] == k;
      }
    }
  }

  /** The keys that are counted once a first key is elected. */
  function Kept(s: Snapshot): set<int> {
    set k | k in s.results && k >= s.first
  }

  lemma KeptKeys(s: Snapshot)
    ensures SortedKeys(s.results.Keys) == SortedKeys(Upload.Below(s.results, s.first)) + SortedKeys(Kept(s))
  {
    var below, kept := Upload.Below(s.results, s.first), Kept(s);
    var lo, hi := SortedKeys(below), SortedKeys(kept);
    SortedKeysOf(below);
    SortedKeysOf(kept);
    forall i, j | 0 <= i < |lo| && 0 <= j < |hi| ensures lo[i] < hi[j] {
      assert lo[i] in lo && hi[j] in hi;
    }
    forall k ensures k in lo + hi <==> k in s.results.Keys {
      assert k in lo <==> k in below;
      assert k in hi <==> k in kept;
    }
    SortedUnique(s.results.Keys, lo + hi);
  }

  /** Once a first key is elected, the walk counts the buckets from that key on, in key order. */
  lemma CountedKept(s: Snapshot)
    requires s.first > 0
    ensures Counted(UPLOAD, s) == Values(s.results, SortedKeys(Kept(s)))
  {
    var lo, hi := SortedKeys(Upload.Below(s.results, s.first)), SortedKeys(Kept(s));
    SortedKeysOf(Upload.Below(s.results, s.first));
    SortedKeysOf(Kept(s));
    forall i | 0 <= i < |lo| ensures Skipped(UPLOAD, s.first, lo[i]) {
      assert lo[i] in lo;
    }
    forall i | 0 <= i < |hi| ensures !Skipped(UPLOAD, s.first, hi[i]) {
      assert hi[i] in hi;
    }
    KeptKeys(s);
    CountedSplit(UPLOAD, s, lo, hi, |hi|);
    assert hi[..|hi|] == hi;
  }

  /** The keys from the elected key F on are the half-second grid F, F+5, ... */
  ghost predicate Aligned(m: Buckets, first: nat, duration: nat) {
    first > 0 && forall k :: k in m && k >= first <==> k in Upload.Window(first, duration)
  }

  /** An upload stream whose keys from the elected key F on are the grid: the i-th counted bucket is
      the bucket at key F + 5 * (i - 1), so equal positions of two streams are equal keys. */
  lemma UploadPositions(s: Snapshot, duration: nat)
    requires s.first > 0 && Aligned(s.results, s.first, duration)
    ensures Counted(UPLOAD, s) == Values(s.results, GridKeys(s.first, duration * 2 + 1))
  {
    var keys := GridKeys(s.first, duration * 2 + 1);
    CountedKept(s);
    GridElements(s.first, duration * 2 + 1);
    assert forall k :: k in keys <==> k in Elements(keys);
    SortedUnique(Kept(s), keys);
  }

  lemma {:induction false} BitsSum(vs: seq<nat>, n: nat)
    requires n <= |vs|
    ensures Bits(vs, n) == SumSeq(vs[..n])
  {
    if n > 0 {
      BitsSum(vs, n - 1);
      assert vs[..n][..n - 1] == vs[..n - 1];
    }
  }

  lemma {:induction false} BitsMonotone(vs: seq<nat>, n: nat, m: nat)
    requires n <= m <= |vs|
    ensures Bits(vs, n) <= Bits(vs, m)
  {
    if n < m {
      BitsMonotone(vs, n, m - 1);
    }
  }

  // ----- the reported totals against what was received

  ghost predicate WholeBuckets(m: Buckets) {
    forall k | k in m :: m[k] % 8 == 0
  }

  lemma WholeClear(m: Buckets, window: set<int>)
    requires WholeBuckets(m)
    ensures WholeBuckets(Clear(m, window))
  {
  }

  lemma WholeUpdate(m: Buckets, k: int, v: nat)
    requires WholeBuckets(m) && v % 8 == 0
    ensures WholeBuckets(m[k := v]) && WholeBuckets(Add(m, k, v))
  {
  }

  ghost predicate Whole(s: Upload.State) {
    s.bits % 8 == 0 && s.total % 8 == 0 && s.slowStart % 8 == 0 && WholeBuckets(s.results)
  }

  lemma WholePrefill(s: Upload.State, duration: nat, step: Upload.Step)
    requires Whole(s)
    ensures Whole(Upload.Prefill(Upload.Elect(Upload.Parse(s, step.record), step.view), duration))
  {
    var e := Upload.Elect(Upload.Parse(s, step.record), step.view);
    WholeClear(e.results, Upload.Window(e.first, duration));
  }

  lemma WholeStore(s: Upload.State, view: Upload.View)
    requires Whole(s)
    ensures Whole(Upload.Store(s, view))
  {
    WholeUpdate(s.results, s.key, s.bits);
  }

  lemma {:induction false} UploadWholeBytes(duration: nat, tr: seq<Upload.Step>)
    ensures Whole(Upload.ProcessAll(duration, tr))
  {
    if tr != [] {
      var s, step := Upload.ProcessAll(duration, tr[..|tr| - 1]), tr[|tr| - 1];
      UploadWholeBytes(duration, tr[..|tr| - 1]);
      WholePrefill(s, duration, step);
      WholeStore(Upload.Prefill(Upload.Elect(Upload.Parse(s, step.record), step.view), duration), step.view);
    }
  }

  /** Before that, it counts nothing. */
  lemma CountedBefore(s: Snapshot)
    requires s.first == 0
    ensures Counted(UPLOAD, s) == []
  {
    var keys := SortedKeys(s.results.Keys);
    CountedNone(UPLOAD, s, keys, |keys|);
  }

  /** Whatever the keys of a stream, the buckets below the elected key and the counted ones are all the
      buckets. */
  lemma SumOfCounted(s: Snapshot)
    requires s.first > 0
    ensures var vs := Counted(UPLOAD, s);
            SumOn(s.results, Upload.Below(s.results, s.first)) + Bits(vs, |vs|) == Sum(s.results)
  {
    var vs, keys := Counted(UPLOAD, s), SortedKeys(Kept(s));
    var below := Upload.Below(s.results, s.first);
    CountedKept(s);
    SortedKeysOf(Kept(s));
    SumValues(s.results, keys);
    assert forall k :: k in Elements(keys) <==> k in Kept(s);
    assert Elements(keys) == Kept(s);
    assert below + Kept(s) == s.results.Keys;
    SumOnSplit(s.results, below, Kept(s));
    BitsSum(vs, |vs|);
    assert vs[..|vs|] == vs;
  }

  lemma {:induction false} WholeCountedTo(kind: Kind, s: Snapshot, keys: seq<int>, n: nat)
    requires WholeBuckets(s.results) && n <= |keys|
    ensures var vs := CountedTo(kind, s, keys, n); WholeBytes(vs, |vs|)
  {
    if n > 0 {
      WholeCountedTo(kind, s, keys, n - 1);
    }
  }

  /** A stream whose buckets hold whole bytes. */
  lemma WholeCounted(kind: Kind, s: Snapshot)
    requires WholeBuckets(s.results)
    ensures WholeBytes(Counted(kind, s), |Counted(kind, s)|)
  {
    var keys := SortedKeys(s.results.Keys);
    WholeCountedTo(kind, s, keys, |keys|);
  }

  /** So the aggregate of streams with whole bytes is exact. */
  lemma AggregateWhole(f: Frame, r: Reading, step: nat)
    requires 1 <= step <= f.maxSteps
    requires forall j | 0 <= j < |r.snaps| :: WholeBuckets(r.snaps[j].results)
    ensures var a := AggregateOf(f, r, step, |r.snaps|); 8 * a.bytes == Sum(a.results)
  {
    AggregateExact(f, r, step, |r.snaps|);
    AggregateSums(f, r, step, |r.snaps|);
    forall j | 0 <= j < |r.snaps|
      ensures WholeBytes(Counted(f.kind, r.snaps[j]), Least(step, |Counted(f.kind, r.snaps[j])|))
    {
      WholeCounted(f.kind, r.snaps[j]);
    }
  }

  /** Entries of a stream with whole bytes: the total is the slow start and the bits so far. */
  lemma CellTotal(f: Frame, r: Reading, step: nat, k: nat)
    requires 1 <= step <= f.maxSteps && k < |r.snaps|
    requires r.snaps[k].slowStart % 8 == 0 && WholeBuckets(r.snaps[k].results)
    ensures var vs := Counted(f.kind, r.snaps[k]);
            8 * CellOf(f, r, step, k).total == r.snaps[k].slowStart + Bits(vs, Least(step, |vs|))
  {
    var vs := Counted(f.kind, r.snaps[k]);
    WholeCounted(f.kind, r.snaps[k]);
    BytesExact(vs, Least(step, |vs|));
  }

  /** A snapshot of an upload stream that has processed the given records. The stream may not have met
      the elected key yet. */
  ghost predicate ShowsUpload(s: Snapshot, duration: nat, tr: seq<Upload.Step>) {
    var u := Upload.ProcessAll(duration, tr);
    s.results == u.results && s.slowStart == u.slowStart && (u.first != 0 ==> s.first == u.first)
  }

  /** Later records of the stream stay on the half-second grid. */
  ghost predicate OnGrid(duration: nat, tr: seq<Upload.Step>) {
    var first := Upload.ProcessAll(duration, tr).first;
    forall e | e in tr :: e.record.Full? ==> e.record.key < first || e.record.key in Upload.Window(first, duration)
  }

  lemma ReachedFirst(duration: nat, tr: seq<Upload.Step>, s: Snapshot)
    requires ShowsUpload(s, duration, tr) && Upload.WellFormed(tr) && Upload.Reached(tr)
    ensures s.first == Upload.ProcessAll(duration, tr).first > 0
  {
    Upload.FirstAnyDuration(duration, 0, tr);
    Upload.FirstStays(tr);
  }

  lemma UploadAligned(duration: nat, tr: seq<Upload.Step>, s: Snapshot)
    requires ShowsUpload(s, duration, tr)
    requires Upload.WellFormed(tr) && Upload.Reached(tr) && OnGrid(duration, tr)
    ensures s.first > 0 && Aligned(s.results, s.first, duration)
  {
    ReachedFirst(duration, tr, s);
    Upload.GridKeys(duration, tr);
  }

  /** A stream that has met the elected key counts at least the whole window. */
  lemma UploadLong(duration: nat, tr: seq<Upload.Step>, s: Snapshot)
    requires ShowsUpload(s, duration, tr) && Upload.WellFormed(tr) && Upload.Reached(tr)
    ensures |Counted(UPLOAD, s)| >= duration * 2 + 1
  {
    var n := duration * 2 + 1;
    ReachedFirst(duration, tr, s);
    CountedKept(s);
    Upload.KeySet(duration, tr);
    GridElements(s.first, n);
    assert Upload.Window(s.first, duration) <= Kept(s) by {
      Upload.WindowFrom(s.first, duration);
    }
    assert forall k :: k in GridKeys(s.first, n) <==> k in Elements(GridKeys(s.first, n));
    SortedUnique(Upload.Window(s.first, duration), GridKeys(s.first, n));
    SortedLonger(Upload.Window(s.first, duration), Kept(s));
  }

  /** The slow start and all counted buckets never exceed what the server acknowledged, and are exactly
      that once the stream has met the elected key. */
  lemma UploadBits(duration: nat, tr: seq<Upload.Step>, s: Snapshot)
    requires ShowsUpload(s, duration, tr) && Upload.IncreasingKeys(tr)
    ensures var vs, total := Counted(UPLOAD, s), Upload.ProcessAll(duration, tr).total;
            && s.slowStart + Bits(vs, |vs|) <= total
            && (Upload.Reached(tr) ==> s.slowStart + Bits(vs, |vs|) == total)
  {
    Upload.AllStored(duration, tr);
    Upload.SlowStartBelow(duration, tr);
    if s.first > 0 {
      SumOfCounted(s);
    } else {
      CountedBefore(s);
    }
    if Upload.Reached(tr) {
      ReachedFirst(duration, tr, s);
    }
  }

  /** An upload stream with a moving server clock: no entry claims more than the server acknowledged. Once
      the stream has met the elected key, the total of an entry and the buckets still to come make up
      exactly what it acknowledged. */
  lemma UploadTotal(duration: nat, tr: seq<Upload.Step>, f: Frame, r: Reading, step: nat, k: nat)
    requires f.kind == UPLOAD && 1 <= step <= f.maxSteps && k < |r.snaps|
    requires ShowsUpload(r.snaps[k], duration, tr) && Upload.IncreasingKeys(tr)
    ensures var vs, total := Counted(UPLOAD, r.snaps[k]), Upload.ProcessAll(duration, tr).total;
            && Bits(vs, Least(step, |vs|)) <= Bits(vs, |vs|)
            && 8 * CellOf(f, r, step, k).total <= total
            && (Upload.Reached(tr) ==>
                  && |vs| >= duration * 2 + 1
                  && 8 * CellOf(f, r, step, k).total + (Bits(vs, |vs|) - Bits(vs, Least(step, |vs|))) == total)
  {
    var vs := Counted(UPLOAD, r.snaps[k]);
    UploadWholeBytes(duration, tr);
    UploadBits(duration, tr, r.snaps[k]);
    CellTotal(f, r, step, k);
    BitsMonotone(vs, Least(step, |vs|), |vs|);
    if Upload.Reached(tr) {
      UploadLong(duration, tr, r.snaps[k]);
    }
  }

  /** Writes to pre-filled buckets keep the domain. */
  lemma {:induction false} DownloadDomain(duration: nat, cs: seq<Download.Chunk>)
    requires forall c | c in cs :: c.index <= duration * 2
    ensures Download.AccountAll(duration, cs).results.Keys == Upto(duration * 2 + 1)
  {
    if cs != [] {
      assert cs[|cs| - 1] in cs;
      DownloadDomain(duration, cs[..|cs| - 1]);
    }
  }

  /** A snapshot of a download stream that has accounted the given chunks. */
  ghost predicate ShowsDownload(s: Snapshot, duration: nat, cs: seq<Download.Chunk>) {
    var d := Download.AccountAll(duration, cs);
    s.results == d.results && s.slowStart == d.slowStart
  }

  lemma TicksSum(m: Buckets, n: nat)
    requires m.Keys == Upto(n)
    ensures Bits(Values(m, TickKeys(n)), n) == Sum(m)
  {
    var vs := Values(m, TickKeys(n));
    TicksElements(n);
    SumValues(m, TickKeys(n));
    BitsSum(vs, n);
    assert vs[..n] == vs;
  }

  lemma DownloadBits(duration: nat, cs: seq<Download.Chunk>, s: Snapshot)
    requires ShowsDownload(s, duration, cs)
    requires forall c | c in cs :: c.bits % 8 == 0 && c.index <= duration * 2
    ensures |Counted(DOWNLOAD, s)| == duration * 2 + 1
    ensures s.slowStart % 8 == 0 && WholeBuckets(s.results)
    ensures Bits(Counted(DOWNLOAD, s), duration * 2 + 1) == Sum(s.results)
  {
    DownloadDomain(duration, cs);
    DownloadPositions(s, duration);
    TicksSum(s.results, duration * 2 + 1);
    Download.WholeBytes(duration, cs);
  }

  /** A download stream: at every step, the reported total, the buckets still to come and what was
      suppressed make up exactly what was received, precisely when data before the start and data in
      bucket 0 agree as in ConservedIff. */
  lemma DownloadTotal(duration: nat, cs: seq<Download.Chunk>, f: Frame, r: Reading, step: nat, k: nat)
    requires f.kind == DOWNLOAD && 1 <= step <= f.maxSteps && step <= duration * 2 + 1 && k < |r.snaps|
    requires ShowsDownload(r.snaps[k], duration, cs)
    requires Download.WellTimed(cs) && forall c | c in cs :: c.bits % 8 == 0 && c.index <= duration * 2
    ensures var vs, d := Counted(DOWNLOAD, r.snaps[k]), Download.AccountAll(duration, cs);
            && |vs| == duration * 2 + 1 && Bits(vs, step) <= Bits(vs, |vs|)
            && var shown := 8 * CellOf(f, r, step, k).total + (Bits(vs, |vs|) - Bits(vs, step));
            && shown == d.slowStart + Sum(d.results)
            && (shown + Download.Suppressed(cs) == d.total
                <==> if Download.Before(cs) > 0 then Download.FirstHits(cs) >= 1 else Download.FirstHits(cs) <= 1)
  {
    DownloadBits(duration, cs, r.snaps[k]);
    Download.ConservedIff(duration, cs);
    CellTotal(f, r, step, k);
    BitsMonotone(Counted(DOWNLOAD, r.snaps[k]), step, duration * 2 + 1);
  }
}
