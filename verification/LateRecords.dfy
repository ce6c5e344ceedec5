/** What records that arrive after a report do to the steps the report has shown: upload reports are not
    prefix-stable, and this says exactly when two of them agree, for every stream whose server clock moves
    on. */
module LateRecords {
  import opened OrderedMaps
  import opened Aggregator
  import opened Reports
  import opened Upload

  lemma {:induction false} StoredMore(tr: seq<Step>, more: seq<Step>, k: int)
    ensures Stored(tr + more, k) == Stored(tr, k) + Stored(more, k)
  {
    if more == [] {
      assert tr + more == tr;
    } else {
      assert (tr + more)[..|tr + more| - 1] == tr + more[..|more| - 1];
      StoredMore(tr, more[..|more| - 1], k);
    }
  }

  /** The last key a stream has met. */
  function LastKey(tr: seq<Step>): int {
    if tr != [] && tr[|tr| - 1].record.Full? then tr[|tr| - 1].record.key else 0
  }

  /** All these records are whole and lie above a key. */
  ghost predicate AllAfter(more: seq<Step>, bound: int) {
    forall u | u in more :: u.record.Full? && u.record.key > bound
  }

  lemma IncreasingPrefix(tr: seq<Step>, more: seq<Step>)
    requires IncreasingKeys(tr + more)
    ensures IncreasingKeys(tr) && AllAfter(more, LastKey(tr))
  {
    var all := tr + more;
    forall i | 0 <= i < |tr| ensures all[i] == tr[i] && tr[i] in all {
    }
    forall u | u in more ensures u.record.Full? && u.record.key > LastKey(tr) {
      var i :| 0 <= i < |more| && more[i] == u;
      assert all[|tr| + i] == u && u in all;
      assert tr != [] ==> all[|tr| - 1] == tr[|tr| - 1];
    }
  }

  lemma {:induction false} ReachedKeeps(tr: seq<Step>, more: seq<Step>)
    requires Reached(tr)
    ensures Reached(tr + more)
  {
    if more == [] {
      assert tr + more == tr;
    } else {
      assert (tr + more)[..|tr + more| - 1] == tr + more[..|more| - 1];
      ReachedKeeps(tr, more[..|more| - 1]);
    }
  }

  /** The elected key stays. */
  lemma {:induction false} FirstKeeps(tr: seq<Step>, more: seq<Step>)
    requires ProcessAll(0, tr).first != 0
    ensures ProcessAll(0, tr + more).first == ProcessAll(0, tr).first
  {
    if more == [] {
      assert tr + more == tr;
    } else {
      var init, all := tr + more[..|more| - 1], tr + more;
      assert all != [] && all[..|all| - 1] == init;
      FirstKeeps(tr, more[..|more| - 1]);
      FirstStays(all);
    }
  }

  /** With a server clock that moves on, each bucket holds what its records brought. */
  lemma BucketsAre(d: nat, tr: seq<Step>)
    requires IncreasingKeys(tr)
    ensures forall k :: Get(ProcessAll(d, tr).results, k) == Stored(tr, k)
  {
    IncreasingKeeps(d, tr);
    Conservation(d, tr);
  }

  /** A stream that meets the elected key late meets it above all its earlier keys. */
  lemma {:induction false} ReachedLate(tr: seq<Step>, more: seq<Step>)
    requires !Reached(tr) && Reached(tr + more) && AllAfter(more, LastKey(tr))
    ensures ProcessAll(0, tr + more).first > LastKey(tr)
  {
    assert more == [] ==> tr + more == tr;
    if more != [] {
      var init, step := more[..|more| - 1], more[|more| - 1];
      assert step in more && tr + more == tr + init + [step];
      ProcessMore(0, tr + init, step);
      FirstStep(ProcessAll(0, tr + init), 0, step);
      assert (tr + init + [step])[..|tr + init|] == tr + init;
      if Reached(tr + init) {
        assert forall u | u in init :: u in more;
        ReachedLate(tr, init);
        FirstKeeps(tr + init, [step]);
      }
    }
  }

  lemma KeysUpTo(tr: seq<Step>, k: int)
    requires IncreasingKeys(tr)
    ensures k > LastKey(tr) ==> Stored(tr, k) == 0
    ensures k in RecordKeys(tr) ==> k <= LastKey(tr)
  {
    StoredZero(tr, k);
    RecordKeysHas(tr, k);
    if tr != [] {
      assert tr[|tr| - 1] in tr;
    }
  }

  lemma KeysFrom(more: seq<Step>, bound: int, k: int)
    requires AllAfter(more, bound)
    ensures k <= bound ==> Stored(more, k) == 0
  {
    StoredZero(more, k);
    forall j | 0 <= j < |more| ensures more[j] in more {
    }
  }

  lemma {:induction false} RecordKeysMore(tr: seq<Step>, more: seq<Step>)
    ensures RecordKeys(tr + more) == RecordKeys(tr) + RecordKeys(more)
  {
    if more == [] {
      assert tr + more == tr;
    } else {
      assert (tr + more)[..|tr + more| - 1] == tr + more[..|more| - 1];
      RecordKeysMore(tr, more[..|more| - 1]);
    }
  }

  lemma RecordKeysFrom(more: seq<Step>, bound: int, k: int)
    requires AllAfter(more, bound) && k in RecordKeys(more)
    ensures k > bound
  {
    RecordKeysHas(more, k);
    var i :| 0 <= i < |more| && more[i].record.Full? && more[i].record.key == k;
    assert more[i] in more;
  }

  // ----- two readings of one stream

  /** A stream was read, and later, with more records, once more; what was elected has stayed. */
  ghost predicate ReadLater(d: nat, tr: seq<Step>, more: seq<Step>, s: Snapshot, q: Snapshot) {
    && ShowsUpload(s, d, tr) && ShowsUpload(q, d, tr + more) && IncreasingKeys(tr + more)
    && (s.first != 0 ==> q.first == s.first)
  }

  /** The window of the elected key only appears later if it lies above all earlier keys. */
  lemma WindowLate(d: nat, tr: seq<Step>, more: seq<Step>, q: Snapshot, k: int)
    requires ShowsUpload(q, d, tr + more) && IncreasingKeys(tr + more)
    requires !Reached(tr) && Reached(tr + more) && k in Window(q.first, d)
    ensures k > LastKey(tr)
  {
    IncreasingPrefix(tr, more);
    ReachedLate(tr, more);
    ReachedFirst(d, tr + more, q);
    FirstAnyDuration(d, 0, tr + more);
    WindowFrom(q.first, d);
  }

  /** The counted keys of the later reading are those of the earlier one and some beyond its last key. */
  lemma KeptGrows(d: nat, tr: seq<Step>, more: seq<Step>, s: Snapshot, q: Snapshot)
    requires ReadLater(d, tr, more, s, q) && s.first > 0
    ensures Kept(s) <= Kept(q) && forall k | k in Kept(q) && k !in Kept(s) :: k > LastKey(tr)
  {
    IncreasingPrefix(tr, more);
    KeySet(d, tr);
    KeySet(d, tr + more);
    RecordKeysMore(tr, more);
    if Reached(tr) {
      ReachedKeeps(tr, more);
      ReachedFirst(d, tr, s);
      ReachedFirst(d, tr + more, q);
    }
    forall k | k in Kept(q) && k !in Kept(s) ensures k > LastKey(tr) {
      if k in RecordKeys(more) {
        RecordKeysFrom(more, LastKey(tr), k);
      } else {
        assert Reached(tr + more) && !Reached(tr) && k in Window(ProcessAll(d, tr + more).first, d);
        ReachedFirst(d, tr + more, q);
        WindowLate(d, tr, more, q, k);
      }
    }
  }

  function At(vs: seq<nat>, i: nat): nat {
    if i < |vs| then vs[i] else 0
  }

  /** At every position the earlier reading shows what its history holds under the key of the later one. */
  lemma PositionIs(tr: seq<Step>, a: set<int>, b: set<int>, i: nat)
    requires IncreasingKeys(tr) && a <= b && forall k | k in b && k !in a :: k > LastKey(tr)
    requires i < |SortedKeys(b)|
    ensures (if i < |SortedKeys(a)| then Stored(tr, SortedKeys(a)[i]) else 0) == Stored(tr, SortedKeys(b)[i])
  {
    var x, y := SortedKeys(a), SortedKeys(b);
    KeysUpTo(tr, y[i]);
    if i < |x| {
      KeysUpTo(tr, x[i]);
      if x[i] <= LastKey(tr) || y[i] <= LastKey(tr) {
        SortedAgree(a, b, LastKey(tr), i);
      }
    } else if y[i] <= LastKey(tr) {
      PastEnd(a, b, LastKey(tr), i);
    }
  }

  /** Positions beyond the smaller set hold keys beyond the bound. */
  lemma PastEnd(a: set<int>, b: set<int>, bound: int, i: nat)
    requires a <= b && forall k | k in b && k !in a :: k > bound
    requires |SortedKeys(a)| <= i < |SortedKeys(b)|
    ensures SortedKeys(b)[i] > bound
  {
    var x, y := SortedKeys(a), SortedKeys(b);
    SortedKeysOf(a);
    SortedKeysOf(b);
    if y[i] <= bound {
      assert y[i] in y;
      assert y[i] in x;
      var p :| 0 <= p < |x| && x[p] == y[i];
      SortedAgree(a, b, bound, p);
    }
  }

  // ----- when two readings agree

  /** A late record with data under one of the first keys. */
  ghost predicate Late(more: seq<Step>, keys: seq<int>, step: nat)
    requires step <= |keys|
  {
    exists i :: 0 <= i < step && LateAt(more, keys[i])
  }

  ghost predicate LateAt(more: seq<Step>, key: int) {
    exists j :: 0 <= j < |more| && more[j].record.Full? && more[j].record.bytes > 0 && more[j].record.key == key
  }

  /** The records the earlier reading has counted nothing of: before a first key is elected, that is all. */
  function Fresh(s: Snapshot, tr: seq<Step>, more: seq<Step>): seq<Step> {
    if s.first == 0 then tr + more else more
  }

  /** A position changes exactly if a fresh record brought data under its key. */
  lemma PositionSame(d: nat, tr: seq<Step>, more: seq<Step>, s: Snapshot, q: Snapshot, i: nat)
    requires ReadLater(d, tr, more, s, q) && q.first > 0 && i < |SortedKeys(Kept(q))|
    requires |Counted(UPLOAD, q)| == |SortedKeys(Kept(q))|
    ensures At(Counted(UPLOAD, s), i) <= Counted(UPLOAD, q)[i]
    ensures At(Counted(UPLOAD, s), i) == Counted(UPLOAD, q)[i]
            <==> !LateAt(Fresh(s, tr, more), SortedKeys(Kept(q))[i])
  {
    var key := SortedKeys(Kept(q))[i];
    IncreasingPrefix(tr, more);
    CountedKept(q);
    BucketsAre(d, tr + more);
    StoredMore(tr, more, key);
    StoredZero(Fresh(s, tr, more), key);
    assert Counted(UPLOAD, q)[i] == Stored(tr + more, key);
    if s.first == 0 {
      CountedBefore(s);
    } else {
      CountedKept(s);
      BucketsAre(d, tr);
      KeptGrows(d, tr, more, s, q);
      PositionIs(tr, Kept(s), Kept(q), i);
    }
  }

  lemma CountsMore(d: nat, tr: seq<Step>, more: seq<Step>, s: Snapshot, q: Snapshot)
    requires ReadLater(d, tr, more, s, q) && q.first > 0
    ensures |Counted(UPLOAD, s)| <= |Counted(UPLOAD, q)| == |SortedKeys(Kept(q))|
  {
    CountedKept(q);
    if s.first == 0 {
      CountedBefore(s);
    } else {
      CountedKept(s);
      KeptGrows(d, tr, more, s, q);
      SortedLonger(Kept(s), Kept(q));
    }
  }

  lemma {:induction false} BytesRise(vs: seq<nat>, ws: seq<nat>, n: nat)
    requires |vs| <= |ws| && n <= |ws|
    requires forall i | 0 <= i < n :: At(vs, i) <= ws[i] && At(vs, i) % 8 == 0 && ws[i] % 8 == 0
    ensures Bytes(vs, Least(n, |vs|)) <= Bytes(ws, n)
    ensures Bytes(vs, Least(n, |vs|)) == Bytes(ws, n) <==> forall i | 0 <= i < n :: At(vs, i) == ws[i]
  {
    if n > 0 {
      BytesRise(vs, ws, n - 1);
    }
  }

  lemma WholeReadings(d: nat, tr: seq<Step>, s: Snapshot)
    requires ShowsUpload(s, d, tr)
    ensures s.slowStart % 8 == 0 && WholeBytes(Counted(UPLOAD, s), |Counted(UPLOAD, s)|)
  {
    UploadWholeBytes(d, tr);
    WholeCounted(UPLOAD, s);
  }

  /** A stream whose server clock moves on, read twice: the bytes of its first steps are the same in both
      readings exactly if no first key was elected by the later one, or no fresh record brought data under
      one of the keys these steps count then. They never fall. */
  lemma UploadBytesIff(d: nat, tr: seq<Step>, more: seq<Step>, s: Snapshot, q: Snapshot, step: nat)
    requires ReadLater(d, tr, more, s, q)
    ensures var vs, ws, keys := Counted(UPLOAD, s), Counted(UPLOAD, q), SortedKeys(Kept(q));
            && Bytes(vs, Least(step, |vs|)) <= Bytes(ws, Least(step, |ws|))
            && (Bytes(vs, Least(step, |vs|)) == Bytes(ws, Least(step, |ws|))
                <==> q.first == 0 || !Late(Fresh(s, tr, more), keys, Least(step, |keys|)))
  {
    var vs, ws, keys := Counted(UPLOAD, s), Counted(UPLOAD, q), SortedKeys(Kept(q));
    IncreasingPrefix(tr, more);
    if q.first == 0 {
      CountedBefore(s);
      CountedBefore(q);
    } else {
      CountsMore(d, tr, more, s, q);
      WholeReadings(d, tr, s);
      WholeReadings(d, tr + more, q);
      var n := Least(step, |ws|);
      forall i | 0 <= i < n
        ensures At(vs, i) <= ws[i] && (At(vs, i) == ws[i] <==> !LateAt(Fresh(s, tr, more), keys[i]))
      {
        PositionSame(d, tr, more, s, q, i);
      }
      BytesRise(vs, ws, n);
    }
  }

  // ----- all counters of an entry

  /** A record with data under a key below the elected one. */
  ghost predicate Underneath(tr: seq<Step>, first: nat) {
    exists j :: 0 <= j < |tr| && tr[j].record.Full? && tr[j].record.bytes > 0 && tr[j].record.key < first
  }

  lemma SlowStartNone(d: nat, tr: seq<Step>, first: nat)
    requires IncreasingKeys(tr)
    ensures var m := ProcessAll(d, tr).results; SumOn(m, Below(m, first)) == 0 <==> !Underneath(tr, first)
  {
    var m := ProcessAll(d, tr).results;
    BucketsAre(d, tr);
    if !Underneath(tr, first) {
      forall k | k in Below(m, first) ensures Get(m, k) == 0 {
        StoredZero(tr, k);
      }
      SumOnZero(m, Below(m, first));
    } else {
      var j :| 0 <= j < |tr| && tr[j].record.Full? && tr[j].record.bytes > 0 && tr[j].record.key < first;
      var k := tr[j].record.key;
      StoredZero(tr, k);
      assert Get(m, k) > 0;
      SumOnBound(m, Below(m, first), k);
    }
  }

  lemma SlowStartKept(d: nat, tr: seq<Step>, more: seq<Step>, s: Snapshot, q: Snapshot)
    requires ReadLater(d, tr, more, s, q) && Reached(tr)
    ensures q.slowStart == s.slowStart
  {
    IncreasingPrefix(tr, more);
    ReachedKeeps(tr, more);
    ReachedFirst(d, tr, s);
    ReachedFirst(d, tr + more, q);
    SlowStartBelow(d, tr);
    SlowStartBelow(d, tr + more);
    BucketsAre(d, tr);
    BucketsAre(d, tr + more);
    BelowKept(d, tr, more, s, q);
    forall k | k in Below(s.results, s.first) ensures Get(s.results, k) == Get(q.results, k) {
      StoredMore(tr, more, k);
      FirstUpTo(tr, s.first, d, s);
      KeysFrom(more, LastKey(tr), k);
    }
    SumOnAgree(s.results, q.results, Below(s.results, s.first));
  }

  lemma FirstUpTo(tr: seq<Step>, first: nat, d: nat, s: Snapshot)
    requires ShowsUpload(s, d, tr) && IncreasingKeys(tr) && Reached(tr) && first == s.first
    ensures first <= LastKey(tr)
  {
    ReachedFirst(d, tr, s);
    FirstAnyDuration(d, 0, tr);
    FirstStays(tr);
    KeysUpTo(tr, first);
  }

  lemma BelowKept(d: nat, tr: seq<Step>, more: seq<Step>, s: Snapshot, q: Snapshot)
    requires ReadLater(d, tr, more, s, q) && Reached(tr)
    ensures s.first > 0 && Below(q.results, q.first) == Below(s.results, s.first)
  {
    IncreasingPrefix(tr, more);
    ReachedKeeps(tr, more);
    ReachedFirst(d, tr, s);
    ReachedFirst(d, tr + more, q);
    FirstUpTo(tr, s.first, d, s);
    KeySet(d, tr);
    KeySet(d, tr + more);
    RecordKeysMore(tr, more);
    forall k | k in RecordKeys(more) ensures k > s.first {
      RecordKeysFrom(more, LastKey(tr), k);
    }
  }

  /** The slow start of the two readings is the same exactly if the stream had met the elected key already,
      has not met it yet, or had no data before it. */
  lemma SlowStartIff(d: nat, tr: seq<Step>, more: seq<Step>, s: Snapshot, q: Snapshot)
    requires ReadLater(d, tr, more, s, q)
    ensures q.slowStart == s.slowStart
            <==> Reached(tr) || !Reached(tr + more) || !Underneath(tr + more, q.first)
  {
    IncreasingPrefix(tr, more);
    if Reached(tr) {
      SlowStartKept(d, tr, more, s, q);
    } else {
      SlowStartBelow(d, tr);
      SlowStartBelow(d, tr + more);
      if Reached(tr + more) {
        ReachedFirst(d, tr + more, q);
        SlowStartNone(d, tr + more, q.first);
      }
    }
  }

  /** Two entries of one step agree in all counters. */
  ghost predicate SameCounters(c: Cell, e: Cell) {
    c.bytes == e.bytes && c.distinct == e.distinct && c.slowStart == e.slowStart && c.total == e.total
  }

  /** Two readings of a stream show a step unchanged. */
  ghost predicate Unchanged(tr: seq<Step>, more: seq<Step>, s: Snapshot, q: Snapshot, step: nat) {
    var keys := SortedKeys(Kept(q));
    && (q.first == 0 || !Late(Fresh(s, tr, more), keys, Least(step, |keys|)))
    && (Reached(tr) || !Reached(tr + more) || !Underneath(tr + more, q.first))
  }

  lemma DistinctSame(d: nat, tr: seq<Step>, more: seq<Step>, f: Frame, g: Frame, r: Reading, p: Reading, step: nat,
                     k: nat)
    requires f.kind == g.kind == UPLOAD && 1 <= step <= f.maxSteps && step <= g.maxSteps
    requires k < |r.snaps| && k < |p.snaps|
    requires ReadLater(d, tr, more, r.snaps[k], p.snaps[k]) && Unchanged(tr, more, r.snaps[k], p.snaps[k], step)
    ensures CellOf(f, r, step, k).distinct == CellOf(g, p, step, k).distinct
  {
    var s, q := r.snaps[k], p.snaps[k];
    if q.first == 0 {
      CountedBefore(s);
      CountedBefore(q);
    } else {
      CountsMore(d, tr, more, s, q);
      if step <= |Counted(UPLOAD, q)| {
        PositionSame(d, tr, more, s, q, step - 1);
      }
    }
  }

  /** A stream whose server clock moves on, shown by two reports or by a report and the final result: its
      entries for a step agree exactly if no fresh record brought data under a key that the step counts in
      the end, and the slow start has not been found in between. */
  lemma UploadEntriesIff(d: nat, tr: seq<Step>, more: seq<Step>, f: Frame, g: Frame, r: Reading, p: Reading, step: nat,
                         k: nat)
    requires f.kind == g.kind == UPLOAD && 1 <= step <= f.maxSteps && step <= g.maxSteps
    requires k < |r.snaps| && k < |p.snaps|
    requires ReadLater(d, tr, more, r.snaps[k], p.snaps[k])
    ensures SameCounters(CellOf(f, r, step, k), CellOf(g, p, step, k))
            <==> Unchanged(tr, more, r.snaps[k], p.snaps[k], step)
  {
    var s, q := r.snaps[k], p.snaps[k];
    UploadBytesIff(d, tr, more, s, q, step);
    SlowStartIff(d, tr, more, s, q);
    WholeReadings(d, tr, s);
    WholeReadings(d, tr + more, q);
    if Unchanged(tr, more, s, q, step) {
      DistinctSame(d, tr, more, f, g, r, p, step, k);
    }
  }
}
