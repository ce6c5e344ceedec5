/** What the entries of the reports of a run add up to. Every row of a report reads the streams anew, and
    the workers go on in between. */
module Sums {
  import opened OrderedMaps
  import opened Aggregator
  import opened Protocol
  import opened Timer
  import opened Session
  import opened Clocks
  import opened Histories
  import opened Course
  import opened Stability
  import opened Times
  import opened Witnesses
  import opened Reports
  import Conformance
  import Guarantees
  import Download
  import Upload
  import LateRecords

  // ----- two readings of a download stream at one tick

  lemma {:induction false} BitsDiffer(vs: seq<nat>, ws: seq<nat>, n: nat, tick: nat, x: nat)
    requires n <= |vs| && n <= |ws| && forall b | 0 <= b < n :: ws[b] == vs[b] + if b == tick then x else 0
    ensures Bits(ws, n) == Bits(vs, n) + if tick < n then x else 0
  {
    if n > 0 {
      BitsDiffer(vs, ws, n - 1, tick, x);
    }
  }

  /** No chunk that came in between reached a bucket. */
  ghost predicate NoneCounted(cs: seq<Download.Chunk>, lo: nat)
    requires lo <= |cs|
  {
    forall c | c in cs[lo..] :: !Download.Counted(c)
  }

  /** The bytes of the first n steps are the same in both readings exactly if the steps lie behind the tick
      or nothing was counted in between. */
  lemma SameBytes(v: Worker, w: Worker, sh: Shared, sh': Shared, d: nat, tick: nat, n: nat)
    requires sh.duration == sh'.duration == d && n <= d * 2 && v.chunks <= w.chunks
    requires InDomain(v, d) && InDomain(w, d)
    requires forall c | c in w.chunks :: c.bits > 0 && c.bits % 8 == 0
    requires forall c | c in w.chunks[|v.chunks|..] :: c.index == tick
    ensures var vs := Counted(DOWNLOAD, Snap(DownloadTest, v, sh));
            var ws := Counted(DOWNLOAD, Snap(DownloadTest, w, sh'));
            && |vs| == |ws| == d * 2 + 1
            && (Bytes(vs, n) == Bytes(ws, n) <==> n <= tick || NoneCounted(w.chunks, |v.chunks|))
  {
    var more := w.chunks[|v.chunks|..];
    assert w.chunks == v.chunks + more;
    SnapValues(v, sh);
    SnapValues(w, sh');
    var vs := Counted(DOWNLOAD, Snap(DownloadTest, v, sh));
    var ws := Counted(DOWNLOAD, Snap(DownloadTest, w, sh'));
    forall b | 0 <= b < n ensures ws[b] == vs[b] + if b == tick then Download.CountedBits(more) else 0 {
      Download.SameTick(d, v.chunks, more, tick, b);
    }
    BitsDiffer(vs, ws, n, tick, Download.CountedBits(more));
    Download.CountedNone(more);
    Download.WholeBytes(d, v.chunks);
    Download.WholeBytes(d, w.chunks);
    WholeCounted(DOWNLOAD, Snap(DownloadTest, v, sh));
    WholeCounted(DOWNLOAD, Snap(DownloadTest, w, sh'));
    BytesExact(vs, n);
    BytesExact(ws, n);
  }

  // ----- consecutive rows of a report or final result

  /** Stream k of the download was read in s and, later in the same callback, in q. */
  ghost predicate ReadTwice(c: Config, zero: nat, s: State, q: State, k: nat, a: Snapshot, b: Snapshot) {
    && Base(c, zero, s) && Base(c, zero, q) && Grown(s, q) && s.sh.tick.index == q.sh.tick.index
    && ReadFrom(s, DownloadTest, k, a) && ReadFrom(q, DownloadTest, k, b)
  }

  /** Nothing that reached a bucket came in between. */
  ghost predicate NothingNew(s: State, q: State, k: nat)
    requires k < |s.workers| && k < |q.workers| && s.workers[k].chunks <= q.workers[k].chunks
  {
    NoneCounted(q.workers[k].chunks, |s.workers[k].chunks|)
  }

  lemma NewChunks(c: Config, zero: nat, s: State, q: State, k: nat, a: Snapshot, b: Snapshot)
    requires ReadTwice(c, zero, s, q, k, a, b)
    ensures s.workers[k].chunks <= q.workers[k].chunks
    ensures forall e | e in q.workers[k].chunks :: e.bits > 0 && e.bits % 8 == 0
    ensures forall e | e in q.workers[k].chunks[|s.workers[k].chunks|..] :: e.index == s.sh.tick.index
    ensures s.sh.duration == q.sh.duration == c.downloadDuration
    ensures InDomain(s.workers[k], c.downloadDuration) && InDomain(q.workers[k], c.downloadDuration)
  {
    DomainNow(c, zero, s);
    DomainNow(c, zero, q);
    assert Accounted(q.workers[k], q.sh) && GrownWorker(s.workers[k], q.workers[k], s.sh.tick);
    forall e | e in q.workers[k].chunks[|s.workers[k].chunks|..] ensures e.index == s.sh.tick.index {
      assert e in q.workers[k].chunks;
    }
  }

  lemma RowsAddUp(c: Config, zero: nat, s: State, q: State, f: Frame, r: Reading, t: Reading, step: nat, k: nat)
    requires f.kind == DOWNLOAD && 1 <= step < f.maxSteps <= c.downloadDuration * 2 && k < |r.snaps| && k < |t.snaps|
    requires ReadTwice(c, zero, s, q, k, r.snaps[k], t.snaps[k])
    ensures s.workers[k].chunks <= q.workers[k].chunks
    ensures AddsUp(CellOf(f, r, step, k), CellOf(f, t, step + 1, k)) <==> step <= s.sh.tick.index || NothingNew(s, q, k)
  {
    NewChunks(c, zero, s, q, k, r.snaps[k], t.snaps[k]);
    SameBytes(s.workers[k], q.workers[k], s.sh, q.sh, c.downloadDuration, s.sh.tick.index, step);
    NextCell(f, r, t, step, k);
  }

  /** The entries of a stream in a report, by row. */
  ghost predicate Continues(zero: nat, kind: Kind, rs: seq<Reading>, i: nat, k: nat)
    requires i + 1 < |rs| && k < |rs[i].snaps| && k < |rs[i + 1].snaps|
  {
    AddsUp(Shown(zero, kind, rs, i, k), Shown(zero, kind, rs, i + 1, k))
  }

  /** Rows i and i + 1 of a stream that was read in s and in q: they add up exactly if the step lies behind
      the tick, or nothing that the stream accounted in between reached a bucket. */
  ghost predicate AddUpIff(zero: nat, s: State, q: State, rs: seq<Reading>, i: nat, k: nat, tick: nat)
    requires i + 1 < |rs|
  {
    && k < |rs[i].snaps| && k < |rs[i + 1].snaps|
    && k < |s.workers| && k < |q.workers| && s.workers[k].chunks <= q.workers[k].chunks
    && (Continues(zero, DOWNLOAD, rs, i, k) <==> i + 1 <= tick || NothingNew(s, q, k))
  }

  ghost predicate AddUpAt(c: Config, zero: nat, acts: seq<Action>, rs: seq<Reading>, i: nat, k: nat, tick: nat,
                          n: nat, m: nat)
    requires i + 1 < |rs|
  {
    n <= m <= |acts| && AddUpIff(zero, After(c, zero, acts[..n]), After(c, zero, acts[..m]), rs, i, k, tick)
  }

  lemma StatesAddUp(c: Config, zero: nat, s: State, q: State, rs: seq<Reading>, i: nat, k: nat)
    requires i + 1 < |rs| <= c.downloadDuration * 2 && k < |rs[i].snaps| && k < |rs[i + 1].snaps|
    requires ReadTwice(c, zero, s, q, k, rs[i].snaps[k], rs[i + 1].snaps[k])
    ensures AddUpIff(zero, s, q, rs, i, k, s.sh.tick.index)
  {
    RowsAddUp(c, zero, s, q, Frame(DOWNLOAD, |rs|, zero * 1000), rs[i], rs[i + 1], i + 1, k);
  }

  lemma TwiceRead(c: Config, zero: nat, acts: seq<Action>, rs: seq<Reading>, i: nat, k: nat, mark: Mark, ns: seq<nat>)
    requires Sane(c) && i + 1 < |rs| && ColumnRead(c, zero, acts, DownloadTest, k, rs, mark, ns)
    ensures ns[i] <= ns[i + 1] <= |acts| && k < |rs[i].snaps| && k < |rs[i + 1].snaps|
    ensures var s, q := After(c, zero, acts[..ns[i]]), After(c, zero, acts[..ns[i + 1]]);
            ReadTwice(c, zero, s, q, k, rs[i].snaps[k], rs[i + 1].snaps[k]) && s.sh.tick.index == mark.tick
  {
    assert ReadAt(c, zero, acts, DownloadTest, k, rs[i], mark, ns[i]);
    assert ReadAt(c, zero, acts, DownloadTest, k, rs[i + 1], mark, ns[i + 1]);
    BaseAlways(c, zero, acts[..ns[i]]);
    BaseAlways(c, zero, acts[..ns[i + 1]]);
    GrownBetween(c, zero, acts, ns[i], ns[i + 1], 2);
  }

  lemma PairAddsUp(c: Config, zero: nat, acts: seq<Action>, rs: seq<Reading>, i: nat, k: nat, mark: Mark, ns: seq<nat>)
    requires Sane(c) && i + 1 < |rs| <= c.downloadDuration * 2
    requires ColumnRead(c, zero, acts, DownloadTest, k, rs, mark, ns)
    ensures AddUpAt(c, zero, acts, rs, i, k, mark.tick, ns[i], ns[i + 1])
  {
    TwiceRead(c, zero, acts, rs, i, k, mark, ns);
    StatesAddUp(c, zero, After(c, zero, acts[..ns[i]]), After(c, zero, acts[..ns[i + 1]]), rs, i, k);
  }

  /** In every run, any two consecutive entries of a stream in a report or final result of the download.
      The tick is the one at which the streams were read: for a report, its number of steps. */
  lemma DownloadRows(c: Config, zero: nat, acts: seq<Action>, j: nat, k: nat) returns (mark: Mark, ns: seq<nat>)
    requires Sane(c) && j < |Trace(c, zero, acts)| && IsDownload(Trace(c, zero, acts)[j]) && k < c.downloadStreams
    ensures var e := Trace(c, zero, acts)[j];
            && ColumnRead(c, zero, acts, DownloadTest, k, e.readings, mark, ns)
            && (e.Report? ==> mark.tick == |e.readings|)
            && forall i | 0 <= i < |e.readings| - 1 ::
                 AddUpAt(c, zero, acts, e.readings, i, k, mark.tick, ns[i], ns[i + 1])
  {
    var e := Trace(c, zero, acts)[j];
    Guarantees.ReportLengths(c, zero, acts, j);
    mark, ns := EntriesWitnessed(c, zero, acts, j, k);
    forall i | 0 <= i < |e.readings| - 1
      ensures AddUpAt(c, zero, acts, e.readings, i, k, mark.tick, ns[i], ns[i + 1])
    {
      PairAddsUp(c, zero, acts, e.readings, i, k, mark, ns);
    }
  }

  /** What the first n rows of a report show as the bytes of single steps. */
  ghost function ShownDistincts(zero: nat, kind: Kind, rs: seq<Reading>, k: nat, n: nat): nat
    requires n <= |rs| && forall i | 0 <= i < |rs| :: k < |rs[i].snaps|
  {
    Distincts(Frame(kind, |rs|, zero * 1000), rs, k, n)
  }

  lemma ShownSum(zero: nat, kind: Kind, rs: seq<Reading>, k: nat, n: nat)
    requires 1 <= n <= |rs| && forall i | 0 <= i < |rs| :: k < |rs[i].snaps|
    requires forall i | 0 <= i < n - 1 :: Continues(zero, kind, rs, i, k)
    ensures ShownDistincts(zero, kind, rs, k, n) == Shown(zero, kind, rs, n - 1, k).bytes
  {
    var f := Frame(kind, |rs|, zero * 1000);
    forall i | 0 <= i < n - 1 ensures AddsUp(CellOf(f, rs[i], i + 1, k), CellOf(f, rs[i + 1], i + 2, k)) {
      assert Continues(zero, kind, rs, i, k);
    }
    DistinctsSum(f, rs, k, n);
  }

  /** In every run, the entries of a stream in a download report add up from row to row, and the bytes of
      its first n steps sum to its byte count at step n. */
  lemma ReportSums(c: Config, zero: nat, acts: seq<Action>, j: nat, k: nat, n: nat)
    requires Sane(c) && j < |Trace(c, zero, acts)| && Trace(c, zero, acts)[j].Report?
    requires Trace(c, zero, acts)[j].test == DownloadTest
    requires k < c.downloadStreams && 1 <= n <= |Trace(c, zero, acts)[j].readings|
    ensures var rs := Trace(c, zero, acts)[j].readings;
            && (forall i | 0 <= i < |rs| :: k < |rs[i].snaps|)
            && (forall i | 0 <= i < |rs| - 1 :: Continues(zero, DOWNLOAD, rs, i, k))
            && ShownDistincts(zero, DOWNLOAD, rs, k, n) == Shown(zero, DOWNLOAD, rs, n - 1, k).bytes
  {
    AllStreamsShown(c, zero, acts, j);
    var rs := Trace(c, zero, acts)[j].readings;
    var mark, ns := DownloadRows(c, zero, acts, j, k);
    forall i | 0 <= i < |rs| - 1 ensures Continues(zero, DOWNLOAD, rs, i, k) {
      assert AddUpAt(c, zero, acts, rs, i, k, mark.tick, ns[i], ns[i + 1]);
    }
    ShownSum(zero, DOWNLOAD, rs, k, n);
  }

  /** The final result of a download: the same for its rows up to one after the tick at which the timer
      stopped. */
  lemma FinishSums(c: Config, zero: nat, acts: seq<Action>, j: nat, k: nat) returns (mark: Mark, ns: seq<nat>)
    requires Sane(c) && j < |Trace(c, zero, acts)| && Trace(c, zero, acts)[j].Finish?
    requires Trace(c, zero, acts)[j].test == DownloadTest && k < c.downloadStreams
    ensures var rs := Trace(c, zero, acts)[j].readings;
            && ColumnRead(c, zero, acts, DownloadTest, k, rs, mark, ns)
            && (forall i | 0 <= i < |rs| - 1 :: AddUpAt(c, zero, acts, rs, i, k, mark.tick, ns[i], ns[i + 1]))
            && (forall i | 0 <= i < |rs| :: k < |rs[i].snaps|)
            && forall n | 1 <= n <= |rs| && n <= mark.tick + 1 ::
                 ShownDistincts(zero, DOWNLOAD, rs, k, n) == Shown(zero, DOWNLOAD, rs, n - 1, k).bytes
  {
    AllStreamsShown(c, zero, acts, j);
    var rs := Trace(c, zero, acts)[j].readings;
    mark, ns := DownloadRows(c, zero, acts, j, k);
    forall n | 1 <= n <= |rs| && n <= mark.tick + 1
      ensures ShownDistincts(zero, DOWNLOAD, rs, k, n) == Shown(zero, DOWNLOAD, rs, n - 1, k).bytes
    {
      forall i | 0 <= i < n - 1 ensures Continues(zero, DOWNLOAD, rs, i, k) {
        assert AddUpAt(c, zero, acts, rs, i, k, mark.tick, ns[i], ns[i + 1]);
      }
      ShownSum(zero, DOWNLOAD, rs, k, n);
    }
  }

  // ----- the upload

  /** The same for an upload stream whose server clock moves on: two consecutive entries add up exactly if no
      first key was elected by the second reading, or no record with data that the first one has counted
      nothing of lies under one of the keys the earlier step counts then. */
  ghost predicate UploadAddUpIff(zero: nat, s: State, q: State, rs: seq<Reading>, i: nat, k: nat)
    requires i + 1 < |rs|
  {
    && k < |rs[i].snaps| && k < |rs[i + 1].snaps|
    && k < |s.workers| && k < |q.workers| && s.workers[k].records <= q.workers[k].records
    && var tr, all := s.workers[k].records, q.workers[k].records;
    && var keys := SortedKeys(Kept(rs[i + 1].snaps[k]));
    (Upload.IncreasingKeys(all) ==>
       (Continues(zero, UPLOAD, rs, i, k)
        <==> q.sh.first == 0
             || !LateRecords.Late(if s.sh.first == 0 then all else all[|tr|..], keys, Least(i + 1, |keys|))))
  }

  ghost predicate UploadAddUpAt(c: Config, zero: nat, acts: seq<Action>, rs: seq<Reading>, i: nat, k: nat,
                                n: nat, m: nat)
    requires i + 1 < |rs|
  {
    n <= m <= |acts| && UploadAddUpIff(zero, After(c, zero, acts[..n]), After(c, zero, acts[..m]), rs, i, k)
  }

  lemma UploadCells(zero: nat, rs: seq<Reading>, i: nat, k: nat, d: nat, tr: seq<Upload.Step>, more: seq<Upload.Step>)
    requires i + 1 < |rs| && k < |rs[i].snaps| && k < |rs[i + 1].snaps|
    requires LateRecords.ReadLater(d, tr, more, rs[i].snaps[k], rs[i + 1].snaps[k])
    ensures var s, q, keys := rs[i].snaps[k], rs[i + 1].snaps[k], SortedKeys(Kept(rs[i + 1].snaps[k]));
            Continues(zero, UPLOAD, rs, i, k)
            <==> q.first == 0 || !LateRecords.Late(LateRecords.Fresh(s, tr, more), keys, Least(i + 1, |keys|))
  {
    NextCell(Frame(UPLOAD, |rs|, zero * 1000), rs[i], rs[i + 1], i + 1, k);
    LateRecords.UploadBytesIff(d, tr, more, rs[i].snaps[k], rs[i + 1].snaps[k], i + 1);
  }

  /** A stream that was read in s and later in q. */
  lemma StreamLater(c: Config, s: State, q: State, k: nat, a: Snapshot, b: Snapshot)
    requires InForceOther(c, s) && InForceOther(c, q) && Elected(s) && Elected(q) && Grown(s, q)
    requires ReadFrom(s, UploadTest, k, a) && ReadFrom(q, UploadTest, k, b)
    ensures var tr, all := s.workers[k].records, q.workers[k].records;
            && tr <= all && a.first == s.sh.first && b.first == q.sh.first
            && (Upload.IncreasingKeys(all) ==>
                  all == tr + all[|tr|..] && LateRecords.ReadLater(c.uploadDuration + 2, tr, all[|tr|..], a, b))
  {
    assert GrownWorker(s.workers[k], q.workers[k], s.sh.tick);
    var tr, all := s.workers[k].records, q.workers[k].records;
    Guarantees.UploadShown(s.workers[k], s.sh, c.uploadDuration + 2);
    Guarantees.UploadShown(q.workers[k], q.sh, c.uploadDuration + 2);
    assert all == tr + all[|tr|..];
  }

  lemma UploadStatesAddUp(c: Config, zero: nat, s: State, q: State, rs: seq<Reading>, i: nat, k: nat)
    requires i + 1 < |rs| && k < |rs[i].snaps| && k < |rs[i + 1].snaps|
    requires InForceOther(c, s) && InForceOther(c, q) && Elected(s) && Elected(q) && Grown(s, q)
    requires ReadFrom(s, UploadTest, k, rs[i].snaps[k]) && ReadFrom(q, UploadTest, k, rs[i + 1].snaps[k])
    ensures UploadAddUpIff(zero, s, q, rs, i, k)
  {
    StreamLater(c, s, q, k, rs[i].snaps[k], rs[i + 1].snaps[k]);
    var tr, all := s.workers[k].records, q.workers[k].records;
    if Upload.IncreasingKeys(all) {
      UploadCells(zero, rs, i, k, c.uploadDuration + 2, tr, all[|tr|..]);
    }
  }

  lemma InUpload(c: Config, zero: nat, acts: seq<Action>)
    requires Sane(c) && After(c, zero, acts).seqr.Joining? && TestAt(After(c, zero, acts).seqr.k) == UploadTest
    ensures After(c, zero, acts).seqr == Joining(3)
  {
    BaseAlways(c, zero, acts);
  }

  /** What is known of two moments of an upload. */
  lemma UploadMoments(c: Config, zero: nat, acts: seq<Action>, n: nat, m: nat)
    requires Sane(c) && n <= m <= |acts|
    requires After(c, zero, acts[..n]).seqr == Joining(3) == After(c, zero, acts[..m]).seqr
    ensures var s, q := After(c, zero, acts[..n]), After(c, zero, acts[..m]);
            InForceOther(c, s) && InForceOther(c, q) && Elected(s) && Elected(q) && Grown(s, q)
  {
    BaseAlways(c, zero, acts[..n]);
    BaseAlways(c, zero, acts[..m]);
    ElectedAlways(c, zero, acts[..n]);
    ElectedAlways(c, zero, acts[..m]);
    GrownBetween(c, zero, acts, n, m, 3);
  }

  lemma UploadPair(c: Config, zero: nat, acts: seq<Action>, rs: seq<Reading>, i: nat, k: nat, mark: Mark, ns: seq<nat>)
    requires Sane(c) && i + 1 < |rs| && ColumnRead(c, zero, acts, UploadTest, k, rs, mark, ns)
    ensures UploadAddUpAt(c, zero, acts, rs, i, k, ns[i], ns[i + 1])
  {
    assert ReadAt(c, zero, acts, UploadTest, k, rs[i], mark, ns[i]);
    assert ReadAt(c, zero, acts, UploadTest, k, rs[i + 1], mark, ns[i + 1]);
    InUpload(c, zero, acts[..ns[i]]);
    InUpload(c, zero, acts[..ns[i + 1]]);
    UploadMoments(c, zero, acts, ns[i], ns[i + 1]);
    UploadStatesAddUp(c, zero, After(c, zero, acts[..ns[i]]), After(c, zero, acts[..ns[i + 1]]), rs, i, k);
  }

  /** In every run, any two consecutive entries of a stream in a report or final result of the upload. */
  lemma UploadRows(c: Config, zero: nat, acts: seq<Action>, j: nat, k: nat) returns (mark: Mark, ns: seq<nat>)
    requires Sane(c) && j < |Trace(c, zero, acts)| && k < c.uploadStreams
    requires Trace(c, zero, acts)[j].Report? || Trace(c, zero, acts)[j].Finish?
    requires Trace(c, zero, acts)[j].test == UploadTest
    ensures var rs := Trace(c, zero, acts)[j].readings;
            && ColumnRead(c, zero, acts, UploadTest, k, rs, mark, ns)
            && forall i | 0 <= i < |rs| - 1 :: UploadAddUpAt(c, zero, acts, rs, i, k, ns[i], ns[i + 1])
  {
    var rs := Trace(c, zero, acts)[j].readings;
    mark, ns := EntriesWitnessed(c, zero, acts, j, k);
    forall i | 0 <= i < |rs| - 1 ensures UploadAddUpAt(c, zero, acts, rs, i, k, ns[i], ns[i + 1]) {
      UploadPair(c, zero, acts, rs, i, k, mark, ns);
    }
  }

  // ----- two reports of an upload

  /** Stream k was read in s for the earlier report and in q for the later one: if its server clock moves on,
      their entries for a step agree exactly under the condition of `LateRecords.Unchanged`. */
  ghost predicate UploadAgreeIff(zero: nat, s: State, q: State, a: seq<Reading>, b: seq<Reading>, i: nat, k: nat)
    requires i < |a| && i < |b| && k < |a[i].snaps| && k < |b[i].snaps|
  {
    && k < |s.workers| && k < |q.workers| && s.workers[k].records <= q.workers[k].records
    && a[i].snaps[k].first == s.sh.first && b[i].snaps[k].first == q.sh.first
    && var tr, all := s.workers[k].records, q.workers[k].records;
    (Upload.IncreasingKeys(all) ==>
       (LateRecords.SameCounters(Shown(zero, UPLOAD, a, i, k), Shown(zero, UPLOAD, b, i, k))
        <==> LateRecords.Unchanged(tr, all[|tr|..], a[i].snaps[k], b[i].snaps[k], i + 1)))
  }

  lemma ShownAgree(zero: nat, kind: Kind, d: nat, tr: seq<Upload.Step>, more: seq<Upload.Step>, a: seq<Reading>,
                   b: seq<Reading>, i: nat, k: nat)
    requires kind == UPLOAD && i < |a| && i < |b| && k < |a[i].snaps| && k < |b[i].snaps|
    requires LateRecords.ReadLater(d, tr, more, a[i].snaps[k], b[i].snaps[k])
    ensures LateRecords.SameCounters(Shown(zero, kind, a, i, k), Shown(zero, kind, b, i, k))
            <==> LateRecords.Unchanged(tr, more, a[i].snaps[k], b[i].snaps[k], i + 1)
  {
    var f, g := Frame(kind, |a|, zero * 1000), Frame(kind, |b|, zero * 1000);
    LateRecords.UploadEntriesIff(d, tr, more, f, g, a[i], b[i], i + 1, k);
  }

  lemma UploadStatesAgree(c: Config, zero: nat, s: State, q: State, a: seq<Reading>, b: seq<Reading>, i: nat, k: nat)
    requires i < |a| && i < |b| && k < |a[i].snaps| && k < |b[i].snaps|
    requires InForceOther(c, s) && InForceOther(c, q) && Elected(s) && Elected(q) && Grown(s, q)
    requires ReadFrom(s, UploadTest, k, a[i].snaps[k]) && ReadFrom(q, UploadTest, k, b[i].snaps[k])
    ensures UploadAgreeIff(zero, s, q, a, b, i, k)
  {
    StreamLater(c, s, q, k, a[i].snaps[k], b[i].snaps[k]);
    var tr, all := s.workers[k].records, q.workers[k].records;
    if Upload.IncreasingKeys(all) {
      ShownAgree(zero, UPLOAD, c.uploadDuration + 2, tr, all[|tr|..], a, b, i, k);
    }
  }

  ghost predicate IsUpload(e: Event) {
    (e.Report? || e.Finish?) && e.test == UploadTest
  }

  /** Row i of a report and row i of a later report or final result were read at these moments. */
  lemma UploadReadings(c: Config, zero: nat, acts: seq<Action>, j: nat, l: nat, i: nat, k: nat) returns (n: nat, m: nat)
    requires Sane(c) && j < l < |Trace(c, zero, acts)|
    requires Trace(c, zero, acts)[j].Report? && IsUpload(Trace(c, zero, acts)[j]) && IsUpload(Trace(c, zero, acts)[l])
    requires i < |Trace(c, zero, acts)[j].readings| && i < |Trace(c, zero, acts)[l].readings| && k < c.uploadStreams
    ensures n <= m <= |acts|
    ensures var a, b := Trace(c, zero, acts)[j].readings[i], Trace(c, zero, acts)[l].readings[i];
            && k < |a.snaps| && ReadFrom(After(c, zero, acts[..n]), UploadTest, k, a.snaps[k])
            && k < |b.snaps| && ReadFrom(After(c, zero, acts[..m]), UploadTest, k, b.snaps[k])
  {
    var mark, ns := EntriesWitnessed(c, zero, acts, j, k);
    var later, ms := EntriesWitnessed(c, zero, acts, l, k);
    n, m := ns[i], ms[i];
    assert ReadAt(c, zero, acts, UploadTest, k, Trace(c, zero, acts)[j].readings[i], mark, n);
    assert ReadAt(c, zero, acts, UploadTest, k, Trace(c, zero, acts)[l].readings[i], later, m);
    ReadInOrder(c, zero, acts, j, l, mark, later, n, m);
  }

  /** In every run, any two reports, or a report and the final result, of an upload: for every stream and
      every step both show, the exact condition under which the two entries agree. */
  lemma UploadReports(c: Config, zero: nat, acts: seq<Action>, j: nat, l: nat, i: nat, k: nat) returns (n: nat, m: nat)
    requires Sane(c) && j < l < |Trace(c, zero, acts)|
    requires Trace(c, zero, acts)[j].Report? && IsUpload(Trace(c, zero, acts)[j]) && IsUpload(Trace(c, zero, acts)[l])
    requires i < |Trace(c, zero, acts)[j].readings| && i < |Trace(c, zero, acts)[l].readings| && k < c.uploadStreams
    ensures n <= m <= |acts|
    ensures var a, b := Trace(c, zero, acts)[j].readings, Trace(c, zero, acts)[l].readings;
            && k < |a[i].snaps| && ReadFrom(After(c, zero, acts[..n]), UploadTest, k, a[i].snaps[k])
            && k < |b[i].snaps| && ReadFrom(After(c, zero, acts[..m]), UploadTest, k, b[i].snaps[k])
            && UploadAgreeIff(zero, After(c, zero, acts[..n]), After(c, zero, acts[..m]), a, b, i, k)
  {
    n, m := UploadReadings(c, zero, acts, j, l, i, k);
    InUpload(c, zero, acts[..n]);
    InUpload(c, zero, acts[..m]);
    UploadMoments(c, zero, acts, n, m);
    UploadStatesAgree(c, zero, After(c, zero, acts[..n]), After(c, zero, acts[..m]), Trace(c, zero, acts)[j].readings,
                      Trace(c, zero, acts)[l].readings, i, k);
  }

  // ----- the aggregates

  lemma SnapWhole(c: Config, zero: nat, s: State, t: Test, k: nat)
    requires Base(c, zero, s) && s.seqr.Joining? && k < |s.workers| && Measures(t)
    ensures WholeBuckets(Snap(t, s.workers[k], s.sh).results)
  {
    if t.UploadTest? {
      UploadWholeBytes(s.sh.duration, s.workers[k].records);
    } else {
      assert Accounted(s.workers[k], s.sh);
      Download.WholeBytes(s.sh.duration, s.workers[k].chunks);
    }
  }

  /** The aggregate entry of a step, as a report shows it. */
  ghost function ShownAggregate(zero: nat, kind: Kind, rs: seq<Reading>, step: nat): Aggregate
    requires 1 <= step <= |rs|
  {
    AggregateOf(Frame(kind, |rs|, zero * 1000), rs[step - 1], step, |rs[step - 1].snaps|)
  }

  /** In every run, the aggregate of every step of every report or final result is exact: its byte count
      times eight is the sum of its buckets, and its total is its slow start and its bytes. */
  lemma AggregatesAddUp(c: Config, zero: nat, acts: seq<Action>, j: nat, step: nat)
    requires Sane(c) && j < |Trace(c, zero, acts)|
    requires Trace(c, zero, acts)[j].Report? || Trace(c, zero, acts)[j].Finish?
    requires 1 <= step <= |Trace(c, zero, acts)[j].readings|
    ensures var a := ShownAggregate(zero, KindOf(Trace(c, zero, acts)[j].test), Trace(c, zero, acts)[j].readings, step);
            8 * a.bytes == Sum(a.results) && a.total == a.slowStart + a.bytes
  {
    var e := Trace(c, zero, acts)[j];
    var f, r := Frame(KindOf(e.test), |e.readings|, zero * 1000), e.readings[step - 1];
    OnlyMeasured(c, zero, acts, j);
    forall k | 0 <= k < |r.snaps| ensures WholeBuckets(r.snaps[k].results) {
      var n := Guarantees.EntryRead(c, zero, acts, j, step - 1, k);
      BaseAlways(c, zero, acts[..n]);
      SnapWhole(c, zero, After(c, zero, acts[..n]), e.test, k);
    }
    AggregateWhole(f, r, step);
    AggregateSums(f, r, step, |r.snaps|);
  }

  /** The bucket under a key, over the first n streams. */
  ghost function AtKey(r: Reading, key: int, n: nat): nat
    requires n <= |r.snaps|
  {
    if n == 0 then 0 else AtKey(r, key, n - 1) + Get(r.snaps[n - 1].results, key)
  }

  /** The stream knows the first key, and holds from it on exactly the half-second grid. */
  ghost predicate Regular(s: Snapshot, d: nat) {
    s.first > 0 && Aligned(s.results, s.first, d)
  }

  ghost predicate RegularRow(r: Reading, d: nat) {
    forall k | 0 <= k < |r.snaps| :: Regular(r.snaps[k], d)
  }

  ghost predicate OneFirst(r: Reading, first: nat) {
    forall k | 0 <= k < |r.snaps| :: r.snaps[k].first == first
  }

  lemma {:induction false} AcrossAligned(r: Reading, first: nat, d: nat, p: nat, n: nat)
    requires n <= |r.snaps| && 1 <= p <= d * 2 + 1 && RegularRow(r, d) && OneFirst(r, first)
    ensures Across(UPLOAD, r, p, n) == AtKey(r, first + 5 * (p - 1), n)
  {
    if n > 0 {
      AcrossAligned(r, first, d, p, n - 1);
      assert Regular(r.snaps[n - 1], d);
      UploadPositions(r.snaps[n - 1], d);
    }
  }

  /** All streams of a row that know a first key know the same. */
  lemma FirstsAgree(c: Config, zero: nat, acts: seq<Action>, j: nat, i: nat, k: nat, l: nat)
    requires Sane(c) && j < |Trace(c, zero, acts)|
    requires Trace(c, zero, acts)[j].Report? || Trace(c, zero, acts)[j].Finish?
    requires Trace(c, zero, acts)[j].test == UploadTest && i < |Trace(c, zero, acts)[j].readings|
    requires k < |Trace(c, zero, acts)[j].readings[i].snaps| && l < |Trace(c, zero, acts)[j].readings[i].snaps|
    requires Trace(c, zero, acts)[j].readings[i].snaps[k].first != 0
    requires Trace(c, zero, acts)[j].readings[i].snaps[l].first != 0
    ensures Trace(c, zero, acts)[j].readings[i].snaps[k].first == Trace(c, zero, acts)[j].readings[i].snaps[l].first
  {
    var n := Guarantees.EntryRead(c, zero, acts, j, i, k);
    var m := Guarantees.EntryRead(c, zero, acts, j, i, l);
    InUpload(c, zero, acts[..n]);
    InUpload(c, zero, acts[..m]);
    if n <= m {
      GrownBetween(c, zero, acts, n, m, 3);
    } else {
      GrownBetween(c, zero, acts, m, n, 3);
    }
  }

  /** Stream k of a row was read at this moment. */
  ghost predicate UploadMoment(c: Config, zero: nat, acts: seq<Action>, r: Reading, k: nat, n: nat) {
    n <= |acts| && k < |r.snaps| && ReadFrom(After(c, zero, acts[..n]), UploadTest, k, r.snaps[k])
  }

  /** Stream k has met the elected key without an error or a short record, and its later records lie on the
      half-second grid. */
  ghost predicate OnTheGrid(c: Config, s: State, k: nat) {
    && k < |s.workers|
    && var tr := s.workers[k].records;
       Upload.WellFormed(tr) && Upload.Reached(tr) && OnGrid(c.uploadDuration + 2, tr)
  }

  ghost predicate AllOnGrid(c: Config, zero: nat, acts: seq<Action>, ns: seq<nat>) {
    forall k | 0 <= k < |ns| :: ns[k] <= |acts| && OnTheGrid(c, After(c, zero, acts[..ns[k]]), k)
  }

  lemma StateRegular(c: Config, s: State, k: nat, snap: Snapshot)
    requires InForceOther(c, s) && Elected(s) && ReadFrom(s, UploadTest, k, snap) && OnTheGrid(c, s, k)
    ensures Regular(snap, c.uploadDuration + 2)
  {
    Guarantees.UploadShown(s.workers[k], s.sh, c.uploadDuration + 2);
    UploadAligned(c.uploadDuration + 2, s.workers[k].records, snap);
  }

  lemma MomentRegular(c: Config, zero: nat, acts: seq<Action>, r: Reading, k: nat, n: nat)
    requires Sane(c) && UploadMoment(c, zero, acts, r, k, n) && OnTheGrid(c, After(c, zero, acts[..n]), k)
    ensures Regular(r.snaps[k], c.uploadDuration + 2)
  {
    BaseAlways(c, zero, acts[..n]);
    ElectedAlways(c, zero, acts[..n]);
    StateRegular(c, After(c, zero, acts[..n]), k, r.snaps[k]);
  }

  /** The moments at which the streams of a row were read. */
  lemma RowMoments(c: Config, zero: nat, acts: seq<Action>, j: nat, i: nat) returns (ns: seq<nat>)
    requires Sane(c) && j < |Trace(c, zero, acts)| && IsUpload(Trace(c, zero, acts)[j])
    requires i < |Trace(c, zero, acts)[j].readings|
    ensures var r := Trace(c, zero, acts)[j].readings[i];
            |ns| == |r.snaps| && forall k | 0 <= k < |ns| :: UploadMoment(c, zero, acts, r, k, ns[k])
  {
    var r := Trace(c, zero, acts)[j].readings[i];
    ns := [];
    while |ns| < |r.snaps|
      invariant |ns| <= |r.snaps| && forall k | 0 <= k < |ns| :: UploadMoment(c, zero, acts, r, k, ns[k])
      decreases |r.snaps| - |ns|
    {
      var n := Guarantees.EntryRead(c, zero, acts, j, i, |ns|);
      ns := ns + [n];
    }
  }

  /** A row of regular streams. */
  lemma RowLinesUp(c: Config, zero: nat, acts: seq<Action>, j: nat, step: nat, p: nat)
    requires Sane(c) && j < |Trace(c, zero, acts)| && IsUpload(Trace(c, zero, acts)[j])
    requires 1 <= p <= step <= |Trace(c, zero, acts)[j].readings|
    requires RegularRow(Trace(c, zero, acts)[j].readings[step - 1], c.uploadDuration + 2)
    requires |Trace(c, zero, acts)[j].readings[step - 1].snaps| > 0
    ensures LinedUp(zero, Trace(c, zero, acts)[j].readings, step, p)
  {
    var rs := Trace(c, zero, acts)[j].readings;
    var r := rs[step - 1];
    Guarantees.ReportLengths(c, zero, acts, j);
    forall k | 0 <= k < |r.snaps| ensures r.snaps[k].first == r.snaps[0].first {
      assert Regular(r.snaps[k], c.uploadDuration + 2) && Regular(r.snaps[0], c.uploadDuration + 2);
      FirstsAgree(c, zero, acts, j, step - 1, k, 0);
    }
    ColumnAt(UPLOAD, r, step, |r.snaps|, p);
    AggregateSums(Frame(UPLOAD, |rs|, zero * 1000), r, step, |r.snaps|);
    AcrossAligned(r, r.snaps[0].first, c.uploadDuration + 2, p, |r.snaps|);
  }

  /** All streams of the row know one first key F, and position p of the aggregate is what they hold under the
      key F + 5 * (p - 1). */
  ghost predicate LinedUp(zero: nat, rs: seq<Reading>, step: nat, p: nat)
    requires 1 <= p <= step <= |rs| && |rs[step - 1].snaps| > 0
  {
    var r := rs[step - 1];
    && OneFirst(r, r.snaps[0].first)
    && Get(ShownAggregate(zero, UPLOAD, rs, step).results, p)
       == AtKey(r, r.snaps[0].first + 5 * (p - 1), |r.snaps|)
  }

  /** In every run, the streams of an upload line up in the aggregate: there are moments at which the streams
      of the row were read, and if by then every stream had met the elected key and kept to the half-second
      grid, equal positions are equal keys. */
  lemma UploadLinesUp(c: Config, zero: nat, acts: seq<Action>, j: nat, step: nat, p: nat) returns (ns: seq<nat>)
    requires Sane(c) && j < |Trace(c, zero, acts)| && IsUpload(Trace(c, zero, acts)[j])
    requires 1 <= p <= step <= |Trace(c, zero, acts)[j].readings|
    ensures var rs := Trace(c, zero, acts)[j].readings;
            && |ns| == |rs[step - 1].snaps| == c.uploadStreams > 0
            && (forall k | 0 <= k < |ns| :: UploadMoment(c, zero, acts, rs[step - 1], k, ns[k]))
            && (AllOnGrid(c, zero, acts, ns) ==> LinedUp(zero, rs, step, p))
  {
    AllStreamsShown(c, zero, acts, j);
    ns := RowMoments(c, zero, acts, j, step - 1);
    if AllOnGrid(c, zero, acts, ns) {
      var r := Trace(c, zero, acts)[j].readings[step - 1];
      forall k | 0 <= k < |r.snaps| ensures Regular(r.snaps[k], c.uploadDuration + 2) {
        assert UploadMoment(c, zero, acts, r, k, ns[k]) && OnTheGrid(c, After(c, zero, acts[..ns[k]]), k);
        MomentRegular(c, zero, acts, r, k, ns[k]);
      }
      RowLinesUp(c, zero, acts, j, step, p);
    }
  }

  lemma AllStreamsShown(c: Config, zero: nat, acts: seq<Action>, j: nat)
    requires Sane(c) && j < |Trace(c, zero, acts)|
    requires Trace(c, zero, acts)[j].Report? || Trace(c, zero, acts)[j].Finish?
    ensures AllStreams(Trace(c, zero, acts)[j].readings, Instances(c, Trace(c, zero, acts)[j].test))
  {
    TimesAlways(c, zero, acts);
    assert EventTimes(c, zero, Trace(c, zero, acts)[j]);
  }

  /** Only the download and the upload have rows. */
  lemma OnlyMeasured(c: Config, zero: nat, acts: seq<Action>, j: nat)
    requires Sane(c) && j < |Trace(c, zero, acts)|
    requires Trace(c, zero, acts)[j].Report? || Trace(c, zero, acts)[j].Finish?
    ensures Trace(c, zero, acts)[j].readings != [] ==> Measures(Trace(c, zero, acts)[j].test)
  {
    var t := Trace(c, zero, acts);
    Conformance.RunsAreAccepted(c, zero, acts);
    if t[j].Report? {
      ReportAt(c, t, j);
    } else {
      StepAt(c, t, j);
    }
  }
}
