/** The record loop of `Upload::run`: the server acknowledges the uploaded bytes in records keyed by
    the last six digits of its clock; the first key seen once the timer runs is elected as the start
    of the measurement for all streams. */
module Upload {
  import opened OrderedMaps

  /** A record with fewer than three fields, or one with its byte count and its key. */
  datatype Record = Short | Full(bytes: nat, key: nat)

  /** The shared state one record meets. `others` is the key another stream has elected by then, or
      zero. */
  datatype View = View(running: bool, others: nat, hasError: bool)

  datatype Step = Step(record: Record, view: View)

  /** `mUpload`, the fields the last full record left behind, and the elected first key. */
  datatype Raw = State(results: Buckets, total: nat, slowStart: nat, bits: nat, key: nat, first: nat)

  /** The last record is part of the total. */
  type State = s: Raw | s.bits <= s.total witness Empty

  const Empty := State(map[], 0, 0, 0, 0, 0)

  /** The n keys F, F+5, F+10, ... */
  function Grid(first: nat, n: nat): set<int> {
    if n == 0 then {} else Grid(first, n - 1) + {first + 5 * (n - 1)}
  }

  lemma {:induction false} GridHas(first: nat, n: nat, k: int)
    ensures k in Grid(first, n) <==> first <= k < first + 5 * n && (k - first) % 5 == 0
  {
    if n > 0 {
      GridHas(first, n - 1, k);
    }
  }

  /** The keys F, F+5, ..., F+10*duration of the half-second buckets of a measurement. */
  function Window(first: nat, duration: nat): set<int> {
    Grid(first, duration * 2 + 1)
  }

  function Parse(s: State, r: Record): State {
    match r
    case Short => s
    case Full(bytes, key) => s.(bits := bytes * 8, key := key, total := s.total + bytes * 8)
  }

  /** The write-once election of the first key. */
  function Elect(s: State, v: View): State {
    var first := if s.first == 0 then v.others else s.first;
    s.(first := if v.running && first == 0 then s.key else first)
  }

  function Prefill(s: State, duration: nat): State {
    if s.first != 0 && s.first == s.key then s.(results := Clear(s.results, Window(s.first, duration))) else s
  }

  function Store(s: State, v: View): State {
    if v.hasError then s
    else if s.key !in s.results then s.(results := s.results[s.key := s.bits])
    else s.(results := Add(s.results, s.key, s.bits),
            slowStart := if s.slowStart == 0 && s.first == s.key then s.total - s.bits else s.slowStart)
  }

  function Process(s: State, duration: nat, step: Step): State {
    var parsed := Parse(s, step.record);
    Store(Prefill(Elect(parsed, step.view), duration), step.view)
  }

  function ProcessAll(duration: nat, tr: seq<Step>): State {
    if tr == [] then Empty
    else Process(ProcessAll(duration, tr[..|tr| - 1]), duration, tr[|tr| - 1])
  }

  function ProcessFrom(s: State, duration: nat, tr: seq<Step>): State
    decreases |tr|
  {
    if tr == [] then s else ProcessFrom(Process(s, duration, tr[0]), duration, tr[1..])
  }

  lemma ProcessMore(duration: nat, tr: seq<Step>, step: Step)
    ensures ProcessAll(duration, tr + [step]) == Process(ProcessAll(duration, tr), duration, step)
  {
    assert (tr + [step])[..|tr|] == tr;
  }

  lemma {:induction false} ProcessEither(duration: nat, tr: seq<Step>, more: seq<Step>)
    ensures ProcessFrom(ProcessAll(duration, tr), duration, more) == ProcessAll(duration, tr + more)
    decreases |more|
  {
    if more == [] {
      assert tr + more == tr;
    } else {
      ProcessMore(duration, tr, more[0]);
      ProcessEither(duration, tr + [more[0]], more[1..]);
      assert tr + [more[0]] + more[1..] == tr + more;
    }
  }

  // ----- the worker

  /** The first key is shared by all upload streams. */
  class Shared {
    var first: nat

    constructor ()
      ensures first == 0
    {
      first := 0;
    }
  }

  class Upload {
    const shared: Shared
    var results: Buckets
    var datasize_total: nat
    var datasize_slow_start: nat
    var nDataRecv: nat
    var nTimeRecvExa: nat

    constructor (shared: Shared)
      ensures this.shared == shared
      ensures results == map[] && datasize_total == datasize_slow_start == nDataRecv == nTimeRecvExa == 0
    {
      this.shared := shared;
      results, datasize_total, datasize_slow_start, nDataRecv, nTimeRecvExa := map[], 0, 0, 0, 0;
    }

    function Measured(): Raw
      reads this, shared
    {
      State(results, datasize_total, datasize_slow_start, nDataRecv, nTimeRecvExa, shared.first)
    }

    /** The pre-fill loop: i = F, F+5, ... up to F + duration*2*5. */
    method PrefillWindow(duration: nat)
      modifies `results
      ensures results == Clear(old(results), Window(shared.first, duration))
    {
      var t := 0;
      var i := shared.first;
      ClearNone(results);
      while i <= shared.first + duration * 2 * 5
        invariant t <= duration * 2 + 1 && i == shared.first + 5 * t
        invariant results == Clear(old(results), Grid(shared.first, t))
      {
        ClearOneMore(old(results), Grid(shared.first, t), i);
        results := results[i := 0];
        t := t + 1;
        i := i + 5;
      }
    }

    /** Another stream may have elected its key meanwhile; otherwise this stream elects its own. An
        elected key is never replaced, this stream's key is only elected while the timer runs, and then
        some key is elected unless this stream's is 0. */
    method ElectFirst(view: View)
      requires nDataRecv <= datasize_total
      modifies shared
      ensures Measured() == Elect(old(Measured()), view)
      ensures old(shared.first) != 0 ==> shared.first == old(shared.first)
      ensures old(shared.first) == 0 && view.others != 0 ==> shared.first == view.others
      ensures old(shared.first) == 0 && view.others == 0 ==> shared.first == if view.running then nTimeRecvExa else 0
    {
      if shared.first == 0 {
        shared.first := view.others;
      }
      if view.running && shared.first == 0 {
        shared.first := nTimeRecvExa;
      }
    }

    /** A full record leaves its bits and its key, and a short one those of its predecessor. */
    method OneRecord(duration: nat, step: Step)
      requires nDataRecv <= datasize_total
      modifies this, shared
      ensures Measured() == Process(old(Measured()), duration, step)
      ensures step.record.Full? ==> nDataRecv == 8 * step.record.bytes && nTimeRecvExa == step.record.key
      ensures step.record.Full? ==> datasize_total == old(datasize_total) + 8 * step.record.bytes
      ensures step.record.Short? ==> nDataRecv == old(nDataRecv) && nTimeRecvExa == old(nTimeRecvExa)
      ensures step.record.Short? ==> datasize_total == old(datasize_total)
    {
      if step.record.Full? {
        nDataRecv := step.record.bytes;
        nTimeRecvExa := step.record.key;
        nDataRecv := nDataRecv * 8;
        datasize_total := datasize_total + nDataRecv;
      }
      ElectFirst(step.view);
      if shared.first != 0 && shared.first == nTimeRecvExa {
        PrefillWindow(duration);
      }
      AddToBucket(step.view);
    }

    method AddToBucket(view: View)
      requires nDataRecv <= datasize_total
      modifies `results, `datasize_slow_start
      ensures Measured() == Store(old(Measured()), view)
    {
      if !view.hasError {
        if nTimeRecvExa !in results {
          results := results[nTimeRecvExa := nDataRecv];
        } else {
          results := Add(results, nTimeRecvExa, nDataRecv);
          if datasize_slow_start == 0 && shared.first == nTimeRecvExa {
            datasize_slow_start := datasize_total - nDataRecv;
          }
        }
      }
    }

    /** The record loop stores exactly the fold of its records. */
    method Run(duration: nat, tr: seq<Step>)
      requires Measured() == Empty
      modifies this, shared
      ensures Measured() == ProcessAll(duration, tr)
    {
      ProcessEither(duration, [], tr);
      assert [] + tr == tr && tr[0..] == tr;
      var n := 0;
      while n < |tr|
        invariant 0 <= n <= |tr|
        invariant nDataRecv <= datasize_total
        invariant ProcessFrom(Measured(), duration, tr[n..]) == ProcessAll(duration, tr)
      {
        assert tr[n..][0] == tr[n] && tr[n..][1..] == tr[n + 1..];
        OneRecord(duration, tr[n]);
        n := n + 1;
      }
    }
  }

  // ----- what is conserved

  ghost predicate WellFormed(tr: seq<Step>) {
    forall s | s in tr :: s.record.Full? && !s.view.hasError
  }

  /** The first key as the i-th record leaves it. */
  function FirstAt(tr: seq<Step>, i: nat): nat
    requires i < |tr|
  {
    ProcessAll(0, tr[..i + 1]).first
  }

  lemma FirstStep(s: State, duration: nat, step: Step)
    ensures var r, e := Process(s, duration, step), Elect(Parse(s, step.record), step.view);
            r.first == e.first && r.key == e.key && r.bits == e.bits && r.total == e.total
  {
  }

  /** The duration only decides how far the window reaches. */
  lemma {:induction false} FirstAnyDuration(d: nat, e: nat, tr: seq<Step>)
    ensures ProcessAll(d, tr).first == ProcessAll(e, tr).first
    ensures ProcessAll(d, tr).key == ProcessAll(e, tr).key
    ensures ProcessAll(d, tr).bits == ProcessAll(e, tr).bits
    ensures ProcessAll(d, tr).total == ProcessAll(e, tr).total
  {
    if tr != [] {
      FirstAnyDuration(d, e, tr[..|tr| - 1]);
      FirstStep(ProcessAll(d, tr[..|tr| - 1]), d, tr[|tr| - 1]);
      FirstStep(ProcessAll(e, tr[..|tr| - 1]), e, tr[|tr| - 1]);
    }
  }

  /** The last record of any history, in its own fields: a short one repeats the bits and the key of its
      predecessor. */
  lemma LastRecord(duration: nat, tr: seq<Step>, step: Step)
    ensures var s, r := ProcessAll(duration, tr), ProcessAll(duration, tr + [step]);
            match step.record
            case Full(bytes, key) => r.bits == 8 * bytes && r.key == key && r.total == s.total + 8 * bytes
            case Short => r.bits == s.bits && r.key == s.key && r.total == s.total
  {
    ProcessMore(duration, tr, step);
  }

  /** Unless the stream has an error the bits of a record join the bucket of its key, which starts from
      nothing when the key is the elected one. With an error no bucket grows. */
  lemma LastBucket(s: State, duration: nat, step: Step, k: int)
    ensures var r := Process(s, duration, step);
            if step.view.hasError then Get(r.results, k) <= Get(s.results, k)
            else if r.first == r.key != 0 then Get(r.results, r.key) == r.bits
            else Get(r.results, r.key) == Get(s.results, r.key) + r.bits
  {
    WindowFrom(Elect(Parse(s, step.record), step.view).first, duration);
  }

  /** What the window holds when the step pre-fills it, and is therefore lost. */
  ghost function Erased(s: State, duration: nat, step: Step): nat {
    var e := Elect(Parse(s, step.record), step.view);
    if e.first != 0 && e.first == e.key then SumOn(e.results, Window(e.first, duration)) else 0
  }

  /** Bits a step stores without acknowledging them: a short record repeats its predecessor. */
  function Repeated(s: State, step: Step): nat {
    if step.record.Short? && !step.view.hasError then s.bits else 0
  }

  /** Bits a step acknowledges without storing them. */
  function Suppressed(step: Step): nat {
    if step.record.Full? && step.view.hasError then step.record.bytes * 8 else 0
  }

  /** The balance of one record, whatever the state and the record. */
  lemma StepLedger(s: State, duration: nat, step: Step)
    ensures var r := Process(s, duration, step);
            r.total + Sum(s.results) + Repeated(s, step)
            == s.total + Sum(r.results) + Erased(s, duration, step) + Suppressed(step)
  {
    var e := Elect(Parse(s, step.record), step.view);
    var p := Prefill(e, duration);
    SumClear(e.results, Window(e.first, duration));
    SumAdd(p.results, p.key, p.bits);
    SumUpdate(p.results, p.key, p.bits);
  }

  /** The sums of the three over a history. */
  ghost function ErasedIn(duration: nat, tr: seq<Step>): nat {
    if tr == [] then 0
    else
      var init := tr[..|tr| - 1];
      ErasedIn(duration, init) + Erased(ProcessAll(duration, init), duration, tr[|tr| - 1])
  }

  function RepeatedIn(duration: nat, tr: seq<Step>): nat {
    if tr == [] then 0
    else
      var init := tr[..|tr| - 1];
      RepeatedIn(duration, init) + Repeated(ProcessAll(duration, init), tr[|tr| - 1])
  }

  function SuppressedIn(tr: seq<Step>): nat {
    if tr == [] then 0 else SuppressedIn(tr[..|tr| - 1]) + Suppressed(tr[|tr| - 1])
  }

  /** The balance of any history, with short records and errors: what the server acknowledged and what
      short records repeat lies in a bucket, was erased, or was suppressed. */
  lemma {:induction false} HistoryLedger(duration: nat, tr: seq<Step>)
    ensures var s := ProcessAll(duration, tr);
            s.total + RepeatedIn(duration, tr) == Sum(s.results) + ErasedIn(duration, tr) + SuppressedIn(tr)
  {
    if tr == [] {
      SumOnZero(map[], {});
    } else {
      HistoryLedger(duration, tr[..|tr| - 1]);
      StepLedger(ProcessAll(duration, tr[..|tr| - 1]), duration, tr[|tr| - 1]);
    }
  }

  /** What the earlier records stored under a key. */
  function Stored(tr: seq<Step>, k: int): nat {
    if tr == [] then 0
    else
      var s := tr[|tr| - 1];
      Stored(tr[..|tr| - 1], k) + if s.record.Full? && s.record.key == k then s.record.bytes * 8 else 0
  }

  /** No record with the elected key follows data in the window it clears. */
  ghost predicate Keeps(duration: nat, tr: seq<Step>) {
    forall i | 0 <= i < |tr| :: KeepsAt(duration, tr, i)
  }

  ghost predicate KeepsAt(duration: nat, tr: seq<Step>, i: nat)
    requires i < |tr|
  {
    tr[i].record.Full? && FirstAt(tr, i) != 0 && FirstAt(tr, i) == tr[i].record.key ==>
      forall j | 0 <= j < i && tr[j].record.Full? && tr[j].record.bytes > 0 ::
        tr[j].record.key !in Window(FirstAt(tr, i), duration)
  }

  lemma KeepsPrefix(duration: nat, tr: seq<Step>)
    requires tr != []
    ensures Keeps(duration, tr) <==> Keeps(duration, tr[..|tr| - 1]) && KeepsAt(duration, tr, |tr| - 1)
  {
    var init := tr[..|tr| - 1];
    forall i | 0 <= i < |init| ensures KeepsAt(duration, tr, i) <==> KeepsAt(duration, init, i) {
      assert init[..i + 1] == tr[..i + 1];
    }
  }

  lemma {:induction false} StoredZero(tr: seq<Step>, k: int)
    ensures Stored(tr, k) == 0 <==>
            forall j | 0 <= j < |tr| && tr[j].record.Full? && tr[j].record.bytes > 0 :: tr[j].record.key != k
  {
    if tr != [] {
      StoredZero(tr[..|tr| - 1], k);
    }
  }

  /** The window holds nothing exactly when no earlier record put data into it. */
  lemma WindowClear(m: Buckets, tr: seq<Step>, window: set<int>)
    requires forall k :: Get(m, k) == Stored(tr, k)
    ensures SumOn(m, window) == 0 <==>
            forall j | 0 <= j < |tr| && tr[j].record.Full? && tr[j].record.bytes > 0 :: tr[j].record.key !in window
  {
    if SumOn(m, window) == 0 {
      forall j | 0 <= j < |tr| && tr[j].record.Full? && tr[j].record.bytes > 0
        ensures tr[j].record.key !in window
      {
        StoredZero(tr, tr[j].record.key);
        if tr[j].record.key in window {
          SumOnBound(m, window, tr[j].record.key);
        }
      }
    } else {
      if forall k | k in window :: Get(m, k) == 0 {
        SumOnZero(m, window);
      }
      var k :| k in window && Get(m, k) != 0;
      StoredZero(tr, k);
    }
  }

  /** The last record is harmless exactly when it erases nothing, as long as the buckets hold what
      the earlier records brought. */
  lemma KeepsLast(duration: nat, init: seq<Step>, step: Step)
    requires step.record.Full?
    requires forall k :: Get(ProcessAll(duration, init).results, k) == Stored(init, k)
    ensures KeepsAt(duration, init + [step], |init|) <==> Erased(ProcessAll(duration, init), duration, step) == 0
  {
    var tr, s := init + [step], ProcessAll(duration, init);
    var e := Elect(Parse(s, step.record), step.view);
    assert tr[..|init| + 1] == tr;
    FirstAnyDuration(duration, 0, tr);
    ProcessMore(duration, init, step);
    FirstStep(s, duration, step);
    assert FirstAt(tr, |init|) == e.first && e.results == s.results && tr[|init|] == step;
    assert forall j | 0 <= j < |init| :: tr[j] == init[j];
    if e.first != 0 && e.first == e.key {
      WindowClear(s.results, init, Window(e.first, duration));
    }
  }

  /** The total never falls behind the buckets, equals them exactly while no record has been erased,
      and until then every bucket holds what its records brought. */
  lemma {:induction false} Conservation(duration: nat, tr: seq<Step>)
    requires WellFormed(tr)
    ensures var s := ProcessAll(duration, tr);
            && s.total >= Sum(s.results)
            && (s.total == Sum(s.results) <==> Keeps(duration, tr))
            && (Keeps(duration, tr) ==> forall k :: Get(s.results, k) == Stored(tr, k))
  {
    if tr == [] {
      SumOnZero(map[], {});
    } else {
      var init, step := tr[..|tr| - 1], tr[|tr| - 1];
      assert step in tr && tr == init + [step];
      Conservation(duration, init);
      KeepsPrefix(duration, tr);
      var s := ProcessAll(duration, init);
      StepLedger(s, duration, step);
      if Keeps(duration, init) {
        KeepsLast(duration, init, step);
        if Keeps(duration, tr) {
          KeepsBuckets(s, duration, init, step);
        }
      }
    }
  }

  lemma KeepsBuckets(s: State, duration: nat, init: seq<Step>, step: Step)
    requires step.record.Full? && !step.view.hasError
    requires forall k :: Get(s.results, k) == Stored(init, k)
    requires Erased(s, duration, step) == 0
    ensures forall k :: Get(Process(s, duration, step).results, k) == Stored(init + [step], k)
  {
    assert (init + [step])[..|init|] == init;
    var e := Elect(Parse(s, step.record), step.view);
    var p := Prefill(e, duration);
    forall k ensures Get(p.results, k) == Get(s.results, k) {
      if p != e && k in Window(e.first, duration) {
        SumOnBound(e.results, Window(e.first, duration), k);
      }
    }
  }

  // ----- streams whose server clock moves on

  function RecordKeys(tr: seq<Step>): set<int> {
    if tr == [] then {}
    else
      var r := tr[|tr| - 1].record;
      RecordKeys(tr[..|tr| - 1]) + if r.Full? then {r.key} else {}
  }

  lemma {:induction false} RecordKeysHas(tr: seq<Step>, k: int)
    ensures k in RecordKeys(tr) <==> exists i :: 0 <= i < |tr| && tr[i].record.Full? && tr[i].record.key == k
  {
    if tr != [] {
      RecordKeysHas(tr[..|tr| - 1], k);
    }
  }

  /** Some record carried the elected key. */
  function Reached(tr: seq<Step>): bool {
    tr != [] && (Reached(tr[..|tr| - 1]) || var s := ProcessAll(0, tr); s.first != 0 && s.first == s.key)
  }

  /** The election is write-once, and an elected key that was reached is the key of a record. */
  lemma {:induction false} FirstStays(tr: seq<Step>)
    ensures tr != [] && ProcessAll(0, tr[..|tr| - 1]).first != 0 ==>
              ProcessAll(0, tr).first == ProcessAll(0, tr[..|tr| - 1]).first
    ensures Reached(tr) && WellFormed(tr) ==>
              ProcessAll(0, tr).first != 0 && ProcessAll(0, tr).first in RecordKeys(tr)
  {
    if tr != [] {
      FirstStep(ProcessAll(0, tr[..|tr| - 1]), 0, tr[|tr| - 1]);
      FirstStays(tr[..|tr| - 1]);
      assert tr[|tr| - 1] in tr;
    }
  }

  /** The keys of the map are the keys of the records, and the window once it has been laid out. */
  lemma {:induction false} KeySet(duration: nat, tr: seq<Step>)
    requires WellFormed(tr)
    ensures var s := ProcessAll(duration, tr);
            s.results.Keys == RecordKeys(tr) + if Reached(tr) then Window(s.first, duration) else {}
  {
    if tr != [] {
      var init, step := tr[..|tr| - 1], tr[|tr| - 1];
      assert step in tr;
      KeySet(duration, init);
      FirstAnyDuration(duration, 0, tr);
      FirstAnyDuration(duration, 0, init);
      FirstStays(tr);
      FirstStays(init);
      KeysStep(ProcessAll(duration, init), duration, step);
    }
  }

  lemma KeysStep(s: State, duration: nat, step: Step)
    requires step.record.Full? && !step.view.hasError
    ensures var e := Elect(Parse(s, step.record), step.view);
            Process(s, duration, step).results.Keys
            == s.results.Keys + {step.record.key}
               + if e.first != 0 && e.first == e.key then Window(e.first, duration) else {}
  {
  }

  /** Alignment: once the elected key F has been reached and as long as later keys lie on the
      half-second grid F, F+5, ..., the buckets from F on are exactly that grid. */
  lemma GridKeys(duration: nat, tr: seq<Step>)
    requires WellFormed(tr) && Reached(tr)
    requires forall s | s in tr :: s.record.key < ProcessAll(duration, tr).first
                                   || s.record.key in Window(ProcessAll(duration, tr).first, duration)
    ensures var s := ProcessAll(duration, tr);
            forall k :: k in s.results && k >= s.first <==> k in Window(s.first, duration)
  {
    KeySet(duration, tr);
    var s := ProcessAll(duration, tr);
    forall k ensures k in s.results && k >= s.first <==> k in Window(s.first, duration) {
      GridHas(s.first, duration * 2 + 1, k);
      RecordKeysHas(tr, k);
      if k in RecordKeys(tr) {
        var i :| 0 <= i < |tr| && tr[i].record.Full? && tr[i].record.key == k;
        assert tr[i] in tr;
      }
    }
  }

  /** A server clock that moves on: every key is positive and above its predecessors. */
  ghost predicate IncreasingKeys(tr: seq<Step>) {
    WellFormed(tr) &&
    forall i | 0 <= i < |tr| :: tr[i].record.key > 0 && forall j | 0 <= j < i :: tr[j].record.key < tr[i].record.key
  }

  ghost predicate AllBelow(ks: set<int>, bound: int) {
    forall k | k in ks :: k < bound
  }

  lemma IncreasingInit(tr: seq<Step>)
    requires IncreasingKeys(tr) && tr != []
    ensures IncreasingKeys(tr[..|tr| - 1])
    ensures tr[|tr| - 1].record.key > 0
    ensures AllBelow(RecordKeys(tr[..|tr| - 1]), tr[|tr| - 1].record.key)
  {
    var init := tr[..|tr| - 1];
    forall k | k in RecordKeys(init) ensures k < tr[|tr| - 1].record.key {
      RecordKeysHas(init, k);
    }
  }

  lemma IncreasingKeeps(duration: nat, tr: seq<Step>)
    requires IncreasingKeys(tr)
    ensures Keeps(duration, tr)
  {
    forall i | 0 <= i < |tr| ensures KeepsAt(duration, tr, i) {
      forall j | 0 <= j < i ensures tr[j].record.key !in Window(tr[i].record.key, duration) {
        GridHas(tr[i].record.key, duration * 2 + 1, tr[j].record.key);
      }
    }
  }

  /** Nothing is lost: every acknowledged bit lies in a bucket. */
  lemma AllStored(duration: nat, tr: seq<Step>)
    requires IncreasingKeys(tr)
    ensures var s := ProcessAll(duration, tr); s.total == Sum(s.results)
  {
    IncreasingKeeps(duration, tr);
    Conservation(duration, tr);
  }

  function Below(m: Buckets, first: nat): set<int> {
    set k | k in m && k < first
  }

  /** The slow-start counter holds exactly the buckets below the elected key, from the moment this
      stream reaches that key. */
  lemma {:induction false} SlowStartBelow(duration: nat, tr: seq<Step>)
    requires IncreasingKeys(tr)
    ensures var s := ProcessAll(duration, tr);
            s.slowStart == if Reached(tr) then SumOn(s.results, Below(s.results, s.first)) else 0
  {
    if tr != [] {
      var init, step := tr[..|tr| - 1], tr[|tr| - 1];
      assert tr == init + [step] && step in tr;
      IncreasingInit(tr);
      SlowStartBelow(duration, init);
      KeySet(duration, init);
      AllStored(duration, init);
      FirstStays(init);
      FirstStays(tr);
      FirstAnyDuration(duration, 0, tr);
      FirstAnyDuration(duration, 0, init);
      SlowStartStep(ProcessAll(duration, init), duration, step, Reached(init));
    }
  }

  /** Whatever the records, a slow start that has been found is never found again. */
  lemma {:induction false} SlowStartOnce(duration: nat, tr: seq<Step>, more: seq<Step>)
    requires ProcessAll(duration, tr).slowStart != 0
    ensures ProcessAll(duration, tr + more).slowStart == ProcessAll(duration, tr).slowStart
  {
    if more == [] {
      assert tr + more == tr;
    } else {
      assert (tr + more)[..|tr + more| - 1] == tr + more[..|more| - 1];
      SlowStartOnce(duration, tr, more[..|more| - 1]);
    }
  }

  lemma WindowFrom(first: nat, duration: nat)
    ensures first in Window(first, duration)
    ensures forall k | k in Window(first, duration) :: k >= first
  {
    GridHas(first, duration * 2 + 1, first);
    forall k | k in Window(first, duration) ensures k >= first {
      GridHas(first, duration * 2 + 1, k);
    }
  }

  lemma SlowStartStep(s: State, duration: nat, step: Step, reached: bool)
    requires step.record.Full? && !step.view.hasError && step.record.key > 0
    requires s.total == Sum(s.results)
    requires s.slowStart == if reached then SumOn(s.results, Below(s.results, s.first)) else 0
    requires if reached then s.first != 0 && s.first < step.record.key
             else AllBelow(s.results.Keys, step.record.key)
    ensures var r := Process(s, duration, step);
            r.slowStart == if reached || r.first == r.key then SumOn(r.results, Below(r.results, r.first)) else 0
  {
    var r := Process(s, duration, step);
    var key := step.record.key;
    if reached {
      assert Below(r.results, r.first) == Below(s.results, s.first);
      SumOnAgree(s.results, r.results, Below(s.results, s.first));
    } else if r.first == key {
      WindowFrom(key, duration);
      var p := Clear(s.results, Window(key, duration));
      assert key in p && r.results == Add(p, key, r.bits);
      forall k ensures k in Below(r.results, key) <==> k in s.results {
        assert k in s.results ==> k in s.results.Keys;
      }
      assert Below(r.results, key) == s.results.Keys;
      SumOnAgree(s.results, r.results, s.results.Keys);
    }
  }

  /** A record that repeats the elected key wipes out what its predecessor stored. */
  lemma RepeatedFirstKeyLoses(duration: nat)
    ensures var step := Step(Full(1, 5), View(true, 0, false));
            var s := ProcessAll(duration, [step, step]);
            Sum(s.results) < s.total
  {
    var step := Step(Full(1, 5), View(true, 0, false));
    var tr := [step] + [step];
    assert [step, step] == tr && [] + [step] == [step];
    assert FirstAt(tr, 1) == 5 by {
      assert tr[..2] == tr;
      ProcessMore(0, [step], step);
      ProcessMore(0, [], step);
    }
    Conservation(duration, tr);
    GridHas(5, duration * 2 + 1, 5);
    assert !KeepsAt(duration, tr, 1) by {
      assert tr[0].record.key in Window(5, duration);
    }
  }
}
