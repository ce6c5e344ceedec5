/** `Download::run`: the received bits of one stream, sorted into half-second buckets. */
module Download {
  import opened OrderedMaps

  /** The measured part of a stream: `mDownload`. */
  datatype Data = Data(results: Buckets, total: nat, slowStart: nat)

  function Prefilled(duration: nat): Buckets {
    Zeros(Upto(duration * 2 + 1))
  }

  function Start(duration: nat): Data {
    Data(Prefilled(duration), 0, 0)
  }

  /** One successful receive and the shared state it meets: whether the timer runs, whether an error
      was flagged, and the current tick. */
  datatype Chunk = Chunk(bits: nat, running: bool, hasError: bool, index: nat)

  predicate Counted(c: Chunk) {
    c.running && !c.hasError
  }

  function Account(d: Data, c: Chunk): Data {
    var total := d.total + c.bits;
    if Counted(c) then
      Data(Add(d.results, c.index, c.bits), total,
           if d.slowStart == 0 && c.index == 0 then total - c.bits else d.slowStart)
    else
      d.(total := total)
  }

  function AccountAll(duration: nat, cs: seq<Chunk>): Data {
    if cs == [] then Start(duration)
    else Account(AccountAll(duration, cs[..|cs| - 1]), cs[|cs| - 1])
  }

  // ----- the worker

  /** One turn of the receive loop: the loop guard, the result of `receive`, the TLS records it
      consumed, and the shared state at the time of the accounting. */
  datatype Turn = Turn(enter: bool, received: int, records: nat, running: bool, hasError: bool, index: nat)

  predicate Ends(t: Turn) {
    t.received == -1 || t.received == 0
  }

  /** Every byte of payload and of TLS framing counts as eight bits. */
  function ChunkOf(overhead: nat, t: Turn): Chunk
    requires t.received >= 0
  {
    Chunk((t.received + t.records * overhead) * 8, t.running, t.hasError, t.index)
  }

  predicate Valid(ts: seq<Turn>) {
    forall t | t in ts :: t.received >= -1
  }

  /** The chunks a worker accounts before its loop ends. */
  function Chunks(overhead: nat, ts: seq<Turn>): seq<Chunk>
    requires Valid(ts)
  {
    if ts == [] || !ts[0].enter || Ends(ts[0]) then []
    else
      [ChunkOf(overhead, ts[0])] + Chunks(overhead, ts[1..])
  }

  /** How many turns are accounted: those before the first that does not enter the loop or receives
      nothing. */
  function Taken(ts: seq<Turn>, n: nat): (m: nat)
    requires n <= |ts|
    ensures n <= m <= |ts|
    ensures forall i | n <= i < m :: ts[i].enter && ts[i].received != -1 && ts[i].received != 0
    ensures m == |ts| || !ts[m].enter || ts[m].received == -1 || ts[m].received == 0
    decreases |ts| - n
  {
    if n == |ts| || !ts[n].enter || ts[n].received == -1 || ts[n].received == 0 then n else Taken(ts, n + 1)
  }

  /** The bytes that the first n turns received, and the TLS records that carried them. */
  function BytesIn(ts: seq<Turn>, n: nat): int
    requires n <= |ts|
  {
    if n == 0 then 0 else BytesIn(ts, n - 1) + ts[n - 1].received
  }

  function RecordsIn(ts: seq<Turn>, n: nat): nat
    requires n <= |ts|
  {
    if n == 0 then 0 else RecordsIn(ts, n - 1) + ts[n - 1].records
  }

  /** The bits they are accounted as. */
  function BitsIn(overhead: nat, ts: seq<Turn>, n: nat): int
    requires n <= |ts|
  {
    if n == 0 then 0 else BitsIn(overhead, ts, n - 1) + 8 * (ts[n - 1].received + ts[n - 1].records * overhead)
  }

  /** The bits of those that met the running timer, no error and tick k. */
  function BitsAt(overhead: nat, ts: seq<Turn>, n: nat, k: int): int
    requires n <= |ts|
  {
    if n == 0 then 0
    else
      var t := ts[n - 1];
      BitsAt(overhead, ts, n - 1, k)
      + if t.running && !t.hasError && t.index == k then 8 * (t.received + t.records * overhead) else 0
  }

  lemma {:induction false} BitsAre(overhead: nat, ts: seq<Turn>, n: nat)
    requires n <= |ts|
    ensures BitsIn(overhead, ts, n) == 8 * BytesIn(ts, n) + 8 * (RecordsIn(ts, n) * overhead)
  {
    if n > 0 {
      BitsAre(overhead, ts, n - 1);
      assert RecordsIn(ts, n) * overhead == RecordsIn(ts, n - 1) * overhead + ts[n - 1].records * overhead;
    }
  }

  lemma ChunksFrom(overhead: nat, ts: seq<Turn>, t: nat)
    requires Valid(ts)
    requires t < |ts|
    ensures Chunks(overhead, ts[t..]) ==
            if !ts[t].enter || Ends(ts[t]) then [] else [ChunkOf(overhead, ts[t])] + Chunks(overhead, ts[t + 1..])
  {
    assert ts[t..][0] == ts[t] && ts[t..][1..] == ts[t + 1..];
  }

  function AccountFrom(d: Data, cs: seq<Chunk>): Data
    decreases |cs|
  {
    if cs == [] then d else AccountFrom(Account(d, cs[0]), cs[1..])
  }

  lemma AccountHead(d: Data, c: Chunk, cs: seq<Chunk>)
    ensures AccountFrom(d, [c] + cs) == AccountFrom(Account(d, c), cs)
  {
    assert ([c] + cs)[1..] == cs;
  }

  /** Accounting from the front and from the back agree. */
  lemma {:induction false} AccountEither(duration: nat, cs: seq<Chunk>, more: seq<Chunk>)
    ensures AccountFrom(AccountAll(duration, cs), more) == AccountAll(duration, cs + more)
    decreases |more|
  {
    if more == [] {
      assert cs + more == cs;
    } else {
      AccountMore(duration, cs, more[0]);
      AccountEither(duration, cs + [more[0]], more[1..]);
      assert cs + [more[0]] + more[1..] == cs + more;
    }
  }

  lemma AccountMore(duration: nat, cs: seq<Chunk>, c: Chunk)
    ensures AccountAll(duration, cs + [c]) == Account(AccountAll(duration, cs), c)
  {
    assert (cs + [c])[..|cs|] == cs;
  }

  lemma {:induction false} TotalFrom(d: Data, overhead: nat, ts: seq<Turn>, t: nat)
    requires Valid(ts) && t <= |ts|
    ensures AccountFrom(d, Chunks(overhead, ts[t..])).total
            == d.total + BitsIn(overhead, ts, Taken(ts, t)) - BitsIn(overhead, ts, t)
    decreases |ts| - t
  {
    if t < |ts| {
      ChunksFrom(overhead, ts, t);
      if ts[t].enter && !Ends(ts[t]) {
        var c := ChunkOf(overhead, ts[t]);
        AccountHead(d, c, Chunks(overhead, ts[t + 1..]));
        TotalFrom(Account(d, c), overhead, ts, t + 1);
      }
    }
  }

  lemma {:induction false} BucketFrom(d: Data, overhead: nat, ts: seq<Turn>, t: nat, k: int)
    requires Valid(ts) && t <= |ts|
    ensures Get(AccountFrom(d, Chunks(overhead, ts[t..])).results, k)
            == Get(d.results, k) + BitsAt(overhead, ts, Taken(ts, t), k) - BitsAt(overhead, ts, t, k)
    decreases |ts| - t
  {
    if t < |ts| {
      ChunksFrom(overhead, ts, t);
      if ts[t].enter && !Ends(ts[t]) {
        var c := ChunkOf(overhead, ts[t]);
        AccountHead(d, c, Chunks(overhead, ts[t + 1..]));
        BucketFrom(Account(d, c), overhead, ts, t + 1, k);
      }
    }
  }

  lemma BucketIs(duration: nat, overhead: nat, ts: seq<Turn>, k: int)
    requires Valid(ts)
    ensures Get(AccountAll(duration, Chunks(overhead, ts)).results, k) == BitsAt(overhead, ts, Taken(ts, 0), k)
  {
    AccountEither(duration, [], Chunks(overhead, ts));
    assert [] + Chunks(overhead, ts) == Chunks(overhead, ts) && ts[0..] == ts;
    BucketFrom(Start(duration), overhead, ts, 0, k);
  }

  lemma TotalIs(duration: nat, overhead: nat, ts: seq<Turn>)
    requires Valid(ts)
    ensures var n := Taken(ts, 0);
            AccountAll(duration, Chunks(overhead, ts)).total == 8 * BytesIn(ts, n) + 8 * (RecordsIn(ts, n) * overhead)
  {
    AccountEither(duration, [], Chunks(overhead, ts));
    assert [] + Chunks(overhead, ts) == Chunks(overhead, ts) && ts[0..] == ts;
    TotalFrom(Start(duration), overhead, ts, 0);
    BitsAre(overhead, ts, Taken(ts, 0));
  }

  /** What a worker stores of its turns: in all, eight bits for every byte received and for every byte of TLS
      framing, until a receive brings nothing; and in the bucket of a tick those of the receives that met it
      with the timer running and no error. */
  ghost predicate Holds(d: Data, overhead: nat, ts: seq<Turn>) {
    var n := Taken(ts, 0);
    && d.total == 8 * BytesIn(ts, n) + 8 * (RecordsIn(ts, n) * overhead)
    && forall k :: Get(d.results, k) == BitsAt(overhead, ts, n, k)
  }

  lemma AccountHolds(duration: nat, overhead: nat, ts: seq<Turn>)
    requires Valid(ts)
    ensures Holds(AccountAll(duration, Chunks(overhead, ts)), overhead, ts)
  {
    TotalIs(duration, overhead, ts);
    forall k: int
      ensures Get(AccountAll(duration, Chunks(overhead, ts)).results, k) == BitsAt(overhead, ts, Taken(ts, 0), k)
    {
      BucketIs(duration, overhead, ts, k);
    }
  }

  class Download {
    const mTlsOverhead: nat
    var mResponse: int
    var synced: bool
    var results: Buckets
    var datasize_total: nat
    var datasize_slow_start: nat

    constructor (overhead: nat)
      ensures mTlsOverhead == overhead
    {
      mTlsOverhead := overhead;
      results, synced, mResponse := map[], false, 0;
    }

    function Measured(): Data
      reads this
    {
      Data(results, datasize_total, datasize_slow_start)
    }

    method Prefill(duration: nat)
      modifies this
      requires results == map[]
      ensures Measured() == Start(duration) && synced == old(synced)
    {
      datasize_total, datasize_slow_start := 0, 0;
      var i := 0;
      while i <= duration * 2
        invariant 0 <= i <= duration * 2 + 1
        invariant results == Zeros(Upto(i))
        invariant datasize_total == datasize_slow_start == 0
        invariant synced == old(synced)
      {
        results := results[i := 0];
        i := i + 1;
      }
    }

    /** The accounting block of the receive loop. */
    method Accumulate(t: Turn)
      requires mResponse == t.received >= 0
      modifies `mResponse, `results, `datasize_total, `datasize_slow_start
      ensures Measured() == Account(old(Measured()), ChunkOf(mTlsOverhead, t))
      ensures datasize_total == old(datasize_total) + 8 * (t.received + t.records * mTlsOverhead)
    {
      mResponse := mResponse + t.records * mTlsOverhead;
      mResponse := mResponse * 8;
      datasize_total := datasize_total + mResponse;
      if t.running && !t.hasError {
        results := Add(results, t.index, mResponse);
        if datasize_slow_start == 0 && t.index == 0 {
          datasize_slow_start := datasize_total - mResponse;
        }
      }
    }

    /** The receive loop stores exactly the fold of its chunks, and raises its barrier entry with the
        first receive, whatever that receive returned. */
    method Run(duration: nat, ts: seq<Turn>)
      requires Valid(ts)
      requires results == map[] && !synced
      modifies this
      ensures Measured() == AccountAll(duration, Chunks(mTlsOverhead, ts))
      ensures Holds(Measured(), mTlsOverhead, ts)
      ensures synced <==> ts != [] && ts[0].enter
    {
      Prefill(duration);
      var dataReceived := false;
      var t := 0;
      ghost var cs := Chunks(mTlsOverhead, ts);
      AccountEither(duration, [], cs);
      AccountHolds(duration, mTlsOverhead, ts);
      assert [] + cs == cs && ts[0..] == ts;
      while t < |ts| && ts[t].enter
        invariant 0 <= t <= |ts|
        invariant AccountFrom(Measured(), Chunks(mTlsOverhead, ts[t..])) == AccountAll(duration, cs)
        invariant dataReceived == synced == (t > 0) && (t > 0 ==> ts[0].enter)
      {
        ChunksFrom(mTlsOverhead, ts, t);
        mResponse := ts[t].received;
        if !dataReceived {
          synced := true;
          dataReceived := true;
        }
        if mResponse == -1 || mResponse == 0 {
          return;
        }
        AccountHead(Measured(), ChunkOf(mTlsOverhead, ts[t]), Chunks(mTlsOverhead, ts[t + 1..]));
        Accumulate(ts[t]);
        t := t + 1;
      }
      if t < |ts| {
        ChunksFrom(mTlsOverhead, ts, t);
      }
    }
  }

  // ----- what is conserved

  /** Bits received before the timer ran. */
  function Before(cs: seq<Chunk>): nat {
    if cs == [] then 0
    else
      var c := cs[|cs| - 1];
      Before(cs[..|cs| - 1]) + if c.running then 0 else c.bits
  }

  /** A chunk that was received after the start with an error flagged. */
  predicate Hidden(c: Chunk) {
    c.running && c.hasError
  }

  /** Bits received while an error was flagged: they reach the total and no bucket. */
  function Suppressed(cs: seq<Chunk>): nat {
    if cs == [] then 0
    else
      var c := cs[|cs| - 1];
      Suppressed(cs[..|cs| - 1]) + if Hidden(c) then c.bits else 0
  }

  /** Number of chunks that landed in bucket 0. */
  function FirstHits(cs: seq<Chunk>): nat {
    if cs == [] then 0
    else
      var c := cs[|cs| - 1];
      FirstHits(cs[..|cs| - 1]) + if Counted(c) && c.index == 0 then 1 else 0
  }

  /** What the timer guarantees about the shared state that successive chunks meet: it starts once,
      its tick never falls, and an error stays. Every chunk carries data. */
  ghost predicate WellTimed(cs: seq<Chunk>) {
    && (forall c | c in cs :: c.bits > 0)
    && (forall i, j | 0 <= i < j < |cs| ::
          && (cs[i].running ==> cs[j].running)
          && (cs[i].hasError ==> cs[j].hasError)
          && cs[i].index <= cs[j].index)
  }

  lemma {:induction false} NoError(cs: seq<Chunk>)
    requires forall c | c in cs :: !c.hasError
    ensures Suppressed(cs) == 0
  {
    if cs != [] {
      NoError(cs[..|cs| - 1]);
    }
  }

  lemma {:induction false} NotYetCounted(duration: nat, cs: seq<Chunk>)
    requires forall c | c in cs :: c.index == 0
    requires FirstHits(cs) == 0
    ensures Sum(AccountAll(duration, cs).results) == 0
  {
    if cs == [] {
      SumOnZero(Prefilled(duration), Prefilled(duration).Keys);
    } else {
      NotYetCounted(duration, cs[..|cs| - 1]);
    }
  }

  /** Every bit of the total was received before the start, lies in a bucket, or was suppressed. */
  lemma {:induction false} Ledger(duration: nat, cs: seq<Chunk>)
    ensures var d := AccountAll(duration, cs);
            d.total == Before(cs) + Sum(d.results) + Suppressed(cs)
  {
    if cs == [] {
      SumOnZero(Prefilled(duration), Prefilled(duration).Keys);
    } else {
      var init, c := cs[..|cs| - 1], cs[|cs| - 1];
      Ledger(duration, init);
      SumAdd(AccountAll(duration, init).results, c.index, c.bits);
    }
  }

  /** The slow-start counter: assigned by the first chunk of bucket 0, and by the second one when
      nothing had arrived before the start. */
  lemma {:induction false} SlowStart(duration: nat, cs: seq<Chunk>)
    requires WellTimed(cs)
    ensures var d := AccountAll(duration, cs);
            && (FirstHits(cs) == 0 ==> d.slowStart == 0)
            && (FirstHits(cs) >= 1 ==> Sum(d.results) > 0)
            && (FirstHits(cs) >= 1 && Before(cs) > 0 ==> d.slowStart == Before(cs))
            && (FirstHits(cs) == 1 && Before(cs) == 0 ==> d.slowStart == 0)
            && (FirstHits(cs) >= 2 && Before(cs) == 0 ==> d.slowStart > 0)
  {
    if cs != [] {
      var init, c := cs[..|cs| - 1], cs[|cs| - 1];
      SlowStart(duration, init);
      Ledger(duration, init);
      SumAdd(AccountAll(duration, init).results, c.index, c.bits);
      assert forall b | b in init :: b.index <= c.index && (b.running ==> c.running) && (b.hasError ==> c.hasError);
      if Counted(c) && c.index == 0 {
        NoError(init);
        if FirstHits(init) == 0 {
          NotYetCounted(duration, init);
        }
      }
      assert FirstHits(init) >= 1 ==> c.running by {
        if FirstHits(init) >= 1 { HitRuns(init); }
      }
      assert c.bits > 0;
    }
  }

  lemma {:induction false} HitRuns(cs: seq<Chunk>)
    requires FirstHits(cs) >= 1
    ensures exists c :: c in cs && c.running
  {
    var c := cs[|cs| - 1];
    if Counted(c) && c.index == 0 {
      assert c in cs;
    } else {
      HitRuns(cs[..|cs| - 1]);
    }
  }

  /** The reported total (slow start plus buckets) accounts for every unsuppressed bit exactly when
      data before the start and data in bucket 0 agree: some of both, or nothing before the start
      and at most one chunk in bucket 0. */
  lemma ConservedIff(duration: nat, cs: seq<Chunk>)
    requires WellTimed(cs)
    ensures var d := AccountAll(duration, cs);
            d.total == d.slowStart + Sum(d.results) + Suppressed(cs)
            <==> if Before(cs) > 0 then FirstHits(cs) >= 1 else FirstHits(cs) <= 1
  {
    Ledger(duration, cs);
    SlowStart(duration, cs);
  }

  lemma {:induction false} BeforeFirst(cs: seq<Chunk>)
    requires cs != [] && !cs[0].running && cs[0].bits > 0
    ensures Before(cs) > 0
  {
    if |cs| > 1 {
      BeforeFirst(cs[..|cs| - 1]);
    }
  }

  lemma {:induction false} SuppressedNone(cs: seq<Chunk>)
    requires forall c | c in cs :: c.bits > 0
    ensures Suppressed(cs) == 0 <==> forall c | c in cs :: !Hidden(c)
  {
    if cs != [] {
      var init, c := cs[..|cs| - 1], cs[|cs| - 1];
      assert cs == init + [c];
      SuppressedNone(init);
    }
  }

  /** What the total says and the report does not, for a worker that received before the start: if no
      chunk landed in bucket 0, all that came before the start. */
  lemma Shortfall(duration: nat, cs: seq<Chunk>)
    requires WellTimed(cs) && (cs != [] ==> Before(cs) > 0)
    ensures var d := AccountAll(duration, cs);
            d.total == d.slowStart + Sum(d.results) + Suppressed(cs) + if FirstHits(cs) == 0 then Before(cs) else 0
  {
    Ledger(duration, cs);
    SlowStart(duration, cs);
  }

  /** Taken on its own, the loop would count the first chunk of bucket 0 twice if nothing had arrived
      before the start. The start barrier excludes that. */
  lemma DoubleCount()
    ensures var d := AccountAll(1, [Chunk(8, true, false, 0), Chunk(16, true, false, 0)]);
            d.total == 24 && d.slowStart == 8 && d.results[0] == 24
  {
    var c1, c2 := Chunk(8, true, false, 0), Chunk(16, true, false, 0);
    AccountMore(1, [c1], c2);
    AccountMore(1, [], c1);
    assert [] + [c1] == [c1] && [c1] + [c2] == [c1, c2];
  }

  /** Bits that reached a bucket. */
  function CountedBits(cs: seq<Chunk>): nat {
    if cs == [] then 0
    else
      var c := cs[|cs| - 1];
      CountedBits(cs[..|cs| - 1]) + if Counted(c) then c.bits else 0
  }

  lemma {:induction false} CountedNone(cs: seq<Chunk>)
    requires forall c | c in cs :: c.bits > 0
    ensures CountedBits(cs) == 0 <==> forall c | c in cs :: !Counted(c)
  {
    if cs != [] {
      var init, c := cs[..|cs| - 1], cs[|cs| - 1];
      assert cs == init + [c];
      CountedNone(init);
    }
  }

  /** Chunks that all meet one tick only move the bucket of that tick. */
  lemma {:induction false} SameTick(duration: nat, cs: seq<Chunk>, more: seq<Chunk>, tick: nat, k: int)
    requires forall c | c in more :: c.index == tick
    ensures Get(AccountAll(duration, cs + more).results, k)
            == Get(AccountAll(duration, cs).results, k) + if k == tick then CountedBits(more) else 0
  {
    if more == [] {
      assert cs + more == cs;
    } else {
      var init, c := more[..|more| - 1], more[|more| - 1];
      assert c in more && cs + more == cs + init + [c];
      SameTick(duration, cs, init, tick, k);
      AccountMore(duration, cs + init, c);
    }
  }

  /** Buckets and slow start are whole bytes. */
  lemma {:induction false} WholeBytes(duration: nat, cs: seq<Chunk>)
    requires forall c | c in cs :: c.bits % 8 == 0
    ensures var d := AccountAll(duration, cs);
            d.total % 8 == 0 && d.slowStart % 8 == 0 && forall k | k in d.results :: d.results[k] % 8 == 0
  {
    if cs != [] {
      WholeBytes(duration, cs[..|cs| - 1]);
      assert cs[|cs| - 1] in cs;
    }
  }
}
