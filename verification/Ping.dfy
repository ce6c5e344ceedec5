/** `Ping::run`: echo requests over UDP. The first one warms up the path and is discarded; each of
    the others counts as a reply, a payload error or a missing reply. */
module Ping {
  import opened OrderedMaps

  /** The result of `recvfrom`: nothing within a second, or a payload and the round-trip time. */
  datatype Reply = Lost | Mirrored(payload: seq<int>, elapsed: nat, stamp: nat)

  /** One turn of the loop: whether the client still runs, what was sent, and what came back. */
  datatype Turn = Turn(running: bool, sent: seq<int>, reply: Reply)

  datatype Verdict = Replied | Missed | Corrupted

  /** A reply is accepted when every byte of it mirrors the byte sent; a shorter reply, even an empty
      one, can be accepted. */
  ghost predicate Mirrors(sent: seq<int>, payload: seq<int>)
    requires |payload| <= |sent|
  {
    payload <= sent
  }

  ghost predicate Valid(ts: seq<Turn>) {
    forall t | t in ts && t.reply.Mirrored? :: |t.reply.payload| <= |t.sent|
  }

  ghost function Judge(t: Turn): Verdict
    requires t.reply.Mirrored? ==> |t.reply.payload| <= |t.sent|
  {
    if t.reply.Lost? then Missed else if Mirrors(t.sent, t.reply.payload) then Replied else Corrupted
  }

  /** How many turns the loop makes, having made n: at most `limit`, and none once the client has
      stopped. */
  function Made(ts: seq<Turn>, limit: nat, n: nat): (m: nat)
    requires n <= |ts| && n <= limit
    ensures n <= m <= |ts| && m <= limit
    ensures forall i | n <= i < m :: ts[i].running
    ensures m == |ts| || m == limit || !ts[m].running
    decreases |ts| - n
  {
    if n == |ts| || n == limit || !ts[n].running then n else Made(ts, limit, n + 1)
  }

  /** The counters of the loop, the stored round-trip times and their timestamps. */
  datatype Counters = Counters(replies: nat, missing: nat, errors: nat, times: Buckets, stamps: Buckets)

  const None := Counters(0, 0, 0, map[], map[])

  ghost function CountTurn(c: Counters, i: nat, t: Turn): Counters
    requires t.reply.Mirrored? ==> |t.reply.payload| <= |t.sent|
  {
    match Judge(t)
    case Missed => c.(missing := c.missing + 1)
    case Corrupted => c.(errors := c.errors + 1)
    case Replied =>
      c.(replies := c.replies + 1, times := Add(c.times, i, t.reply.elapsed), stamps := c.stamps[i := t.reply.stamp])
  }

  /** The counters after n turns; the first one is the warm-up. */
  ghost function CountTo(ts: seq<Turn>, n: nat): Counters
    requires Valid(ts) && n <= |ts|
  {
    if n <= 1 then None else CountTurn(CountTo(ts, n - 1), n, ts[n - 1])
  }

  /** Which of the first n turns, without the warm-up, brought no reply. */
  function LostTurns(ts: seq<Turn>, n: nat): set<int>
    requires n <= |ts|
  {
    set j | 1 <= j < n && ts[j].reply.Lost?
  }

  /** Those whose payload mirrors what was sent, and those whose payload does not. */
  function MirroredTurns(ts: seq<Turn>, n: nat): set<int>
    requires n <= |ts|
  {
    set j | 1 <= j < n && ts[j].reply.Mirrored? && ts[j].reply.payload <= ts[j].sent
  }

  function WrongTurns(ts: seq<Turn>, n: nat): set<int>
    requires n <= |ts|
  {
    set j | 1 <= j < n && ts[j].reply.Mirrored? && !(ts[j].reply.payload <= ts[j].sent)
  }

  lemma TurnsMore(ts: seq<Turn>, n: nat)
    requires 1 < n <= |ts|
    ensures var here := {n - 1};
            && LostTurns(ts, n) == LostTurns(ts, n - 1) + (if ts[n - 1].reply.Lost? then here else {})
            && MirroredTurns(ts, n)
               == MirroredTurns(ts, n - 1) + (if n - 1 in MirroredTurns(ts, n) then here else {})
            && WrongTurns(ts, n) == WrongTurns(ts, n - 1) + (if n - 1 in WrongTurns(ts, n) then here else {})
  {
  }

  /** Every turn after the warm-up is counted once: a turn without a reply as missing, one with a payload
      that mirrors what was sent as a reply, and any other as an error. */
  lemma {:induction false} Accounting(ts: seq<Turn>, n: nat)
    requires Valid(ts) && n <= |ts|
    ensures var c := CountTo(ts, n);
            && c.missing == |LostTurns(ts, n)| && c.replies == |MirroredTurns(ts, n)| && c.errors == |WrongTurns(ts, n)|
            && c.replies + c.missing + c.errors == if n == 0 then 0 else n - 1
  {
    if n > 1 {
      Accounting(ts, n - 1);
      TurnsMore(ts, n);
    } else {
      assert LostTurns(ts, n) == MirroredTurns(ts, n) == WrongTurns(ts, n) == {};
    }
  }

  /** The k-th turn came after the warm-up and its reply mirrored what was sent. */
  ghost predicate Accepted(ts: seq<Turn>, k: int)
    requires Valid(ts)
  {
    2 <= k <= |ts| && ts[k - 1] in ts && ts[k - 1].reply.Mirrored? && Mirrors(ts[k - 1].sent, ts[k - 1].reply.payload)
  }

  /** The stored keys are those of the accepted replies, all in 2..n; each is stored once, so no
      stored time is the sum of two, and each has its timestamp under the same key. */
  lemma {:induction false} Stored(ts: seq<Turn>, n: nat)
    requires Valid(ts) && n <= |ts|
    ensures forall k :: k in CountTo(ts, n).times <==> k <= n && Accepted(ts, k)
    ensures forall k :: k in CountTo(ts, n).stamps <==> k <= n && Accepted(ts, k)
    ensures |CountTo(ts, n).times| == CountTo(ts, n).replies
  {
    if n > 1 {
      Stored(ts, n - 1);
      assert n !in CountTo(ts, n - 1).times;
    }
  }

  lemma {:induction false} StoredValue(ts: seq<Turn>, n: nat, k: nat)
    requires Valid(ts) && n <= |ts| && k <= n && Accepted(ts, k)
    ensures var c, reply := CountTo(ts, n), ts[k - 1].reply;
            Get(c.times, k) == reply.elapsed && Get(c.stamps, k) == reply.stamp
  {
    if k < n {
      StoredValue(ts, n - 1, k);
    } else {
      Stored(ts, n - 1);
      assert n !in CountTo(ts, n - 1).times;
    }
  }

  class Ping {
    const mPingQuery: nat
    const nPingTarget: nat
    var nReplies: nat
    var nMissing: nat
    var nErrors: nat
    var results: Buckets
    var results_timestamp: Buckets
    var i: nat

    /** One query more than configured is made, to make up for the warm-up. */
    constructor (query: nat)
      ensures mPingQuery == query + 1 && nPingTarget == query
      ensures results == map[] && results_timestamp == map[]
    {
      mPingQuery := query + 1;
      nPingTarget := query;
      results, results_timestamp := map[], map[];
    }

    function Counted(): Counters
      reads this
    {
      Counters(nReplies, nMissing, nErrors, results, results_timestamp)
    }

    /** Compares the payload byte by byte, without leaving the loop early. */
    method Verify(sent: seq<int>, payload: seq<int>) returns (mirroredPayloadVerified: bool)
      requires |payload| <= |sent|
      ensures mirroredPayloadVerified <==> Mirrors(sent, payload)
    {
      mirroredPayloadVerified := true;
      var j := 0;
      while j < |payload|
        invariant 0 <= j <= |payload|
        invariant mirroredPayloadVerified <==> payload[..j] == sent[..j]
      {
        if payload[j] != sent[j] {
          mirroredPayloadVerified := false;
        }
        assert payload[..j + 1] == payload[..j] + [payload[j]] && sent[..j + 1] == sent[..j] + [sent[j]];
        j := j + 1;
      }
    }

    method Count(t: Turn)
      requires t.reply.Mirrored? ==> |t.reply.payload| <= |t.sent|
      modifies this
      ensures i == old(i) && Counted() == CountTurn(old(Counted()), i, t)
    {
      match t.reply
      case Lost => nMissing := nMissing + 1;
      case Mirrored(payload, elapsed, stamp) =>
        var mirroredPayloadVerified := Verify(t.sent, payload);
        if !mirroredPayloadVerified {
          nErrors := nErrors + 1;
        } else {
          nReplies := nReplies + 1;
          if i !in results {
            results := results[i := elapsed];
          } else {
            results := results[i := results[i] + elapsed];
          }
          results_timestamp := results_timestamp[i := stamp];
        }
    }

    /** The loop. `i` ends one above the number of turns made. */
    method Run(ts: seq<Turn>)
      requires Valid(ts) && results == map[] && results_timestamp == map[]
      modifies this
      ensures var n := Made(ts, mPingQuery, 0);
              && i == n + 1 && Counted() == CountTo(ts, n)
              && nMissing == |LostTurns(ts, n)| && nReplies == |MirroredTurns(ts, n)| && nErrors == |WrongTurns(ts, n)|
    {
      nErrors, nMissing, nReplies := 0, 0, 0;
      i := 1;
      var firstResponse := true;
      while i - 1 < |ts| && ts[i - 1].running && i <= mPingQuery
        invariant 1 <= i <= |ts| + 1 && i <= mPingQuery + 1
        invariant Made(ts, mPingQuery, 0) == Made(ts, mPingQuery, i - 1)
        invariant firstResponse <==> i == 1
        invariant Counted() == CountTo(ts, i - 1)
      {
        assert ts[i - 1] in ts;
        if firstResponse {
          firstResponse := false;
        } else {
          Count(ts[i - 1]);
        }
        i := i + 1;
      }
      Accounting(ts, i - 1);
    }
  }

  // ----- progress and duration

  /** The reported progress of a measurement whose loop has made n turns. */
  ghost function Progress(ts: seq<Turn>, n: nat, target: nat): real
    requires Valid(ts) && n <= |ts| && target > 0
  {
    var c := CountTo(ts, n);
    (c.replies + c.missing + c.errors) as real / target as real
  }

  /** Progress stays within [0, 1], never falls, and is 1 exactly when the loop has made all turns. */
  lemma ProgressComplete(ts: seq<Turn>, n: nat, m: nat, query: nat)
    requires Valid(ts) && n <= m <= |ts| && m <= query + 1 && query > 0
    ensures 0.0 <= Progress(ts, n, query) <= Progress(ts, m, query) <= 1.0
    ensures Progress(ts, m, query) == 1.0 <==> m == query + 1
  {
    Accounting(ts, n);
    Accounting(ts, m);
    var a, b := if n == 0 then 0 else n - 1, if m == 0 then 0 else m - 1;
    Ratio(a, b, query);
  }

  lemma MulMonotone(p: real, q: real, d: real)
    requires d > 0.0
    ensures p < q ==> p * d < q * d
    ensures q < p ==> q * d < p * d
  {
  }

  lemma Quotients(x: real, y: real, d: real)
    requires d > 0.0
    ensures x <= y <==> x / d <= y / d
    ensures d / d == 1.0 && 0.0 / d == 0.0
  {
    assert x / d * d == x && y / d * d == y;
    MulMonotone(x / d, y / d, d);
  }

  lemma Ratio(a: nat, b: nat, q: nat)
    requires a <= b <= q && q > 0
    ensures 0.0 <= a as real / q as real <= b as real / q as real <= 1.0
    ensures b as real / q as real == 1.0 <==> b == q
  {
    var d := q as real;
    Quotients(0.0, a as real, d);
    Quotients(a as real, b as real, d);
    Quotients(b as real, d, d);
    Quotients(d, b as real, d);
  }

  /** `MEASUREMENT_DURATION` of the ping test, in seconds: the whole part of 1.65 per turn. */
  function Duration(query: nat): (d: nat)
    ensures 100 * d <= 165 * (query + 1) < 100 * (d + 1)
  {
    (query + 1) * 165 / 100
  }
}
