/** `CUploadSender::run`: windows of M bytes are cut from a buffer of S random bytes by a pointer
    that wraps around. */
module UploadSender {
  import opened NumberTheory

  /** What one turn of the send loop meets: the loop guard, the result of `send`, the stop flag. */
  datatype Turn = Turn(running: bool, hasError: bool, response: int, stop: bool)

  /** A window lies inside the buffer. */
  predicate Fits(S: nat, M: nat, p: int) {
    1 <= p && p + M <= S
  }

  /** The start of the n-th window. */
  function Window(S: nat, M: nat, n: nat): int {
    var p := if n == 0 then 1 else Window(S, M, n - 1) + M;
    if p + M > S then p + M - S else p
  }

  /** The starts of the first n windows. */
  function Windows(S: nat, M: nat, n: nat): seq<int> {
    if n == 0 then [] else Windows(S, M, n - 1) + [Window(S, M, n - 1)]
  }

  /** The loop of the sender. Every window is sent while the client runs without an error, and only the last
      one can have failed or have been followed by a stop; if the loop ends before its turns do, it has a
      reason. The pointer is unsigned; `wrapped` reports whether the subtraction ever took it below zero. */
  method Run(S: nat, M: nat, ts: seq<Turn>) returns (sent: seq<int>, wrapped: bool)
    ensures |sent| <= |ts| && sent == Windows(S, M, |sent|)
    ensures forall i | 0 <= i < |sent| :: ts[i].running && !ts[i].hasError
    ensures forall i | 0 <= i < |sent| - 1 :: ts[i].response != -1 && ts[i].response != 0 && !ts[i].stop
    ensures |sent| < |ts| ==>
              || !ts[|sent|].running || ts[|sent|].hasError
              || (|sent| > 0 && (ts[|sent| - 1].response in {-1, 0} || ts[|sent| - 1].stop))
    ensures !wrapped
  {
    var nPointer := 1;
    var t := 0;
    sent, wrapped := [], false;
    while t < |ts| && ts[t].running && !ts[t].hasError
      invariant 0 <= t <= |ts| && |sent| == t
      invariant forall i | 0 <= i < t :: ts[i].running && !ts[i].hasError
      invariant forall i | 0 <= i < t :: ts[i].response != -1 && ts[i].response != 0 && !ts[i].stop
      invariant 0 <= nPointer == if t == 0 then 1 else Window(S, M, t - 1) + M
      invariant sent == Windows(S, M, t)
      invariant !wrapped
    {
      if nPointer + M > S {
        nPointer := nPointer + M;
        wrapped := wrapped || nPointer < S;
        nPointer := nPointer - S;
      }
      sent := sent + [nPointer];
      nPointer := nPointer + M;
      t := t + 1;
      if ts[t - 1].response == -1 || ts[t - 1].response == 0 {
        break;
      }
      if ts[t - 1].stop {
        break;
      }
    }
  }

  // ----- every window lies inside the buffer exactly when S >= 2M

  lemma {:induction false} WindowFits(S: nat, M: nat, n: nat)
    requires 2 * M <= S && 1 <= S
    ensures Fits(S, M, Window(S, M, n))
  {
    if n > 0 {
      WindowFits(S, M, n - 1);
    }
  }

  /** With a smaller buffer each turn moves the pointer up, by 2M - S, until a window sticks out. */
  lemma {:induction false} WindowDrifts(S: nat, M: nat, n: nat)
    requires S < 2 * M
    requires forall j | 0 <= j <= n :: Fits(S, M, Window(S, M, j))
    ensures Window(S, M, n) >= 1 + n
  {
    assert Fits(S, M, Window(S, M, 0));
    if n > 0 {
      WindowDrifts(S, M, n - 1);
      assert Fits(S, M, Window(S, M, n - 1));
    }
  }

  lemma WindowSticksOut(S: nat, M: nat)
    requires S < 2 * M
    ensures exists n: nat :: n <= S && !Fits(S, M, Window(S, M, n))
  {
    if forall n: nat | n <= S :: Fits(S, M, Window(S, M, n)) {
      WindowDrifts(S, M, S);
    }
  }

  /** The random buffer is large enough, for a loop of any length, exactly when it holds two
      packets. */
  lemma WindowsFitIff(S: nat, M: nat)
    requires M >= 1
    ensures (forall n: nat :: Fits(S, M, Window(S, M, n))) <==> 2 * M <= S
  {
    if 2 * M <= S {
      forall n: nat ensures Fits(S, M, Window(S, M, n)) {
        WindowFits(S, M, n);
      }
    } else {
      WindowSticksOut(S, M);
    }
  }

  // ----- the windows are the fitting elements of 1, 1 + M, 1 + 2M, ... reduced into 1..S

  /** The j-th element of the progression. */
  function Offset(S: nat, M: nat, j: nat): (p: int)
    requires S >= 1
    ensures 1 <= p <= S
  {
    1 + (j * M) % S
  }

  /** The fitting ones among the first n elements, in order. */
  function Fitting(S: nat, M: nat, n: nat): seq<int>
    requires S >= 1
  {
    if n == 0 then []
    else
      var p := Offset(S, M, n - 1);
      Fitting(S, M, n - 1) + if Fits(S, M, p) then [p] else []
  }

  lemma ModNext(u: nat, M: nat, S: nat)
    requires M <= S && 1 <= S
    ensures (u + M) % S == var r := u % S + M; if r >= S then r - S else r
  {
    var q, r := u / S, u % S + M;
    assert u == q * S + u % S;
    if r >= S {
      Distribute(q, 1, S);
      ModIs(u + M, S, q + 1, r - S);
    } else {
      ModIs(u + M, S, q, r);
    }
  }

  lemma OffsetNext(S: nat, M: nat, j: nat)
    requires M <= S && 1 <= S
    ensures Offset(S, M, j + 1) == var p := Offset(S, M, j) + M; if p > S then p - S else p
  {
    Distribute(j, 1, M);
    ModNext(j * M, M, S);
  }

  /** The first n windows are exactly the fitting elements of a prefix of the progression, which
      ends at the n-th window; nothing else is dropped and the order is kept. */
  lemma {:induction false} WindowsAreFitting(S: nat, M: nat, n: nat) returns (j: nat)
    requires 2 * M <= S && 1 <= S
    ensures Fitting(S, M, j) == Windows(S, M, n)
    ensures j >= n
    ensures if n == 0 then j == 0 else j > 0 && Offset(S, M, j - 1) == Window(S, M, n - 1)
  {
    if n == 0 {
      j := 0;
    } else {
      j := WindowsAreFitting(S, M, n - 1);
      assert Offset(S, M, j) == if n == 1 then 1 else Window(S, M, n - 2) + M by {
        if n > 1 {
          WindowFits(S, M, n - 2);
          OffsetNext(S, M, j - 1);
        } else {
          ModIs(0, S, 0, 0);
        }
      }
      WindowFits(S, M, n - 1);
      if Fits(S, M, Offset(S, M, j)) {
        j := j + 1;
      } else {
        OffsetNext(S, M, j);
        assert Fitting(S, M, j + 1) == Windows(S, M, n - 1);
        j := j + 2;
      }
    }
  }

  // ----- the progression has period S / gcd(S, M)

  function Period(S: nat, M: nat): nat
    requires S >= 1
  {
    if Gcd(S, M) == 0 then 0 else S / Gcd(S, M)
  }

  lemma PeriodFacts(S: nat, M: nat) returns (m: int, x: int, y: int)
    requires S >= 1
    ensures Gcd(S, M) >= 1 && Period(S, M) >= 1
    ensures S == Gcd(S, M) * Period(S, M) && M == Gcd(S, M) * m
    ensures x * Period(S, M) + y * m == 1
  {
    var t: int;
    t, m, x, y := Bezout(S, M);
    var g := Gcd(S, M);
    assert g != 0;
    MulBound(t, g);
    ModIs(S, g, t, 0);
    Associate(g, x, t);
    Associate(g, y, m);
    Distribute(x * t, y * m, g);
    CancelLeft(g, x * t + y * m, 1);
  }

  lemma MultipleOfStep(g: int, t: int, m: int, d: int, x: int, y: int)
    requires g >= 1 && t >= 1 && x * t + y * m == 1
    ensures Divides(g * t, d * (g * m)) <==> Divides(t, d)
  {
    Associate(d, g, m);
    if Divides(g * t, d * (g * m)) {
      var c :| d * (g * m) == (g * t) * c;
      Associate(g, t, c);
      CancelLeft(g, d * m, t * c);
      Witness(t, d * m, c);
      Cancel(t, m, x, y, d);
    }
    if Divides(t, d) {
      var c :| d == t * c;
      Associate(t, c, m);
      Associate(g, t, c * m);
      Witness(g * t, d * (g * m), c * m);
    }
  }

  /** Two elements agree exactly when their positions differ by a multiple of S / gcd(S, M). So no
      offset repeats within that many consecutive elements, and no smaller period exists. */
  lemma OffsetPeriod(S: nat, M: nat, j: nat, k: nat)
    requires S >= 1
    ensures Offset(S, M, j) == Offset(S, M, k) <==> Divides(Period(S, M), j - k)
  {
    var m, x, y := PeriodFacts(S, M);
    ModShift(j, k, M, S);
    MultipleOfStep(Gcd(S, M), Period(S, M), m, j - k, x, y);
  }

  /** The position d = c * y solves d * g * m == c * g, up to a multiple of g * t. */
  lemma Solve(g: int, t: int, m: int, x: int, y: int, c: int)
    requires x * t + y * m == 1
    ensures (c * y) * (g * m) == g * c + (g * t) * (-(c * x))
  {
    Associate(c, y, g * m);
    Associate(y, g, m);
    Associate(c, g, y * m);
    Associate(g, c, x * t);
    Associate(c, x, t);
    Associate(g, t, c * x);
    assert y * m == 1 - x * t;
    Distribute(1, -(x * t), g * c);
    Distribute(1, -(x * t), c);
    assert (g * t) * (-(c * x)) == -((g * t) * (c * x));
    assert (g * c) * (-(x * t)) == -((g * c) * (x * t));
  }

  /** The position c * y reaches the offset 1 + g * c, and so does its remainder by the period. */
  lemma Reach(S: nat, M: nat, c: int, m: int, x: int, y: int)
    requires S >= 1 && 0 <= Gcd(S, M) * c < S && Period(S, M) >= 1
    requires S == Gcd(S, M) * Period(S, M) && M == Gcd(S, M) * m
    requires x * Period(S, M) + y * m == 1
    ensures ((c * y) * M) % S == Gcd(S, M) * c
  {
    var r := Gcd(S, M) * c;
    Solve(Gcd(S, M), Period(S, M), m, x, y, c);
    Witness(S, (c * y) * M - r, -(c * x));
    ModEqual((c * y) * M, r, S);
    ModIs(r, S, 0, r);
  }

  /** A position may be reduced by the period. */
  lemma ReducePosition(S: nat, M: nat, d: int, m: int, x: int, y: int)
    requires S >= 1 && Gcd(S, M) >= 1 && Period(S, M) >= 1
    requires S == Gcd(S, M) * Period(S, M) && M == Gcd(S, M) * m
    requires x * Period(S, M) + y * m == 1
    ensures (d * M) % S == ((d % Period(S, M)) * M) % S
  {
    var t := Period(S, M);
    var j := d % t;
    Witness(t, d - j, d / t);
    MultipleOfStep(Gcd(S, M), t, m, d - j, x, y);
    ModShift(d, j, M, S);
  }

  /** Positions of one period that hold the same offset are the same. */
  lemma OffsetUnique(S: nat, M: nat, j: nat, k: nat)
    requires S >= 1 && j < Period(S, M) && k < Period(S, M)
    requires Offset(S, M, j) == Offset(S, M, k)
    ensures j == k
  {
    OffsetPeriod(S, M, j, k);
    var e :| j - k == Period(S, M) * e;
    SmallMultiple(e, Period(S, M), j - k);
  }

  /** Every offset congruent to 1 modulo gcd(S, M) is reached once in each period; together with
      WindowsAreFitting, every such window that fits is sent. */
  lemma OffsetReached(S: nat, M: nat, p: int) returns (j: nat)
    requires S >= 1 && 1 <= p <= S && Divides(Gcd(S, M), p - 1)
    ensures j < Period(S, M) && Offset(S, M, j) == p
    ensures forall k: nat | k < Period(S, M) && Offset(S, M, k) == p :: k == j
  {
    var m, x, y := PeriodFacts(S, M);
    var c :| p - 1 == Gcd(S, M) * c;
    Reach(S, M, c, m, x, y);
    ReducePosition(S, M, c * y, m, x, y);
    j := (c * y) % Period(S, M);
    forall k: nat | k < Period(S, M) && Offset(S, M, k) == p ensures k == j {
      OffsetUnique(S, M, k, j);
    }
  }

  /** Within one period of the progression no two windows start at the same byte, and every
      fitting element is among the windows. */
  lemma {:induction false} FittingDistinct(S: nat, M: nat, n: nat)
    requires S >= 1 && n <= Period(S, M)
    ensures forall a, b | 0 <= a < b < |Fitting(S, M, n)| :: Fitting(S, M, n)[a] != Fitting(S, M, n)[b]
    ensures forall p :: p in Fitting(S, M, n) <==> Fits(S, M, p) && exists j: nat :: j < n && Offset(S, M, j) == p
  {
    if n > 0 {
      FittingDistinct(S, M, n - 1);
      forall j: nat | j < n - 1 ensures Offset(S, M, j) != Offset(S, M, n - 1) {
        if Offset(S, M, j) == Offset(S, M, n - 1) {
          OffsetUnique(S, M, j, n - 1);
        }
      }
    }
  }

  lemma {:induction false} FittingHas(S: nat, M: nat, k: nat, j: nat)
    requires S >= 1 && k < j && Fits(S, M, Offset(S, M, k))
    ensures Offset(S, M, k) in Fitting(S, M, j)
  {
    if k < j - 1 {
      FittingHas(S, M, k, j - 1);
    }
  }

  lemma {:induction false} WindowsAre(S: nat, M: nat, n: nat, p: int) returns (i: nat)
    requires p in Windows(S, M, n)
    ensures i < n && Window(S, M, i) == p
  {
    if p in Windows(S, M, n - 1) {
      i := WindowsAre(S, M, n - 1, p);
    } else {
      i := n - 1;
    }
  }

  /** The reduction of a multiple of M is a multiple of gcd(S, M). */
  lemma OffsetResidue(S: nat, M: nat, j: nat)
    requires S >= 1
    ensures Divides(Gcd(S, M), Offset(S, M, j) - 1)
  {
    var m, x, y := PeriodFacts(S, M);
    Associate(j, Gcd(S, M), m);
    Residue(j * M, S, Gcd(S, M), j * m, Period(S, M));
  }

  /** The windows an unlimited run sends are exactly the fitting ones that start at a byte congruent
      to 1 modulo gcd(S, M). */
  lemma WindowsExactly(S: nat, M: nat, p: int)
    requires 2 * M <= S && 1 <= S
    ensures (exists n: nat :: Window(S, M, n) == p) <==> Fits(S, M, p) && Divides(Gcd(S, M), p - 1)
  {
    if n: nat :| Window(S, M, n) == p {
      WindowFits(S, M, n);
      var j := WindowsAreFitting(S, M, n + 1);
      OffsetResidue(S, M, j - 1);
    }
    if Fits(S, M, p) && Divides(Gcd(S, M), p - 1) {
      var k := OffsetReached(S, M, p);
      var j := WindowsAreFitting(S, M, k + 1);
      FittingHas(S, M, k, j);
      var i := WindowsAre(S, M, k + 1, p);
    }
  }
}
