/** The `std::map<int, unsigned long long>` buckets of the client: values by key, iteration by
    ascending key, and the sum of all buckets. */
module OrderedMaps {

  type Buckets = map<int, nat>

  /** The value `operator[]` finds: a missing key reads as zero. */
  function Get(m: Buckets, k: int): nat {
    if k in m then m[k] else 0
  }

  /** `m[k] += v`. */
  function Add(m: Buckets, k: int, v: nat): Buckets {
    m[k := Get(m, k) + v]
  }

  /** The keys 0 to n - 1. */
  function Upto(n: nat): (s: set<int>)
    ensures forall k :: k in s <==> 0 <= k < n
  {
    if n == 0 then {} else Upto(n - 1) + {n - 1}
  }

  function Zeros(s: set<int>): Buckets {
    map k | k in s :: 0
  }

  predicate Increasing(s: seq<int>) {
    forall i, j | 0 <= i < j < |s| :: s[i] < s[j]
  }

  lemma NonEmpty(s: set<int>)
    ensures s == {} || exists x :: x in s
  {
    if forall x :: x !in s {
      assert s == {};
    }
  }

  lemma {:induction false} MinExists(s: set<int>)
    requires s != {}
    ensures exists x :: x in s && forall y | y in s :: x <= y
  {
    NonEmpty(s);
    var x :| x in s;
    if s - {x} == {} {
      assert s == {x};
    } else {
      MinExists(s - {x});
      var z :| z in s - {x} && forall y | y in s - {x} :: z <= y;
      var w := if z <= x then z else x;
      assert w in s && forall y | y in s :: w <= y by {
        forall y | y in s ensures w <= y {
          if y != x { assert y in s - {x}; }
        }
      }
    }
  }

  function Min(s: set<int>): (x: int)
    requires s != {}
    ensures x in s && forall y | y in s :: x <= y
  {
    MinExists(s);
    var x :| x in s && forall y | y in s :: x <= y;
    x
  }

  /** The order in which a range-based for loop visits the keys of a map. */
  function SortedKeys(s: set<int>): seq<int>
    decreases |s|
  {
    if s == {} then [] else [Min(s)] + SortedKeys(s - {Min(s)})
  }

  /** The iteration visits every key once, in increasing order. */
  lemma {:induction false} SortedKeysOf(s: set<int>)
    ensures Increasing(SortedKeys(s))
    ensures forall k :: k in SortedKeys(s) <==> k in s
    decreases |s|
  {
    if s != {} {
      var x := Min(s);
      var rest := SortedKeys(s - {x});
      SortedKeysOf(s - {x});
      forall i | 0 <= i < |rest| ensures x < rest[i] {
        assert rest[i] in rest;
      }
    }
  }

  /** An increasing list of the keys of a set is the iteration order: it is unique. */
  lemma {:induction false} SortedUnique(s: set<int>, keys: seq<int>)
    requires Increasing(keys)
    requires forall k :: k in keys <==> k in s
    ensures SortedKeys(s) == keys
    decreases |keys|
  {
    if keys == [] {
      assert forall k :: k !in s;
    } else {
      assert keys[0] in keys;
      assert Min(s) == keys[0] by {
        var x := Min(s);
        assert x in keys;
        var i :| 0 <= i < |keys| && keys[i] == x;
      }
      var rest := keys[1..];
      forall k ensures k in rest <==> k in s - {keys[0]} {
        if k in s && k != keys[0] {
          var i :| 0 <= i < |keys| && keys[i] == k;
          assert rest[i - 1] == k;
        }
      }
      SortedUnique(s - {keys[0]}, rest);
      assert keys == [keys[0]] + rest;
    }
  }

  /** The sum of the buckets under the keys of s. */
  ghost function SumOn(m: Buckets, s: set<int>): nat
    decreases |s|
  {
    if s == {} then 0 else
      var x := Min(s);
      Get(m, x) + SumOn(m, s - {x})
  }

  /** The sum of all buckets. */
  ghost function Sum(m: Buckets): nat {
    SumOn(m, m.Keys)
  }

  /** The order of summation does not matter: any member may be taken out first. */
  lemma {:induction false} SumOnRemove(m: Buckets, s: set<int>, k: int)
    requires k in s
    ensures SumOn(m, s) == Get(m, k) + SumOn(m, s - {k})
    decreases |s|
  {
    var x := Min(s);
    if x != k {
      SumOnRemove(m, s - {x}, k);
      SumOnRemove(m, s - {k}, x);
      assert s - {x} - {k} == s - {k} - {x};
    }
  }

  lemma {:induction false} SumOnAgree(m: Buckets, m': Buckets, s: set<int>)
    requires forall k | k in s :: Get(m, k) == Get(m', k)
    ensures SumOn(m, s) == SumOn(m', s)
    decreases |s|
  {
    if s != {} {
      SumOnAgree(m, m', s - {Min(s)});
    }
  }

  lemma {:induction false} SumOnSplit(m: Buckets, a: set<int>, b: set<int>)
    requires a !! b
    ensures SumOn(m, a + b) == SumOn(m, a) + SumOn(m, b)
    decreases |a|
  {
    if a == {} {
      assert a + b == b;
    } else {
      var x := Min(a);
      SumOnRemove(m, a + b, x);
      assert a + b - {x} == (a - {x}) + b;
      SumOnSplit(m, a - {x}, b);
    }
  }

  /** Keys outside the map add nothing. */
  lemma {:induction false} SumOnZero(m: Buckets, s: set<int>)
    requires forall k | k in s :: Get(m, k) == 0
    ensures SumOn(m, s) == 0
    decreases |s|
  {
    if s != {} {
      SumOnZero(m, s - {Min(s)});
    }
  }

  lemma SumOnBound(m: Buckets, s: set<int>, k: int)
    requires k in s
    ensures Get(m, k) <= SumOn(m, s)
  {
    SumOnRemove(m, s, k);
  }

  lemma SumWiden(m: Buckets, s: set<int>)
    requires m.Keys <= s
    ensures SumOn(m, s) == Sum(m)
  {
    var extra := s - m.Keys;
    SumOnSplit(m, m.Keys, extra);
    SumOnZero(m, extra);
    assert m.Keys + extra == s;
  }

  lemma SumUpdate(m: Buckets, k: int, v: nat)
    ensures Sum(m[k := v]) + Get(m, k) == Sum(m) + v
  {
    var m' := m[k := v];
    var s := m.Keys + {k};
    assert m'.Keys == s;
    SumOnRemove(m', s, k);
    SumOnRemove(m, s, k);
    SumOnAgree(m, m', s - {k});
    SumWiden(m, s);
  }

  lemma SumAdd(m: Buckets, k: int, v: nat)
    ensures Sum(Add(m, k, v)) == Sum(m) + v
  {
    SumUpdate(m, k, Get(m, k) + v);
  }

  /** `m[k] = 0` for every k of a window, whatever was there before. */
  function Clear(m: Buckets, window: set<int>): Buckets {
    m + Zeros(window)
  }

  lemma ClearNone(m: Buckets)
    ensures Clear(m, {}) == m
  {
  }

  lemma ClearOneMore(m: Buckets, window: set<int>, k: int)
    ensures Clear(m, window)[k := 0] == Clear(m, window + {k})
  {
  }

  lemma SumClear(m: Buckets, window: set<int>)
    ensures Sum(Clear(m, window)) + SumOn(m, window) == Sum(m)
  {
    var m' := Clear(m, window);
    var s := m.Keys + window;
    assert m'.Keys == s;
    SumOnSplit(m', s - window, window);
    SumOnSplit(m, s - window, window);
    assert s - window + window == s;
    SumOnZero(m', window);
    SumOnAgree(m, m', s - window);
    SumWiden(m, s);
  }

  ghost function SumSeq(xs: seq<nat>): nat {
    if xs == [] then 0 else SumSeq(xs[..|xs| - 1]) + xs[|xs| - 1]
  }

  lemma {:induction false} SumSeqConcat(xs: seq<nat>, ys: seq<nat>)
    ensures SumSeq(xs + ys) == SumSeq(xs) + SumSeq(ys)
    decreases |ys|
  {
    if ys == [] {
      assert xs + ys == xs;
    } else {
      assert (xs + ys)[..|xs + ys| - 1] == xs + ys[..|ys| - 1];
      SumSeqConcat(xs, ys[..|ys| - 1]);
    }
  }

  /** The values met when the keys are visited in the order given. */
  function Values(m: Buckets, keys: seq<int>): (vs: seq<nat>)
    ensures |vs| == |keys|
    ensures forall i | 0 <= i < |keys| :: vs[i] == Get(m, keys[i])
  {
    seq(|keys|, i requires 0 <= i < |keys| => Get(m, keys[i]))
  }

  function Elements(keys: seq<int>): set<int> {
    set k | k in keys
  }

  lemma KeysWithoutLast(keys: seq<int>)
    requires Increasing(keys) && keys != []
    ensures Elements(keys) - {keys[|keys| - 1]} == Elements(keys[..|keys| - 1])
  {
    var n := |keys| - 1;
    var init := keys[..n];
    forall k ensures k in keys && k != keys[n] <==> k in init {
      if k in keys && k != keys[n] {
        var i :| 0 <= i < |keys| && keys[i] == k;
        assert init[i] == k;
      }
    }
  }

  /** Visiting each key once, in any increasing order, sums the buckets. */
  lemma {:induction false} SumValues(m: Buckets, keys: seq<int>)
    requires Increasing(keys)
    ensures SumSeq(Values(m, keys)) == SumOn(m, Elements(keys))
    decreases |keys|
  {
    if keys != [] {
      var n := |keys| - 1;
      SumValues(m, keys[..n]);
      assert Values(m, keys)[..n] == Values(m, keys[..n]);
      KeysWithoutLast(keys);
      assert keys[n] in keys;
      SumOnRemove(m, Elements(keys), keys[n]);
    }
  }

  // ----- the iteration order of a set and of a larger one

  lemma {:induction false} SortedLength(s: set<int>)
    ensures |SortedKeys(s)| == |s|
    decreases |s|
  {
    if s != {} {
      SortedLength(s - {Min(s)});
    }
  }

  lemma {:induction false} SubsetLength(a: set<int>, b: set<int>)
    requires a <= b
    ensures |a| <= |b|
    decreases |a|
  {
    if a != {} {
      var x := Min(a);
      SubsetLength(a - {x}, b - {x});
    }
  }

  lemma SortedLonger(a: set<int>, b: set<int>)
    requires a <= b
    ensures |SortedKeys(a)| <= |SortedKeys(b)|
  {
    SortedLength(a);
    SortedLength(b);
    SubsetLength(a, b);
  }

  /** If x and y agree before i, the i-th of y is at most any element of y that x has at i. */
  lemma AtLeast(x: seq<int>, y: seq<int>, i: nat)
    requires Increasing(x) && Increasing(y) && i < |x| && i < |y|
    requires forall j | 0 <= j < i :: x[j] == y[j]
    ensures x[i] in y ==> y[i] <= x[i]
  {
    assert forall j | 0 <= j < i :: y[j] == x[j] < x[i];
    if x[i] in y {
      var p :| 0 <= p < |y| && y[p] == x[i];
    }
  }

  /** Keys added above a bound do not move those up to it. */
  lemma {:induction false} SortedAgree(a: set<int>, b: set<int>, bound: int, i: nat)
    requires a <= b && forall k | k in b && k !in a :: k > bound
    requires i < |SortedKeys(a)| && i < |SortedKeys(b)|
    requires SortedKeys(a)[i] <= bound || SortedKeys(b)[i] <= bound
    ensures SortedKeys(a)[i] == SortedKeys(b)[i]
  {
    SortedKeysOf(a);
    SortedKeysOf(b);
    var x, y := SortedKeys(a), SortedKeys(b);
    forall j | 0 <= j < i ensures x[j] == y[j] {
      SortedAgree(a, b, bound, j);
    }
    AtLeast(x, y, i);
    AtLeast(y, x, i);
    assert x[i] in x && y[i] in y;
  }
}
