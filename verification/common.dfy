/** Shared vocabulary: failure-carrying results, extended reals for the
    `float('inf')` and NaN values the metrics can produce, small real helpers,
    sequence sums and filters, and association lists that stand for Python
    dictionaries (insertion-ordered, assignment overwrites in place). */
module Common {

  datatype Option<+T> = None | Some(value: T) {
    function GetOr(default: T): T {
      match this
      case Some(v) => v
      case None => default
    }
  }

  /** The Python exception a modelled operation would raise. */
  datatype Error =
    | ZeroDivision
    | ValueError(reason: string)
    | AttributeError(name: string)
    | NameError(name: string)
    | IndexError
    | KeyError(key: string)
    | TypeError(reason: string)

  datatype Result<+T> = Ok(value: T) | Err(error: Error) {
    predicate IsFailure() { Err? }
    function PropagateFailure<U>(): Result<U>
      requires Err?
    {
      Err(error)
    }
    function Extract(): T
      requires Ok?
    {
      value
    }
  }

  /** A float as the source can produce it: a finite value, `inf`, `-inf`
      or `nan`. */
  datatype ExtReal = Finite(v: real) | PosInf | NegInf | NaN

  function Min(a: real, b: real): (r: real)
    ensures r <= a && r <= b
    ensures r == a || r == b
  {
    if a <= b then a else b
  }

  function Max(a: real, b: real): (r: real)
    ensures r >= a && r >= b
    ensures r == a || r == b
  {
    if a >= b then a else b
  }

  function Abs(x: real): (r: real)
    ensures r >= 0.0
    ensures r == x || r == -x
  {
    if x < 0.0 then -x else x
  }

  /** `a / b` for a non-zero divisor, known by what it multiplies back to. */
  function Quotient(a: real, b: real): (q: real)
    requires b != 0.0
    ensures q * b == a
  {
    a / b
  }

  /** `total / n` for a positive count, and 0 for none. */
  function Average(total: real, n: nat): (a: real)
    ensures n > 0 ==> a * (n as real) == total
    ensures n == 0 ==> a == 0.0
  {
    if n > 0 then total / (n as real) else 0.0
  }

  function Sum(s: seq<real>): real
  {
    if |s| == 0 then 0.0 else Sum(s[..|s| - 1]) + s[|s| - 1]
  }

  lemma {:induction false} SumAppend(s: seq<real>, t: seq<real>)
    ensures Sum(s + t) == Sum(s) + Sum(t)
    decreases |t|
  {
    if |t| == 0 {
      assert s + t == s;
    } else {
      assert (s + t)[..|s + t| - 1] == s + t[..|t| - 1];
      SumAppend(s, t[..|t| - 1]);
    }
  }

  lemma {:induction false} SumNonNegative(s: seq<real>)
    requires forall i :: 0 <= i < |s| ==> s[i] >= 0.0
    ensures Sum(s) >= 0.0
    decreases |s|
  {
    if |s| > 0 {
      SumNonNegative(s[..|s| - 1]);
    }
  }

  function Mean(xs: seq<real>): real
    requires |xs| > 0
  {
    Sum(xs) / (|xs| as real)
  }

  lemma MeanTimesLength(xs: seq<real>)
    requires |xs| > 0
    ensures Mean(xs) * (|xs| as real) == Sum(xs)
    ensures Sum(xs) >= 0.0 ==> Mean(xs) >= 0.0
  {
  }

  function SquaredDeviations(xs: seq<real>, m: real): (r: seq<real>)
    ensures |r| == |xs|
    ensures forall i :: 0 <= i < |r| ==> r[i] >= 0.0
  {
    var r := seq(|xs|, i requires 0 <= i < |xs| => (xs[i] - m) * (xs[i] - m));
    assert forall i :: 0 <= i < |r| ==> r[i] >= 0.0 by {
      forall i | 0 <= i < |r| ensures r[i] >= 0.0 {
        SquareNonNegative(xs[i] - m);
      }
    }
    r
  }

  lemma SquareNonNegative(x: real)
    ensures x * x >= 0.0
  {
    if x < 0.0 {
      assert x * x == (-x) * (-x);
    }
  }

  /** The population variance of a non-empty sample is never negative. */
  function Variance(xs: seq<real>): (v: real)
    requires |xs| > 0
    ensures v >= 0.0
  {
    var sq := SquaredDeviations(xs, Mean(xs));
    SumNonNegative(sq);
    Sum(sq) / (|xs| as real)
  }

  /** A fraction `e` = `alpha * d` with `alpha` in [0, 1] lies between 0
      and `d`. */
  lemma FractionBetween(alpha: real, d: real, e: real)
    requires 0.0 <= alpha <= 1.0 && e == alpha * d
    ensures d >= 0.0 ==> 0.0 <= e <= d
    ensures d <= 0.0 ==> d <= e <= 0.0
    ensures alpha == 1.0 ==> e == d
    ensures alpha == 0.0 ==> e == 0.0
  {
    if d >= 0.0 {
      MulLeMono(0.0, alpha, d);
      MulLeMono(alpha, 1.0, d);
    } else {
      MulLeMono(0.0, alpha, -d);
      MulLeMono(alpha, 1.0, -d);
      assert alpha * d == -(alpha * (-d));
    }
  }

  /** Multiplying both sides of `a <= b` by a non-negative factor. */
  lemma MulLeMono(a: real, b: real, w: real)
    requires a <= b && 0.0 <= w
    ensures a * w <= b * w
  {
    assert b * w - a * w == (b - a) * w;
  }

  /** The same with a positive factor and strict inequality. */
  lemma MulLtMono(a: real, b: real, w: real)
    requires a < b && 0.0 < w
    ensures a * w < b * w
  {
    assert b * w - a * w == (b - a) * w;
  }

  /** Python's `max(...)` over a non-empty list: the largest value, which
      is one of them. */
  function MaxOf(xs: seq<real>): (m: real)
    requires |xs| > 0
    ensures m in xs && forall i :: 0 <= i < |xs| ==> xs[i] <= m
  {
    if |xs| == 1 then xs[0]
    else
      var rest := MaxOf(xs[1..]);
      assert forall i :: 1 <= i < |xs| ==> xs[i] == xs[1..][i - 1];
      if xs[0] >= rest then xs[0] else rest
  }

  /** Python's `min(...)` over a non-empty list: the smallest value, which
      is one of them. */
  function MinOf(xs: seq<real>): (m: real)
    requires |xs| > 0
    ensures m in xs && forall i :: 0 <= i < |xs| ==> m <= xs[i]
  {
    if |xs| == 1 then xs[0]
    else
      var rest := MinOf(xs[1..]);
      assert forall i :: 1 <= i < |xs| ==> xs[i] == xs[1..][i - 1];
      if xs[0] <= rest then xs[0] else rest
  }

  /** Cancelling a positive factor from both sides of `x * q <= y * q`. */
  lemma MulLeCancel(x: real, y: real, q: real)
    requires q > 0.0 && x * q <= y * q
    ensures x <= y
  {
    assert y * q - x * q == (y - x) * q;
  }

  /** Two values in `[lo, hi]` weighted by `qa` and `qb` add up to between
      `lo` and `hi` times the total weight `t`. */
  lemma WeightedBounds(lo: real, hi: real, a: real, qa: real, b: real, qb: real, t: real)
    requires lo <= a <= hi && lo <= b <= hi && qa >= 0.0 && qb >= 0.0 && t == qa + qb
    ensures lo * t <= a * qa + b * qb <= hi * t
  {
    MulLeMono(lo, a, qa);
    MulLeMono(lo, b, qb);
    MulLeMono(a, hi, qa);
    MulLeMono(b, hi, qb);
    Distributes(lo, qa, qb, t);
    Distributes(hi, qa, qb, t);
  }

  /** A weighted average of two values in a range stays in the range. */
  lemma WeightedBetween(lo: real, hi: real, a: real, qa: real, b: real, qb: real, w: real, t: real)
    requires lo <= a <= hi && lo <= b <= hi && qa >= 0.0 && qb >= 0.0 && t == qa + qb && t > 0.0
    requires w * t == a * qa + b * qb
    ensures lo <= w <= hi
  {
    WeightedBounds(lo, hi, a, qa, b, qb, t);
    MulLeCancel(lo, w, t);
    MulLeCancel(w, hi, t);
  }

  /** Scaling a sum of two parts. */
  lemma Distributes(x: real, a: real, b: real, q: real)
    requires q == a + b
    ensures x * q == x * a + x * b
  {
  }

  /** The population variance of a constant series is 0. */
  lemma {:induction false} ConstantVarianceZero(xs: seq<real>)
    requires |xs| > 0 && forall i :: 0 <= i < |xs| ==> xs[i] == xs[0]
    ensures Variance(xs) == 0.0
  {
    assert xs == seq(|xs|, _ => xs[0]);
    SumConstant(|xs|, xs[0]);
    MeanTimesLength(xs);
    assert Mean(xs) == xs[0];
    var sq := SquaredDeviations(xs, Mean(xs));
    forall i | 0 <= i < |xs|
      ensures sq[i] == 0.0
    {
      assert xs[i] - Mean(xs) == 0.0;
    }
    assert sq == seq(|xs|, _ => 0.0);
    SumConstant(|xs|, 0.0);
  }

  /** A sequence of `n` copies of `x` sums to `n * x`. */
  lemma {:induction false} SumConstant(n: nat, x: real)
    ensures Sum(seq(n, _ => x)) == (n as real) * x
    decreases n
  {
    if n > 0 {
      assert seq(n, _ => x)[..n - 1] == seq(n - 1, _ => x);
      SumConstant(n - 1, x);
    }
  }

  /** A total split into equal parts adds back up to the total. */
  lemma SumOfEqualParts(qs: seq<real>, total: real)
    requires |qs| > 0
    requires forall i :: 0 <= i < |qs| ==> qs[i] == total / (|qs| as real)
    ensures Sum(qs) == total
  {
    var n := |qs|;
    var part := total / (n as real);
    assert qs == seq(n, _ => part);
    SumConstant(n, part);
    assert (n as real) * part == total;
  }

  /** Python's `s[-k:]` for any integer `k`: the last `k` items for positive
      `k`, everything for `k == 0` (as `-0 == 0`), and everything after the
      first `-k` items for negative `k`. Always a suffix. */
  function TailSlice<T>(s: seq<T>, k: int): (r: seq<T>)
    ensures k > 0 ==> |r| == if k < |s| then k else |s|
    ensures k == 0 ==> r == s
    ensures k < 0 ==> |r| == if -k < |s| then |s| + k else 0
    ensures r == s[|s| - |r|..]
  {
    if k > 0 then (if k >= |s| then s else s[|s| - k..])
    else if k == 0 then s
    else if -k >= |s| then []
    else s[-k..]
  }

  /** The growth `(next - prev) / prev` from a non-zero value. */
  function Growth(prev: real, next: real): (g: real)
    requires prev != 0.0
    ensures g * prev == next - prev
  {
    (next - prev) / prev
  }

  /** The simple returns `(x[i] - x[i-1]) / x[i-1]` of a series; a zero
      previous value is a `ZeroDivisionError`. */
  function Returns(xs: seq<real>): (r: Result<seq<real>>)
    ensures r.Err? <==> exists i :: 0 <= i < |xs| - 1 && xs[i] == 0.0
    ensures r.Err? ==> r.error == ZeroDivision
    ensures r.Ok? ==> |r.value| == if |xs| < 2 then 0 else |xs| - 1
    ensures r.Ok? ==> forall i :: 0 <= i < |r.value| ==> xs[i] != 0.0 && r.value[i] == Growth(xs[i], xs[i + 1])
  {
    if |xs| < 2 then Ok([])
    else if exists i :: 0 <= i < |xs| - 1 && xs[i] == 0.0 then Err(ZeroDivision)
    else Ok(seq(|xs| - 1, i requires 0 <= i < |xs| - 1 => Growth(xs[i], xs[i + 1])))
  }

  function Filter<T>(s: seq<T>, p: T -> bool): (r: seq<T>)
    ensures |r| <= |s|
    ensures forall x :: x in r ==> x in s && p(x)
    ensures forall x :: x in s && p(x) ==> x in r
  {
    if |s| == 0 then []
    else if p(s[0]) then [s[0]] + Filter(s[1..], p)
    else Filter(s[1..], p)
  }

  function Count<T>(s: seq<T>, p: T -> bool): (n: nat)
    ensures n <= |s|
  {
    if |s| == 0 then 0
    else (if p(s[0]) then 1 else 0) + Count(s[1..], p)
  }

  lemma {:induction false} CountIsFilterLength<T>(s: seq<T>, p: T -> bool)
    ensures Count(s, p) == |Filter(s, p)|
    decreases |s|
  {
    if |s| > 0 {
      CountIsFilterLength(s[1..], p);
    }
  }

  /** Counting over a sequence extended at the back adds the last element's
      contribution; `Count` itself recurses from the front. */
  lemma {:induction false} CountSnoc<T>(s: seq<T>, x: T, p: T -> bool)
    ensures Count(s + [x], p) == Count(s, p) + (if p(x) then 1 else 0)
    decreases |s|
  {
    if |s| == 0 {
      assert s + [x] == [x];
    } else {
      assert (s + [x])[1..] == s[1..] + [x];
      CountSnoc(s[1..], x, p);
    }
  }

  /** Filtering by a predicate and by its negation splits a sequence without
      losing or inventing elements. */
  lemma {:induction false} FilterPartition<T>(s: seq<T>, p: T -> bool, q: T -> bool)
    requires forall x :: q(x) == !p(x)
    ensures |Filter(s, p)| + |Filter(s, q)| == |s|
    ensures multiset(Filter(s, p)) + multiset(Filter(s, q)) == multiset(s)
    decreases |s|
  {
    if |s| > 0 {
      FilterPartition(s[1..], p, q);
      assert s == [s[0]] + s[1..];
    }
  }

  // ---------------------------------------------------------------------------
  // Association lists: a Python dict as the ordered list of its items.
  // ---------------------------------------------------------------------------

  predicate HasKey<K(==), V>(m: seq<(K, V)>, k: K)
  {
    exists i :: 0 <= i < |m| && m[i].0 == k
  }

  predicate DistinctKeys<K(==), V>(m: seq<(K, V)>)
  {
    forall i, j :: 0 <= i < j < |m| ==> m[i].0 != m[j].0
  }

  function Keys<K(==), V>(m: seq<(K, V)>): (r: seq<K>)
    ensures |r| == |m|
    ensures forall i :: 0 <= i < |m| ==> r[i] == m[i].0
  {
    seq(|m|, i requires 0 <= i < |m| => m[i].0)
  }

  function Lookup<K(==), V>(m: seq<(K, V)>, k: K): (r: Option<V>)
    ensures r.Some? <==> HasKey(m, k)
    ensures r.Some? ==> exists i :: 0 <= i < |m| && m[i] == (k, r.value)
  {
    if |m| == 0 then None
    else if m[0].0 == k then Some(m[0].1)
    else
      var rest := Lookup(m[1..], k);
      assert HasKey(m[1..], k) ==> HasKey(m, k) by {
        if HasKey(m[1..], k) {
          var i :| 0 <= i < |m[1..]| && m[1..][i].0 == k;
          assert m[i + 1].0 == k;
        }
      }
      assert HasKey(m, k) ==> HasKey(m[1..], k) by {
        if HasKey(m, k) {
          var i :| 0 <= i < |m| && m[i].0 == k;
          assert i != 0;
          assert m[1..][i - 1].0 == k;
        }
      }
      rest
  }

  /** `d[k] = v`: overwrite the value in place, or append a new item. */
  function Put<K(==), V>(m: seq<(K, V)>, k: K, v: V): (r: seq<(K, V)>)
    ensures HasKey(m, k) ==> |r| == |m|
    ensures !HasKey(m, k) ==> |r| == |m| + 1
  {
    if |m| == 0 then [(k, v)]
    else if m[0].0 == k then [(k, v)] + m[1..]
    else
      assert HasKey(m[1..], k) <==> HasKey(m, k) by {
        if HasKey(m[1..], k) {
          var i :| 0 <= i < |m[1..]| && m[1..][i].0 == k;
          assert m[i + 1].0 == k;
        }
        if HasKey(m, k) {
          var i :| 0 <= i < |m| && m[i].0 == k;
          assert m[1..][i - 1].0 == k;
        }
      }
      [m[0]] + Put(m[1..], k, v)
  }

  /** `del d[k]` (a no-op when `k` is absent), keeping the order of the rest. */
  function RemoveKey<K(==), V>(m: seq<(K, V)>, k: K): (r: seq<(K, V)>)
    ensures |r| <= |m|
    ensures forall x :: x in r ==> x in m && x.0 != k
  {
    if |m| == 0 then []
    else if m[0].0 == k then RemoveKey(m[1..], k)
    else [m[0]] + RemoveKey(m[1..], k)
  }

  lemma {:induction false} PutThenLookup<K, V>(m: seq<(K, V)>, k: K, v: V, k': K)
    ensures Lookup(Put(m, k, v), k') == if k' == k then Some(v) else Lookup(m, k')
    decreases |m|
  {
    if |m| > 0 && m[0].0 != k {
      PutThenLookup(m[1..], k, v, k');
    }
  }

  lemma {:induction false} RemoveThenLookup<K, V>(m: seq<(K, V)>, k: K, k': K)
    ensures Lookup(RemoveKey(m, k), k') == if k' == k then None else Lookup(m, k')
    decreases |m|
  {
    if |m| > 0 {
      RemoveThenLookup(m[1..], k, k');
    }
  }

  /** Writing a key brings in the new pair and nothing that was not there. */
  lemma {:induction false} PutMembers<K, V>(m: seq<(K, V)>, k: K, v: V)
    ensures forall x :: x in Put(m, k, v) ==> x in m || x == (k, v)
    decreases |m|
  {
    if |m| > 0 && m[0].0 != k {
      PutMembers(m[1..], k, v);
    }
  }

  /** Dict insertion order: overwriting keeps every key where it was, and a
      new key goes at the end. */
  lemma {:induction false} PutKeysOrder<K, V>(m: seq<(K, V)>, k: K, v: V)
    ensures Keys(Put(m, k, v)) == if HasKey(m, k) then Keys(m) else Keys(m) + [k]
    decreases |m|
  {
    if |m| > 0 && m[0].0 != k {
      PutKeysOrder(m[1..], k, v);
      HasKeyCons(m, k);
      assert Keys(m) == [m[0].0] + Keys(m[1..]);
    }
  }

  lemma {:induction false} PutKeys<K, V>(m: seq<(K, V)>, k: K, v: V, k': K)
    ensures HasKey(Put(m, k, v), k') <==> k' == k || HasKey(m, k')
  {
    PutThenLookup(m, k, v, k');
  }

  lemma {:induction false} PutKeepsDistinct<K, V>(m: seq<(K, V)>, k: K, v: V)
    requires DistinctKeys(m)
    ensures DistinctKeys(Put(m, k, v))
    decreases |m|
  {
    if |m| > 0 && m[0].0 != k {
      var tail := m[1..];
      PutKeepsDistinct(tail, k, v);
      var r := Put(m, k, v);
      var rt := Put(tail, k, v);
      assert r == [m[0]] + rt;
      assert !HasKey(tail, m[0].0) by {
        forall i | 0 <= i < |tail| ensures tail[i].0 != m[0].0 {
          assert tail[i] == m[i + 1];
        }
      }
      forall j | 0 <= j < |rt| ensures rt[j].0 != m[0].0 {
        assert HasKey(rt, rt[j].0);
        PutKeys(tail, k, v, rt[j].0);
      }
      forall i, j | 0 <= i < j < |r| ensures r[i].0 != r[j].0 {
        if i == 0 {
          assert r[j] == rt[j - 1];
        } else {
          assert r[i] == rt[i - 1] && r[j] == rt[j - 1];
        }
      }
    } else if |m| > 0 {
      var r := Put(m, k, v);
      forall i, j | 0 <= i < j < |r| ensures r[i].0 != r[j].0 {
        assert r[j] == m[j];
        if i > 0 {
          assert r[i] == m[i];
        }
      }
    }
  }

  lemma {:induction false} RemoveKeepsDistinct<K, V>(m: seq<(K, V)>, k: K)
    requires DistinctKeys(m)
    ensures DistinctKeys(RemoveKey(m, k))
    ensures !HasKey(m, k) ==> RemoveKey(m, k) == m
    ensures HasKey(m, k) ==> |RemoveKey(m, k)| == |m| - 1
    decreases |m|
  {
    if |m| > 0 {
      var tail := m[1..];
      RemoveKeepsDistinct(tail, k);
      TailLacksFirstKey(m);
      HasKeyCons(m, k);
      if m[0].0 != k {
        var rt := RemoveKey(tail, k);
        assert RemoveKey(m, k) == [m[0]] + rt;
        SubsetLacksKey(rt, tail, m[0].0);
        ConsKeepsDistinct(m[0], rt);
        if !HasKey(m, k) {
          assert m == [m[0]] + tail;
        }
      }
    }
  }

  lemma TailLacksFirstKey<K, V>(m: seq<(K, V)>)
    requires |m| > 0 && DistinctKeys(m)
    ensures !HasKey(m[1..], m[0].0)
  {
    var tail := m[1..];
    forall i | 0 <= i < |tail| ensures tail[i].0 != m[0].0 {
      assert tail[i] == m[i + 1];
    }
  }

  lemma HasKeyCons<K, V>(m: seq<(K, V)>, k: K)
    requires |m| > 0
    ensures HasKey(m, k) <==> m[0].0 == k || HasKey(m[1..], k)
  {
    var tail := m[1..];
    if HasKey(tail, k) {
      var i :| 0 <= i < |tail| && tail[i].0 == k;
      assert m[i + 1].0 == k;
    }
    if HasKey(m, k) && m[0].0 != k {
      var i :| 0 <= i < |m| && m[i].0 == k;
      assert tail[i - 1].0 == k;
    }
  }

  lemma SubsetLacksKey<K, V>(r: seq<(K, V)>, m: seq<(K, V)>, k: K)
    requires forall x :: x in r ==> x in m
    requires !HasKey(m, k)
    ensures !HasKey(r, k)
  {
    forall i | 0 <= i < |r| ensures r[i].0 != k {
      assert r[i] in m;
    }
  }

  lemma ConsKeepsDistinct<K, V>(x: (K, V), t: seq<(K, V)>)
    requires DistinctKeys(t) && !HasKey(t, x.0)
    ensures DistinctKeys([x] + t)
  {
    var r := [x] + t;
    forall i, j | 0 <= i < j < |r| ensures r[i].0 != r[j].0 {
      assert r[j] == t[j - 1];
      if i > 0 {
        assert r[i] == t[i - 1];
      }
    }
  }

  // ---------------------------------------------------------------------------
  // Text helpers
  // ---------------------------------------------------------------------------

  /** The decimal digit for `d`, `'0'` through `'9'`. */
  function DigitChar(d: nat): (c: char)
    requires d < 10
    ensures '0' <= c <= '9'
    ensures c as int - '0' as int == d
  {
    ('0' as int + d) as char
  }

  /** Python's `str(n)` for a natural number. */
  function NatToString(n: nat): (s: string)
    ensures |s| >= 1
    decreases n
  {
    if n < 10 then [DigitChar(n)] else NatToString(n / 10) + [DigitChar(n % 10)]
  }

  /** Distinct numbers print differently, so identifiers that end in a
      printed number are distinct. */
  lemma {:induction false} NatToStringInjective(a: nat, b: nat)
    requires NatToString(a) == NatToString(b)
    ensures a == b
    decreases a
  {
    var s := NatToString(a);
    if a >= 10 && b >= 10 {
      assert s[|s| - 1] == DigitChar(a % 10) && s[|s| - 1] == DigitChar(b % 10);
      assert NatToString(a / 10) == s[..|s| - 1] == NatToString(b / 10);
      NatToStringInjective(a / 10, b / 10);
    } else if a < 10 && b < 10 {
      assert s[0] == DigitChar(a) && s[0] == DigitChar(b);
    }
  }
}
