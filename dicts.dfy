/**
 * Python dictionaries as the analytics engine uses them.
 *
 * A Python `dict` remembers insertion order, so a dictionary is a map together with
 * the sequence of its keys in insertion order. `defaultdict(int)` reads a missing key
 * as 0 (`Count`) and `d[k] += n` inserts a missing key at the end (`Add`); the nested
 * `defaultdict(lambda: defaultdict(int))` works the same way one level down
 * (`NestedCount`, `NestedAdd`).
 */
module Dicts {

  datatype Dict<K, V> = Dict(keys: seq<K>, vals: map<K, V>)

  /** A table of counters: participant -> tag -> count. */
  type Table<K, L> = Dict<K, Dict<L, int>>

  predicate Distinct<K(==,!new)>(s: seq<K>) {
    forall i, j :: 0 <= i < j < |s| ==> s[i] != s[j]
  }

  /** The key order lists every key of the map exactly once. */
  ghost predicate WellFormed<K(!new), V>(d: Dict<K, V>) {
    Distinct(d.keys) && (forall k :: k in d.vals <==> k in d.keys)
  }

  ghost predicate NestedWellFormed<K(!new), L(!new)>(t: Table<K, L>) {
    WellFormed(t) && forall k :: k in t.vals ==> WellFormed(t.vals[k])
  }

  function Empty<K(==,!new), V>(): (d: Dict<K, V>)
    ensures WellFormed(d)
  {
    Dict([], map[])
  }

  /** Reading `d[k]` from a `defaultdict(int)`: a missing key reads as 0. */
  function Count<K(==,!new)>(d: Dict<K, int>, k: K): int {
    if k in d.vals then d.vals[k] else 0
  }

  /** The sum of the entries of `m` for the keys `ks` (missing keys count 0). */
  function SumOver<K(==,!new)>(ks: seq<K>, m: map<K, int>): int {
    if ks == [] then 0
    else SumOver(ks[..|ks| - 1], m) + (if ks[|ks| - 1] in m then m[ks[|ks| - 1]] else 0)
  }

  /** `sum(d.values())` */
  function Total<K(==,!new)>(d: Dict<K, int>): int {
    SumOver(d.keys, d.vals)
  }

  lemma {:induction false} SumOverUntouched<K(!new)>(ks: seq<K>, m: map<K, int>, k: K, v: int)
    requires k !in ks
    ensures SumOver(ks, m[k := v]) == SumOver(ks, m)
  {
    if ks != [] {
      SumOverUntouched(ks[..|ks| - 1], m, k, v);
    }
  }

  lemma {:induction false} SumOverBumped<K(!new)>(ks: seq<K>, m: map<K, int>, k: K, n: int)
    requires Distinct(ks) && k in ks && k in m
    ensures SumOver(ks, m[k := m[k] + n]) == SumOver(ks, m) + n
  {
    var front := ks[..|ks| - 1];
    if ks[|ks| - 1] == k {
      assert k !in front;
      SumOverUntouched(front, m, k, m[k] + n);
    } else {
      assert k in front by {
        var i :| 0 <= i < |ks| && ks[i] == k;
        assert front[i] == k;
      }
      SumOverBumped(front, m, k, n);
    }
  }

  /** `d[k] += n` on a `defaultdict(int)`. */
  function Add<K(==,!new)>(d: Dict<K, int>, k: K, n: int): (r: Dict<K, int>)
    requires WellFormed(d)
    ensures WellFormed(r)
  {
    if k in d.vals then Dict(d.keys, d.vals[k := d.vals[k] + n])
    else Dict(d.keys + [k], d.vals[k := n])
  }

  /** `d[k] += n` adds `n` to the count of `k` and leaves every other count alone. */
  lemma AddCounts<K(!new)>(d: Dict<K, int>, k: K, n: int)
    requires WellFormed(d)
    ensures forall j :: Count(Add(d, k, n), j) == Count(d, j) + (if j == k then n else 0)
  {
  }

  /** `d[k] += n` creates the key `k`, at the end, when it was missing. */
  lemma AddKeys<K(!new)>(d: Dict<K, int>, k: K, n: int)
    requires WellFormed(d)
    ensures Add(d, k, n).vals.Keys == d.vals.Keys + {k}
    ensures Add(d, k, n).keys == if k in d.vals then d.keys else d.keys + [k]
  {
  }

  /** `d[k] += n` adds `n` to the total. */
  lemma AddTotal<K(!new)>(d: Dict<K, int>, k: K, n: int)
    requires WellFormed(d)
    ensures Total(Add(d, k, n)) == Total(d) + n
  {
    if k in d.vals {
      assert Add(d, k, n) == Dict(d.keys, d.vals[k := d.vals[k] + n]);
      SumOverBumped(d.keys, d.vals, k, n);
    } else {
      var r := Dict(d.keys + [k], d.vals[k := n]);
      assert Add(d, k, n) == r;
      assert k !in d.keys;
      assert r.keys[..|r.keys| - 1] == d.keys;
      SumOverUntouched(d.keys, d.vals, k, n);
      assert SumOver(r.keys, r.vals) == SumOver(d.keys, r.vals) + n;
    }
  }

  // ---------------------------------------------------------------------------
  // Nested counters

  /** `t[k]` of a `defaultdict(lambda: defaultdict(int))`, without inserting. */
  function InnerOf<K(==,!new), L(==,!new)>(t: Table<K, L>, k: K): Dict<L, int> {
    if k in t.vals then t.vals[k] else Empty()
  }

  /** `t[k][l]` of a nested `defaultdict`: missing entries read as 0. */
  function NestedCount<K(==,!new), L(==,!new)>(t: Table<K, L>, k: K, l: L): int {
    Count(InnerOf(t, k), l)
  }

  /** The sum over the keys `ks` of the totals of their inner counters. */
  function GrandSum<K(==,!new), L(==,!new)>(ks: seq<K>, m: map<K, Dict<L, int>>): int {
    if ks == [] then 0
    else GrandSum(ks[..|ks| - 1], m) + (if ks[|ks| - 1] in m then Total(m[ks[|ks| - 1]]) else 0)
  }

  /** The sum of every count in every inner counter. */
  function GrandTotal<K(==,!new), L(==,!new)>(t: Table<K, L>): int {
    GrandSum(t.keys, t.vals)
  }

  lemma {:induction false} GrandSumUntouched<K(!new), L(!new)>(ks: seq<K>, m: map<K, Dict<L, int>>, k: K, v: Dict<L, int>)
    requires k !in ks
    ensures GrandSum(ks, m[k := v]) == GrandSum(ks, m)
  {
    if ks != [] {
      GrandSumUntouched(ks[..|ks| - 1], m, k, v);
    }
  }

  lemma {:induction false} GrandSumReplaced<K(!new), L(!new)>(ks: seq<K>, m: map<K, Dict<L, int>>, k: K, v: Dict<L, int>)
    requires Distinct(ks) && k in ks && k in m
    ensures GrandSum(ks, m[k := v]) == GrandSum(ks, m) - Total(m[k]) + Total(v)
  {
    var front := ks[..|ks| - 1];
    if ks[|ks| - 1] == k {
      assert k !in front;
      GrandSumUntouched(front, m, k, v);
    } else {
      assert k in front by {
        var i :| 0 <= i < |ks| && ks[i] == k;
        assert front[i] == k;
      }
      GrandSumReplaced(front, m, k, v);
    }
  }

  /** Taking key `ks[i]` out of the order removes exactly its total. */
  lemma {:induction false} GrandSumRemove<K(!new), L(!new)>(ks: seq<K>, i: nat, m: map<K, Dict<L, int>>)
    requires i < |ks|
    ensures GrandSum(ks, m) == GrandSum(ks[..i] + ks[i + 1..], m) + (if ks[i] in m then Total(m[ks[i]]) else 0)
  {
    var rest := ks[..i] + ks[i + 1..];
    if i == |ks| - 1 {
      assert rest == ks[..|ks| - 1];
    } else {
      var front := ks[..|ks| - 1];
      assert front[..i] + front[i + 1..] == rest[..|rest| - 1];
      assert rest[|rest| - 1] == ks[|ks| - 1];
      GrandSumRemove(front, i, m);
    }
  }

  lemma MultisetCancel<K>(a: multiset<K>, b: multiset<K>, x: K)
    requires a + multiset{x} == b + multiset{x}
    ensures a == b
  {
    assert forall y :: a[y] == (a + multiset{x})[y] - multiset{x}[y];
  }

  /** The grand total does not depend on the order of the keys. */
  lemma {:induction false} GrandSumPermuted<K(!new), L(!new)>(ks: seq<K>, js: seq<K>, m: map<K, Dict<L, int>>)
    requires multiset(ks) == multiset(js)
    ensures GrandSum(ks, m) == GrandSum(js, m)
    decreases |ks|
  {
    if ks == [] {
      assert |js| == |multiset(js)| == 0;
    } else {
      var x := ks[|ks| - 1];
      var front := ks[..|ks| - 1];
      assert ks == front + [x];
      assert x in multiset(js);
      var i :| 0 <= i < |js| && js[i] == x;
      var rest := js[..i] + js[i + 1..];
      assert js == js[..i] + [x] + js[i + 1..];
      assert multiset(js) == multiset(rest) + multiset{x};
      assert multiset(ks) == multiset(front) + multiset{x};
      MultisetCancel(multiset(front), multiset(rest), x);
      GrandSumPermuted(front, rest, m);
      GrandSumRemove(js, i, m);
    }
  }

  /** `t[k][l] += n` on a nested `defaultdict`. */
  function NestedAdd<K(==,!new), L(==,!new)>(t: Table<K, L>, k: K, l: L, n: int): (r: Table<K, L>)
    requires NestedWellFormed(t)
    ensures NestedWellFormed(r)
  {
    var r := Dict(if k in t.vals then t.keys else t.keys + [k], t.vals[k := Add(InnerOf(t, k), l, n)]);
    NestedAddShape(t, k, l, n, r);
    r
  }

  /** `t[k][l] += n` adds `n` to that one entry and leaves every other entry alone. */
  lemma NestedAddCounts<K(!new), L(!new)>(t: Table<K, L>, k: K, l: L, n: int)
    requires NestedWellFormed(t)
    ensures forall a, b :: NestedCount(NestedAdd(t, k, l, n), a, b) == NestedCount(t, a, b) + (if a == k && b == l then n else 0)
  {
    var r := NestedAdd(t, k, l, n);
    AddCounts(InnerOf(t, k), l, n);
    forall a, b
      ensures NestedCount(r, a, b) == NestedCount(t, a, b) + (if a == k && b == l then n else 0)
    {
      if a != k {
        assert InnerOf(r, a) == InnerOf(t, a);
      }
    }
  }

  /** `t[k][l] += n` creates the outer key `k`, at the end, when it was missing. */
  lemma NestedAddKeys<K(!new), L(!new)>(t: Table<K, L>, k: K, l: L, n: int)
    requires NestedWellFormed(t)
    ensures NestedAdd(t, k, l, n).vals.Keys == t.vals.Keys + {k}
    ensures NestedAdd(t, k, l, n).keys == if k in t.vals then t.keys else t.keys + [k]
  {
  }

  /** `t[k][l] += n` adds `n` to the grand total. */
  lemma NestedAddSum<K(!new), L(!new)>(t: Table<K, L>, k: K, l: L, n: int)
    requires NestedWellFormed(t)
    ensures GrandTotal(NestedAdd(t, k, l, n)) == GrandTotal(t) + n
  {
    var inner := Add(InnerOf(t, k), l, n);
    AddTotal(InnerOf(t, k), l, n);
    if k in t.vals {
      assert NestedAdd(t, k, l, n) == Dict(t.keys, t.vals[k := inner]);
      GrandSumReplaced(t.keys, t.vals, k, inner);
    } else {
      var ks := t.keys + [k];
      assert NestedAdd(t, k, l, n) == Dict(ks, t.vals[k := inner]);
      assert k !in t.keys;
      assert ks[..|ks| - 1] == t.keys;
      GrandSumUntouched(t.keys, t.vals, k, inner);
      assert GrandSum(ks, t.vals[k := inner]) == GrandSum(t.keys, t.vals) + Total(inner);
    }
  }

  lemma NestedAddShape<K(!new), L(!new)>(t: Table<K, L>, k: K, l: L, n: int, r: Table<K, L>)
    requires NestedWellFormed(t)
    requires r == Dict(if k in t.vals then t.keys else t.keys + [k], t.vals[k := Add(InnerOf(t, k), l, n)])
    ensures NestedWellFormed(r)
  {
    assert Distinct(r.keys) by {
      if k !in t.vals {
        assert k !in t.keys;
      }
    }
    forall a | a in r.vals
      ensures WellFormed(r.vals[a])
    {
      if a != k {
        assert r.vals[a] == t.vals[a];
      }
    }
  }

  // ---------------------------------------------------------------------------
  // Counting a sequence of increments

  /** The sum of the increments of `ps` aimed at key `k`. */
  function Weight<K(==)>(ps: seq<(K, int)>, k: K): int {
    if ps == [] then 0
    else Weight(ps[..|ps| - 1], k) + (if ps[|ps| - 1].0 == k then ps[|ps| - 1].1 else 0)
  }

  function WeightAll<K>(ps: seq<(K, int)>): int {
    if ps == [] then 0 else WeightAll(ps[..|ps| - 1]) + ps[|ps| - 1].1
  }

  /** The keys that `ps` increments. */
  function KeysOf<K>(ps: seq<(K, int)>): set<K> {
    if ps == [] then {} else KeysOf(ps[..|ps| - 1]) + {ps[|ps| - 1].0}
  }

  /** The counter that `for k, n in ps: d[k] += n` builds from an empty `defaultdict(int)`. */
  function Tally<K(==,!new)>(ps: seq<(K, int)>): (d: Dict<K, int>)
    ensures WellFormed(d)
  {
    if ps == [] then Empty()
    else Add(Tally(ps[..|ps| - 1]), ps[|ps| - 1].0, ps[|ps| - 1].1)
  }

  /** Each count of `Tally(ps)` is the sum of the increments aimed at its key. */
  lemma {:induction false} TallyCounts<K(!new)>(ps: seq<(K, int)>)
    ensures forall k :: Count(Tally(ps), k) == Weight(ps, k)
  {
    if ps != [] {
      var front := ps[..|ps| - 1];
      TallyCounts(front);
      AddCounts(Tally(front), ps[|ps| - 1].0, ps[|ps| - 1].1);
    }
  }

  /** The keys of `Tally(ps)` are exactly those `ps` increments. */
  lemma {:induction false} TallyKeys<K(!new)>(ps: seq<(K, int)>)
    ensures Tally(ps).vals.Keys == KeysOf(ps)
  {
    if ps != [] {
      var front := ps[..|ps| - 1];
      TallyKeys(front);
      AddKeys(Tally(front), ps[|ps| - 1].0, ps[|ps| - 1].1);
    }
  }

  /** The total of `Tally(ps)` is the sum of all increments. */
  lemma {:induction false} TallyTotal<K(!new)>(ps: seq<(K, int)>)
    ensures Total(Tally(ps)) == WeightAll(ps)
  {
    if ps != [] {
      var front := ps[..|ps| - 1];
      TallyTotal(front);
      AddTotal(Tally(front), ps[|ps| - 1].0, ps[|ps| - 1].1);
    }
  }

  /** One more increment is one more `Add`. */
  lemma TallyNext<K(!new)>(ps: seq<(K, int)>, x: (K, int))
    ensures Tally(ps + [x]) == Add(Tally(ps), x.0, x.1)
  {
    assert (ps + [x])[..|ps|] == ps;
  }

  /** The sum of the increments of `ts` aimed at entry `[k][l]`. */
  function Weight2<K(==), L(==)>(ts: seq<(K, L, int)>, k: K, l: L): int {
    if ts == [] then 0
    else Weight2(ts[..|ts| - 1], k, l) + (if ts[|ts| - 1].0 == k && ts[|ts| - 1].1 == l then ts[|ts| - 1].2 else 0)
  }

  function WeightAll3<K, L>(ts: seq<(K, L, int)>): int {
    if ts == [] then 0 else WeightAll3(ts[..|ts| - 1]) + ts[|ts| - 1].2
  }

  /** The outer keys that `ts` increments. */
  function OuterKeysOf<K, L>(ts: seq<(K, L, int)>): set<K> {
    if ts == [] then {} else OuterKeysOf(ts[..|ts| - 1]) + {ts[|ts| - 1].0}
  }

  /**
   * The table that `for k, l, n in ts: t[k][l] += n` builds from an empty nested
   * `defaultdict`.
   */
  function NestedTally<K(==,!new), L(==,!new)>(ts: seq<(K, L, int)>): (t: Table<K, L>)
    ensures NestedWellFormed(t)
  {
    if ts == [] then Empty()
    else NestedAdd(NestedTally(ts[..|ts| - 1]), ts[|ts| - 1].0, ts[|ts| - 1].1, ts[|ts| - 1].2)
  }

  /** Each entry of `NestedTally(ts)` counts the increments aimed at it. */
  lemma {:induction false} NestedTallyCounts<K(!new), L(!new)>(ts: seq<(K, L, int)>)
    ensures forall k, l :: NestedCount(NestedTally(ts), k, l) == Weight2(ts, k, l)
  {
    if ts != [] {
      var front := ts[..|ts| - 1];
      var x := ts[|ts| - 1];
      NestedTallyCounts(front);
      NestedAddCounts(NestedTally(front), x.0, x.1, x.2);
    }
  }

  /** The outer keys of `NestedTally(ts)` are exactly those `ts` increments. */
  lemma {:induction false} NestedTallyKeys<K(!new), L(!new)>(ts: seq<(K, L, int)>)
    ensures NestedTally(ts).vals.Keys == OuterKeysOf(ts)
  {
    if ts != [] {
      var front := ts[..|ts| - 1];
      var x := ts[|ts| - 1];
      NestedTallyKeys(front);
      NestedAddKeys(NestedTally(front), x.0, x.1, x.2);
    }
  }

  /** The grand total of `NestedTally(ts)` is the sum of all increments. */
  lemma {:induction false} NestedTallyTotal<K(!new), L(!new)>(ts: seq<(K, L, int)>)
    ensures GrandTotal(NestedTally(ts)) == WeightAll3(ts)
  {
    if ts != [] {
      var front := ts[..|ts| - 1];
      var x := ts[|ts| - 1];
      NestedTallyTotal(front);
      NestedAddSum(NestedTally(front), x.0, x.1, x.2);
    }
  }

  /** One more increment is one more `NestedAdd`. */
  lemma NestedTallyNext<K(!new), L(!new)>(ts: seq<(K, L, int)>, x: (K, L, int))
    ensures NestedTally(ts + [x]) == NestedAdd(NestedTally(ts), x.0, x.1, x.2)
  {
    assert (ts + [x])[..|ts|] == ts;
  }

  lemma {:induction false} WeightConcat<K>(ps: seq<(K, int)>, qs: seq<(K, int)>, k: K)
    ensures Weight(ps + qs, k) == Weight(ps, k) + Weight(qs, k)
    ensures WeightAll(ps + qs) == WeightAll(ps) + WeightAll(qs)
    decreases |qs|
  {
    if qs == [] {
      assert ps + qs == ps;
    } else {
      assert (ps + qs)[..|ps + qs| - 1] == ps + qs[..|qs| - 1];
      WeightConcat(ps, qs[..|qs| - 1], k);
    }
  }

  lemma {:induction false} Weight2Concat<K, L>(ts: seq<(K, L, int)>, us: seq<(K, L, int)>, k: K, l: L)
    ensures Weight2(ts + us, k, l) == Weight2(ts, k, l) + Weight2(us, k, l)
    ensures WeightAll3(ts + us) == WeightAll3(ts) + WeightAll3(us)
    decreases |us|
  {
    if us == [] {
      assert ts + us == ts;
    } else {
      assert (ts + us)[..|ts + us| - 1] == ts + us[..|us| - 1];
      Weight2Concat(ts, us[..|us| - 1], k, l);
    }
  }

  lemma {:induction false} OuterKeysConcat<K, L>(ts: seq<(K, L, int)>, us: seq<(K, L, int)>)
    ensures OuterKeysOf(ts + us) == OuterKeysOf(ts) + OuterKeysOf(us)
    decreases |us|
  {
    if us == [] {
      assert ts + us == ts;
    } else {
      assert (ts + us)[..|ts + us| - 1] == ts + us[..|us| - 1];
      OuterKeysConcat(ts, us[..|us| - 1]);
    }
  }

  // ---------------------------------------------------------------------------
  // Lists of counts

  /** `sum(s)` */
  function Sum(s: seq<int>): int {
    if s == [] then 0 else Sum(s[..|s| - 1]) + s[|s| - 1]
  }

  /** `[0] * n` */
  function Zeros(n: int): (s: seq<int>)
    ensures |s| == Max0(n) && forall i :: 0 <= i < |s| ==> s[i] == 0
  {
    seq(Max0(n), _ => 0)
  }

  function Max0(n: int): nat { if n < 0 then 0 else n }

  lemma {:induction false} SumZeros(n: nat)
    ensures Sum(Zeros(n)) == 0
  {
    if n > 0 {
      assert Zeros(n)[..n - 1] == Zeros(n - 1);
      SumZeros(n - 1);
    }
  }

  /** `s[i] += d` adds `d` to the sum. */
  lemma {:induction false} SumBumped(s: seq<int>, i: nat, d: int)
    requires i < |s|
    ensures Sum(s[i := s[i] + d]) == Sum(s) + d
  {
    var t := s[i := s[i] + d];
    if i < |s| - 1 {
      assert t[..|t| - 1] == s[..|s| - 1][i := s[i] + d];
      SumBumped(s[..|s| - 1], i, d);
    } else {
      assert t[..|t| - 1] == s[..|s| - 1];
    }
  }
}
