/**
 * The counting done inside the plotting code of visualize.py: the stacked-bar
 * `bottom` loops of `hours`, `weekdays`, `days` and `emojis`, the helpers
 * `deep_dsum` and `shallow_dsum`, the choice of the most used emojis, the
 * `reduced` tables, and the totals of the fourth emoji panel. The drawing itself
 * is not modelled.
 */
module Visualize {
  import opened Base
  import opened Dicts
  import opened Names
  import opened Records
  import opened Conversations

  // ---------------------------------------------------------------------------
  // Stacked bars

  /** `[sum(x) for x in zip(a, b)]`: elementwise sums, as long as the shorter list. */
  function ZipSum(a: seq<int>, b: seq<int>): (r: seq<int>)
    ensures |r| == Min(|a|, |b|)
  {
    seq(Min(|a|, |b|), i requires 0 <= i < Min(|a|, |b|) => a[i] + b[i])
  }

  /** `bottom` once the loop has stacked `rows`, starting from `[0] * width`. */
  function Stacked(rows: seq<seq<int>>, width: int): seq<int> {
    if rows == [] then Zeros(width) else ZipSum(Stacked(rows[..|rows| - 1], width), rows[|rows| - 1])
  }

  /** How far every row and the initial `[0] * width` reach. */
  function Reach(rows: seq<seq<int>>, width: int): nat {
    if rows == [] then Max0(width) else Min(Reach(rows[..|rows| - 1], width), |rows[|rows| - 1]|)
  }

  /** The height of column `i`: the sum of the rows' entries at `i` (a row too short adds nothing). */
  function Column(rows: seq<seq<int>>, i: int): int {
    if rows == [] then 0
    else Column(rows[..|rows| - 1], i) + if 0 <= i < |rows[|rows| - 1]| then rows[|rows| - 1][i] else 0
  }

  /**
   * After the loop `bottom` is as long as the shortest row (or `width`, if
   * shorter), because `zip` truncates, and each entry is the sum of its column.
   */
  lemma {:induction false} StackedColumns(rows: seq<seq<int>>, width: int)
    ensures |Stacked(rows, width)| == Reach(rows, width)
    ensures forall i :: 0 <= i < Reach(rows, width) ==> Stacked(rows, width)[i] == Column(rows, i)
  {
    if rows != [] {
      StackedColumns(rows[..|rows| - 1], width);
    }
  }

  /** Rows of one common length `width` reach exactly `width`. */
  lemma {:induction false} ReachUniform(rows: seq<seq<int>>, width: nat)
    requires forall j :: 0 <= j < |rows| ==> |rows[j]| == width
    ensures Reach(rows, width) == width
  {
    if rows != [] {
      ReachUniform(rows[..|rows| - 1], width);
    }
  }

  /** The series of `d` under the keys `ks`; a key without a series has an empty one. */
  function RowsOf<K>(d: Dict<K, seq<int>>, ks: seq<K>): (rows: seq<seq<int>>)
    ensures |rows| == |ks|
    ensures forall j {:trigger rows[j]} :: 0 <= j < |ks| ==> rows[j] == (if ks[j] in d.vals then d.vals[ks[j]] else [])
  {
    if ks == [] then []
    else RowsOf(d, ks[..|ks| - 1]) + [if ks[|ks| - 1] in d.vals then d.vals[ks[|ks| - 1]] else []]
  }

  lemma RowsOfNext<K>(d: Dict<K, seq<int>>, ks: seq<K>, j: nat)
    requires j < |ks|
    ensures RowsOf(d, ks[..j + 1]) == RowsOf(d, ks[..j]) + [if ks[j] in d.vals then d.vals[ks[j]] else []]
  {
    assert ks[..j + 1][..j] == ks[..j];
  }

  /** The rows of a dictionary of series, in the order of its keys (`d.items()`). */
  function Rows<K>(d: Dict<K, seq<int>>): seq<seq<int>> {
    RowsOf(d, d.keys)
  }

  /**
   * The `bottom` loop of `hours`, `weekdays` and `days`:
   * `bottom = [0] * width`, then `bottom = [sum(x) for x in zip(bottom, series)]`
   * for each participant's series in turn.
   */
  method StackBars(counts: Dict<Name, seq<int>>, width: int) returns (bottom: seq<int>)
    ensures bottom == Stacked(Rows(counts), width)
  {
    bottom := Zeros(width);
    var j := 0;
    while j < |counts.keys|
      invariant 0 <= j <= |counts.keys|
      invariant bottom == Stacked(RowsOf(counts, counts.keys[..j]), width)
    {
      var p := counts.keys[j];
      var series := if p in counts.vals then counts.vals[p] else [];
      RowsOfNext(counts, counts.keys, j);
      bottom := ZipSum(bottom, series);
      j := j + 1;
    }
    assert counts.keys[..j] == counts.keys;
  }

  /**
   * When every series has the axis's length, `bottom` keeps that length and each
   * bar is the sum over participants of their series at that position.
   */
  lemma StackedUniform(d: Dict<Name, seq<int>>, width: nat)
    requires WellFormed(d) && forall p :: p in d.vals ==> |d.vals[p]| == width
    ensures |Stacked(Rows(d), width)| == width
    ensures forall i :: 0 <= i < width ==> Stacked(Rows(d), width)[i] == Column(Rows(d), i)
  {
    RowsUniform(d, d.keys, width);
    ReachUniform(Rows(d), width);
    StackedColumns(Rows(d), width);
  }

  lemma {:induction false} RowsUniform(d: Dict<Name, seq<int>>, ks: seq<Name>, width: nat)
    requires forall p :: p in d.vals ==> |d.vals[p]| == width
    requires forall j :: 0 <= j < |ks| ==> ks[j] in d.vals
    ensures forall j :: 0 <= j < |ks| ==> |RowsOf(d, ks)[j]| == width
  {
    if ks != [] {
      RowsUniform(d, ks[..|ks| - 1], width);
    }
  }

  // ---------------------------------------------------------------------------
  // Every message is stacked exactly once

  /** `sum(zip-sum)` of two lists of one length is the sum of both. */
  lemma {:induction false} SumZip(a: seq<int>, b: seq<int>)
    requires |a| == |b|
    ensures Sum(ZipSum(a, b)) == Sum(a) + Sum(b)
  {
    if a != [] {
      var n := |a| - 1;
      assert ZipSum(a, b)[..n] == ZipSum(a[..n], b[..n]);
      SumZip(a[..n], b[..n]);
    }
  }

  /** The sum of every entry of every row. */
  function RowSums(rows: seq<seq<int>>): int {
    if rows == [] then 0 else RowSums(rows[..|rows| - 1]) + Sum(rows[|rows| - 1])
  }

  /** Stacking rows of one length loses nothing: the bars add up to all the rows' entries. */
  lemma {:induction false} StackedTotal(rows: seq<seq<int>>, width: nat)
    requires forall j :: 0 <= j < |rows| ==> |rows[j]| == width
    ensures Sum(Stacked(rows, width)) == RowSums(rows)
  {
    if rows == [] {
      SumZeros(width);
    } else {
      var front := rows[..|rows| - 1];
      StackedTotal(front, width);
      StackedColumns(front, width);
      ReachUniform(front, width);
      SumZip(Stacked(front, width), rows[|rows| - 1]);
    }
  }

  /** The messages sent by the participants `ks`, added up participant by participant. */
  function SentBy(ks: seq<Name>, msgs: seq<Message>): nat {
    if ks == [] then 0 else SentBy(ks[..|ks| - 1], msgs) + Sent(msgs, ks[|ks| - 1])
  }

  /** How many times `p` occurs in `ks`. */
  function Occurrences(ks: seq<Name>, p: Name): nat {
    if ks == [] then 0 else Occurrences(ks[..|ks| - 1], p) + if ks[|ks| - 1] == p then 1 else 0
  }

  lemma {:induction false} OccursOnce(ks: seq<Name>, p: Name)
    requires Distinct(ks) && p in ks
    ensures Occurrences(ks, p) == 1
  {
    var front := ks[..|ks| - 1];
    if ks[|ks| - 1] == p {
      assert p !in front;
      OccursNever(front, p);
    } else {
      assert p in front by {
        var i :| 0 <= i < |ks| && ks[i] == p;
        assert front[i] == p;
      }
      OccursOnce(front, p);
    }
  }

  lemma {:induction false} OccursNever(ks: seq<Name>, p: Name)
    requires p !in ks
    ensures Occurrences(ks, p) == 0
  {
    if ks != [] {
      OccursNever(ks[..|ks| - 1], p);
    }
  }

  lemma {:induction false} SentByLast(ks: seq<Name>, msgs: seq<Message>)
    requires msgs != []
    ensures SentBy(ks, msgs) == SentBy(ks, msgs[..|msgs| - 1]) + Occurrences(ks, msgs[|msgs| - 1].sender)
  {
    if ks != [] {
      SentByLast(ks[..|ks| - 1], msgs);
    }
  }

  lemma {:induction false} SentByNone(ks: seq<Name>)
    ensures SentBy(ks, []) == 0
  {
    if ks != [] {
      SentByNone(ks[..|ks| - 1]);
    }
  }

  /** Distinct participants who include every sender sent all the messages between them. */
  lemma {:induction false} SentByAll(ks: seq<Name>, msgs: seq<Message>)
    requires Distinct(ks) && forall i :: 0 <= i < |msgs| ==> msgs[i].sender in ks
    ensures SentBy(ks, msgs) == |msgs|
  {
    if msgs == [] {
      SentByNone(ks);
    } else {
      var front := msgs[..|msgs| - 1];
      assert forall i :: 0 <= i < |front| ==> front[i] == msgs[i];
      SentByAll(ks, front);
      SentByLast(ks, msgs);
      var last := msgs[|msgs| - 1];
      assert last.sender in ks;
      OccursOnce(ks, last.sender);
    }
  }

  lemma {:induction false} RowSumsSent(d: Dict<Name, seq<int>>, ks: seq<Name>, msgs: seq<Message>)
    requires forall p :: p in d.vals ==> Sum(d.vals[p]) == Sent(msgs, p)
    requires forall j :: 0 <= j < |ks| ==> ks[j] in d.vals
    ensures RowSums(RowsOf(d, ks)) == SentBy(ks, msgs)
  {
    if ks != [] {
      var front := ks[..|ks| - 1];
      RowSumsSent(d, front, msgs);
      assert RowsOf(d, ks)[..|ks| - 1] == RowsOf(d, front);
    }
  }

  /**
   * Each stacked chart of a successful `timeline()` (hours, weekdays or days)
   * accounts for every message exactly once: its bars add up to the number of
   * messages, and each bar is the sum of the participants' series there.
   */
  lemma TimelineChart(ps: seq<Name>, msgs: seq<Message>, tz: int, axis: Axis)
    requires TimelineOf(ps, msgs, tz).Ok?
    ensures var d := TimelineOf(ps, msgs, tz).value.Along(axis);
      var w := Width(axis, DaysSpanned(msgs).value);
      && |Stacked(Rows(d), w)| == w
      && (forall i :: 0 <= i < w ==> Stacked(Rows(d), w)[i] == Column(Rows(d), i))
      && Sum(Stacked(Rows(d), w)) == |msgs|
  {
    var d := TimelineOf(ps, msgs, tz).value.Along(axis);
    var w := Width(axis, DaysSpanned(msgs).value);
    TimelineShape(ps, msgs, tz, axis);
    TimelineSums(ps, msgs, tz, axis);
    StackedUniform(d, w);
    RowsUniform(d, d.keys, w);
    StackedTotal(Rows(d), w);
    RowSumsSent(d, d.keys, msgs);
    SentByAll(d.keys, msgs);
  }

  // ---------------------------------------------------------------------------
  // deep_dsum and shallow_dsum

  /** The increments `ret[name][k] += v` for `k, v in inner.items()`, over the keys `ks`. */
  function InnerIncrements(name: Name, inner: Dict<string, int>, ks: seq<string>): (ts: seq<(Name, string, int)>)
    ensures |ts| == |ks|
  {
    if ks == [] then []
    else InnerIncrements(name, inner, ks[..|ks| - 1]) + [(name, ks[|ks| - 1], Count(inner, ks[|ks| - 1]))]
  }

  /** The increments of `for name in names: for k, v in d[name].items()`. */
  function TableIncrements(d: Table<Name, string>, names: seq<Name>): seq<(Name, string, int)> {
    if names == [] then []
    else
      var name := names[|names| - 1];
      TableIncrements(d, names[..|names| - 1]) + InnerIncrements(name, InnerOf(d, name), InnerOf(d, name).keys)
  }

  /** The increments of `deep_dsum(*ds)`, table after table. */
  function DeepIncrements(ds: seq<Table<Name, string>>): seq<(Name, string, int)> {
    if ds == [] then []
    else DeepIncrements(ds[..|ds| - 1]) + TableIncrements(ds[|ds| - 1], ds[|ds| - 1].keys)
  }

  /** What `deep_dsum(*ds)` returns: its grand total is the sum of the tables' grand totals. */
  function Deep(ds: seq<Table<Name, string>>): (t: Table<Name, string>)
    ensures GrandTotal(t) == GrandTotals(ds)
  {
    NestedTallyTotal(DeepIncrements(ds));
    DeepWeightAll(ds);
    NestedTally(DeepIncrements(ds))
  }

  /** The increments with the participant dropped: `ret[k] += v` of `shallow_dsum`. */
  function Flatten<K, L>(ts: seq<(K, L, int)>): (ps: seq<(L, int)>)
    ensures |ps| == |ts|
  {
    if ts == [] then [] else Flatten(ts[..|ts| - 1]) + [(ts[|ts| - 1].1, ts[|ts| - 1].2)]
  }

  /** What `shallow_dsum(d)` returns: its total is the table's grand total. */
  function Shallow(d: Table<Name, string>): (r: Dict<string, int>)
    ensures Total(r) == GrandTotal(d)
  {
    TallyTotal(Flatten(TableIncrements(d, d.keys)));
    TableTotal(d, d.keys);
    Tally(Flatten(TableIncrements(d, d.keys)))
  }

  lemma InnerIncrementsNext(name: Name, inner: Dict<string, int>, ks: seq<string>, m: nat)
    requires m < |ks|
    ensures InnerIncrements(name, inner, ks[..m + 1])
         == InnerIncrements(name, inner, ks[..m]) + [(name, ks[m], Count(inner, ks[m]))]
  {
    assert ks[..m + 1][..m] == ks[..m];
  }

  lemma TableIncrementsNext(d: Table<Name, string>, names: seq<Name>, j: nat)
    requires j < |names|
    ensures TableIncrements(d, names[..j + 1])
         == TableIncrements(d, names[..j]) + InnerIncrements(names[j], InnerOf(d, names[j]), InnerOf(d, names[j]).keys)
  {
    assert names[..j + 1][..j] == names[..j];
  }

  lemma DeepIncrementsNext(ds: seq<Table<Name, string>>, i: nat)
    requires i < |ds|
    ensures DeepIncrements(ds[..i + 1]) == DeepIncrements(ds[..i]) + TableIncrements(ds[i], ds[i].keys)
  {
    assert ds[..i + 1][..i] == ds[..i];
  }

  lemma AppendAssoc<T>(a: seq<T>, b: seq<T>, x: T)
    ensures a + b + [x] == a + (b + [x])
  {
  }

  lemma {:induction false} FlattenConcat<K, L>(ts: seq<(K, L, int)>, us: seq<(K, L, int)>)
    ensures Flatten(ts + us) == Flatten(ts) + Flatten(us)
    decreases |us|
  {
    if us == [] {
      assert ts + us == ts;
    } else {
      assert (ts + us)[..|ts + us| - 1] == ts + us[..|us| - 1];
      FlattenConcat(ts, us[..|us| - 1]);
    }
  }

  /** One more entry `ret[name][k] += v` of the innermost loop of `deep_dsum`. */
  lemma DeepEntryStep(done: seq<(Name, string, int)>, name: Name, inner: Dict<string, int>, m: nat)
    requires m < |inner.keys|
    ensures NestedTally(done + InnerIncrements(name, inner, inner.keys[..m + 1]))
         == NestedAdd(NestedTally(done + InnerIncrements(name, inner, inner.keys[..m])),
                      name, inner.keys[m], Count(inner, inner.keys[m]))
  {
    var ts := InnerIncrements(name, inner, inner.keys[..m]);
    var x := (name, inner.keys[m], Count(inner, inner.keys[m]));
    NestedTallyNext(done + ts, x);
    InnerIncrementsNext(name, inner, inner.keys, m);
    AppendAssoc(done, ts, x);
  }

  /** The innermost loop of `deep_dsum` ends with every entry of `d[name]` added. */
  lemma DeepNameStep(before: seq<(Name, string, int)>, d: Table<Name, string>, j: nat)
    requires j < |d.keys|
    ensures var inner := InnerOf(d, d.keys[j]);
      before + TableIncrements(d, d.keys[..j]) + InnerIncrements(d.keys[j], inner, inner.keys[..|inner.keys|])
      == before + TableIncrements(d, d.keys[..j + 1])
  {
    var inner := InnerOf(d, d.keys[j]);
    assert inner.keys[..|inner.keys|] == inner.keys;
    TableIncrementsNext(d, d.keys, j);
  }

  /** `deep_dsum(*dicts)`: add every count of every table into one nested `defaultdict`. */
  method DeepSum(ds: seq<Table<Name, string>>) returns (ret: Table<Name, string>)
    ensures ret == Deep(ds)
  {
    ret := Empty();
    for i := 0 to |ds|
      invariant ret == NestedTally(DeepIncrements(ds[..i]))
    {
      var d := ds[i];
      ghost var before := DeepIncrements(ds[..i]);
      assert before + TableIncrements(d, d.keys[..0]) == before;
      for j := 0 to |d.keys|
        invariant ret == NestedTally(before + TableIncrements(d, d.keys[..j]))
      {
        var name := d.keys[j];
        var inner := InnerOf(d, name);
        ghost var done := before + TableIncrements(d, d.keys[..j]);
        assert done + InnerIncrements(name, inner, inner.keys[..0]) == done;
        for m := 0 to |inner.keys|
          invariant ret == NestedTally(done + InnerIncrements(name, inner, inner.keys[..m]))
        {
          var k := inner.keys[m];
          var v := Count(inner, k);
          DeepEntryStep(done, name, inner, m);
          ret := NestedAdd(ret, name, k, v);
        }
        DeepNameStep(before, d, j);
      }
      assert d.keys[..|d.keys|] == d.keys;
      DeepIncrementsNext(ds, i);
    }
    assert ds[..|ds|] == ds;
  }

  /** `shallow_dsum(d)`: add every participant's counts into one `defaultdict(int)`. */
  method ShallowSum(d: Table<Name, string>) returns (ret: Dict<string, int>)
    ensures ret == Shallow(d)
  {
    ret := Empty();
    for j := 0 to |d.keys|
      invariant ret == Tally(Flatten(TableIncrements(d, d.keys[..j])))
    {
      var name := d.keys[j];
      var inner := InnerOf(d, name);
      ghost var done := Flatten(TableIncrements(d, d.keys[..j]));
      assert done + Flatten(InnerIncrements(name, inner, inner.keys[..0])) == done;
      for m := 0 to |inner.keys|
        invariant ret == Tally(done + Flatten(InnerIncrements(name, inner, inner.keys[..m])))
      {
        var k := inner.keys[m];
        var v := Count(inner, k);
        ghost var ps := Flatten(InnerIncrements(name, inner, inner.keys[..m]));
        TallyNext(done + ps, (k, v));
        InnerIncrementsNext(name, inner, inner.keys, m);
        AppendAssoc(done, ps, (k, v));
        ret := Add(ret, k, v);
      }
      assert inner.keys[..|inner.keys|] == inner.keys;
      TableIncrementsNext(d, d.keys, j);
      FlattenConcat(TableIncrements(d, d.keys[..j]), InnerIncrements(name, inner, inner.keys));
    }
    assert d.keys[..|d.keys|] == d.keys;
  }

  // What the sums add up to

  /** Over distinct keys, the increments of one inner counter add each of its counts once. */
  lemma {:induction false} InnerWeights(name: Name, inner: Dict<string, int>, ks: seq<string>)
    requires Distinct(ks)
    ensures forall k, l :: Weight2(InnerIncrements(name, inner, ks), k, l)
                        == if k == name && l in ks then Count(inner, l) else 0
  {
    if ks != [] {
      var front := ks[..|ks| - 1];
      InnerWeights(name, inner, front);
      assert forall l :: l in ks <==> l in front || l == ks[|ks| - 1];
    }
  }

  /** The same, with the participant dropped. */
  lemma {:induction false} InnerFlatWeights(name: Name, inner: Dict<string, int>, ks: seq<string>)
    requires Distinct(ks)
    ensures forall l :: Weight(Flatten(InnerIncrements(name, inner, ks)), l) == if l in ks then Count(inner, l) else 0
  {
    if ks != [] {
      var front := ks[..|ks| - 1];
      InnerFlatWeights(name, inner, front);
      assert forall l :: l in ks <==> l in front || l == ks[|ks| - 1];
    }
  }

  /** Every increment of one inner counter adds up to its total. */
  lemma {:induction false} InnerTotal(name: Name, inner: Dict<string, int>, ks: seq<string>)
    ensures WeightAll3(InnerIncrements(name, inner, ks)) == SumOver(ks, inner.vals)
    ensures WeightAll(Flatten(InnerIncrements(name, inner, ks))) == SumOver(ks, inner.vals)
  {
    if ks != [] {
      InnerTotal(name, inner, ks[..|ks| - 1]);
    }
  }

  /** The participant and the tags one inner counter's increments touch. */
  lemma {:induction false} InnerKeys(name: Name, inner: Dict<string, int>, ks: seq<string>)
    ensures OuterKeysOf(InnerIncrements(name, inner, ks)) == if ks == [] then {} else {name}
    ensures forall l :: l in KeysOf(Flatten(InnerIncrements(name, inner, ks))) <==> l in ks
  {
    if ks != [] {
      var front := ks[..|ks| - 1];
      InnerKeys(name, inner, front);
      assert forall l :: l in ks <==> l in front || l == ks[|ks| - 1];
    }
  }

  /** The inner counters of a well-formed table, missing ones included, are well formed. */
  lemma InnerWellFormed(d: Table<Name, string>, name: Name)
    requires NestedWellFormed(d)
    ensures WellFormed(InnerOf(d, name))
  {
  }

  /** Each entry of the table is added exactly once by the increments of its distinct participants. */
  lemma {:induction false} TableWeights(d: Table<Name, string>, names: seq<Name>)
    requires NestedWellFormed(d) && Distinct(names)
    ensures forall k, l :: Weight2(TableIncrements(d, names), k, l) == if k in names then NestedCount(d, k, l) else 0
  {
    if names != [] {
      var front := names[..|names| - 1];
      var name := names[|names| - 1];
      var inner := InnerOf(d, name);
      TableWeights(d, front);
      InnerWellFormed(d, name);
      InnerWeights(name, inner, inner.keys);
      forall k, l
        ensures Weight2(TableIncrements(d, names), k, l) == if k in names then NestedCount(d, k, l) else 0
      {
        Weight2Concat(TableIncrements(d, front), InnerIncrements(name, inner, inner.keys), k, l);
        assert k in names <==> k in front || k == name;
      }
    }
  }

  /** The sum, over participants `names` (with repetitions), of their count of `l`. */
  function ColumnTotal(d: Table<Name, string>, names: seq<Name>, l: string): int {
    if names == [] then 0
    else ColumnTotal(d, names[..|names| - 1], l) + NestedCount(d, names[|names| - 1], l)
  }

  /** With the participant dropped, the increments of a table add each tag's column. */
  lemma {:induction false} TableFlatWeights(d: Table<Name, string>, names: seq<Name>)
    requires NestedWellFormed(d)
    ensures forall l :: Weight(Flatten(TableIncrements(d, names)), l) == ColumnTotal(d, names, l)
  {
    if names != [] {
      var front := names[..|names| - 1];
      var name := names[|names| - 1];
      var inner := InnerOf(d, name);
      TableFlatWeights(d, front);
      InnerWellFormed(d, name);
      InnerFlatWeights(name, inner, inner.keys);
      FlattenConcat(TableIncrements(d, front), InnerIncrements(name, inner, inner.keys));
      forall l
        ensures Weight(Flatten(TableIncrements(d, names)), l) == ColumnTotal(d, names, l)
      {
        WeightConcat(Flatten(TableIncrements(d, front)), Flatten(InnerIncrements(name, inner, inner.keys)), l);
      }
    }
  }

  /** The increments of a table add up to its grand total. */
  lemma {:induction false} TableTotal(d: Table<Name, string>, names: seq<Name>)
    ensures WeightAll3(TableIncrements(d, names)) == GrandSum(names, d.vals)
    ensures WeightAll(Flatten(TableIncrements(d, names))) == GrandSum(names, d.vals)
  {
    if names != [] {
      var front := names[..|names| - 1];
      var name := names[|names| - 1];
      var inner := InnerOf(d, name);
      TableTotal(d, front);
      InnerTotal(name, inner, inner.keys);
      Weight2Concat(TableIncrements(d, front), InnerIncrements(name, inner, inner.keys), name, "");
      FlattenConcat(TableIncrements(d, front), InnerIncrements(name, inner, inner.keys));
      WeightConcat(Flatten(TableIncrements(d, front)), Flatten(InnerIncrements(name, inner, inner.keys)), "");
    }
  }

  /** The participants of `names` whose inner counter is not empty. */
  lemma {:induction false} TableKeys(d: Table<Name, string>, names: seq<Name>)
    requires NestedWellFormed(d)
    ensures forall k :: k in OuterKeysOf(TableIncrements(d, names)) <==> k in names && k in d.vals && d.vals[k].keys != []
  {
    if names != [] {
      var front := names[..|names| - 1];
      var name := names[|names| - 1];
      var inner := InnerOf(d, name);
      TableKeys(d, front);
      InnerKeys(name, inner, inner.keys);
      OuterKeysConcat(TableIncrements(d, front), InnerIncrements(name, inner, inner.keys));
      assert forall k :: k in names <==> k in front || k == name;
    }
  }

  /** Some participant of `names` used the tag `l`. */
  predicate UsedTag(d: Table<Name, string>, names: seq<Name>, l: string) {
    exists k :: k in names && k in d.vals && l in d.vals[k].vals
  }

  lemma UsedTagStep(d: Table<Name, string>, names: seq<Name>, l: string)
    requires names != []
    ensures var name := names[|names| - 1];
      UsedTag(d, names, l) <==> UsedTag(d, names[..|names| - 1], l) || (name in d.vals && l in d.vals[name].vals)
  {
    var front := names[..|names| - 1];
    if UsedTag(d, names, l) {
      var k :| k in names && k in d.vals && l in d.vals[k].vals;
      if k != names[|names| - 1] {
        var i :| 0 <= i < |names| && names[i] == k;
        assert front[i] == k;
      }
    }
  }

  /** The tags used by some participant of `names`. */
  lemma {:induction false} TableTags(d: Table<Name, string>, names: seq<Name>)
    requires NestedWellFormed(d)
    ensures forall l :: l in KeysOf(Flatten(TableIncrements(d, names))) <==> UsedTag(d, names, l)
  {
    if names != [] {
      var front := names[..|names| - 1];
      var name := names[|names| - 1];
      var inner := InnerOf(d, name);
      TableTags(d, front);
      InnerKeys(name, inner, inner.keys);
      InnerWellFormed(d, name);
      FlattenConcat(TableIncrements(d, front), InnerIncrements(name, inner, inner.keys));
      KeysConcat(Flatten(TableIncrements(d, front)), Flatten(InnerIncrements(name, inner, inner.keys)));
      forall l
        ensures l in KeysOf(Flatten(TableIncrements(d, names))) <==> UsedTag(d, names, l)
      {
        UsedTagStep(d, names, l);
      }
    }
  }

  lemma {:induction false} KeysConcat<K>(ps: seq<(K, int)>, qs: seq<(K, int)>)
    ensures KeysOf(ps + qs) == KeysOf(ps) + KeysOf(qs)
    decreases |qs|
  {
    if qs == [] {
      assert ps + qs == ps;
    } else {
      assert (ps + qs)[..|ps + qs| - 1] == ps + qs[..|qs| - 1];
      KeysConcat(ps, qs[..|qs| - 1]);
    }
  }

  /** The sum, over the tables `ds`, of their entry `[k][l]`. */
  function EntrySum(ds: seq<Table<Name, string>>, k: Name, l: string): int {
    if ds == [] then 0 else EntrySum(ds[..|ds| - 1], k, l) + NestedCount(ds[|ds| - 1], k, l)
  }

  /** The sum of the grand totals of the tables `ds`. */
  function GrandTotals(ds: seq<Table<Name, string>>): int {
    if ds == [] then 0 else GrandTotals(ds[..|ds| - 1]) + GrandTotal(ds[|ds| - 1])
  }

  /** Some table of `ds` has a non-empty inner counter for `k`. */
  predicate UsedIn(ds: seq<Table<Name, string>>, k: Name) {
    exists i :: 0 <= i < |ds| && k in ds[i].vals && ds[i].vals[k].keys != []
  }

  lemma {:induction false} DeepWeights(ds: seq<Table<Name, string>>)
    requires forall i :: 0 <= i < |ds| ==> NestedWellFormed(ds[i])
    ensures forall k, l :: Weight2(DeepIncrements(ds), k, l) == EntrySum(ds, k, l)
  {
    if ds != [] {
      var front := ds[..|ds| - 1];
      var d := ds[|ds| - 1];
      DeepWeights(front);
      TableWeights(d, d.keys);
      forall k, l
        ensures Weight2(DeepIncrements(ds), k, l) == EntrySum(ds, k, l)
      {
        Weight2Concat(DeepIncrements(front), TableIncrements(d, d.keys), k, l);
      }
    }
  }

  lemma {:induction false} DeepOuterKeys(ds: seq<Table<Name, string>>)
    requires forall i :: 0 <= i < |ds| ==> NestedWellFormed(ds[i])
    ensures forall k :: k in OuterKeysOf(DeepIncrements(ds)) <==> UsedIn(ds, k)
  {
    if ds != [] {
      var front := ds[..|ds| - 1];
      var d := ds[|ds| - 1];
      DeepOuterKeys(front);
      TableKeys(d, d.keys);
      OuterKeysConcat(DeepIncrements(front), TableIncrements(d, d.keys));
      forall k
        ensures k in OuterKeysOf(DeepIncrements(ds)) <==> UsedIn(ds, k)
      {
        if UsedIn(ds, k) {
          var i :| 0 <= i < |ds| && k in ds[i].vals && ds[i].vals[k].keys != [];
          if i < |front| {
            assert front[i] == ds[i];
          }
        }
        if UsedIn(front, k) {
          var i :| 0 <= i < |front| && k in front[i].vals && front[i].vals[k].keys != [];
          assert ds[i] == front[i];
        }
      }
    }
  }

  lemma {:induction false} DeepWeightAll(ds: seq<Table<Name, string>>)
    ensures WeightAll3(DeepIncrements(ds)) == GrandTotals(ds)
  {
    if ds != [] {
      var front := ds[..|ds| - 1];
      var d := ds[|ds| - 1];
      DeepWeightAll(front);
      TableTotal(d, d.keys);
      Weight2Concat(DeepIncrements(front), TableIncrements(d, d.keys), Name(""), "");
    }
  }

  /** Each entry of `deep_dsum(*ds)` is the sum of the tables' entries there. */
  lemma DeepSumEntries(ds: seq<Table<Name, string>>)
    requires forall i :: 0 <= i < |ds| ==> NestedWellFormed(ds[i])
    ensures forall k, l :: NestedCount(Deep(ds), k, l) == EntrySum(ds, k, l)
  {
    NestedTallyCounts(DeepIncrements(ds));
    DeepWeights(ds);
  }

  /** A participant is in `deep_dsum(*ds)` exactly when some table has a count for them. */
  lemma DeepSumKeys(ds: seq<Table<Name, string>>)
    requires forall i :: 0 <= i < |ds| ==> NestedWellFormed(ds[i])
    ensures forall k :: k in Deep(ds).vals <==> UsedIn(ds, k)
  {
    NestedTallyKeys(DeepIncrements(ds));
    DeepOuterKeys(ds);
  }

  /**
   * `total_emoji_counter = deep_dsum(reaction_counter, emoji_counter)`: every
   * count is the reaction count plus the count in text.
   */
  lemma TotalEmojiEntries(reactions: Table<Name, string>, emojis: Table<Name, string>)
    requires NestedWellFormed(reactions) && NestedWellFormed(emojis)
    ensures forall k, l :: NestedCount(Deep([reactions, emojis]), k, l)
                        == NestedCount(reactions, k, l) + NestedCount(emojis, k, l)
  {
    var ds := [reactions, emojis];
    DeepSumEntries(ds);
    assert ds[..1] == [reactions] && [reactions][..0] == [];
    forall k, l
      ensures EntrySum(ds, k, l) == NestedCount(reactions, k, l) + NestedCount(emojis, k, l)
    {
      assert EntrySum([reactions], k, l) == NestedCount(reactions, k, l);
    }
  }

  /** The participants of `total_emoji_counter` are those who reacted or wrote an emoji. */
  lemma TotalEmojiParticipants(reactions: Table<Name, string>, emojis: Table<Name, string>)
    requires NestedWellFormed(reactions) && NestedWellFormed(emojis)
    ensures forall k :: k in Deep([reactions, emojis]).vals
                    <==> UsedIn([reactions], k) || UsedIn([emojis], k)
  {
    var ds := [reactions, emojis];
    DeepSumKeys(ds);
    forall k
      ensures UsedIn(ds, k) <==> UsedIn([reactions], k) || UsedIn([emojis], k)
    {
      if UsedIn(ds, k) {
        var i :| 0 <= i < |ds| && k in ds[i].vals && ds[i].vals[k].keys != [];
        if i == 0 {
          assert [reactions][0] == reactions;
        } else {
          assert [emojis][0] == emojis;
        }
      }
      if UsedIn([emojis], k) {
        assert ds[1] == emojis;
      }
      if UsedIn([reactions], k) {
        assert ds[0] == reactions;
      }
    }
  }

  /** The grand total of `total_emoji_counter` is the sum of the two counters' totals. */
  lemma TotalEmojiGrandTotal(reactions: Table<Name, string>, emojis: Table<Name, string>)
    ensures GrandTotal(Deep([reactions, emojis])) == GrandTotal(reactions) + GrandTotal(emojis)
  {
    var ds := [reactions, emojis];
    assert ds[..1] == [reactions] && [reactions][..0] == [];
    assert GrandTotals([reactions]) == GrandTotal(reactions);
  }

  /** Each tag's count in `shallow_dsum(d)` is the sum of its column. */
  lemma ShallowColumns(d: Table<Name, string>)
    requires NestedWellFormed(d)
    ensures forall l :: Count(Shallow(d), l) == ColumnTotal(d, d.keys, l)
  {
    TallyCounts(Flatten(TableIncrements(d, d.keys)));
    TableFlatWeights(d, d.keys);
  }

  /**
   * `shallow_dsum(d)` adds the participants' counters: each tag's count is the sum
   * of its column, a tag is present exactly when some participant used it, and the
   * total is the table's grand total.
   */
  lemma ShallowSumCounts(d: Table<Name, string>)
    requires NestedWellFormed(d)
    ensures forall l :: Count(Shallow(d), l) == ColumnTotal(d, d.keys, l)
    ensures forall l :: l in Shallow(d).vals <==> exists k :: k in d.vals && l in d.vals[k].vals
    ensures Total(Shallow(d)) == GrandTotal(d)
  {
    var ps := Flatten(TableIncrements(d, d.keys));
    ShallowColumns(d);
    TallyKeys(ps);
    TallyTotal(ps);
    TableTags(d, d.keys);
    TableTotal(d, d.keys);
    forall l
      ensures UsedTag(d, d.keys, l) <==> exists k :: k in d.vals && l in d.vals[k].vals
    {
      if exists k :: k in d.vals && l in d.vals[k].vals {
        var k :| k in d.vals && l in d.vals[k].vals;
        assert k in d.keys;
      }
    }
  }

  // ---------------------------------------------------------------------------
  // The most used emojis

  /** `d.items()`: each key with its count, in the key order. */
  function Items(d: Dict<string, int>): (items: seq<(string, int)>)
    ensures |items| == |d.keys|
  {
    seq(|d.keys|, i requires 0 <= i < |d.keys| => (d.keys[i], Count(d, d.keys[i])))
  }

  /** The counts never increase along `s`. */
  predicate NonIncreasing(s: seq<(string, int)>) {
    forall i, j :: 0 <= i < j < |s| ==> s[i].1 >= s[j].1
  }

  /** `x` inserted in front of the first entry of `s` whose count is smaller. */
  function InsertByCount(x: (string, int), s: seq<(string, int)>): seq<(string, int)> {
    if s == [] then [x]
    else if s[0].1 < x.1 then [x] + s
    else [s[0]] + InsertByCount(x, s[1..])
  }

  /**
   * `sorted(items, key=lambda item: -item[1])`: Python's sort is stable, so it is
   * insertion of each item, in order, after every item whose count is not smaller.
   * The result is a permutation of the items in non-increasing order of count.
   */
  function RankByCount(items: seq<(string, int)>): (r: seq<(string, int)>)
    ensures NonIncreasing(r)
    ensures multiset(r) == multiset(items)
  {
    if items == [] then []
    else
      var front := items[..|items| - 1];
      var x := items[|items| - 1];
      InsertRanked(x, RankByCount(front), front);
      assert items == front + [x];
      InsertByCount(x, RankByCount(front))
  }

  /** Inserting into a ranking of `front` ranks `front + [x]`. */
  lemma InsertRanked(x: (string, int), s: seq<(string, int)>, front: seq<(string, int)>)
    requires NonIncreasing(s) && multiset(s) == multiset(front)
    ensures NonIncreasing(InsertByCount(x, s))
    ensures multiset(InsertByCount(x, s)) == multiset(front + [x])
  {
    InsertSorted(x, s);
    InsertPermutes(x, s);
  }

  /** The entries of `s` with count `c`, in their order. */
  function WithCount(s: seq<(string, int)>, c: int): seq<(string, int)> {
    if s == [] then []
    else (if s[0].1 == c then [s[0]] else []) + WithCount(s[1..], c)
  }

  lemma {:induction false} InsertPermutes(x: (string, int), s: seq<(string, int)>)
    ensures multiset(InsertByCount(x, s)) == multiset(s) + multiset{x}
  {
    if s != [] && s[0].1 >= x.1 {
      InsertPermutes(x, s[1..]);
      assert s == [s[0]] + s[1..];
    }
  }

  lemma {:induction false} InsertSorted(x: (string, int), s: seq<(string, int)>)
    requires NonIncreasing(s)
    ensures NonIncreasing(InsertByCount(x, s))
  {
    if s != [] && s[0].1 >= x.1 {
      var rest := InsertByCount(x, s[1..]);
      InsertSorted(x, s[1..]);
      InsertPermutes(x, s[1..]);
      forall j | 0 <= j < |rest|
        ensures rest[j].1 <= s[0].1
      {
        assert rest[j] in multiset(rest);
        if rest[j] != x {
          assert rest[j] in multiset(s[1..]);
          var k :| 0 <= k < |s[1..]| && s[1..][k] == rest[j];
          assert s[k + 1] == rest[j];
        }
      }
    }
  }

  lemma {:induction false} WithCountNone(s: seq<(string, int)>, c: int)
    requires forall i :: 0 <= i < |s| ==> s[i].1 < c
    ensures WithCount(s, c) == []
  {
    if s != [] {
      WithCountNone(s[1..], c);
    }
  }

  lemma {:induction false} InsertStable(x: (string, int), s: seq<(string, int)>, c: int)
    requires NonIncreasing(s)
    ensures WithCount(InsertByCount(x, s), c) == WithCount(s, c) + if x.1 == c then [x] else []
  {
    if s == [] {
    } else if s[0].1 < x.1 {
      assert ([x] + s)[1..] == s;
      if x.1 == c {
        WithCountNone(s, c);
      }
    } else {
      InsertStable(x, s[1..], c);
      assert ([s[0]] + InsertByCount(x, s[1..]))[1..] == InsertByCount(x, s[1..]);
    }
  }

  lemma {:induction false} WithCountConcat(a: seq<(string, int)>, b: seq<(string, int)>, c: int)
    ensures WithCount(a + b, c) == WithCount(a, c) + WithCount(b, c)
  {
    if a == [] {
      assert a + b == b;
    } else {
      var h := if a[0].1 == c then [a[0]] else [];
      WithCountConcat(a[1..], b, c);
      assert (a + b)[0] == a[0] && (a + b)[1..] == a[1..] + b;
      assert WithCount(a + b, c) == h + WithCount(a[1..] + b, c);
      assert h + (WithCount(a[1..], c) + WithCount(b, c)) == (h + WithCount(a[1..], c)) + WithCount(b, c);
    }
  }

  /** The ranking is stable: items of equal count keep their relative order. */
  lemma {:induction false} RankStable(items: seq<(string, int)>, c: int)
    ensures WithCount(RankByCount(items), c) == WithCount(items, c)
  {
    if items != [] {
      var front := items[..|items| - 1];
      var x := items[|items| - 1];
      RankStable(front, c);
      InsertStable(x, RankByCount(front), c);
      WithCountConcat(front, [x], c);
      assert items == front + [x];
      assert [x][1..] == [];
    }
  }

  /** `list(dict(items).keys())` for items with distinct keys. */
  function KeyList(items: seq<(string, int)>): (ks: seq<string>)
    ensures |ks| == |items|
  {
    seq(|items|, i requires 0 <= i < |items| => items[i].0)
  }

  /** Python's slice `s[:n]`: a negative `n` drops the last `-n` entries. */
  function Prefix<T>(s: seq<T>, n: int): (r: seq<T>)
    ensures |r| <= |s| && r == s[..|r|]
    ensures n >= 0 ==> |r| == Min(n, |s|)
    ensures n < 0 ==> |r| == Max0(|s| + n)
  {
    if n >= 0 then s[..Min(n, |s|)] else s[..Max0(|s| + n)]
  }

  /** `sorted(shallow_dsum(counter).items(), key=lambda item: -item[1])` */
  function Ranked(counter: Table<Name, string>): seq<(string, int)> {
    RankByCount(Items(Shallow(counter)))
  }

  /** `emojis = list(sorted_all.keys())[:num_emojis]`: at most `num_emojis` of the emojis used. */
  function TopEmojis(counter: Table<Name, string>, numEmojis: int): (r: seq<string>)
    ensures numEmojis >= 0 ==> |r| <= numEmojis
    ensures |r| <= |Shallow(counter).keys|
  {
    var ranked := Ranked(counter);
    assert |ranked| == |multiset(ranked)| == |multiset(Items(Shallow(counter)))| == |Shallow(counter).keys|;
    Prefix(KeyList(Ranked(counter)), numEmojis)
  }

  lemma {:induction false} OnceEach<T(!new)>(s: seq<T>)
    requires Distinct(s)
    ensures forall x :: multiset(s)[x] <= 1
  {
    if s != [] {
      var front := s[..|s| - 1];
      OnceEach(front);
      assert s == front + [s[|s| - 1]];
      assert s[|s| - 1] !in front;
    }
  }

  lemma Twice<T>(s: seq<T>, i: nat, j: nat)
    requires i < j < |s| && s[i] == s[j]
    ensures multiset(s)[s[i]] >= 2
  {
    assert s == s[..j] + s[j..];
    assert s[i] in s[..j] && s[j] in s[j..];
  }

  /**
   * The ranking lists every key of the counter exactly once, each with its count.
   */
  lemma RankedEntries(d: Dict<string, int>)
    requires WellFormed(d)
    ensures var r := RankByCount(Items(d));
      && |r| == |d.keys|
      && (forall i :: 0 <= i < |r| ==> r[i].0 in d.vals && r[i].1 == Count(d, r[i].0))
      && Distinct(KeyList(r))
      && (forall k :: k in d.vals ==> k in KeyList(r))
  {
    var items := Items(d);
    var r := RankByCount(items);
    assert |r| == |multiset(r)| == |multiset(items)| == |items|;
    ItemsDistinct(d);
    PermutedEntries(d, items, r);
    PermutedKeysDistinct(d, items, r);
    PermutedKeysCover(d, items, r);
  }

  lemma ItemsDistinct(d: Dict<string, int>)
    requires WellFormed(d)
    ensures Distinct(Items(d))
  {
    var items := Items(d);
    forall i, j | 0 <= i < j < |items|
      ensures items[i] != items[j]
    {
      assert items[i].0 == d.keys[i] && items[j].0 == d.keys[j];
    }
  }

  lemma PermutedEntries(d: Dict<string, int>, items: seq<(string, int)>, r: seq<(string, int)>)
    requires WellFormed(d) && items == Items(d) && multiset(r) == multiset(items)
    ensures forall i :: 0 <= i < |r| ==> r[i].0 in d.vals && r[i].1 == Count(d, r[i].0)
  {
    forall i | 0 <= i < |r|
      ensures r[i].0 in d.vals && r[i].1 == Count(d, r[i].0)
    {
      assert r[i] in multiset(items);
    }
  }

  lemma PermutedKeysDistinct(d: Dict<string, int>, items: seq<(string, int)>, r: seq<(string, int)>)
    requires Distinct(items) && multiset(r) == multiset(items)
    requires forall i :: 0 <= i < |r| ==> r[i].1 == Count(d, r[i].0)
    ensures Distinct(KeyList(r))
  {
    OnceEach(items);
    forall i, j | 0 <= i < j < |r|
      ensures KeyList(r)[i] != KeyList(r)[j]
    {
      if KeyList(r)[i] == KeyList(r)[j] {
        assert r[i] == r[j];
        Twice(r, i, j);
        assert false;
      }
    }
  }

  lemma PermutedKeysCover(d: Dict<string, int>, items: seq<(string, int)>, r: seq<(string, int)>)
    requires WellFormed(d) && items == Items(d) && multiset(r) == multiset(items)
    ensures forall k :: k in d.vals ==> k in KeyList(r)
  {
    forall k | k in d.vals
      ensures k in KeyList(r)
    {
      var j :| 0 <= j < |d.keys| && d.keys[j] == k;
      assert items[j] in multiset(r);
      var i :| 0 <= i < |r| && r[i] == items[j];
      assert KeyList(r)[i] == k;
    }
  }

  /**
   * The first `n` keys of the ranking (Python's `[:n]`) are distinct keys of the
   * counter, in non-increasing order of count, and none left out has a larger
   * count than one chosen; with a non-negative `n` there are `min(n, #keys)` of them.
   */
  lemma RankedPrefix(d: Dict<string, int>, n: int)
    requires WellFormed(d)
    ensures var top := Prefix(KeyList(RankByCount(Items(d))), n);
      && Distinct(top)
      && (forall i :: 0 <= i < |top| ==> top[i] in d.vals)
      && (forall i, j :: 0 <= i < j < |top| ==> Count(d, top[i]) >= Count(d, top[j]))
      && (forall e, f :: e in top && f in d.vals && f !in top ==> Count(d, e) >= Count(d, f))
      && (n >= 0 ==> |top| == Min(n, |d.keys|))
  {
    RankedEntries(d);
    ChosenPrefix(d, RankByCount(Items(d)), n);
  }

  /** The facts of `RankedPrefix`, for any list of keys with their counts sorted by count. */
  lemma ChosenPrefix(d: Dict<string, int>, r: seq<(string, int)>, n: int)
    requires NonIncreasing(r) && Distinct(KeyList(r)) && |r| == |d.keys|
    requires forall i :: 0 <= i < |r| ==> r[i].0 in d.vals && r[i].1 == Count(d, r[i].0)
    requires forall k :: k in d.vals ==> k in KeyList(r)
    ensures var top := Prefix(KeyList(r), n);
      && Distinct(top)
      && (forall i :: 0 <= i < |top| ==> top[i] in d.vals)
      && (forall i, j :: 0 <= i < j < |top| ==> Count(d, top[i]) >= Count(d, top[j]))
      && (forall e, f :: e in top && f in d.vals && f !in top ==> Count(d, e) >= Count(d, f))
      && (n >= 0 ==> |top| == Min(n, |d.keys|))
  {
    var ks := KeyList(r);
    var top := Prefix(ks, n);
    assert forall i :: 0 <= i < |top| ==> top[i] == ks[i] == r[i].0;
    LeftOutNotLarger(d, r, |top|);
  }

  /** In a list sorted by count, no key after the first `m` has a larger count than one of them. */
  lemma LeftOutNotLarger(d: Dict<string, int>, r: seq<(string, int)>, m: nat)
    requires NonIncreasing(r) && m <= |r|
    requires forall i :: 0 <= i < |r| ==> r[i].1 == Count(d, r[i].0)
    ensures var ks := KeyList(r);
      forall e, f :: e in ks[..m] && f in ks && f !in ks[..m] ==> Count(d, e) >= Count(d, f)
  {
    var ks := KeyList(r);
    forall e, f | e in ks[..m] && f in ks && f !in ks[..m]
      ensures Count(d, e) >= Count(d, f)
    {
      var i :| 0 <= i < m && ks[i] == e;
      var j :| 0 <= j < |ks| && ks[j] == f;
      assert j >= m;
      assert r[i].1 >= r[j].1;
    }
  }

  /**
   * The emojis chosen for a panel are distinct emojis somebody used, in
   * non-increasing order of total use, and none left out was used more than one
   * chosen; with a non-negative `num_emojis` there are `min(num_emojis, #used)` of them.
   */
  lemma TopEmojisMostUsed(counter: Table<Name, string>, numEmojis: int)
    requires NestedWellFormed(counter)
    ensures var total := Shallow(counter);
      var top := TopEmojis(counter, numEmojis);
      && Distinct(top)
      && (forall i :: 0 <= i < |top| ==> top[i] in total.vals)
      && (forall i, j :: 0 <= i < j < |top| ==> Count(total, top[i]) >= Count(total, top[j]))
      && (forall e, f :: e in top && f in total.vals && f !in top ==> Count(total, e) >= Count(total, f))
      && (numEmojis >= 0 ==> |top| == Min(numEmojis, |total.keys|))
  {
    RankedPrefix(Shallow(counter), numEmojis);
  }

  // ---------------------------------------------------------------------------
  // The three frequency panels

  /**
   * `reduced = {name: {k: counter[name][k] for k in emojis} for name in counter.keys()}`:
   * each participant's counts of the chosen emojis, 0 for one they never used.
   */
  function Reduced(counter: Table<Name, string>, emojis: seq<string>): (r: Table<Name, string>)
    ensures r.keys == counter.keys
    ensures forall name :: name in r.vals ==> r.vals[name].keys == emojis
    ensures forall name, k :: NestedCount(r, name, k)
                           == if name in counter.keys && k in emojis then NestedCount(counter, name, k) else 0
  {
    Dict(counter.keys,
         map name | name in counter.keys :: Dict(emojis, map k | k in emojis :: NestedCount(counter, name, k)))
  }

  /** `emoji_usages.values()`: the counts in key order. */
  function Usage(inner: Dict<string, int>): (vs: seq<int>)
    ensures |vs| == |inner.keys|
  {
    seq(|inner.keys|, i requires 0 <= i < |inner.keys| => Count(inner, inner.keys[i]))
  }

  /** The series stacked by the loop over `reduced.items()`. */
  function Usages(reduced: Table<Name, string>): Dict<Name, seq<int>> {
    Dict(reduced.keys, map name | name in reduced.vals :: Usage(reduced.vals[name]))
  }

  /**
   * `reduced` keeps the participants of `counter`, in order, and gives each one
   * counter over exactly the chosen emojis, holding their counts.
   */
  lemma ReducedEntries(counter: Table<Name, string>, emojis: seq<string>)
    requires WellFormed(counter) && Distinct(emojis)
    ensures var reduced := Reduced(counter, emojis);
      && NestedWellFormed(reduced)
      && reduced.keys == counter.keys
      && (forall name :: name in reduced.vals ==> reduced.vals[name].keys == emojis)
      && (forall name, k :: NestedCount(reduced, name, k) == if k in emojis then NestedCount(counter, name, k) else 0)
  {
  }

  /**
   * One frequency panel (lines 142 to 149): rank the emojis by total use, keep the
   * first `num_emojis`, reduce the counter to them, and stack the participants' bars.
   */
  method FrequencyPanel(counter: Table<Name, string>, numEmojis: int) returns (emojis: seq<string>, bottom: seq<int>)
    ensures emojis == TopEmojis(counter, numEmojis)
    ensures bottom == Stacked(Rows(Usages(Reduced(counter, emojis))), numEmojis)
  {
    var all := ShallowSum(counter);
    emojis := Prefix(KeyList(RankByCount(Items(all))), numEmojis);
    bottom := StackBars(Usages(Reduced(counter, emojis)), numEmojis);
  }

  /** Rows of one length `m` reach `m`, or less when `width` is smaller. */
  lemma {:induction false} ReachOf(rows: seq<seq<int>>, width: int, m: nat)
    requires forall j :: 0 <= j < |rows| ==> |rows[j]| == m
    ensures Reach(rows, width) == if rows == [] then Max0(width) else Min(Max0(width), m)
  {
    if rows != [] {
      ReachOf(rows[..|rows| - 1], width, m);
    }
  }

  /** The series stacked for one participant: their counts of the chosen emojis, in order. */
  lemma UsageRow(counter: Table<Name, string>, emojis: seq<string>, name: Name)
    requires name in counter.keys
    ensures var usages := Usages(Reduced(counter, emojis));
      && name in usages.vals
      && |usages.vals[name]| == |emojis|
      && forall i :: 0 <= i < |emojis| ==> usages.vals[name][i] == NestedCount(counter, name, emojis[i])
  {
  }

  lemma {:induction false} UsageColumns(counter: Table<Name, string>, emojis: seq<string>, ks: seq<Name>)
    requires forall j :: 0 <= j < |ks| ==> ks[j] in counter.keys
    ensures var rows := RowsOf(Usages(Reduced(counter, emojis)), ks);
      && (forall j :: 0 <= j < |ks| ==> |rows[j]| == |emojis|)
      && (forall i :: 0 <= i < |emojis| ==> Column(rows, i) == ColumnTotal(counter, ks, emojis[i]))
  {
    if ks != [] {
      var front := ks[..|ks| - 1];
      var usages := Usages(Reduced(counter, emojis));
      UsageColumns(counter, emojis, front);
      UsageRow(counter, emojis, ks[|ks| - 1]);
      assert RowsOf(usages, ks) == RowsOf(usages, front) + [usages.vals[ks[|ks| - 1]]];
    }
  }

  /**
   * The bars of a frequency panel are the chosen emojis' total use, in the ranking's
   * order; with a non-negative `num_emojis` and at least one participant there is a
   * bar per chosen emoji.
   */
  lemma FrequencyBars(counter: Table<Name, string>, numEmojis: int)
    requires NestedWellFormed(counter)
    ensures var top := TopEmojis(counter, numEmojis);
      var bars := Stacked(Rows(Usages(Reduced(counter, top))), numEmojis);
      && (counter.keys != [] && numEmojis >= 0 ==> |bars| == |top|)
      && forall i :: 0 <= i < |bars| && i < |top| ==> bars[i] == Count(Shallow(counter), top[i])
  {
    var top := TopEmojis(counter, numEmojis);
    UsageTotals(counter, top);
    StackedRows(Rows(Usages(Reduced(counter, top))), numEmojis, top, Shallow(counter));
  }

  /** Each column of the reduced series adds up to the emoji's total use. */
  lemma UsageTotals(counter: Table<Name, string>, emojis: seq<string>)
    requires NestedWellFormed(counter)
    ensures var rows := Rows(Usages(Reduced(counter, emojis)));
      && |rows| == |counter.keys|
      && (forall j :: 0 <= j < |rows| ==> |rows[j]| == |emojis|)
      && (forall i :: 0 <= i < |emojis| ==> Column(rows, i) == Count(Shallow(counter), emojis[i]))
  {
    UsageColumns(counter, emojis, counter.keys);
    ShallowColumns(counter);
  }

  lemma StackedRows(rows: seq<seq<int>>, width: int, emojis: seq<string>, total: Dict<string, int>)
    requires forall j :: 0 <= j < |rows| ==> |rows[j]| == |emojis|
    requires forall i :: 0 <= i < |emojis| ==> Column(rows, i) == Count(total, emojis[i])
    requires width >= 0 ==> |emojis| <= width
    ensures var bars := Stacked(rows, width);
      && (rows != [] && width >= 0 ==> |bars| == |emojis|)
      && forall i :: 0 <= i < |bars| && i < |emojis| ==> bars[i] == Count(total, emojis[i])
  {
    ReachOf(rows, width, |emojis|);
    StackedColumns(rows, width);
  }

  // ---------------------------------------------------------------------------
  // The fourth panel: emoji use per participant

  /**
   * `[sum([v for v in counter[p].values()]) for p in participants]` as written:
   * `counter` is a plain dict, so the first participant it lacks raises `KeyError`.
   */
  function PanelValuesAsWritten(counter: Table<Name, string>, participants: seq<Name>): (r: Result<seq<int>>)
    ensures r.Ok? ==> |r.value| == |participants|
    ensures r.Err? ==> r.error.KeyError?
  {
    if participants == [] then Ok([])
    else
      var front :- PanelValuesAsWritten(counter, participants[..|participants| - 1]);
      var p := participants[|participants| - 1];
      if p in counter.vals then Ok(front + [Total(counter.vals[p])]) else Err(KeyError(p.fullName))
  }

  /**
   * The fourth panel as written: the bars of reactions, then of emojis in text,
   * stacked over the participants of `total_emoji_counter`.
   */
  function EmojiUsePanelAsWritten(reactions: Table<Name, string>, emojis: Table<Name, string>): (r: Result<seq<int>>)
    ensures r.Ok? ==> |r.value| == |Deep([reactions, emojis]).keys|
    ensures r.Err? ==> r.error.KeyError?
  {
    var participants := Deep([reactions, emojis]).keys;
    var given :- PanelValuesAsWritten(reactions, participants);
    var written :- PanelValuesAsWritten(emojis, participants);
    TwoBars(given, written, |participants|);
    Ok(Stacked([given, written], |participants|))
  }

  /** Two series of the axis length stack to bars of that length. */
  lemma TwoBars(a: seq<int>, b: seq<int>, width: nat)
    requires |a| == width && |b| == width
    ensures |Stacked([a, b], width)| == width
    ensures forall i :: 0 <= i < width ==> Stacked([a, b], width)[i] == a[i] + b[i]
  {
    var rows := [a, b];
    ReachUniform(rows, width);
    StackedColumns(rows, width);
    assert rows[..1] == [a] && [a][..0] == [];
    forall i | 0 <= i < width
      ensures Column(rows, i) == a[i] + b[i]
    {
      assert Column([a], i) == a[i];
    }
  }

  /**
   * The loop of the fourth panel as written: stack the reactions' values, then the
   * emojis' values, over the participants of `deep_dsum(reaction_counter, emoji_counter)`.
   */
  method EmojiUseLoop(reactions: Table<Name, string>, emojis: Table<Name, string>) returns (r: Result<seq<int>>)
    ensures r == EmojiUsePanelAsWritten(reactions, emojis)
  {
    var total := DeepSum([reactions, emojis]);
    var participants := total.keys;
    var bottom := Zeros(|participants|);
    var counters := [reactions, emojis];
    ghost var rows: seq<seq<int>> := [];
    for t := 0 to |counters|
      invariant |rows| == t
      invariant forall j :: 0 <= j < t ==> PanelValuesAsWritten(counters[j], participants) == Ok(rows[j])
      invariant bottom == Stacked(rows, |participants|)
    {
      var values := PanelValuesAsWritten(counters[t], participants);
      if values.Err? {
        return Err(values.error);
      }
      assert (rows + [values.value])[..t] == rows;
      bottom := ZipSum(bottom, values.value);
      rows := rows + [values.value];
    }
    assert rows == [rows[0], rows[1]];
    return Ok(bottom);
  }

  /** The values succeed exactly when every participant is a key; otherwise the error names one who is not. */
  lemma {:induction false} PanelValuesAsWrittenFails(counter: Table<Name, string>, participants: seq<Name>)
    ensures PanelValuesAsWritten(counter, participants).Ok?
        <==> forall j :: 0 <= j < |participants| ==> participants[j] in counter.vals
    ensures PanelValuesAsWritten(counter, participants).Err? ==>
      exists j :: 0 <= j < |participants| && participants[j] !in counter.vals
               && PanelValuesAsWritten(counter, participants).error == KeyError(participants[j].fullName)
  {
    if participants != [] {
      var front := participants[..|participants| - 1];
      PanelValuesAsWrittenFails(counter, front);
      assert forall j :: 0 <= j < |front| ==> front[j] == participants[j];
    }
  }

  /**
   * As written, the fourth panel fails exactly when somebody reacted or wrote an
   * emoji but has no entry in the other counter: one who only reacts, or only
   * writes emojis, is enough to raise `KeyError`.
   */
  lemma EmojiUsePanelAsWrittenFails(reactions: Table<Name, string>, emojis: Table<Name, string>)
    requires NestedWellFormed(reactions) && NestedWellFormed(emojis)
    ensures EmojiUsePanelAsWritten(reactions, emojis).Ok?
        <==> forall k :: UsedIn([reactions], k) || UsedIn([emojis], k) ==> k in reactions.vals && k in emojis.vals
  {
    var total := Deep([reactions, emojis]);
    TotalEmojiParticipants(reactions, emojis);
    PanelValuesAsWrittenFails(reactions, total.keys);
    PanelValuesAsWrittenFails(emojis, total.keys);
    assert forall k :: k in total.vals <==> k in total.keys;
    if EmojiUsePanelAsWritten(reactions, emojis).Ok? {
      forall k | UsedIn([reactions], k) || UsedIn([emojis], k)
        ensures k in reactions.vals && k in emojis.vals
      {
        var j :| 0 <= j < |total.keys| && total.keys[j] == k;
      }
    }
  }

  /** A concrete case: one participant who reacted once and never wrote an emoji. */
  lemma OnlyReactingFails()
    ensures var ada := Name("Ada Lovelace");
      var reactions := Dict([ada], map[ada := Dict(["heart"], map["heart" := 1])]);
      EmojiUsePanelAsWritten(reactions, Empty()).Err?
  {
    var ada := Name("Ada Lovelace");
    var reactions := Dict([ada], map[ada := Dict(["heart"], map["heart" := 1])]);
    var emojis: Table<Name, string> := Empty();
    assert UsedIn([reactions], ada) by {
      assert [reactions][0] == reactions;
    }
    EmojiUsePanelAsWrittenFails(reactions, emojis);
  }

  /** The corrected values: a participant missing from `counter` used none of its emojis (`counter.get(p, {})`). */
  function PanelValues(counter: Table<Name, string>, participants: seq<Name>): (vs: seq<int>)
    ensures |vs| == |participants|
  {
    seq(|participants|, i requires 0 <= i < |participants| => Total(InnerOf(counter, participants[i])))
  }

  /** The corrected fourth panel. */
  function EmojiUsePanel(reactions: Table<Name, string>, emojis: Table<Name, string>): (bars: seq<int>)
    ensures |bars| == |Deep([reactions, emojis]).keys|
  {
    var participants := Deep([reactions, emojis]).keys;
    TwoBars(PanelValues(reactions, participants), PanelValues(emojis, participants), |participants|);
    Stacked([PanelValues(reactions, participants), PanelValues(emojis, participants)], |participants|)
  }

  /** Where the code as written succeeds, the corrected values are the same. */
  lemma {:induction false} PanelValuesAgree(counter: Table<Name, string>, participants: seq<Name>)
    requires PanelValuesAsWritten(counter, participants).Ok?
    ensures PanelValuesAsWritten(counter, participants).value == PanelValues(counter, participants)
  {
    if participants != [] {
      var front := participants[..|participants| - 1];
      PanelValuesAgree(counter, front);
    }
  }

  /** Where the fourth panel as written succeeds, the corrected one draws the same bars. */
  lemma EmojiUsePanelAgrees(reactions: Table<Name, string>, emojis: Table<Name, string>)
    requires EmojiUsePanelAsWritten(reactions, emojis).Ok?
    ensures EmojiUsePanelAsWritten(reactions, emojis).value == EmojiUsePanel(reactions, emojis)
  {
    var participants := Deep([reactions, emojis]).keys;
    PanelValuesAgree(reactions, participants);
    PanelValuesAgree(emojis, participants);
  }

  /**
   * Each bar of the corrected fourth panel is the participant's number of reactions
   * plus their number of emojis in text.
   */
  lemma EmojiUseBars(reactions: Table<Name, string>, emojis: Table<Name, string>)
    ensures var participants := Deep([reactions, emojis]).keys;
      var bars := EmojiUsePanel(reactions, emojis);
      && |bars| == |participants|
      && forall i :: 0 <= i < |participants| ==>
           bars[i] == Total(InnerOf(reactions, participants[i])) + Total(InnerOf(emojis, participants[i]))
  {
    var participants := Deep([reactions, emojis]).keys;
    TwoBars(PanelValues(reactions, participants), PanelValues(emojis, participants), |participants|);
  }

  /** The keys of `ks` whose inner counter in `m` is not empty, in order. */
  function Occupied(ks: seq<Name>, m: map<Name, Dict<string, int>>): seq<Name> {
    if ks == [] then []
    else
      var k := ks[|ks| - 1];
      Occupied(ks[..|ks| - 1], m) + if k in m && m[k].keys != [] then [k] else []
  }

  lemma {:induction false} OccupiedMembers(ks: seq<Name>, m: map<Name, Dict<string, int>>)
    ensures forall k :: k in Occupied(ks, m) <==> k in ks && k in m && m[k].keys != []
  {
    if ks != [] {
      var front := ks[..|ks| - 1];
      OccupiedMembers(front, m);
      assert forall k :: k in ks <==> k in front || k == ks[|ks| - 1];
    }
  }

  lemma {:induction false} OccupiedDistinct(ks: seq<Name>, m: map<Name, Dict<string, int>>)
    requires Distinct(ks)
    ensures Distinct(Occupied(ks, m))
  {
    if ks != [] {
      var front := ks[..|ks| - 1];
      OccupiedDistinct(front, m);
      OccupiedMembers(front, m);
      assert ks[|ks| - 1] !in front;
    }
  }

  /** Empty inner counters add nothing to a grand sum. */
  lemma {:induction false} GrandSumOccupied(ks: seq<Name>, m: map<Name, Dict<string, int>>)
    ensures GrandSum(ks, m) == GrandSum(Occupied(ks, m), m)
  {
    if ks != [] {
      var front := ks[..|ks| - 1];
      var k := ks[|ks| - 1];
      GrandSumOccupied(front, m);
      if k in m && m[k].keys != [] {
        assert (Occupied(front, m) + [k])[..|Occupied(front, m)|] == Occupied(front, m);
      } else {
        assert Occupied(front, m) + [] == Occupied(front, m);
        assert Occupied(ks, m) == Occupied(front, m);
        assert (if k in m then Total(m[k]) else 0) == 0;
        assert GrandSum(ks, m) == GrandSum(front, m);
      }
    }
  }

  lemma DistinctSameElements(a: seq<Name>, b: seq<Name>)
    requires Distinct(a) && Distinct(b) && forall x :: x in a <==> x in b
    ensures multiset(a) == multiset(b)
  {
    OnceEach(a);
    OnceEach(b);
    forall x
      ensures multiset(a)[x] == multiset(b)[x]
    {
      if x in a {
        assert x in b;
        assert multiset(a)[x] == 1 == multiset(b)[x];
      } else {
        assert x !in b;
        assert multiset(a)[x] == 0 == multiset(b)[x];
      }
    }
  }

  /**
   * Summing the inner totals over distinct participants that include everyone with a
   * non-empty counter gives the counter's grand total.
   */
  lemma GrandSumOverParticipants(counter: Table<Name, string>, ps: seq<Name>)
    requires WellFormed(counter) && Distinct(ps)
    requires forall k :: k in counter.vals && counter.vals[k].keys != [] ==> k in ps
    ensures GrandSum(ps, counter.vals) == GrandTotal(counter)
  {
    var m := counter.vals;
    GrandSumOccupied(ps, m);
    GrandSumOccupied(counter.keys, m);
    OccupiedMembers(ps, m);
    OccupiedMembers(counter.keys, m);
    OccupiedDistinct(ps, m);
    OccupiedDistinct(counter.keys, m);
    DistinctSameElements(Occupied(ps, m), Occupied(counter.keys, m));
    GrandSumPermuted(Occupied(ps, m), Occupied(counter.keys, m), m);
  }

  lemma {:induction false} PanelValuesSum(counter: Table<Name, string>, ps: seq<Name>)
    ensures Sum(PanelValues(counter, ps)) == GrandSum(ps, counter.vals)
  {
    if ps != [] {
      var front := ps[..|ps| - 1];
      PanelValuesSum(counter, front);
      assert PanelValues(counter, ps)[..|ps| - 1] == PanelValues(counter, front);
    }
  }

  lemma PanelValuesTotal(counter: Table<Name, string>, other: Table<Name, string>, ps: seq<Name>)
    requires NestedWellFormed(counter) && NestedWellFormed(other)
    requires ps == Deep([counter, other]).keys || ps == Deep([other, counter]).keys
    ensures Sum(PanelValues(counter, ps)) == GrandTotal(counter)
  {
    var total := if ps == Deep([counter, other]).keys then Deep([counter, other]) else Deep([other, counter]);
    TotalEmojiParticipants(counter, other);
    TotalEmojiParticipants(other, counter);
    forall k | k in counter.vals && counter.vals[k].keys != []
      ensures k in ps
    {
      assert UsedIn([counter], k) by {
        assert [counter][0] == counter;
      }
      assert k in total.vals;
    }
    PanelValuesSum(counter, ps);
    GrandSumOverParticipants(counter, ps);
  }

  lemma TwoRowsTotal(a: seq<int>, b: seq<int>, width: nat)
    requires |a| == width && |b| == width
    ensures Sum(Stacked([a, b], width)) == Sum(a) + Sum(b)
  {
    var rows := [a, b];
    StackedTotal(rows, width);
    assert rows[..1] == [a] && [a][..0] == [];
    assert RowSums([a]) == Sum(a);
  }

  /**
   * The corrected fourth panel counts every reaction and every emoji in text exactly
   * once: its bars add up to the grand totals of the two counters.
   */
  lemma EmojiUseTotal(reactions: Table<Name, string>, emojis: Table<Name, string>)
    requires NestedWellFormed(reactions) && NestedWellFormed(emojis)
    ensures Sum(EmojiUsePanel(reactions, emojis)) == GrandTotal(reactions) + GrandTotal(emojis)
  {
    var participants := Deep([reactions, emojis]).keys;
    TwoRowsTotal(PanelValues(reactions, participants), PanelValues(emojis, participants), |participants|);
    PanelValuesTotal(reactions, emojis, participants);
    PanelValuesTotal(emojis, reactions, participants);
  }
}
