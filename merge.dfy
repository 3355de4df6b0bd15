/** `multi_dataframe_merge`: folds an ordered list of cell-indexed tables
    into one, joining each on the row index (an inner join) and renaming a
    clashing column of the table at list position i to `<name>_<i>`. */
module Merge {
  import opened Values
  import opened Tables

  /** The character of decimal digit `k`. */
  function Digit(k: nat): (c: char)
    requires k < 10
    ensures '0' <= c <= '9'
  {
    ('0' as int + k) as char
  }

  predicate IsDigits(s: string) {
    forall i :: 0 <= i < |s| ==> '0' <= s[i] <= '9'
  }

  /** The number a string of decimal digits spells, most significant first. */
  function DigitsValue(s: string): nat
    requires IsDigits(s)
  {
    if s == [] then 0 else 10 * DigitsValue(s[..|s| - 1]) + (s[|s| - 1] as int - '0' as int)
  }

  /** The decimal digits of `n`, as `'%d' % n` prints them: no leading
      zero, and spelling `n`. */
  function NatToString(n: nat): (s: string)
    ensures |s| >= 1 && IsDigits(s)
    ensures DigitsValue(s) == n
    ensures n > 0 ==> s[0] != '0'
  {
    if n < 10 then [Digit(n)]
    else
      var p := NatToString(n / 10);
      assert (p + [Digit(n % 10)])[..|p|] == p;
      p + [Digit(n % 10)]
  }

  /** Different positions are printed differently. */
  lemma NatToStringInjective(i: nat, j: nat)
    ensures NatToString(i) == NatToString(j) ==> i == j
  {
  }

  /** A column name with the suffix `'_%d' % i`. */
  function Suffixed(name: string, i: nat): string {
    name + "_" + NatToString(i)
  }

  /** The suffix tells the list positions apart: the same name suffixed at
      two positions gives two names. */
  lemma SuffixedInjective(name: string, i: nat, j: nat)
    ensures Suffixed(name, i) == Suffixed(name, j) ==> i == j
  {
    if Suffixed(name, i) == Suffixed(name, j) {
      assert Suffixed(name, i)[|name| + 1..] == NatToString(i);
      assert Suffixed(name, j)[|name| + 1..] == NatToString(j);
    }
  }

  /** The names the right table's columns get when merged into `left` at
      list position `i`: pandas' suffixes `('', '_i')` leave the left
      column as it is and rename only overlapping right columns. */
  function RenameColumns(left: seq<string>, right: seq<string>, i: nat): (r: seq<string>)
    ensures |r| == |right|
    ensures forall c :: 0 <= c < |right| ==> (r[c] == right[c] <==> right[c] !in left)
  {
    seq(|right|, c requires 0 <= c < |right| => if right[c] in left then Suffixed(right[c], i) else right[c])
  }

  /** `left.merge(right, left_index=True, right_index=True, suffixes=['', '_i'])`. */
  function Merge2(left: Table, right: Table, i: nat): (r: Table)
    requires WellFormed(left) && WellFormed(right)
    ensures WellFormed(r)
    ensures r.columns == left.columns + RenameColumns(left.columns, right.columns, i)
    ensures r.index == KeepRows(left.index, right.rows.Keys)
    ensures r.rows.Keys == left.rows.Keys * right.rows.Keys
    ensures forall k :: k in r.rows ==> r.rows[k] == left.rows[k] + right.rows[k]
  {
    Table(left.columns + RenameColumns(left.columns, right.columns, i),
          KeepRows(left.index, right.rows.Keys),
          map k | k in left.rows && k in right.rows :: left.rows[k] + right.rows[k])
  }

  ghost predicate AllWellFormed(dfs: seq<Table>) {
    forall j :: 0 <= j < |dfs| ==> WellFormed(dfs[j])
  }

  /** The accumulator after the first `n` tables have been folded in. */
  function MergePrefix(dfs: seq<Table>, n: nat): (r: Table)
    requires AllWellFormed(dfs) && 1 <= n <= |dfs|
    ensures WellFormed(r)
  {
    if n == 1 then dfs[0] else Merge2(MergePrefix(dfs, n - 1), dfs[n - 1], n - 1)
  }

  /** The function's result: None for an empty list (the loop never runs). */
  function MergeAll(dfs: seq<Table>): (r: Option<Table>)
    requires AllWellFormed(dfs)
    ensures r.None? <==> |dfs| == 0
    ensures r.Some? ==> WellFormed(r.value)
  {
    if |dfs| == 0 then None else Some(MergePrefix(dfs, |dfs|))
  }

  /** The loop of `multi_dataframe_merge`, updating the accumulator. */
  method MultiDataframeMerge(dfs: seq<Table>) returns (out: Option<Table>)
    requires AllWellFormed(dfs)
    ensures out == MergeAll(dfs)
  {
    out := None;
    for i := 0 to |dfs|
      invariant out == if i == 0 then None else Some(MergePrefix(dfs, i))
    {
      match out
      case None =>
        out := Some(dfs[i]);
      case Some(acc) =>
        out := Some(Merge2(acc, dfs[i], i));
    }
  }

  // ---------------------------------------------------------------------
  // Properties of the merge

  /** A one-element list comes back unchanged. */
  lemma MergeSingleton(t: Table)
    requires WellFormed(t)
    ensures MergeAll([t]) == Some(t)
  {
  }

  /** Total width of the first `j` tables: where table `j`'s columns start. */
  function Width(dfs: seq<Table>, j: nat): nat
    requires j <= |dfs|
  {
    if j == 0 then 0 else Width(dfs, j - 1) + |dfs[j - 1].columns|
  }

  lemma {:induction false} WidthMonotone(dfs: seq<Table>, i: nat, j: nat)
    requires i <= j <= |dfs|
    ensures Width(dfs, i) + (if i < j then |dfs[i].columns| else 0) <= Width(dfs, j)
    decreases j
  {
    if i < j {
      WidthMonotone(dfs, i, j - 1);
    }
  }

  /** The merged rows are exactly the keys present in every input table. */
  lemma {:induction false} MergeRowKeys(dfs: seq<Table>, n: nat)
    requires AllWellFormed(dfs) && 1 <= n <= |dfs|
    ensures forall k :: k in MergePrefix(dfs, n).rows <==> (forall j :: 0 <= j < n ==> k in dfs[j].rows)
  {
    if n > 1 {
      var r := MergePrefix(dfs, n);
      var p := MergePrefix(dfs, n - 1);
      MergeRowKeys(dfs, n - 1);
      forall k
        ensures k in r.rows <==> (forall j :: 0 <= j < n ==> k in dfs[j].rows)
      {
        assert r.rows.Keys == p.rows.Keys * dfs[n - 1].rows.Keys;
        if k in r.rows {
          assert k in p.rows;
          assert forall j :: 0 <= j < n - 1 ==> k in dfs[j].rows;
        }
        if forall j :: 0 <= j < n ==> k in dfs[j].rows {
          assert forall j :: 0 <= j < n - 1 ==> k in dfs[j].rows;
          assert k in p.rows;
        }
      }
    }
  }

  /** The merged index keeps the first table's row order. */
  lemma {:induction false} MergeIndexOrder(dfs: seq<Table>, n: nat)
    requires AllWellFormed(dfs) && 1 <= n <= |dfs|
    ensures MergePrefix(dfs, n).index == KeepRows(dfs[0].index, MergePrefix(dfs, n).rows.Keys)
  {
    var r := MergePrefix(dfs, n);
    if n == 1 {
      KeepRowsAll(dfs[0].index, r.rows.Keys);
    } else {
      var p := MergePrefix(dfs, n - 1);
      MergeIndexOrder(dfs, n - 1);
      IndexStep(dfs[0].index, p.index, p.rows.Keys, dfs[n - 1].rows.Keys, r.index, r.rows.Keys);
    }
  }

  /** One more join step keeps the index the filtered first index. */
  lemma IndexStep(first: seq<Value>, pIndex: seq<Value>, pKeys: set<Value>, keys: set<Value>, rIndex: seq<Value>, rKeys: set<Value>)
    requires pIndex == KeepRows(first, pKeys)
    requires rIndex == KeepRows(pIndex, keys)
    requires rKeys == pKeys * keys
    ensures rIndex == KeepRows(first, rKeys)
  {
    KeepRowsTwice(first, pKeys, keys);
  }

  lemma {:induction false} KeepRowsAll(index: seq<Value>, keep: set<Value>)
    requires forall k :: k in index ==> k in keep
    ensures KeepRows(index, keep) == index
  {
    if index != [] {
      KeepRowsAll(index[1..], keep);
    }
  }

  /** Column `c` of a table whose columns start at `start` in the merged
      list `r`, originally called `name` and merged at list position `j`,
      kept its name unless an earlier column already had it. */
  ghost predicate Placed(r: seq<string>, start: nat, c: nat, name: string, j: nat) {
    start + c < |r| && r[start + c] == if name in r[..start] then Suffixed(name, j) else name
  }

  lemma PlacedExtend(p: seq<string>, q: seq<string>, start: nat, c: nat, name: string, j: nat)
    requires Placed(p, start, c, name, j)
    ensures Placed(p + q, start, c, name, j)
  {
    assert (p + q)[..start] == p[..start];
  }

  lemma PlacedNew(p: seq<string>, cols: seq<string>, i: nat, c: nat)
    requires c < |cols|
    ensures Placed(p + RenameColumns(p, cols, i), |p|, c, cols[c], i)
  {
    assert (p + RenameColumns(p, cols, i))[..|p|] == p;
  }

  /** Naming rule: the columns of table `j` sit, in order, at offset
      `Width(dfs, j)`; each keeps its bare name unless a column before that
      offset already carries it, in which case it becomes `<name>_<j>`. */
  lemma {:induction false} MergeColumnNames(dfs: seq<Table>, n: nat)
    requires AllWellFormed(dfs) && 1 <= n <= |dfs|
    ensures |MergePrefix(dfs, n).columns| == Width(dfs, n)
    ensures forall j, c :: 0 <= j < n && 0 <= c < |dfs[j].columns| ==>
              Placed(MergePrefix(dfs, n).columns, Width(dfs, j), c, dfs[j].columns[c], j)
  {
    var r := MergePrefix(dfs, n).columns;
    if n > 1 {
      var p := MergePrefix(dfs, n - 1).columns;
      var q := RenameColumns(p, dfs[n - 1].columns, n - 1);
      MergeColumnNames(dfs, n - 1);
      assert r == p + q;
      forall j, c | 0 <= j < n && 0 <= c < |dfs[j].columns|
        ensures Placed(r, Width(dfs, j), c, dfs[j].columns[c], j)
      {
        if j < n - 1 {
          PlacedExtend(p, q, Width(dfs, j), c, dfs[j].columns[c], j);
        } else {
          PlacedNew(p, dfs[n - 1].columns, n - 1, c);
        }
      }
    } else {
      forall j, c | 0 <= j < n && 0 <= c < |dfs[j].columns|
        ensures Placed(r, Width(dfs, j), c, dfs[j].columns[c], j)
      {
        assert j == 0 && r[..0] == [];
      }
    }
  }

  /** Position `at` of `row` holds the value of table `t`'s column `c`
      for row key `k`. */
  ghost predicate Carries(row: seq<Value>, start: nat, c: nat, t: Table, k: Value) {
    k in t.rows && c < |t.rows[k]| && start + c < |row| && row[start + c] == t.rows[k][c]
  }

  lemma CarriesExtend(row: seq<Value>, more: seq<Value>, start: nat, c: nat, t: Table, k: Value)
    requires Carries(row, start, c, t, k)
    ensures Carries(row + more, start, c, t, k)
  {
  }

  lemma CarriesAppend(row: seq<Value>, c: nat, t: Table, k: Value)
    requires k in t.rows && c < |t.rows[k]|
    ensures Carries(row + t.rows[k], |row|, c, t, k)
  {
  }

  /** Every merged row carries, at table `j`'s offset, the row of table
      `j` for the same key, unchanged. */
  lemma {:induction false} MergeRowValues(dfs: seq<Table>, n: nat)
    requires AllWellFormed(dfs) && 1 <= n <= |dfs|
    ensures forall k, j, c :: k in MergePrefix(dfs, n).rows && 0 <= j < n && 0 <= c < |dfs[j].columns| ==>
              Carries(MergePrefix(dfs, n).rows[k], Width(dfs, j), c, dfs[j], k)
  {
    var r := MergePrefix(dfs, n);
    if n > 1 {
      var p := MergePrefix(dfs, n - 1);
      var d := dfs[n - 1];
      MergeRowValues(dfs, n - 1);
      MergeColumnNames(dfs, n - 1);
      forall k, j, c | k in r.rows && 0 <= j < n && 0 <= c < |dfs[j].columns|
        ensures Carries(r.rows[k], Width(dfs, j), c, dfs[j], k)
      {
        assert k in p.rows && k in d.rows;
        assert r.rows[k] == p.rows[k] + d.rows[k];
        if j < n - 1 {
          CarriesExtend(p.rows[k], d.rows[k], Width(dfs, j), c, dfs[j], k);
        } else {
          assert j == n - 1 && |p.rows[k]| == Width(dfs, n - 1);
          CarriesAppend(p.rows[k], c, d, k);
        }
      }
    } else {
      forall k, j, c | k in r.rows && 0 <= j < n && 0 <= c < |dfs[j].columns|
        ensures Carries(r.rows[k], Width(dfs, j), c, dfs[j], k)
      {
        assert j == 0 && Width(dfs, 0) == 0;
      }
    }
  }

  /** Every column of the first table keeps its bare name and its values. */
  lemma FirstTableKeepsNames(dfs: seq<Table>)
    requires AllWellFormed(dfs) && |dfs| >= 1
    ensures var r := MergeAll(dfs).value;
            && |dfs[0].columns| <= |r.columns|
            && r.columns[..|dfs[0].columns|] == dfs[0].columns
            && forall k, c :: k in r.rows && 0 <= c < |dfs[0].columns| ==> Carries(r.rows[k], 0, c, dfs[0], k)
  {
    var r := MergeAll(dfs).value;
    MergeColumnNames(dfs, |dfs|);
    MergeRowValues(dfs, |dfs|);
    WidthMonotone(dfs, 0, |dfs|);
    assert Width(dfs, 0) == 0;
    forall c | 0 <= c < |dfs[0].columns|
      ensures c < |r.columns| && r.columns[c] == dfs[0].columns[c]
    {
      assert Placed(r.columns, 0, c, dfs[0].columns[c], 0);
      assert r.columns[..0] == [];
    }
  }

  /** Merging tables with columns {x}, {x} and {x, y} gives x, x_1, x_2, y. */
  lemma MergeExample(a: Value, b: Value, c: Value, d: Value, key: Value)
    ensures var t0 := Table(["x"], [key], map[key := [a]]);
            var t1 := Table(["x"], [key], map[key := [b]]);
            var t2 := Table(["x", "y"], [key], map[key := [c, d]]);
            AllWellFormed([t0, t1, t2]) &&
            MergeAll([t0, t1, t2]) == Some(Table(["x", "x_1", "x_2", "y"], [key], map[key := [a, b, c, d]]))
  {
    var t0 := Table(["x"], [key], map[key := [a]]);
    var t1 := Table(["x"], [key], map[key := [b]]);
    var t2 := Table(["x", "y"], [key], map[key := [c, d]]);
    var dfs := [t0, t1, t2];
    assert AllWellFormed(dfs);
    MergeExampleFirst(a, b, key);
    MergeExampleSecond(a, b, c, d, key);
    assert MergePrefix(dfs, 2) == Merge2(t0, t1, 1);
  }

  /** `{x}` then `{x}`: the clash from position 1 becomes `x_1`. */
  lemma MergeExampleFirst(a: Value, b: Value, key: Value)
    ensures Merge2(Table(["x"], [key], map[key := [a]]), Table(["x"], [key], map[key := [b]]), 1) ==
              Table(["x", "x_1"], [key], map[key := [a, b]])
  {
    var m1 := Merge2(Table(["x"], [key], map[key := [a]]), Table(["x"], [key], map[key := [b]]), 1);
    assert NatToString(1) == "1";
    assert Suffixed("x", 1) == "x_1";
    assert RenameColumns(["x"], ["x"], 1) == ["x_1"];
    assert KeepRows([key], {key}) == [key];
    assert m1.rows.Keys == {key} && m1.rows[key] == [a, b];
    assert m1.rows == map[key := [a, b]];
    assert map[key := [b]].Keys == {key};
    assert m1.columns == ["x", "x_1"] && m1.index == [key];
  }

  /** Then `{x, y}`: `x` clashes at position 2 and becomes `x_2`, `y` stays. */
  lemma MergeExampleSecond(a: Value, b: Value, c: Value, d: Value, key: Value)
    ensures Merge2(Table(["x", "x_1"], [key], map[key := [a, b]]), Table(["x", "y"], [key], map[key := [c, d]]), 2) ==
              Table(["x", "x_1", "x_2", "y"], [key], map[key := [a, b, c, d]])
  {
    var m2 := Merge2(Table(["x", "x_1"], [key], map[key := [a, b]]), Table(["x", "y"], [key], map[key := [c, d]]), 2);
    assert NatToString(2) == "2";
    assert Suffixed("x", 2) == "x_2";
    assert "x" in ["x", "x_1"] && "y" !in ["x", "x_1"];
    assert RenameColumns(["x", "x_1"], ["x", "y"], 2) == ["x_2", "y"];
    assert KeepRows([key], {key}) == [key];
    assert m2.rows.Keys == {key} && m2.rows[key] == [a, b, c, d];
    assert m2.rows == map[key := [a, b, c, d]];
    assert map[key := [c, d]].Keys == {key};
    assert m2.columns == ["x", "x_1", "x_2", "y"] && m2.index == [key];
  }
}
