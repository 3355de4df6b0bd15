/** Cell-indexed tables: the part of a pandas DataFrame the orchestrator
    relies on (named columns, a row index of cell identifiers, column
    selection `df[name]` and scalar column assignment `df[name] = v`). */
module Tables {
  import opened Values

  /** Column names in order, the row index in order, and for every row key
      the row's values aligned with `columns`. */
  datatype Table = Table(columns: seq<string>, index: seq<Value>, rows: map<Value, seq<Value>>)

  /** The representation invariant every DataFrame satisfies: the index
      lists each row key once, exactly the keys that have rows, and every
      row has one value per column. */
  ghost predicate WellFormed(t: Table) {
    && Distinct(t.index)
    && (forall k :: k in t.index <==> k in t.rows)
    && (forall k :: k in t.rows ==> |t.rows[k]| == |t.columns|)
  }

  /** A mutable DataFrame object; `append_metadata` updates one in place. */
  class DataFrame {
    var table: Table

    constructor (t: Table)
      ensures table == t
    {
      table := t;
    }
  }

  /** Position of the first column named `x`. */
  function IndexOf(s: seq<string>, x: string): (i: nat)
    requires x in s
    ensures i < |s| && s[i] == x
    ensures forall j :: 0 <= j < i ==> s[j] != x
  {
    if s[0] == x then 0 else 1 + IndexOf(s[1..], x)
  }

  /** `t[name]`: the values of column `name` in row order, or a KeyError
      when the table has no such column. */
  function Column(t: Table, name: string): (r: Result<seq<Value>>)
    requires WellFormed(t)
    ensures r.Ok? <==> name in t.columns
    ensures r.Err? ==> r.error == MissingColumn(name)
    ensures r.Ok? ==> |r.value| == |t.index|
    ensures r.Ok? ==> forall j :: 0 <= j < |t.index| ==>
              r.value[j] == t.rows[t.index[j]][IndexOf(t.columns, name)]
  {
    if name in t.columns then
      var c := IndexOf(t.columns, name);
      Ok(seq(|t.index|, j requires 0 <= j < |t.index| => t.rows[t.index[j]][c]))
    else
      Err(MissingColumn(name))
  }

  /** A row in which every position named `k` holds `v`. */
  function Overwrite(columns: seq<string>, row: seq<Value>, k: string, v: Value): (r: seq<Value>)
    requires |row| == |columns|
    ensures |r| == |row|
    ensures forall c :: 0 <= c < |r| ==> r[c] == if columns[c] == k then v else row[c]
  {
    seq(|row|, c requires 0 <= c < |row| => if columns[c] == k then v else row[c])
  }

  /** `t[k] = v` for a scalar `v`: an existing column named `k` is
      overwritten in every row, otherwise a column `k` is appended. */
  function SetColumn(t: Table, k: string, v: Value): (u: Table)
    requires WellFormed(t)
    ensures WellFormed(u)
    ensures u.index == t.index && u.rows.Keys == t.rows.Keys
    ensures k in u.columns
    ensures forall key, c :: key in u.rows && 0 <= c < |u.columns| && u.columns[c] == k ==> u.rows[key][c] == v
    ensures k in t.columns ==> u.columns == t.columns
    ensures k !in t.columns ==> u.columns == t.columns + [k]
    ensures forall key, c :: key in t.rows && 0 <= c < |t.columns| && t.columns[c] != k ==>
              u.rows[key][c] == t.rows[key][c]
  {
    if k in t.columns then
      Table(t.columns, t.index, map key | key in t.rows :: Overwrite(t.columns, t.rows[key], k, v))
    else
      Table(t.columns + [k], t.index, map key | key in t.rows :: t.rows[key] + [v])
  }

  /** The subsequence of `index` whose keys are in `keep`, in the same order. */
  function KeepRows(index: seq<Value>, keep: set<Value>): (r: seq<Value>)
    ensures forall k :: k in r <==> k in index && k in keep
    ensures Distinct(index) ==> Distinct(r)
  {
    if index == [] then []
    else
      var rest := KeepRows(index[1..], keep);
      assert forall k :: k in index <==> k == index[0] || k in index[1..];
      if index[0] in keep then [index[0]] + rest else rest
  }

  /** Filtering twice is filtering once by both sets. */
  lemma {:induction false} KeepRowsTwice(index: seq<Value>, s: set<Value>, t: set<Value>)
    ensures KeepRows(KeepRows(index, s), t) == KeepRows(index, s * t)
  {
    if index != [] {
      KeepRowsTwice(index[1..], s, t);
      var inner := KeepRows(index[1..], s);
      if index[0] in s {
        assert KeepRows(index, s) == [index[0]] + inner;
        assert ([index[0]] + inner)[1..] == inner;
      }
    }
  }
}
