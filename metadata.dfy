/** Metadata: the recording's metadata overridden by the caller's
    (`CamAnalysis.__init__`), and its broadcast as constant columns onto a
    merged peak table (`append_metadata`). */
module Metadata {
  import opened Values
  import opened Tables

  /** The caller's overrides win over the recording's values. */
  function OverrideMetadata(recorded: map<string, Value>, overrides: Option<map<string, Value>>): (m: map<string, Value>)
    ensures overrides.None? ==> m == recorded
    ensures overrides.Some? ==> m.Keys == recorded.Keys + overrides.value.Keys
    ensures overrides.Some? ==> forall k :: k in overrides.value ==> m[k] == overrides.value[k]
    ensures forall k :: k in recorded && (overrides.None? || k !in overrides.value) ==> k in m && m[k] == recorded[k]
  {
    match overrides
    case None => recorded
    case Some(o) => recorded + o
  }

  /** `u` is `t` after `t[k] = md[k]` for every `k` in `keys`, in some
      order: the rows and the index are those of `t`; the columns of `t`
      stay in place, followed by one new column for each key `t` lacked;
      every column named by a key holds that key's value in every row, and
      every other column of `t` keeps its values. */
  ghost predicate Broadcast(t: Table, md: map<string, Value>, keys: set<string>, u: Table) {
    && WellFormed(t)
    && keys <= md.Keys
    && WellFormed(u)
    && u.index == t.index
    && u.rows.Keys == t.rows.Keys
    && |t.columns| <= |u.columns|
    && u.columns[..|t.columns|] == t.columns
    && (forall c :: |t.columns| <= c < |u.columns| ==> u.columns[c] in keys && u.columns[c] !in t.columns)
    && Distinct(u.columns[|t.columns|..])
    && (forall k :: k in keys ==> k in u.columns)
    && (forall key, c :: key in u.rows && 0 <= c < |u.columns| && u.columns[c] in keys ==>
          u.rows[key][c] == md[u.columns[c]])
    && (forall key, c :: key in t.rows && 0 <= c < |t.columns| && t.columns[c] !in keys ==>
          u.rows[key][c] == t.rows[key][c])
  }

  /** Nothing assigned yet. */
  lemma BroadcastNone(t: Table, md: map<string, Value>)
    requires WellFormed(t)
    ensures Broadcast(t, md, {}, t)
  {
    assert t.columns[..|t.columns|] == t.columns;
  }

  /** One more assignment `u[k] = md[k]` extends the broadcast by `k`. */
  lemma BroadcastStep(t: Table, md: map<string, Value>, keys: set<string>, u: Table, k: string)
    requires Broadcast(t, md, keys, u)
    requires k in md && k !in keys
    ensures Broadcast(t, md, keys + {k}, SetColumn(u, k, md[k]))
  {
    if k in u.columns {
      BroadcastOverwrite(t, md, keys, u, k);
    } else {
      BroadcastAppend(t, md, keys, u, k);
    }
  }

  /** The key is already a column: the layout stays, the values change. */
  lemma BroadcastOverwrite(t: Table, md: map<string, Value>, keys: set<string>, u: Table, k: string)
    requires Broadcast(t, md, keys, u)
    requires k in md && k !in keys && k in u.columns
    ensures Broadcast(t, md, keys + {k}, SetColumn(u, k, md[k]))
  {
    var w := SetColumn(u, k, md[k]);
    assert w.columns == u.columns;
    OverwriteRows(t, md, keys, u, w, k);
  }

  /** The row values after overwriting column `k`. */
  lemma OverwriteRows(t: Table, md: map<string, Value>, keys: set<string>, u: Table, w: Table, k: string)
    requires Broadcast(t, md, keys, u)
    requires k in md && k !in keys && k in u.columns
    requires w == SetColumn(u, k, md[k])
    ensures forall key, c :: key in w.rows && 0 <= c < |w.columns| && w.columns[c] in keys + {k} ==>
              w.rows[key][c] == md[w.columns[c]]
    ensures forall key, c :: key in t.rows && 0 <= c < |t.columns| && t.columns[c] !in keys + {k} ==>
              w.rows[key][c] == t.rows[key][c]
  {
    assert w.columns == u.columns;
    forall key, c | key in t.rows && 0 <= c < |t.columns| && t.columns[c] !in keys + {k}
      ensures w.rows[key][c] == t.rows[key][c]
    {
      assert u.columns[c] == t.columns[c];
    }
  }

  /** The key is not a column yet: it is appended after the others. */
  lemma BroadcastAppend(t: Table, md: map<string, Value>, keys: set<string>, u: Table, k: string)
    requires Broadcast(t, md, keys, u)
    requires k in md && k !in keys && k !in u.columns
    ensures Broadcast(t, md, keys + {k}, SetColumn(u, k, md[k]))
  {
    var w := SetColumn(u, k, md[k]);
    AppendColumns(t.columns, keys, u.columns, k);
    AppendRows(t, md, keys, u, w, k);
  }

  /** The column layout after appending `k`. */
  lemma AppendColumns(tc: seq<string>, keys: set<string>, uc: seq<string>, k: string)
    requires |tc| <= |uc| && uc[..|tc|] == tc
    requires forall c :: |tc| <= c < |uc| ==> uc[c] in keys && uc[c] !in tc
    requires Distinct(uc[|tc|..])
    requires forall k' :: k' in keys ==> k' in uc
    requires k !in keys && k !in uc
    ensures k !in tc
    ensures (uc + [k])[..|tc|] == tc
    ensures forall c :: |tc| <= c < |uc + [k]| ==> (uc + [k])[c] in keys + {k} && (uc + [k])[c] !in tc
    ensures Distinct((uc + [k])[|tc|..])
    ensures forall k' :: k' in keys + {k} ==> k' in uc + [k]
  {
    var n := |tc|;
    var wc := uc + [k];
    assert wc[..n] == uc[..n];
    assert wc[n..] == uc[n..] + [k];
    forall c | n <= c < |wc|
      ensures wc[c] in keys + {k} && wc[c] !in tc
    {
      if c < |uc| { assert wc[c] == uc[c]; }
    }
  }

  /** The row values after appending `k`. */
  lemma AppendRows(t: Table, md: map<string, Value>, keys: set<string>, u: Table, w: Table, k: string)
    requires Broadcast(t, md, keys, u)
    requires k in md && k !in keys && k !in u.columns
    requires w == SetColumn(u, k, md[k])
    ensures forall key, c :: key in w.rows && 0 <= c < |w.columns| && w.columns[c] in keys + {k} ==>
              w.rows[key][c] == md[w.columns[c]]
    ensures forall key, c :: key in t.rows && 0 <= c < |t.columns| && t.columns[c] !in keys + {k} ==>
              w.rows[key][c] == t.rows[key][c]
  {
    assert w.columns == u.columns + [k];
    forall key, c | key in w.rows && 0 <= c < |w.columns| && w.columns[c] in keys + {k}
      ensures w.rows[key][c] == md[w.columns[c]]
    {
      if c < |u.columns| { assert w.columns[c] == u.columns[c]; }
    }
    forall key, c | key in t.rows && 0 <= c < |t.columns| && t.columns[c] !in keys + {k}
      ensures w.rows[key][c] == t.rows[key][c]
    {
      assert u.columns[c] == t.columns[c];
    }
  }

  /** After the broadcast, selecting a metadata column gives its value in
      every row. */
  lemma {:induction false} BroadcastColumn(t: Table, md: map<string, Value>, u: Table, k: string)
    requires Broadcast(t, md, md.Keys, u)
    requires k in md
    ensures Column(u, k).Ok?
    ensures |Column(u, k).value| == |t.index|
    ensures forall j :: 0 <= j < |t.index| ==> Column(u, k).value[j] == md[k]
  {
    var c := IndexOf(u.columns, k);
    forall j | 0 <= j < |t.index|
      ensures Column(u, k).value[j] == md[k]
    {
      assert t.index[j] in u.rows;
    }
  }
}
