/** The metric extractors `append_metrics_drifting_grating`,
    `append_metrics_static_grating` and `append_metrics_natural_scene`:
    what they copy out of a stimulus analysis's peak table, under which
    keys, and how integer codes are resolved through lookup vectors. */
module Metrics {
  import opened Values
  import opened Tables

  /** A metrics mapping: metric name to per-cell values in row order. */
  type MetricMap = map<string, seq<Value>>

  // ---------------------------------------------------------------------
  // Stimulus analyses, as the results the orchestrator reads from them

  datatype DriftingGrating = DriftingGrating(peak: Table, roiId: seq<Value>, orivals: seq<Value>, tfvals: seq<Value>)
  datatype StaticGrating = StaticGrating(peak: Table, roiId: seq<Value>, orivals: seq<Value>, sfvals: seq<Value>, phasevals: seq<Value>)
  datatype NaturalScenes = NaturalScenes(peak: Table, roiId: seq<Value>)
  datatype NaturalMovie = NaturalMovie(peak: Table, peakRun: Table, roiId: seq<Value>)

  // ---------------------------------------------------------------------
  // Code resolution: `[vals[i] for i in codes]`

  /** Python's `vals[code]`: an integer index, counted from the end when
      negative; anything else raises. */
  function PyIndex(vals: seq<Value>, code: Value): (r: Result<Value>)
    ensures r.Ok? <==> code.Int? && -|vals| <= code.i < |vals|
    ensures r.Err? ==> r.error == BadCode(code)
    ensures r.Ok? && code.i >= 0 ==> r.value == vals[code.i]
    ensures r.Ok? && code.i < 0 ==> r.value == vals[|vals| + code.i]
  {
    if code.Int? && 0 <= code.i < |vals| then Ok(vals[code.i])
    else if code.Int? && -|vals| <= code.i < 0 then Ok(vals[|vals| + code.i])
    else Err(BadCode(code))
  }

  /** The list comprehension, left to right: the first code that cannot
      index `vals` raises. */
  function ResolveCodes(vals: seq<Value>, codes: seq<Value>): (r: Result<seq<Value>>)
    ensures r.Ok? ==> |r.value| == |codes|
    ensures r.Err? ==> r.error.BadCode?
  {
    if codes == [] then Ok([])
    else match PyIndex(vals, codes[0])
      case Err(e) => Err(e)
      case Ok(v) =>
        match ResolveCodes(vals, codes[1..])
        case Err(e) => Err(e)
        case Ok(rest) => Ok([v] + rest)
  }

  /** Resolution succeeds exactly when every code indexes `vals`; it then
      keeps length and order, each entry being the looked-up value; on
      failure it reports the first bad code. */
  lemma {:induction false} ResolveCodesCorrect(vals: seq<Value>, codes: seq<Value>)
    ensures ResolveCodes(vals, codes).Ok? <==> forall j :: 0 <= j < |codes| ==> PyIndex(vals, codes[j]).Ok?
    ensures ResolveCodes(vals, codes).Ok? ==>
              |ResolveCodes(vals, codes).value| == |codes| &&
              forall j :: 0 <= j < |codes| ==> ResolveCodes(vals, codes).value[j] == PyIndex(vals, codes[j]).value
    ensures ResolveCodes(vals, codes).Err? ==>
              exists j :: 0 <= j < |codes| && PyIndex(vals, codes[j]) == Err(ResolveCodes(vals, codes).error) &&
                          forall i :: 0 <= i < j ==> PyIndex(vals, codes[i]).Ok?
  {
    if codes != [] {
      ResolveCodesCorrect(vals, codes[1..]);
      var r := ResolveCodes(vals, codes);
      var rest := ResolveCodes(vals, codes[1..]);
      if PyIndex(vals, codes[0]).Ok? {
        assert forall j :: 1 <= j < |codes| ==> codes[j] == codes[1..][j - 1];
        if rest.Err? {
          var j' :| 0 <= j' < |codes| - 1 && PyIndex(vals, codes[1..][j']) == Err(rest.error) &&
                    forall i :: 0 <= i < j' ==> PyIndex(vals, codes[1..][i]).Ok?;
          assert PyIndex(vals, codes[j' + 1]) == Err(r.error);
          assert forall i :: 0 <= i < j' + 1 ==> PyIndex(vals, codes[i]).Ok?;
        }
      } else {
        assert PyIndex(vals, codes[0]) == Err(r.error);
      }
    }
  }

  /** With non-negative in-range codes, entry `j` is `vals[codes[j]]`. */
  lemma ResolveInRange(vals: seq<Value>, codes: seq<Value>)
    requires forall j :: 0 <= j < |codes| ==> codes[j].Int? && 0 <= codes[j].i < |vals|
    ensures ResolveCodes(vals, codes).Ok?
    ensures |ResolveCodes(vals, codes).value| == |codes|
    ensures forall j :: 0 <= j < |codes| ==> ResolveCodes(vals, codes).value[j] == vals[codes[j].i]
  {
    ResolveCodesCorrect(vals, codes);
  }

  /** Lookup vector [0, 45, 90, 135] and codes [2, 0, 3] give [90, 0, 135]. */
  lemma ResolveExample()
    ensures ResolveCodes([Int(0), Int(45), Int(90), Int(135)], [Int(2), Int(0), Int(3)]) == Ok([Int(90), Int(0), Int(135)])
  {
    var vals := [Int(0), Int(45), Int(90), Int(135)];
    var codes := [Int(2), Int(0), Int(3)];
    assert codes[1..] == [Int(0), Int(3)] && codes[1..][1..] == [Int(3)] && codes[1..][1..][1..] == [];
    assert PyIndex(vals, Int(3)) == Ok(Int(135)) && PyIndex(vals, Int(0)) == Ok(Int(0)) && PyIndex(vals, Int(2)) == Ok(Int(90));
    assert [Int(3)][1..] == [] && ResolveCodes(vals, []) == Ok([]);
    var one := ResolveCodes(vals, [Int(3)]);
    assert one.Ok?;
    assert one.value == [Int(135)] + [] == [Int(135)];
    assert [Int(0), Int(3)][1..] == [Int(3)];
    var two := ResolveCodes(vals, [Int(0), Int(3)]);
    assert two.value == [Int(0)] + [Int(135)] == [Int(0), Int(135)];
    assert [Int(90)] + [Int(0), Int(135)] == [Int(90), Int(0), Int(135)];
  }

  // ---------------------------------------------------------------------
  // Extractors as data: which key is filled from which column, and how

  /** `metrics[key] = peak[column]`, or `metrics[key] = [lookup[i] for i in peak[column].values]`. */
  datatype Field = Copy(key: string, column: string) | Lookup(key: string, column: string, lookup: seq<Value>)

  function DriftingGratingFields(dg: DriftingGrating): (fs: seq<Field>)
    ensures Distinct(KeyList(fs))
    ensures "roi_id" !in Keys(fs)
  {
    [ Copy("osi_dg", "osi_dg"),
      Copy("dsi_dg", "dsi_dg"),
      Lookup("pref_dir_dg", "ori_dg", dg.orivals),
      Lookup("pref_tf_dg", "tf_dg", dg.tfvals),
      Copy("p_dg", "ptest_dg") ]
  }

  function StaticGratingFields(sg: StaticGrating): (fs: seq<Field>)
    ensures Distinct(KeyList(fs))
    ensures "roi_id" !in Keys(fs)
  {
    [ Copy("osi_sg", "osi_sg"),
      Lookup("pref_ori_sg", "ori_sg", sg.orivals),
      Lookup("pref_sf_sg", "sf_sg", sg.sfvals),
      Lookup("pref_phase_sg", "phase_sg", sg.phasevals),
      Copy("p_sg", "ptest_sg"),
      Copy("time_to_peak_sg", "time_to_peak_sg") ]
  }

  function NaturalSceneFields(): (fs: seq<Field>)
    ensures Distinct(KeyList(fs))
    ensures "roi_id" !in Keys(fs)
  {
    [ Copy("pref_image_ns", "scene_ns"),
      Copy("p_ns", "ptest_ns"),
      Copy("time_to_peak_ns", "time_to_peak_ns") ]
  }

  /** The right-hand side of one assignment. */
  function FieldValue(peak: Table, f: Field): (r: Result<seq<Value>>)
    requires WellFormed(peak)
    ensures f.column !in peak.columns ==> r == Err(MissingColumn(f.column))
    ensures r.Ok? ==> f.column in peak.columns && |r.value| == |peak.index|
  {
    match f
    case Copy(_, column) => Column(peak, column)
    case Lookup(_, column, lookup) =>
      match Column(peak, column)
      case Err(e) => Err(e)
      case Ok(codes) => ResolveCodes(lookup, codes)
  }

  /** A metrics mapping after some assignments, and the exception that
      stopped them, if any. */
  datatype Fill = Fill(metrics: MetricMap, error: Option<Error>)

  /** The assignments in order; the first one whose right-hand side raises
      stops the rest, and those before it stay done. */
  function ApplyFields(m: MetricMap, peak: Table, fs: seq<Field>): (r: Fill)
    requires WellFormed(peak)
    decreases |fs|
    ensures m.Keys <= r.metrics.Keys
    ensures r.error.None? ==> forall i :: 0 <= i < |fs| ==> fs[i].key in r.metrics
  {
    if fs == [] then Fill(m, None)
    else match FieldValue(peak, fs[0])
      case Err(e) => Fill(m, Some(e))
      case Ok(v) =>
        var tail := fs[1..];
        assert forall i :: 1 <= i < |fs| ==> fs[i] == tail[i - 1];
        ApplyFields(m[fs[0].key := v], peak, tail)
  }

  function Keys(fs: seq<Field>): set<string> {
    set i | 0 <= i < |fs| :: fs[i].key
  }

  /** The assignments do not depend on what the mapping held before: the
      result is the old mapping updated with what `fs` writes into an empty
      one, and the error is the same. */
  lemma {:induction false} ApplyFieldsFrame(m: MetricMap, peak: Table, fs: seq<Field>)
    requires WellFormed(peak)
    decreases |fs|
    ensures ApplyFields(m, peak, fs).error == ApplyFields(map[], peak, fs).error
    ensures ApplyFields(m, peak, fs).metrics == m + ApplyFields(map[], peak, fs).metrics
  {
    if fs != [] {
      match FieldValue(peak, fs[0])
      case Err(e) =>
      case Ok(v) =>
        var k := fs[0].key;
        ApplyFieldsFrame(m[k := v], peak, fs[1..]);
        ApplyFieldsFrame(map[k := v], peak, fs[1..]);
        UpdateThenUnion(m, k, v, ApplyFields(map[], peak, fs[1..]).metrics);
    }
  }

  lemma UpdateThenUnion(m: MetricMap, k: string, v: seq<Value>, w: MetricMap)
    ensures m[k := v] + w == m + (map[k := v] + w)
  {
  }

  /** The assignments write only the keys of `fs`. */
  lemma {:induction false} ApplyFieldsKeys(m: MetricMap, peak: Table, fs: seq<Field>)
    requires WellFormed(peak)
    decreases |fs|
    ensures ApplyFields(m, peak, fs).metrics.Keys <= m.Keys + Keys(fs)
  {
    if fs != [] {
      match FieldValue(peak, fs[0])
      case Err(e) =>
      case Ok(v) =>
        ApplyFieldsKeys(m[fs[0].key := v], peak, fs[1..]);
        assert forall i :: 0 <= i < |fs| - 1 ==> fs[1..][i].key == fs[i + 1].key;
    }
  }

  /** Running the same assignments twice leaves what running them once left. */
  lemma ApplyFieldsIdempotent(m: MetricMap, peak: Table, fs: seq<Field>)
    requires WellFormed(peak)
    ensures ApplyFields(ApplyFields(m, peak, fs).metrics, peak, fs) == ApplyFields(m, peak, fs)
  {
    var once := ApplyFields(m, peak, fs);
    ApplyFieldsFrame(m, peak, fs);
    ApplyFieldsFrame(once.metrics, peak, fs);
    var w := ApplyFields(map[], peak, fs).metrics;
    assert (m + w) + w == m + w;
  }

  /** The assignments all happen exactly when every right-hand side can be
      evaluated. */
  lemma {:induction false} ApplyFieldsSucceeds(m: MetricMap, peak: Table, fs: seq<Field>)
    requires WellFormed(peak)
    decreases |fs|
    ensures ApplyFields(m, peak, fs).error.None? <==> forall i :: 0 <= i < |fs| ==> FieldValue(peak, fs[i]).Ok?
  {
    if fs != [] {
      assert forall i :: 1 <= i < |fs| ==> fs[i] == fs[1..][i - 1];
      match FieldValue(peak, fs[0])
      case Err(e) =>
      case Ok(v) =>
        ApplyFieldsSucceeds(m[fs[0].key := v], peak, fs[1..]);
    }
  }

  /** When every assignment happens and the keys are distinct, each key
      holds its field's value and every other key keeps its old value. */
  lemma {:induction false} ApplyFieldsContents(m: MetricMap, peak: Table, fs: seq<Field>)
    requires WellFormed(peak)
    requires forall i :: 0 <= i < |fs| ==> FieldValue(peak, fs[i]).Ok?
    requires Distinct(KeyList(fs))
    decreases |fs|
    ensures ApplyFields(m, peak, fs).error.None?
    ensures ApplyFields(m, peak, fs).metrics.Keys == m.Keys + Keys(fs)
    ensures forall i :: 0 <= i < |fs| ==> ApplyFields(m, peak, fs).metrics[fs[i].key] == FieldValue(peak, fs[i]).value
    ensures forall k :: k in m && k !in Keys(fs) ==> ApplyFields(m, peak, fs).metrics[k] == m[k]
  {
    if fs != [] {
      var k := fs[0].key;
      var v := FieldValue(peak, fs[0]).value;
      var tail := fs[1..];
      KeysCons(fs);
      assert forall i :: 1 <= i < |fs| ==> fs[i] == tail[i - 1];
      ApplyFieldsContents(m[k := v], peak, tail);
    }
  }

  /** The keys of a non-empty field list: its first key and the rest's. */
  lemma KeysCons(fs: seq<Field>)
    requires fs != []
    ensures Keys(fs) == {fs[0].key} + Keys(fs[1..])
    ensures KeyList(fs[1..]) == KeyList(fs)[1..]
    ensures Distinct(KeyList(fs)) ==> Distinct(KeyList(fs[1..])) && fs[0].key !in Keys(fs[1..])
  {
    var tail := fs[1..];
    assert KeyList(tail) == KeyList(fs)[1..];
    forall x | x in Keys(fs) ensures x in {fs[0].key} + Keys(tail) {
      var i :| 0 <= i < |fs| && fs[i].key == x;
      if i > 0 { assert tail[i - 1].key == x; }
    }
    assert forall i :: 0 <= i < |tail| ==> tail[i].key == KeyList(fs)[i + 1];
  }

  function KeyList(fs: seq<Field>): (ks: seq<string>)
    ensures |ks| == |fs| && forall i :: 0 <= i < |fs| ==> ks[i] == fs[i].key
  {
    seq(|fs|, i requires 0 <= i < |fs| => fs[i].key)
  }

  /** When field `j` is the first to raise, exactly the fields before it
      have been written. */
  lemma {:induction false} ApplyFieldsStopsAt(m: MetricMap, peak: Table, fs: seq<Field>, j: nat)
    requires WellFormed(peak)
    requires j < |fs| && FieldValue(peak, fs[j]).Err?
    requires forall i :: 0 <= i < j ==> FieldValue(peak, fs[i]).Ok?
    decreases j
    ensures ApplyFields(m, peak, fs) == Fill(ApplyFields(m, peak, fs[..j]).metrics, Some(FieldValue(peak, fs[j]).error))
  {
    if j > 0 {
      match FieldValue(peak, fs[0])
      case Ok(v) =>
        assert forall i :: 0 <= i < j - 1 ==> fs[1..][i] == fs[i + 1];
        ApplyFieldsStopsAt(m[fs[0].key := v], peak, fs[1..], j - 1);
        assert fs[..j][0] == fs[0] && fs[..j][1..] == fs[1..][..j - 1];
    }
  }

  // ---------------------------------------------------------------------
  // What each extractor writes when its columns are present and its codes
  // index their lookup vectors

  /** Every code is a non-negative integer index into `vals`. */
  ghost predicate CodesIn(vals: seq<Value>, codes: seq<Value>) {
    forall j :: 0 <= j < |codes| ==> codes[j].Int? && 0 <= codes[j].i < |vals|
  }

  /** A lookup field yields, row by row, the vector entry its code names. */
  lemma LookupResolves(peak: Table, key: string, column: string, lookup: seq<Value>)
    requires WellFormed(peak) && column in peak.columns
    requires CodesIn(lookup, Column(peak, column).value)
    ensures FieldValue(peak, Lookup(key, column, lookup)).Ok?
    ensures |FieldValue(peak, Lookup(key, column, lookup)).value| == |peak.index|
    ensures forall j :: 0 <= j < |peak.index| ==>
              FieldValue(peak, Lookup(key, column, lookup)).value[j] == lookup[Column(peak, column).value[j].i]
  {
    ResolveInRange(lookup, Column(peak, column).value);
  }

  /** A field whose column is present and, for a lookup, whose codes all
      index its vector. */
  ghost predicate Resolvable(peak: Table, f: Field)
    requires WellFormed(peak)
  {
    && f.column in peak.columns
    && (f.Lookup? ==> CodesIn(f.lookup, Column(peak, f.column).value))
  }

  /** What a resolvable field writes: the column itself, or the looked-up
      vector entries in row order. */
  ghost predicate Written(peak: Table, f: Field, v: seq<Value>)
    requires WellFormed(peak) && Resolvable(peak, f)
  {
    match f
    case Copy(_, column) => v == Column(peak, column).value
    case Lookup(_, column, lookup) =>
      && |v| == |peak.index|
      && forall j :: 0 <= j < |peak.index| ==> v[j] == lookup[Column(peak, column).value[j].i]
  }

  /** An extractor whose fields are all resolvable and whose keys are
      distinct writes every key, each with what its field prescribes, and
      leaves every other key alone. */
  lemma {:induction false} ExtractorContents(m: MetricMap, peak: Table, fs: seq<Field>)
    requires WellFormed(peak)
    requires forall i :: 0 <= i < |fs| ==> Resolvable(peak, fs[i])
    requires Distinct(KeyList(fs))
    ensures ApplyFields(m, peak, fs).error.None?
    ensures ApplyFields(m, peak, fs).metrics.Keys == m.Keys + Keys(fs)
    ensures forall i :: 0 <= i < |fs| ==> Written(peak, fs[i], ApplyFields(m, peak, fs).metrics[fs[i].key])
    ensures forall k :: k in m && k !in Keys(fs) ==> ApplyFields(m, peak, fs).metrics[k] == m[k]
  {
    forall i | 0 <= i < |fs|
      ensures FieldValue(peak, fs[i]).Ok? && Written(peak, fs[i], FieldValue(peak, fs[i]).value)
    {
      match fs[i]
      case Copy(_, _) =>
      case Lookup(k, c, l) => LookupResolves(peak, k, c, l);
    }
    ApplyFieldsContents(m, peak, fs);
  }

  /** `append_metrics_drifting_grating` writes five distinct keys; with its
      five columns present and its codes in range every field resolves, so
      `ExtractorContents` gives `pref_dir_dg[j] == orivals[ori_dg[j]]` and
      `pref_tf_dg[j] == tfvals[tf_dg[j]]`. */
  lemma DriftingGratingResolvable(dg: DriftingGrating)
    requires WellFormed(dg.peak)
    requires "osi_dg" in dg.peak.columns && "dsi_dg" in dg.peak.columns && "ori_dg" in dg.peak.columns
    requires "tf_dg" in dg.peak.columns && "ptest_dg" in dg.peak.columns
    requires CodesIn(dg.orivals, Column(dg.peak, "ori_dg").value)
    requires CodesIn(dg.tfvals, Column(dg.peak, "tf_dg").value)
    ensures Distinct(KeyList(DriftingGratingFields(dg)))
    ensures forall i :: 0 <= i < |DriftingGratingFields(dg)| ==> Resolvable(dg.peak, DriftingGratingFields(dg)[i])
  {
  }

  /** The same for `append_metrics_static_grating`: six distinct keys;
      `pref_ori_sg`, `pref_sf_sg` and `pref_phase_sg` resolve through
      `orivals`, `sfvals` and `phasevals`. */
  lemma StaticGratingResolvable(sg: StaticGrating)
    requires WellFormed(sg.peak)
    requires "osi_sg" in sg.peak.columns && "ori_sg" in sg.peak.columns && "sf_sg" in sg.peak.columns
    requires "phase_sg" in sg.peak.columns && "ptest_sg" in sg.peak.columns && "time_to_peak_sg" in sg.peak.columns
    requires CodesIn(sg.orivals, Column(sg.peak, "ori_sg").value)
    requires CodesIn(sg.sfvals, Column(sg.peak, "sf_sg").value)
    requires CodesIn(sg.phasevals, Column(sg.peak, "phase_sg").value)
    ensures Distinct(KeyList(StaticGratingFields(sg)))
    ensures forall i :: 0 <= i < |StaticGratingFields(sg)| ==> Resolvable(sg.peak, StaticGratingFields(sg)[i])
  {
  }

  /** The same for `append_metrics_natural_scene`: three distinct keys, all copies. */
  lemma NaturalSceneResolvable(ns: NaturalScenes)
    requires WellFormed(ns.peak)
    requires "scene_ns" in ns.peak.columns && "ptest_ns" in ns.peak.columns && "time_to_peak_ns" in ns.peak.columns
    ensures Distinct(KeyList(NaturalSceneFields()))
    ensures forall i :: 0 <= i < |NaturalSceneFields()| ==> Resolvable(ns.peak, NaturalSceneFields()[i])
  {
  }
}
