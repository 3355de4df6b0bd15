/** The `CamAnalysis` orchestrator and `run_cam_analysis`: which peak tables
    each session protocol merges, which extractors fill which metrics
    mapping, the ROI consistency check, and the dispatch on the session id. */
module Cam {
  import opened Values
  import opened Tables
  import opened Merge
  import opened Metadata
  import opened Metrics

  const SESSION_A: string := "three_session_A"
  const SESSION_B: string := "three_session_B"
  const SESSION_C: string := "three_session_C"

  /** The recording handle: its metadata, the session type it records
      (None when reading it fails), and the results each stimulus analysis
      computes from it. */
  datatype Recording = Recording(
    metadata: map<string, Value>,
    sessionType: Option<string>,
    dg: DriftingGrating,
    sg: StaticGrating,
    ns: NaturalScenes,
    nm1: NaturalMovie,
    nm2: NaturalMovie,
    nm3: NaturalMovie)

  ghost predicate ValidRecording(rec: Recording) {
    && WellFormed(rec.dg.peak)
    && WellFormed(rec.sg.peak)
    && WellFormed(rec.ns.peak)
    && WellFormed(rec.nm1.peak) && WellFormed(rec.nm1.peakRun)
    && WellFormed(rec.nm2.peak) && WellFormed(rec.nm2.peakRun)
    && WellFormed(rec.nm3.peak) && WellFormed(rec.nm3.peakRun)
  }

  /** What the orchestrator leaves behind that a caller could observe
      besides the metrics: analyses run, plots drawn, results saved. */
  datatype Event = Analyzed(session: string) | Plotted(session: string) | Saved(session: string)

  /** The events of one session run that fails or not. */
  function Trace(session: string, failed: bool, plotFlag: bool, saveFlag: bool): seq<Event> {
    [Analyzed(session)] +
    if failed then [] else (if plotFlag then [Plotted(session)] else []) + (if saveFlag then [Saved(session)] else [])
  }

  /** A successful run's events, appended one at a time. */
  lemma AppendTrace(l: seq<Event>, session: string, plotFlag: bool, saveFlag: bool)
    ensures l + Trace(session, false, plotFlag, saveFlag) ==
              (l + [Analyzed(session)]) + (if plotFlag then [Plotted(session)] else []) + (if saveFlag then [Saved(session)] else [])
  {
  }

  // ---------------------------------------------------------------------
  // The sessions as functions of the recording and the old metrics

  function SessionAPeaks(rec: Recording): (dfs: seq<Table>)
    ensures ValidRecording(rec) ==> AllWellFormed(dfs) && |dfs| >= 1
  {
    [rec.nm1.peakRun, rec.dg.peak, rec.nm1.peak, rec.nm3.peak]
  }

  function SessionBPeaks(rec: Recording): (dfs: seq<Table>)
    ensures ValidRecording(rec) ==> AllWellFormed(dfs) && |dfs| >= 1
  {
    [rec.nm1.peakRun, rec.sg.peak, rec.ns.peak, rec.nm1.peak]
  }

  function SessionCPeaks(rec: Recording): (dfs: seq<Table>)
    ensures ValidRecording(rec) ==> AllWellFormed(dfs) && |dfs| >= 1
  {
    [rec.nm1.peakRun, rec.nm1.peak, rec.nm2.peak]
  }

  /** `verify_roi_lists_equal` as a value: the length is compared first. */
  function RoiCheck(roi1: seq<Value>, roi2: seq<Value>): (e: Option<Error>)
    ensures e.None? <==> roi1 == roi2
    ensures e == Some(RoiLengthMismatch) <==> |roi1| != |roi2|
    ensures e == Some(RoiEntryMismatch) <==> |roi1| == |roi2| && exists i :: 0 <= i < |roi1| && roi1[i] != roi2[i]
  {
    if |roi1| != |roi2| then Some(RoiLengthMismatch)
    else if roi1 != roi2 then Some(RoiEntryMismatch)
    else None
  }

  /** `metrics_a` after `session_a`, from its contents `m` before. */
  function SessionAOutcome(rec: Recording, m: MetricMap): (r: Fill)
    requires ValidRecording(rec)
    ensures m.Keys <= r.metrics.Keys
    ensures r.error.None? ==> Keys(DriftingGratingFields(rec.dg)) + {"roi_id"} <= r.metrics.Keys
    ensures r.error.None? ==> r.metrics["roi_id"] == rec.dg.roiId
  {
    var dg := ApplyFields(m, rec.dg.peak, DriftingGratingFields(rec.dg));
    if dg.error.Some? then dg else Fill(dg.metrics["roi_id" := rec.dg.roiId], None)
  }

  /** `metrics_b` after `session_b`: the static-grating metrics, then the
      natural-scene metrics, then the ROI check, then `roi_id`. */
  function SessionBOutcome(rec: Recording, m: MetricMap): (r: Fill)
    requires ValidRecording(rec)
    ensures m.Keys <= r.metrics.Keys
    ensures r.error.None? ==> rec.sg.roiId == rec.ns.roiId
    ensures r.error.None? ==> Keys(StaticGratingFields(rec.sg)) + Keys(NaturalSceneFields()) + {"roi_id"} <= r.metrics.Keys
    ensures r.error.None? ==> r.metrics["roi_id"] == rec.sg.roiId
  {
    var sg := ApplyFields(m, rec.sg.peak, StaticGratingFields(rec.sg));
    if sg.error.Some? then sg else
    var ns := ApplyFields(sg.metrics, rec.ns.peak, NaturalSceneFields());
    if ns.error.Some? then ns else
    var roi := RoiCheck(rec.sg.roiId, rec.ns.roiId);
    if roi.Some? then Fill(ns.metrics, roi) else Fill(ns.metrics["roi_id" := rec.sg.roiId], None)
  }

  /** `metrics_c` after `session_c`: only `roi_id` is set. */
  function SessionCOutcome(rec: Recording, m: MetricMap): (r: Fill)
    ensures r.error.None?
    ensures r.metrics.Keys == m.Keys + {"roi_id"} && r.metrics["roi_id"] == rec.nm1.roiId
    ensures forall k :: k in m && k != "roi_id" ==> r.metrics[k] == m[k]
  {
    Fill(m["roi_id" := rec.nm1.roiId], None)
  }

  /** The session type recorded in the file wins over the argument. */
  function EffectiveSession(argument: string, recorded: Option<string>): (s: string)
    ensures recorded.Some? ==> s == recorded.value
    ensures recorded.None? ==> s == argument
  {
    match recorded
    case Some(t) => t
    case None => argument
  }

  /** What `run_cam_analysis` hands back for a finished session. */
  function Returned(f: Fill): Result<MetricMap> {
    match f.error
    case Some(e) => Err(e)
    case None => Ok(f.metrics)
  }

  // ---------------------------------------------------------------------
  // The objects

  /** A metrics dict, updated in place by the extractors. */
  class MetricsDict {
    var entries: MetricMap

    constructor ()
      ensures entries == map[]
    {
      entries := map[];
    }
  }

  class CamAnalysis {
    const recording: Recording
    var metadata: map<string, Value>
    const metricsA: MetricsDict
    const metricsB: MetricsDict
    const metricsC: MetricsDict
    ghost var log: seq<Event>

    ghost predicate Valid()
      reads this
    {
      && ValidRecording(recording)
      && metricsA != metricsB && metricsA != metricsC && metricsB != metricsC
    }

    /** Metadata starts as the recording's and each override is written
        over it. */
    constructor (recording: Recording, overrides: Option<map<string, Value>>)
      requires ValidRecording(recording)
      ensures Valid()
      ensures this.recording == recording
      ensures metadata == OverrideMetadata(recording.metadata, overrides)
      ensures fresh(metricsA) && fresh(metricsB) && fresh(metricsC)
      ensures metricsA.entries == map[] && metricsB.entries == map[] && metricsC.entries == map[]
      ensures log == []
    {
      var md := if overrides.None? then map[] else overrides.value;
      var merged := recording.metadata;
      var remaining := md.Keys;
      while remaining != {}
        invariant remaining <= md.Keys
        invariant merged == recording.metadata + map k | k in md.Keys - remaining :: md[k]
        decreases remaining
      {
        var k :| k in remaining;
        merged := merged[k := md[k]];
        remaining := remaining - {k};
      }
      assert md == map k | k in md.Keys - remaining :: md[k];
      this.recording := recording;
      metadata := merged;
      metricsA := new MetricsDict();
      metricsB := new MetricsDict();
      metricsC := new MetricsDict();
      log := [];
    }

    /** `df[k] = v` for every metadata entry, on the DataFrame in place. */
    method AppendMetadata(df: DataFrame)
      requires WellFormed(df.table)
      modifies df
      ensures Broadcast(old(df.table), metadata, metadata.Keys, df.table)
    {
      ghost var start := df.table;
      BroadcastNone(start, metadata);
      var remaining := metadata.Keys;
      ghost var done: set<string> := {};
      while remaining != {}
        invariant done + remaining == metadata.Keys && done !! remaining
        invariant Broadcast(start, metadata, done, df.table)
        decreases remaining
      {
        var k :| k in remaining;
        BroadcastStep(start, metadata, done, df.table, k);
        df.table := SetColumn(df.table, k, metadata[k]);
        remaining := remaining - {k};
        done := done + {k};
      }
    }

    method AppendMetricsDriftingGrating(metrics: MetricsDict, dg: DriftingGrating) returns (err: Option<Error>)
      requires WellFormed(dg.peak)
      modifies metrics
      ensures Fill(metrics.entries, err) == ApplyFields(old(metrics.entries), dg.peak, DriftingGratingFields(dg))
    {
      ghost var rest := DriftingGratingFields(dg);
      var osi := Column(dg.peak, "osi_dg");
      if osi.Err? { return Some(osi.error); }
      metrics.entries := metrics.entries["osi_dg" := osi.value];
      rest := rest[1..];
      var dsi := Column(dg.peak, "dsi_dg");
      if dsi.Err? { return Some(dsi.error); }
      metrics.entries := metrics.entries["dsi_dg" := dsi.value];
      rest := rest[1..];
      assert ApplyFields(old(metrics.entries), dg.peak, DriftingGratingFields(dg)) == ApplyFields(metrics.entries, dg.peak, rest);
      var ori := Column(dg.peak, "ori_dg");
      if ori.Err? { return Some(ori.error); }
      var prefDir := ResolveCodes(dg.orivals, ori.value);
      if prefDir.Err? { return Some(prefDir.error); }
      metrics.entries := metrics.entries["pref_dir_dg" := prefDir.value];
      rest := rest[1..];
      assert ApplyFields(old(metrics.entries), dg.peak, DriftingGratingFields(dg)) == ApplyFields(metrics.entries, dg.peak, rest);
      var tf := Column(dg.peak, "tf_dg");
      if tf.Err? { return Some(tf.error); }
      var prefTf := ResolveCodes(dg.tfvals, tf.value);
      if prefTf.Err? { return Some(prefTf.error); }
      metrics.entries := metrics.entries["pref_tf_dg" := prefTf.value];
      rest := rest[1..];
      assert ApplyFields(old(metrics.entries), dg.peak, DriftingGratingFields(dg)) == ApplyFields(metrics.entries, dg.peak, rest);
      var p := Column(dg.peak, "ptest_dg");
      if p.Err? { return Some(p.error); }
      metrics.entries := metrics.entries["p_dg" := p.value];
      rest := rest[1..];
      assert rest == [];
      return None;
    }

    method AppendMetricsStaticGrating(metrics: MetricsDict, sg: StaticGrating) returns (err: Option<Error>)
      requires WellFormed(sg.peak)
      modifies metrics
      ensures Fill(metrics.entries, err) == ApplyFields(old(metrics.entries), sg.peak, StaticGratingFields(sg))
    {
      ghost var rest := StaticGratingFields(sg);
      var osi := Column(sg.peak, "osi_sg");
      if osi.Err? { return Some(osi.error); }
      metrics.entries := metrics.entries["osi_sg" := osi.value];
      rest := rest[1..];
      var ori := Column(sg.peak, "ori_sg");
      if ori.Err? { return Some(ori.error); }
      var prefOri := ResolveCodes(sg.orivals, ori.value);
      if prefOri.Err? { return Some(prefOri.error); }
      metrics.entries := metrics.entries["pref_ori_sg" := prefOri.value];
      rest := rest[1..];
      assert ApplyFields(old(metrics.entries), sg.peak, StaticGratingFields(sg)) == ApplyFields(metrics.entries, sg.peak, rest);
      var sf := Column(sg.peak, "sf_sg");
      if sf.Err? { return Some(sf.error); }
      var prefSf := ResolveCodes(sg.sfvals, sf.value);
      if prefSf.Err? { return Some(prefSf.error); }
      metrics.entries := metrics.entries["pref_sf_sg" := prefSf.value];
      rest := rest[1..];
      assert ApplyFields(old(metrics.entries), sg.peak, StaticGratingFields(sg)) == ApplyFields(metrics.entries, sg.peak, rest);
      var phase := Column(sg.peak, "phase_sg");
      if phase.Err? { return Some(phase.error); }
      var prefPhase := ResolveCodes(sg.phasevals, phase.value);
      if prefPhase.Err? { return Some(prefPhase.error); }
      metrics.entries := metrics.entries["pref_phase_sg" := prefPhase.value];
      rest := rest[1..];
      assert ApplyFields(old(metrics.entries), sg.peak, StaticGratingFields(sg)) == ApplyFields(metrics.entries, sg.peak, rest);
      var p := Column(sg.peak, "ptest_sg");
      if p.Err? { return Some(p.error); }
      metrics.entries := metrics.entries["p_sg" := p.value];
      rest := rest[1..];
      assert ApplyFields(old(metrics.entries), sg.peak, StaticGratingFields(sg)) == ApplyFields(metrics.entries, sg.peak, rest);
      var ttp := Column(sg.peak, "time_to_peak_sg");
      if ttp.Err? { return Some(ttp.error); }
      metrics.entries := metrics.entries["time_to_peak_sg" := ttp.value];
      rest := rest[1..];
      assert rest == [];
      return None;
    }

    method AppendMetricsNaturalScene(metrics: MetricsDict, ns: NaturalScenes) returns (err: Option<Error>)
      requires WellFormed(ns.peak)
      modifies metrics
      ensures Fill(metrics.entries, err) == ApplyFields(old(metrics.entries), ns.peak, NaturalSceneFields())
    {
      ghost var rest := NaturalSceneFields();
      var scene := Column(ns.peak, "scene_ns");
      if scene.Err? { return Some(scene.error); }
      metrics.entries := metrics.entries["pref_image_ns" := scene.value];
      rest := rest[1..];
      var p := Column(ns.peak, "ptest_ns");
      if p.Err? { return Some(p.error); }
      metrics.entries := metrics.entries["p_ns" := p.value];
      rest := rest[1..];
      var ttp := Column(ns.peak, "time_to_peak_ns");
      if ttp.Err? { return Some(ttp.error); }
      metrics.entries := metrics.entries["time_to_peak_ns" := ttp.value];
      rest := rest[1..];
      assert rest == [];
      return None;
    }

    /** The length test, then the entries left to right; the first
        violation is reported. */
    method VerifyRoiListsEqual(roi1: seq<Value>, roi2: seq<Value>) returns (err: Option<Error>)
      ensures err == RoiCheck(roi1, roi2)
    {
      if |roi1| != |roi2| {
        return Some(RoiLengthMismatch);
      }
      for i := 0 to |roi1|
        invariant roi1[..i] == roi2[..i]
      {
        if roi1[i] != roi2[i] {
          return Some(RoiEntryMismatch);
        }
        assert roi1[..i + 1] == roi1[..i] + [roi1[i]] && roi2[..i + 1] == roi2[..i] + [roi2[i]];
      }
      assert roi1 == roi1[..|roi1|] && roi2 == roi2[..|roi2|];
      return None;
    }

    /** `append_metadata` on a fresh DataFrame holding the merged table. */
    method PeakWithMetadata(merged: Table) returns (peak: Table)
      requires WellFormed(merged)
      ensures Broadcast(merged, metadata, metadata.Keys, peak)
    {
      var df := new DataFrame(merged);
      AppendMetadata(df);
      peak := df.table;
    }

    /** Session A: merge the peak tables, fill `metrics_a` from the
        drifting gratings and `roi_id`, broadcast the metadata onto the
        merged table, then plot and save. */
    method SessionA(plotFlag: bool, saveFlag: bool) returns (err: Option<Error>, peak: Table)
      requires Valid()
      modifies this`log, metricsA
      ensures Valid()
      ensures Fill(metricsA.entries, err) == SessionAOutcome(recording, old(metricsA.entries))
      ensures err.None? ==> Broadcast(MergeAll(SessionAPeaks(recording)).value, metadata, metadata.Keys, peak)
      ensures log == old(log) + Trace(SESSION_A, err.Some?, plotFlag, saveFlag)
    {
      log := log + [Analyzed(SESSION_A)];
      assert Trace(SESSION_A, true, plotFlag, saveFlag) == [Analyzed(SESSION_A)];
      var merged := MultiDataframeMerge(SessionAPeaks(recording));
      err := AppendMetricsDriftingGrating(metricsA, recording.dg);
      if err.Some? {
        return err, merged.value;
      }
      metricsA.entries := metricsA.entries["roi_id" := recording.dg.roiId];
      peak := PeakWithMetadata(merged.value);
      ghost var analyzed := log;
      if plotFlag { log := log + [Plotted(SESSION_A)]; }
      ghost var plotted := log;
      if saveFlag { log := log + [Saved(SESSION_A)]; }
      assert plotted == analyzed + (if plotFlag then [Plotted(SESSION_A)] else []);
      assert log == plotted + (if saveFlag then [Saved(SESSION_A)] else []);
      AppendTrace(old(log), SESSION_A, plotFlag, saveFlag);
    }

    /** Lines 180-183 of session B: the static-grating and natural-scene
        metrics, the ROI check, then `roi_id`. */
    method FillMetricsB() returns (err: Option<Error>)
      requires Valid()
      modifies metricsB
      ensures Fill(metricsB.entries, err) == SessionBOutcome(recording, old(metricsB.entries))
    {
      ghost var before := metricsB.entries;
      err := AppendMetricsStaticGrating(metricsB, recording.sg);
      if err.Some? {
        assert SessionBOutcome(recording, before) == Fill(metricsB.entries, err);
        return;
      }
      ghost var afterSg := metricsB.entries;
      err := AppendMetricsNaturalScene(metricsB, recording.ns);
      if err.Some? {
        assert SessionBOutcome(recording, before) == ApplyFields(afterSg, recording.ns.peak, NaturalSceneFields());
        return;
      }
      ghost var afterNs := metricsB.entries;
      assert SessionBOutcome(recording, before) ==
        if RoiCheck(recording.sg.roiId, recording.ns.roiId).Some? then Fill(afterNs, RoiCheck(recording.sg.roiId, recording.ns.roiId))
        else Fill(afterNs["roi_id" := recording.sg.roiId], None);
      err := VerifyRoiListsEqual(recording.sg.roiId, recording.ns.roiId);
      if err.Some? {
        return;
      }
      metricsB.entries := metricsB.entries["roi_id" := recording.sg.roiId];
    }

    /** Session B: merge and broadcast first, then the static-grating and
        natural-scene metrics, the ROI check, `roi_id`, plot and save. */
    method SessionB(plotFlag: bool, saveFlag: bool) returns (err: Option<Error>, peak: Table)
      requires Valid()
      modifies this`log, metricsB
      ensures Valid()
      ensures Fill(metricsB.entries, err) == SessionBOutcome(recording, old(metricsB.entries))
      ensures Broadcast(MergeAll(SessionBPeaks(recording)).value, metadata, metadata.Keys, peak)
      ensures log == old(log) + Trace(SESSION_B, err.Some?, plotFlag, saveFlag)
    {
      log := log + [Analyzed(SESSION_B)];
      assert Trace(SESSION_B, true, plotFlag, saveFlag) == [Analyzed(SESSION_B)];
      var merged := MultiDataframeMerge(SessionBPeaks(recording));
      peak := PeakWithMetadata(merged.value);
      err := FillMetricsB();
      if err.Some? {
        assert log == old(log) + Trace(SESSION_B, true, plotFlag, saveFlag);
        return;
      }
      ghost var analyzed := log;
      if plotFlag { log := log + [Plotted(SESSION_B)]; }
      ghost var plotted := log;
      if saveFlag { log := log + [Saved(SESSION_B)]; }
      assert plotted == analyzed + (if plotFlag then [Plotted(SESSION_B)] else []);
      assert log == plotted + (if saveFlag then [Saved(SESSION_B)] else []);
      AppendTrace(old(log), SESSION_B, plotFlag, saveFlag);
    }

    /** Session C: merge and broadcast, then only `roi_id` in `metrics_c`. */
    method SessionC(plotFlag: bool, saveFlag: bool) returns (peak: Table)
      requires Valid()
      modifies this`log, metricsC
      ensures Valid()
      ensures Fill(metricsC.entries, None) == SessionCOutcome(recording, old(metricsC.entries))
      ensures Broadcast(MergeAll(SessionCPeaks(recording)).value, metadata, metadata.Keys, peak)
      ensures log == old(log) + Trace(SESSION_C, false, plotFlag, saveFlag)
    {
      log := log + [Analyzed(SESSION_C)];
      assert Trace(SESSION_C, true, plotFlag, saveFlag) == [Analyzed(SESSION_C)];
      var merged := MultiDataframeMerge(SessionCPeaks(recording));
      peak := PeakWithMetadata(merged.value);
      metricsC.entries := metricsC.entries["roi_id" := recording.nm1.roiId];
      ghost var analyzed := log;
      if plotFlag { log := log + [Plotted(SESSION_C)]; }
      ghost var plotted := log;
      if saveFlag { log := log + [Saved(SESSION_C)]; }
      assert plotted == analyzed + (if plotFlag then [Plotted(SESSION_C)] else []);
      assert log == plotted + (if saveFlag then [Saved(SESSION_C)] else []);
      AppendTrace(old(log), SESSION_C, plotFlag, saveFlag);
    }
  }

  /** `run_cam_analysis`: the session type read from the file wins; A, B
      and C run their session (saving) and return its metrics mapping, and
      any other id fails before any session runs. */
  method RunCamAnalysis(session: string, recording: Recording, overrides: Option<map<string, Value>>, plotFlag: bool)
      returns (r: Result<MetricMap>, ghost log: seq<Event>)
    requires ValidRecording(recording)
    ensures var s := EffectiveSession(session, recording.sessionType);
      && (s == SESSION_A ==> r == Returned(SessionAOutcome(recording, map[])))
      && (s == SESSION_B ==> r == Returned(SessionBOutcome(recording, map[])))
      && (s == SESSION_C ==> r == Ok(map["roi_id" := recording.nm1.roiId]))
      && (s != SESSION_A && s != SESSION_B && s != SESSION_C ==> r == Err(UnknownSession(s)))
    ensures var s := EffectiveSession(session, recording.sessionType);
      && (s == SESSION_A || s == SESSION_B ==> log == Trace(s, r.Err?, plotFlag, true))
      && (s == SESSION_C ==> log == Trace(s, false, plotFlag, true))
      && (s != SESSION_A && s != SESSION_B && s != SESSION_C ==> log == [])
  {
    var cam := new CamAnalysis(recording, overrides);
    var s := session;
    if recording.sessionType.Some? {
      s := recording.sessionType.value;
    }
    if s == SESSION_A {
      var err, _ := cam.SessionA(plotFlag, true);
      r := Returned(Fill(cam.metricsA.entries, err));
    } else if s == SESSION_B {
      var err, _ := cam.SessionB(plotFlag, true);
      r := Returned(Fill(cam.metricsB.entries, err));
    } else if s == SESSION_C {
      var _ := cam.SessionC(plotFlag, true);
      r := Ok(cam.metricsC.entries);
    } else {
      r := Err(UnknownSession(s));
    }
    log := cam.log;
  }
}

module CamProperties {
  import opened Values
  import opened Tables
  import opened Metrics
  import opened Cam

  /** The keys each extractor writes; none of them is `roi_id`. */
  lemma ExtractorKeys(rec: Recording)
    ensures Keys(DriftingGratingFields(rec.dg)) == {"osi_dg", "dsi_dg", "pref_dir_dg", "pref_tf_dg", "p_dg"}
    ensures Keys(StaticGratingFields(rec.sg)) == {"osi_sg", "pref_ori_sg", "pref_sf_sg", "pref_phase_sg", "p_sg", "time_to_peak_sg"}
    ensures Keys(NaturalSceneFields()) == {"pref_image_ns", "p_ns", "time_to_peak_ns"}
    ensures "roi_id" !in Keys(DriftingGratingFields(rec.dg)) + Keys(StaticGratingFields(rec.sg)) + Keys(NaturalSceneFields())
  {
    var dgf := DriftingGratingFields(rec.dg);
    var sgf := StaticGratingFields(rec.sg);
    var nsf := NaturalSceneFields();
    assert dgf[0].key == "osi_dg" && dgf[1].key == "dsi_dg" && dgf[2].key == "pref_dir_dg" && dgf[3].key == "pref_tf_dg" && dgf[4].key == "p_dg";
    assert sgf[0].key == "osi_sg" && sgf[1].key == "pref_ori_sg" && sgf[2].key == "pref_sf_sg" && sgf[3].key == "pref_phase_sg" && sgf[4].key == "p_sg" && sgf[5].key == "time_to_peak_sg";
    assert nsf[0].key == "pref_image_ns" && nsf[1].key == "p_ns" && nsf[2].key == "time_to_peak_ns";
  }

  /** Writing the same entries again, after setting `key` in between,
      changes nothing once `key` is set again. */
  lemma ReapplyOne(m: MetricMap, w: MetricMap, key: string, v: seq<Value>)
    ensures ((m + w)[key := v] + w)[key := v] == (m + w)[key := v]
  {
    var x := (m + w)[key := v];
    var y := (x + w)[key := v];
    assert y.Keys == x.Keys;
    forall k | k in y ensures y[k] == x[k] {
      if k != key && k in w { assert y[k] == w[k]; }
    }
  }

  /** Writing two batches again leaves what writing them once left. */
  lemma ReapplyTwo(m: MetricMap, ws: MetricMap, wn: MetricMap)
    ensures ((m + ws + wn) + ws) + wn == m + ws + wn
  {
    var x := m + ws + wn;
    var y := (x + ws) + wn;
    assert y.Keys == x.Keys;
    forall k | k in y ensures y[k] == x[k] {
      if k !in wn && k in ws { assert x[k] == ws[k]; }
    }
  }

  /** The same, with `key` set after the two batches each time. */
  lemma ReapplyTwoThenOne(m: MetricMap, ws: MetricMap, wn: MetricMap, key: string, v: seq<Value>)
    ensures (((m + ws + wn)[key := v] + ws) + wn)[key := v] == (m + ws + wn)[key := v]
  {
    var x := (m + ws + wn)[key := v];
    var y := ((x + ws) + wn)[key := v];
    assert y.Keys == x.Keys;
    forall k | k in y ensures y[k] == x[k] {
      if k != key && k !in wn && k in ws { assert x[k] == ws[k]; }
    }
  }

  /** Assignments to other keys leave `key` as it was. */
  lemma KeyUntouched(m: MetricMap, peak: Table, fs: seq<Field>, key: string)
    requires WellFormed(peak) && key !in Keys(fs)
    ensures key in ApplyFields(m, peak, fs).metrics <==> key in m
    ensures key in m ==> ApplyFields(m, peak, fs).metrics[key] == m[key]
  {
    ApplyFieldsFrame(m, peak, fs);
    ApplyFieldsKeys(map[], peak, fs);
  }

  /** Running session A again on its own result changes nothing. */
  lemma SessionAIdempotent(rec: Recording, m: MetricMap)
    requires ValidRecording(rec)
    ensures SessionAOutcome(rec, SessionAOutcome(rec, m).metrics) == SessionAOutcome(rec, m)
  {
    var p := rec.dg.peak;
    var fs := DriftingGratingFields(rec.dg);
    var once := SessionAOutcome(rec, m);
    if ApplyFields(m, p, fs).error.None? {
      ApplyFieldsFrame(m, p, fs);
      ApplyFieldsFrame(once.metrics, p, fs);
      ReapplyOne(m, ApplyFields(map[], p, fs).metrics, "roi_id", rec.dg.roiId);
    } else {
      ApplyFieldsIdempotent(m, p, fs);
    }
  }

  /** Running session B again on its own result changes nothing. */
  lemma SessionBIdempotent(rec: Recording, m: MetricMap)
    requires ValidRecording(rec)
    ensures SessionBOutcome(rec, SessionBOutcome(rec, m).metrics) == SessionBOutcome(rec, m)
  {
    var sgf := StaticGratingFields(rec.sg);
    var nsf := NaturalSceneFields();
    var once := SessionBOutcome(rec, m);
    var ws := ApplyFields(map[], rec.sg.peak, sgf).metrics;
    var wn := ApplyFields(map[], rec.ns.peak, nsf).metrics;
    if ApplyFields(m, rec.sg.peak, sgf).error.Some? {
      ApplyFieldsIdempotent(m, rec.sg.peak, sgf);
    } else {
      ApplyFieldsFrame(m, rec.sg.peak, sgf);
      ApplyFieldsFrame(once.metrics, rec.sg.peak, sgf);
      ApplyFieldsFrame(m + ws, rec.ns.peak, nsf);
      ApplyFieldsFrame(once.metrics + ws, rec.ns.peak, nsf);
      if ApplyFields(m + ws, rec.ns.peak, nsf).error.None? && RoiCheck(rec.sg.roiId, rec.ns.roiId).None? {
        ReapplyTwoThenOne(m, ws, wn, "roi_id", rec.sg.roiId);
      } else {
        ReapplyTwo(m, ws, wn);
      }
    }
  }

  /** Running session C again on its own result changes nothing. */
  lemma SessionCIdempotent(rec: Recording, m: MetricMap)
    ensures SessionCOutcome(rec, SessionCOutcome(rec, m).metrics) == SessionCOutcome(rec, m)
  {
  }

  /** In session B a ROI mismatch is raised after both extractors have
      written their keys, and `roi_id` is left as it was. */
  lemma {:induction false} SessionBRoiMismatch(rec: Recording, m: MetricMap)
    requires ValidRecording(rec)
    requires ApplyFields(m, rec.sg.peak, StaticGratingFields(rec.sg)).error.None?
    requires ApplyFields(ApplyFields(m, rec.sg.peak, StaticGratingFields(rec.sg)).metrics, rec.ns.peak, NaturalSceneFields()).error.None?
    requires rec.sg.roiId != rec.ns.roiId
    ensures SessionBOutcome(rec, m).error == RoiCheck(rec.sg.roiId, rec.ns.roiId)
    ensures SessionBOutcome(rec, m).error.Some?
    ensures SessionBOutcome(rec, m).metrics ==
              ApplyFields(ApplyFields(m, rec.sg.peak, StaticGratingFields(rec.sg)).metrics, rec.ns.peak, NaturalSceneFields()).metrics
    ensures "roi_id" in SessionBOutcome(rec, m).metrics <==> "roi_id" in m
    ensures "roi_id" in m ==> SessionBOutcome(rec, m).metrics["roi_id"] == m["roi_id"]
  {
    var sgf := StaticGratingFields(rec.sg);
    var nsf := NaturalSceneFields();
    var x := ApplyFields(m, rec.sg.peak, sgf).metrics;
    var y := ApplyFields(x, rec.ns.peak, nsf).metrics;
    assert SessionBOutcome(rec, m) == Fill(y, RoiCheck(rec.sg.roiId, rec.ns.roiId));
    assert "roi_id" !in Keys(sgf) && "roi_id" !in Keys(nsf);
    KeyUntouched(m, rec.sg.peak, sgf, "roi_id");
    KeyUntouched(x, rec.ns.peak, nsf, "roi_id");
  }
}
