# cam_analysis orchestrator, modelled in Dafny

`allensdk/cam/cam_analysis.py` runs the post-hoc analysis of one
two-photon recording session. Each recording follows one of three
protocols: `three_session_A`, `three_session_B` or `three_session_C`. For
a protocol, the orchestrator takes the peak-response tables of its
stimulus analyses and merges them into one cell-indexed table. It
broadcasts the session metadata onto that table as constant columns. It
copies a fixed set of per-cell metrics into the protocol's metrics dict,
resolving integer codes through lookup vectors. In session B it also
checks that two analyses report the same cells. It then plots and saves,
and `run_cam_analysis` returns the metrics dict of the protocol it ran.

The model has these parts:

- `values.dfy` (module `Values`): cell values, `Option`, `Result` and the
  error outcomes.
- `tables.dfy` (module `Tables`): a table as ordered column names, an
  ordered row index of cell keys, and a row per key. It also holds the
  in-place `DataFrame` object, column selection `df[name]` (a missing
  column is a KeyError outcome) and scalar column assignment `df[k] = v`.
- `merge.dfy` (module `Merge`): `multi_dataframe_merge` as a loop, against
  a fold of pairwise inner joins on the index. The right-hand column of a
  clash at list position `i` gets the suffix `_i`.
- `metadata.dfy` (module `Metadata`): the metadata override and the
  broadcast invariant that `append_metadata` keeps column by column.
- `metrics.dfy` (module `Metrics`): the stimulus-analysis results as
  input records. Each extractor is a list of assignments: a copy of a
  peak-table column, or a code column resolved through a lookup vector
  with Python's indexing.
- `cam_analysis.dfy` (module `Cam`): class `CamAnalysis`, holding
  `metadata` and the three `MetricsDict` objects that the extractors and
  sessions update in place. It has the ROI check, the session methods and
  the `run_cam_analysis` dispatch. Module `CamProperties` states what
  running a session (again) does to the metrics.

Each session is also a function of the recording and of the metrics dict
before the run (`SessionAOutcome` …). The session methods are proved
equal to those functions, and the lemmas are stated about them. Plotting
and saving are recorded as events in a ghost log, which shows which
calls happen and in what order.

In these places the model follows the code as written:

- The ROI check runs only in session B.
- The ROI error carries no position, because the code's message has none.
- An empty list of tables merges to `None`, because the code's loop never
  runs for it.
- Session A merges first and broadcasts the metadata only after
  `metrics_a["roi_id"]` is set. Sessions B and C broadcast before they
  write any metrics.

## Model

| member | source | states |
|---|---|---|
| Merge.MultiDataframeMerge | allensdk/cam/cam_analysis.py:29-36 | the loop's result is the left fold of pairwise merges, and `None` for an empty list |
| Merge.Merge2 | allensdk/cam/cam_analysis.py:35 | one index merge: the left columns followed by the renamed right columns; the rows are the keys the two tables share, in the left table's index order; each row is the left row followed by the right row |
| Merge.MergeSingleton | allensdk/cam/cam_analysis.py:30-36 | merging a one-element list gives that table unchanged |
| Merge.MergeRowKeys | allensdk/cam/cam_analysis.py:35 | a key has a merged row if and only if it has a row in every input table |
| Merge.MergeIndexOrder | allensdk/cam/cam_analysis.py:35 | the merged index is the first table's index filtered to the surviving keys, in order |
| Merge.MergeRowValues | allensdk/cam/cam_analysis.py:35 | in every merged row, table `j`'s block (after the columns of tables `0..j-1`) holds table `j`'s row for that key, unchanged |
| Merge.MergeColumnNames | allensdk/cam/cam_analysis.py:31-35 | table `j`'s columns sit in order after those of the earlier tables; each keeps its bare name unless an earlier column already has it, and then it is renamed `name_j` |
| Merge.FirstTableKeepsNames | allensdk/cam/cam_analysis.py:31-33 | the first table's columns keep their bare names and values, and come first |
| Merge.MergeExample | allensdk/cam/cam_analysis.py:31-35 | tables with columns {x}, {x}, {x, y} merge to columns x, x_1, x_2, y |
| Merge.NatToString | allensdk/cam/cam_analysis.py:35 | the `%d` rendering of the suffix position is a non-empty string of decimal digits, without a leading zero, whose value is the position |
| Merge.NatToStringInjective | allensdk/cam/cam_analysis.py:35 | two positions print the same digits only when they are equal |
| Merge.SuffixedInjective | allensdk/cam/cam_analysis.py:35 | the same name suffixed at two different positions gives two different names |
| Merge.RenameColumns | allensdk/cam/cam_analysis.py:35 | the suffixes `('', '_i')`: a right-hand column keeps its name if and only if the accumulated table has no column of that name; the count of columns is kept |
| Merge.MergePrefix | allensdk/cam/cam_analysis.py:31-35 | the accumulator after any number of iterations is a well-formed table |
| Merge.MergeAll | allensdk/cam/cam_analysis.py:29-36 | the result is `None` if and only if the list is empty, and otherwise a well-formed table |
| Tables.Column | allensdk/cam/cam_analysis.py:125-142 | `peak[name]` succeeds exactly when the column exists, otherwise it reports that column as missing; the result lists the column's values in index order |
| Tables.SetColumn | allensdk/cam/cam_analysis.py:61 | `df[k] = v` writes `v` into every row of column `k`, which is appended when new; the index, the rows and the other columns are unchanged |
| Tables.KeepRowsTwice | allensdk/cam/cam_analysis.py:35 | filtering the index by two key sets in turn is filtering it by their intersection |
| Metadata.OverrideMetadata | allensdk/cam/cam_analysis.py:52-57 | every override key holds its override value; every recording key that is not overridden keeps its value; no other keys appear; no overrides (`None`) leaves the recording's metadata |
| Cam.CamAnalysis.constructor | allensdk/cam/cam_analysis.py:44-57 | the override loop leaves `metadata` equal to `OverrideMetadata`; the three metrics dicts start empty and distinct |
| Metadata.BroadcastStep | allensdk/cam/cam_analysis.py:60-61 | one more `df[k] = md[k]` extends the broadcast invariant by key `k` |
| Cam.CamAnalysis.AppendMetadata | allensdk/cam/cam_analysis.py:59-61 | after the loop, the table has the old index and rows, every metadata key is a column holding its value in every row, the old non-metadata columns are unchanged, and new columns are appended after the old ones |
| Metadata.BroadcastColumn | allensdk/cam/cam_analysis.py:59-61 | after the broadcast, selecting a metadata column yields its value once per row |
| Metrics.PyIndex | allensdk/cam/cam_analysis.py:127-128 | `vals[code]` succeeds exactly for an integer in `-len..len-1`, counting from the end when negative; otherwise it reports the bad code |
| Metrics.ResolveCodes | allensdk/cam/cam_analysis.py:127-128 | the comprehension `[vals[i] for i in codes]`: on success one entry per code, on failure a bad-code error |
| Metrics.ResolveCodesCorrect | allensdk/cam/cam_analysis.py:127-128 | the comprehension succeeds if and only if every code indexes the vector; it then keeps length and order with entry `j` being `vals[codes[j]]`; otherwise it reports the first bad code |
| Metrics.ResolveInRange | allensdk/cam/cam_analysis.py:133-135 | with non-negative in-range codes, entry `j` is `vals[codes[j]]` |
| Metrics.ResolveExample | allensdk/cam/cam_analysis.py:127 | lookup vector [0, 45, 90, 135] and codes [2, 0, 3] give [90, 0, 135] |
| Metrics.LookupResolves | allensdk/cam/cam_analysis.py:127-128 | a lookup field gives, for each row in index order, the vector entry that the row's code names |
| Metrics.DriftingGratingFields | allensdk/cam/cam_analysis.py:125-129 | the five assignments of `append_metrics_drifting_grating` as key←column pairs (`pref_dir_dg`←`ori_dg` through `orivals`, `pref_tf_dg`←`tf_dg` through `tfvals`, `p_dg`←`ptest_dg`); the keys are distinct and none is `roi_id` |
| Metrics.StaticGratingFields | allensdk/cam/cam_analysis.py:132-137 | the six assignments of `append_metrics_static_grating` (`pref_ori_sg`, `pref_sf_sg`, `pref_phase_sg` through `orivals`, `sfvals`, `phasevals`; `p_sg`←`ptest_sg`); the keys are distinct and none is `roi_id` |
| Metrics.NaturalSceneFields | allensdk/cam/cam_analysis.py:140-142 | the three copies of `append_metrics_natural_scene` (`pref_image_ns`←`scene_ns`, `p_ns`←`ptest_ns`, `time_to_peak_ns`); the keys are distinct and none is `roi_id` |
| Metrics.FieldValue | allensdk/cam/cam_analysis.py:124-142 | the right-hand side of one assignment: a missing column is a KeyError naming it; a value has one entry per row |
| Metrics.ApplyFields | allensdk/cam/cam_analysis.py:124-142 | the assignments in order, stopping at the first that raises: no key is removed, and when none raises every field's key is present |
| Metrics.ApplyFieldsSucceeds | allensdk/cam/cam_analysis.py:124-142 | an extractor finishes without raising if and only if every right-hand side can be evaluated |
| Metrics.ApplyFieldsStopsAt | allensdk/cam/cam_analysis.py:124-142 | when assignment `j` raises first, exactly the assignments before it have been made, and its error is raised |
| Metrics.ApplyFieldsFrame | allensdk/cam/cam_analysis.py:124-142 | an extractor's writes and its error do not depend on what the dict held before |
| Metrics.ApplyFieldsKeys | allensdk/cam/cam_analysis.py:124-142 | an extractor adds no keys besides its own |
| Metrics.ApplyFieldsIdempotent | allensdk/cam/cam_analysis.py:124-142 | running an extractor twice leaves what running it once left |
| Metrics.ApplyFieldsContents | allensdk/cam/cam_analysis.py:124-142 | when every right-hand side evaluates and the keys are distinct, each key holds its value and every other key is unchanged |
| Metrics.ExtractorContents | allensdk/cam/cam_analysis.py:124-142 | when every column is present and the codes are in range, each key holds its column or its looked-up entries (`pref_dir_dg[j] == orivals[ori_dg[j]]` …), and other keys are unchanged |
| Metrics.DriftingGratingResolvable | allensdk/cam/cam_analysis.py:124-129 | `append_metrics_drifting_grating` writes five distinct keys, and with its columns present and its codes in range every assignment resolves |
| Metrics.StaticGratingResolvable | allensdk/cam/cam_analysis.py:131-137 | the same for the six keys of `append_metrics_static_grating` |
| Metrics.NaturalSceneResolvable | allensdk/cam/cam_analysis.py:139-142 | the same for the three keys of `append_metrics_natural_scene` |
| Cam.CamAnalysis.AppendMetricsDriftingGrating | allensdk/cam/cam_analysis.py:124-129 | the dict after the five assignments, and the error that stops them, are those of the drifting-grating field list |
| Cam.CamAnalysis.AppendMetricsStaticGrating | allensdk/cam/cam_analysis.py:131-137 | the same for the six static-grating assignments |
| Cam.CamAnalysis.AppendMetricsNaturalScene | allensdk/cam/cam_analysis.py:139-142 | the same for the three natural-scene assignments; `pref_image_ns` is copied from `scene_ns` |
| Cam.RoiCheck | allensdk/cam/cam_analysis.py:144-149 | no error if and only if the lists are equal; a length error if and only if the lengths differ; an entry error if and only if the lengths agree and some position differs |
| Cam.CamAnalysis.VerifyRoiListsEqual | allensdk/cam/cam_analysis.py:144-149 | the loop with early exit reports what `RoiCheck` reports, testing the length before any entry |
| CamProperties.ExtractorKeys | allensdk/cam/cam_analysis.py:124-142 | the exact key set each extractor writes, and that `roi_id` is in none of them |
| Cam.SessionAPeaks | allensdk/cam/cam_analysis.py:157 | session A merges [nm1.peak_run, dg.peak, nm1.peak, nm3.peak], a non-empty list of well-formed tables |
| Cam.SessionBPeaks | allensdk/cam/cam_analysis.py:177 | session B merges [nm1.peak_run, sg.peak, ns.peak, nm1.peak], a non-empty list of well-formed tables |
| Cam.SessionCPeaks | allensdk/cam/cam_analysis.py:198 | session C merges [nm1.peak_run, nm1.peak, nm2.peak], a non-empty list of well-formed tables |
| Cam.SessionAOutcome | allensdk/cam/cam_analysis.py:160-161 | `metrics_a` after session A: no key is removed; on success every drifting-grating key and `roi_id` are present, with `roi_id` the drifting gratings' cell list |
| Cam.SessionBOutcome | allensdk/cam/cam_analysis.py:180-183 | `metrics_b` after session B: no key is removed; success implies the two ROI lists are equal, every static-grating and natural-scene key is present, and `roi_id` is the static gratings' cell list |
| Cam.SessionCOutcome | allensdk/cam/cam_analysis.py:202 | `metrics_c` after session C: never an error, exactly one key `roi_id` added or replaced with natural movie one's cell list, every other key unchanged |
| Cam.CamAnalysis.PeakWithMetadata | allensdk/cam/cam_analysis.py:163 | `append_metadata` on a DataFrame over the merged table gives a table that is the broadcast of the merge |
| Cam.CamAnalysis.SessionA | allensdk/cam/cam_analysis.py:151-170 | `metrics_a` ends as `SessionAOutcome`: the drifting-grating metrics, then `roi_id`; on success the peak is the merge of [nm1.peak_run, dg.peak, nm1.peak, nm3.peak] with the metadata broadcast; plot and save follow only on success, plot only when `plot_flag` is set and save only when `save_flag` is set |
| Cam.CamAnalysis.FillMetricsB | allensdk/cam/cam_analysis.py:180-183 | the static-grating and natural-scene assignments, the ROI check and `roi_id` leave `metrics_b` and the error as `SessionBOutcome` says |
| Cam.CamAnalysis.SessionB | allensdk/cam/cam_analysis.py:172-191 | `metrics_b` ends as `SessionBOutcome`: static-grating metrics, natural-scene metrics, the ROI check, then `roi_id`; the peak is the broadcast merge of [nm1.peak_run, sg.peak, ns.peak, nm1.peak]; plot and save happen only when nothing raised |
| Cam.CamAnalysis.SessionC | allensdk/cam/cam_analysis.py:193-209 | `metrics_c` gets only `roi_id` from natural movie one; the peak is the broadcast merge of [nm1.peak_run, nm1.peak, nm2.peak]; plot and save follow their flags |
| CamProperties.SessionBRoiMismatch | allensdk/cam/cam_analysis.py:180-183 | when both extractors succeed and the ROI lists differ, session B raises the ROI error with both extractors' writes in `metrics_b` and `roi_id` left as it was |
| CamProperties.SessionAIdempotent | allensdk/cam/cam_analysis.py:160-161 | running session A again on its own resulting `metrics_a` changes nothing |
| CamProperties.SessionBIdempotent | allensdk/cam/cam_analysis.py:180-183 | running session B again on its own resulting `metrics_b` changes nothing, whatever error stopped it |
| CamProperties.SessionCIdempotent | allensdk/cam/cam_analysis.py:202 | running session C again on its own resulting `metrics_c` changes nothing |
| CamProperties.KeyUntouched | allensdk/cam/cam_analysis.py:124-142 | an extractor leaves the presence and value of any key it does not write as they were |
| Cam.EffectiveSession | allensdk/cam/cam_analysis.py:219-223 | the session type read from the file wins; when the read fails, the caller's argument is used |
| Cam.RunCamAnalysis | allensdk/cam/cam_analysis.py:218-237 | for A and B, the session's metrics dict, or the error it raised, with the saving session's events; for C, the dict holding only `roi_id`; any other id raises an unknown-session error with no session run and nothing plotted or saved |

## Left out

- Saving (`save_session_a/b/c`) and every read from the NWB file are HDF5 I/O. A save is a `Saved` event in the ghost log, and the file's contents are the inputs in `Recording`.
- Plotting (`cp.plot_*`) is visualisation. It is a `Plotted` event in the ghost log.
- Logging, the `print` in `run_cam_analysis`, and the `main`/argparse entry point are console I/O and command-line handling.
- `os.makedirs` for the save directory is file-system I/O.
- The stimulus-analysis constructors (`NaturalMovie`, `DriftingGrating`, `StaticGrating`, `NaturalScenes`, `LocallySparseNoise`) are external modules. Their results are abstract fields of `Recording`. `LocallySparseNoise` is used only for plotting and saving, so it is not modelled.
- The numeric contents of metric columns are opaque `Value`s. Floating point is not modelled.
- Merge.Merge2 does not model pandas' edge cases beyond the index join and the suffix rule: a suffixed name that already exists, duplicate index keys, and dtype changes. Every input table is assumed well formed (distinct index keys, one value per column).
- Metrics.PyIndex treats only `Int` values as indices. numpy's acceptance of integral floats and booleans as indices is not modelled.
- Cam.RoiCheck: `CamAnalysisException` is neither defined nor imported in the module, so a raise there would surface as a `NameError`. The model keeps the intended outcome as two abstract errors and does not model the `NameError`.
- Cam.RunCamAnalysis returns the metrics dict as a value. The aliasing between the returned dict and `cam_analysis.metrics_*` is not modelled, since nothing touches the object afterwards.
- A failure to read the session type is modelled as `sessionType == None`. The bare `except` that swallows any exception is not modelled further.
- Metrics.FieldValue: `metrics[k] = peak[col]` stores a pandas Series that keeps the peak table's row labels, while the lookups store plain lists. The model stores both as a sequence of values in the peak table's row order, so the row labels of a copied Series are not modelled.
- CamProperties.SessionAIdempotent, CamProperties.SessionBIdempotent and CamProperties.SessionCIdempotent: every session call builds its stimulus analyses again from the file. The model reads the same `Recording` fields on each call, so it assumes those analyses are deterministic. The idempotence lemmas hold only under that assumption.
- The module is Python 2 code: `dict.iteritems` (lines 56 and 60) raises AttributeError under Python 3. The model follows the Python 2 behaviour, iterating over every entry.
- The peak tables each session saves are exposed as out-parameters of the session methods. What is written to the file is not modelled.
