# ReconstructMatchedMuons write-out, modelled in Dafny

The ReconstructMatchedMuons tool of the SKAnalysis ToolChain writes two kinds of queued
candidates to output trees: relic (low-energy, LowE) candidates and muon candidates. Both
were matched upstream. For each candidate
`WriteEventsOut` does the following:

- it prefetches the following (AFT) trigger entry into a static buffer;
- it reloads the candidate's own entry, with every bad channel masked for a muon, and re-reads
  it through a sub-trigger timing gate when the candidate is a sub-trigger;
- it reconstructs a muon with `ReconstructNextMuon`;
- it merges the AFT hits into the loaded hit arrays with `AddAftHits`;
- it fills one row (relic) or one row per reconstructed muon track.

At the end it clears the queue and moves the input reader back to the entry it started on.

`ReconstructNextMuon` runs a cascade of Fortran fitters:

- charge bookkeeping around `fix_maxqisk_`;
- the `mfmuselect_` selector, falling back to the `mffastfast_` fast fit;
- the `muboy_zbs_` multi-track fit;
- a gated `newmufit_` (BFF) precision fit.

It then builds one `skroot_mu_` record per muboy track, with that track's dE/dx.

The project has three modules:

- `Hits` (Hits.dfy) holds the `rawtqinfo_` common block. It is the class `RawTqInfo`:
  - its fields are fixed-size `array`s for the inner detector (ID: `icabbf_raw`, `qbuf_raw`,
    `tbuf_raw`, `nqisk_raw`) and the outer detector (OD: `icabaz_raw`, `qaskz_raw`,
    `taskz_raw`, `nhitaz_raw`);
  - `AddAftHits` works on these arrays imperatively, with the scan and copy loops of the
    source;
  - the reference functions `FirstMatch`, `MergeId` and `MergeOd` work on `Bank` values,
    with the lemmas about them.
- `MuonReco` (MuonReco.dfy) holds:
  - the `skroot_mu_` block as the value `MuRecord`;
  - the fitters' results as the value `Fitters`, an oracle of the loaded event. The two
    dE/dx estimators are functions of the entry point and direction they receive;
  - each stage of the cascade as a function, composed into `Reconstruct`;
  - the lemmas about the cascade, and the findings on muboy indexing.
- `MatchedMuons` (MatchedMuons.dfy) holds the tool itself, as the class
  `ReconstructMatchedMuons`. Its state:
  - the masking mode `combad_.imaskbadopt` and its saved copy;
  - the static AFT buffer;
  - `skroot_mu_` and `reco_muons`;
  - the `tryBFF` shared variable, fixed when the tool is built;
  - the two queues and the two output trees, as sequences of rows.

  The input reader is the class `TreeReader`: an entry number over an `EventStore` oracle.
  `ReconstructNextMuon` and `WriteEventsOut` are methods. Their loops are proved against the
  functions `Reconstruct`, `RowCount`, `TotalRows` and `QueueRows`. `QueueRows` follows the
  tool's state (`Carried`: the AFT buffer, both banks and skroot_mu_) from candidate to
  candidate. `WriteCandidate` composes `AfterPrefetch`, `AfterPrimary`, the reconstruction
  and `MergeInto`, and gives one candidate's new state and rows. `QueueState` is the state the
  loop leaves, so that a later write-out (the muon one after the relic one) starts from the
  static buffer and skroot_mu_ an earlier one left.

Behaviour of the code that the model keeps:

- The static `rawtqinfo_aft` buffer is not cleared between candidates (line 136), and the
  AFT entry is read only when the candidate has one and it is not the entry the reader was
  on when the write-out started (line 137). In both other cases, a candidate without an AFT
  entry and a candidate whose AFT entry is that saved entry, the candidate merges whatever
  the buffer last held. `PrefetchAft` states this.
- A zero `mfmuselect_` selector makes `ReconstructNextMuon` return false. `WriteEventsOut`
  then skips that candidate with `continue` (lines 197-202); it does not abort the write-out.
- The OD merge compares the scan index with the primary count (line 394), not with the
  following count. An empty following OD window therefore empties the OD window.
- AddAftHits reads the primary's last hit (index count - 1) only inside the scan loops
  (lines 359-365 and 386-392). An empty primary window is therefore merged without error
  whenever the following window of that subsystem is empty too.
- The comment at line 528 mentions a 0.1 goodness level, which the BFF gate at line 534 does
  not use. Only 0.4 (line 534) and 0.3 (line 552) are modelled.

Where the three "## Findings" rows below show the code as written to be wrong, the rest of the
model uses the corrected behaviour. `MuboyTrackEntry`, `FilledEntpos` and `StoreMuboy` read
track t's entry point at `4*(t-1)+c`. `FirstDedxEntry` and `ApplyBff` use muboy's own first
entry point. `FillRows` writes the muon rows from the member `reco_muons`. So
`OneResultPerTrack`, `DedxAtTrackEntry`, `RowCountIsReconstructionSize` and the `TotalRows`
of `WriteEventsOut` describe the corrected program; the row's as-written member shows what
the code does instead.

## Model

All source paths are `UserTools/ReconstructMatchedMuons/ReconstructMatchedMuons.cpp`.

| member | source | states |
|---|---|---|
| Hits.FirstMatch | UserTools/ReconstructMatchedMuons/ReconstructMatchedMuons.cpp:357-363 | The scan result is at most the following count. No earlier following hit repeats the last primary hit on (cable, charge). When the result is below the count, the hit there does repeat it. |
| Hits.FirstMatchUnique | UserTools/ReconstructMatchedMuons/ReconstructMatchedMuons.cpp:359-363 | Any index with the first-match property is the scan's result. |
| Hits.FirstMatchIgnoresTime | UserTools/ReconstructMatchedMuons/ReconstructMatchedMuons.cpp:359-363 | Windows that agree on cables and charges scan to the same index, whatever their times (the time test is commented out). |
| Hits.IdWriteStart | UserTools/ReconstructMatchedMuons/ReconstructMatchedMuons.cpp:357-371 | The ID write starts at the first following hit that repeats the primary's last hit on cable and charge. When no following hit repeats it, the write starts at the primary count. |
| Hits.OdWriteStart | UserTools/ReconstructMatchedMuons/ReconstructMatchedMuons.cpp:394 | The OD test compares k with the primary count, so the OD write always starts at k. |
| Hits.LoadBank | UserTools/ReconstructMatchedMuons/ReconstructMatchedMuons.cpp:146 | Reading a window into a bank: the counted hits are the window, and the array size is kept. Slots from the window's length on keep their old contents. |
| Hits.MergeId | UserTools/ReconstructMatchedMuons/ReconstructMatchedMuons.cpp:370-381 | The ID merge keeps the array size. Its count stays within the arrays. It is defined whenever the primary is non-empty or the following ID window is empty, and the writes fit. |
| Hits.MergeOd | UserTools/ReconstructMatchedMuons/ReconstructMatchedMuons.cpp:393-403 | The OD merge keeps the array size. Its count stays within the arrays. It is defined whenever the primary is non-empty or the following OD window is empty, and the writes fit. |
| Hits.MergeIdNoMatch | UserTools/ReconstructMatchedMuons/ReconstructMatchedMuons.cpp:357-381 | With no repeat of the last hit, the ID count becomes old count + following count. The counted hits are the old ones followed by the following hits in order. Slots beyond are untouched. |
| Hits.MergeIdMatch | UserTools/ReconstructMatchedMuons/ReconstructMatchedMuons.cpp:359-381 | When the first repeat is at k: the count becomes k + following count; slots below k are unchanged; the following hits from index 0 occupy k..k+n. It also gives the counted hits, for k inside and beyond the old count. |
| Hits.MergeIdFirstHitMatches | UserTools/ReconstructMatchedMuons/ReconstructMatchedMuons.cpp:371-381 | If the first following hit repeats the last primary hit, the merged ID window is exactly the following window. |
| Hits.MergeIdEmpty | UserTools/ReconstructMatchedMuons/ReconstructMatchedMuons.cpp:371-381 | An empty following ID window leaves the ID bank unchanged, whatever the primary count, including 0. |
| Hits.MergeOdEmpty | UserTools/ReconstructMatchedMuons/ReconstructMatchedMuons.cpp:384-403 | An empty following OD window leaves the OD count 0, whatever the primary count, including 0. |
| Hits.MergeOdAtScanIndex | UserTools/ReconstructMatchedMuons/ReconstructMatchedMuons.cpp:394-403 | The OD write always starts at the scan index k. The count becomes k + following count, slots below k are unchanged and the following hits fill k..k+n. |
| Hits.MergeOdNoMatch | UserTools/ReconstructMatchedMuons/ReconstructMatchedMuons.cpp:384-403 | With no repeat, the OD following hits land at n..2n and the OD count is 2n, whatever the primary count. |
| Hits.OdRuleDiffersFromIdRule | UserTools/ReconstructMatchedMuons/ReconstructMatchedMuons.cpp:371-394 | On the same one-hit primary and empty following window, the ID rule keeps count 1 and the OD rule gives 0. |
| Hits.MergeNotCommutative | UserTools/ReconstructMatchedMuons/ReconstructMatchedMuons.cpp:357-381 | Merging two disjoint one-hit windows in either order gives the two hits in opposite orders. |
| Hits.HalfWindowsFit | UserTools/ReconstructMatchedMuons/ReconstructMatchedMuons.cpp:370-403 | A primary and a following window that each fill at most half the arrays are always written inside the arrays, by both rules, when the primary is non-empty or the following window empty. |
| Hits.CopyInto | UserTools/ReconstructMatchedMuons/ReconstructMatchedMuons.cpp:372-380 | The copy loop leaves the three parallel arrays equal to the old contents with the following hits spliced in from the write start. |
| Hits.ScanForMatch | UserTools/ReconstructMatchedMuons/ReconstructMatchedMuons.cpp:359-365 | The scan loop returns the first index whose hit repeats `last` on (cable, charge), or the count: `FirstMatch`. |
| Hits.RawTqInfo.constructor | UserTools/ReconstructMatchedMuons/ReconstructMatchedMuons.cpp:136 | A zero-initialised block has the given capacities and no counted hits. |
| Hits.RawTqInfo.Load | UserTools/ReconstructMatchedMuons/ReconstructMatchedMuons.cpp:146 | Reading an entry makes each bank `LoadBank` of the old one: the entry's hits from slot 0, both counts set, later slots kept. The block's counted hits are the entry's. |
| Hits.RawTqInfo.MergeIdHits | UserTools/ReconstructMatchedMuons/ReconstructMatchedMuons.cpp:357-381 | The ID arrays and count become `MergeId` of the old ones. |
| Hits.RawTqInfo.MergeOdHits | UserTools/ReconstructMatchedMuons/ReconstructMatchedMuons.cpp:384-403 | The OD arrays and count become `MergeOd` of the old ones. |
| Hits.RawTqInfo.AddAftHits | UserTools/ReconstructMatchedMuons/ReconstructMatchedMuons.cpp:343-406 | The ID bank is `MergeId` and the OD bank `MergeOd` of the old banks with the following window. |
| MuonReco.MuboyTrackEntry | UserTools/ReconstructMatchedMuons/ReconstructMatchedMuons.cpp:484-495 | Every track's entry point has four values (x, y, z, t). |
| MuonReco.ChargeBookkeeping | UserTools/ReconstructMatchedMuons/ReconstructMatchedMuons.cpp:425-436 | The charge bookkeeping keeps the block's array shapes. |
| MuonReco.TemplateCharges | UserTools/ReconstructMatchedMuons/ReconstructMatchedMuons.cpp:425-436 | The block the per-track loop starts from has muinfo[0..6] = (qismsk before, muinfo[1], qimxsk before, qimxsk after, muinfo[4], muinfo[5]) and muqismsk = qismsk after fix_maxqisk_. |
| MuonReco.ChargesRecorded | UserTools/ReconstructMatchedMuons/ReconstructMatchedMuons.cpp:425-436 | Every result has muinfo[0] and muinfo[2] equal to skq_'s qismsk and qimxsk before fix_maxqisk_, and muinfo[3] and muqismsk equal to the values after it. muinfo[1], [4] and [5] keep the block's values, and muninfo ends at 210. |
| MuonReco.AfterFailedSelection | UserTools/ReconstructMatchedMuons/ReconstructMatchedMuons.cpp:441-453 | The block left by a zero selector keeps its array shapes. |
| MuonReco.AfterSelection | UserTools/ReconstructMatchedMuons/ReconstructMatchedMuons.cpp:441-467 | The block after a non-zero selector keeps its array shapes. |
| MuonReco.FilledEntpos | UserTools/ReconstructMatchedMuons/ReconstructMatchedMuons.cpp:484-496 | muboy_entpos keeps its ten rows. |
| MuonReco.AfterMuboy | UserTools/ReconstructMatchedMuons/ReconstructMatchedMuons.cpp:473-496 | Storing muboy's results keeps the block's array shapes. |
| MuonReco.AfterBff | UserTools/ReconstructMatchedMuons/ReconstructMatchedMuons.cpp:534-573 | Recording BFF keeps the block's array shapes. |
| MuonReco.BffAttempted | UserTools/ReconstructMatchedMuons/ReconstructMatchedMuons.cpp:534 | BFF is never attempted with noBFF set or tryBFF unset. An attempt needs a through-going muboy track (status 1) with goodness below 0.4. |
| MuonReco.BffOverrides | UserTools/ReconstructMatchedMuons/ReconstructMatchedMuons.cpp:552 | BFF's entry point and direction replace muboy's only when BFF was attempted and its goodness exceeds 0.3. |
| MuonReco.DedxDir | UserTools/ReconstructMatchedMuons/ReconstructMatchedMuons.cpp:518-556 | The dE/dx direction is BFF's or muboy's. It is muboy's whenever BFF was not attempted, and has three values when it is BFF's. |
| MuonReco.Template | UserTools/ReconstructMatchedMuons/ReconstructMatchedMuons.cpp:425-573 | The block the track loop starts from keeps its array shapes. |
| MuonReco.FirstDedxEntry | UserTools/ReconstructMatchedMuons/ReconstructMatchedMuons.cpp:519-556 | The first track's dE/dx entry point has four values. |
| MuonReco.TrackRecord | UserTools/ReconstructMatchedMuons/ReconstructMatchedMuons.cpp:580-702 | Every pushed record keeps the block's array shapes. |
| MuonReco.TrackDedxEntry | UserTools/ReconstructMatchedMuons/ReconstructMatchedMuons.cpp:585-590 | Given a four-value first entry point, every track's dE/dx entry point has four values. |
| MuonReco.TrackRecords | UserTools/ReconstructMatchedMuons/ReconstructMatchedMuons.cpp:580-704 | The track loop yields one record per muboy track, at most ten. |
| MuonReco.Reconstruct | UserTools/ReconstructMatchedMuons/ReconstructMatchedMuons.cpp:409-710 | The reconstruction fails exactly when muyn_org is 0. Otherwise it yields one record per muboy track, at most ten. |
| MuonReco.TrackRecordKeepsTemplate | UserTools/ReconstructMatchedMuons/ReconstructMatchedMuons.cpp:580-702 | A track's record differs from the block before the loop only in muinfo from slot 7 on, muninfo and muboy_dedx. muinfo[0..6], including the BFF flag, is unchanged. |
| MuonReco.SelectorSign | UserTools/ReconstructMatchedMuons/ReconstructMatchedMuons.cpp:441-467 | The reconstruction fails exactly when muyn_org is 0. Every result has muyn = muyn_org and mfmuselect_'s goodness. A negative selector gives mufast_flag 1 with the fast fit's entry point and direction; a positive one gives mufast_flag 0 with mfmuselect_'s. |
| MuonReco.OneResultPerTrack | UserTools/ReconstructMatchedMuons/ReconstructMatchedMuons.cpp:580-704 | There are exactly muboy_ntrack results. Result t has muinfo[7] = t, muninfo = 210, muboy's status, goodness, direction and track count, and muboy_entpos[t] equal to muboy's entry point of track t. |
| MuonReco.BffSkipped | UserTools/ReconstructMatchedMuons/ReconstructMatchedMuons.cpp:565-573 | When BFF is not attempted, every result has BFF goodness, entry point, direction and muinfo[6] zero. The dE/dx uses muboy's entry point and direction. |
| MuonReco.BffTried | UserTools/ReconstructMatchedMuons/ReconstructMatchedMuons.cpp:534-563 | When BFF is attempted, every result records its outputs, with muinfo[6] = 1 exactly when its goodness exceeds 0.3. Only then do its entry point (keeping muboy's time) and direction replace muboy's for the dE/dx. |
| MuonReco.EachGateConditionSkipsBff | UserTools/ReconstructMatchedMuons/ReconstructMatchedMuons.cpp:534 | Each of the four gate conditions failing alone stops the attempt: noBFF set, tryBFF unset, status not 1, goodness not below 0.4. With all four met, BFF is attempted. |
| MuonReco.DedxAtTrackEntry | UserTools/ReconstructMatchedMuons/ReconstructMatchedMuons.cpp:580-677 | Track t's two dE/dx arrays are the estimators applied at the shared direction. The entry point is the first track's chosen one for t = 0 and muboy_entpos[t] for t > 0. |
| MuonReco.TwoTrackScenario | UserTools/ReconstructMatchedMuons/ReconstructMatchedMuons.cpp:580-704 | Two muboy tracks, a positive selector and BFF off give two fast-flag-0 results, with dE/dx at muboy's two entry points. |
| MuonReco.OtherEntryAsWrittenIsShifted | UserTools/ReconstructMatchedMuons/ReconstructMatchedMuons.cpp:491-494 | As written, track 1 reads index -3. Every track reads three values early, so its x is the previous track's y. |
| MuonReco.OtherEntryIndexInRange | UserTools/ReconstructMatchedMuons/ReconstructMatchedMuons.cpp:491-494 | The corrected index reads tracks 1-9 inside muboy_otherentry's 36 values, each value once. |
| MuonReco.FirstEntryAsWritten | UserTools/ReconstructMatchedMuons/ReconstructMatchedMuons.cpp:521 | The transposed read yields four values. |
| MuonReco.FirstEntryAsWrittenIsTransposed | UserTools/ReconstructMatchedMuons/ReconstructMatchedMuons.cpp:519-522 | For a concrete single track, the read as written gives (100, 0, 0, 0), not the track's entry point (100, 200, 300, 5). |
| MuonReco.FirstTrackDedxAtMuboyEntry | UserTools/ReconstructMatchedMuons/ReconstructMatchedMuons.cpp:515-522 | With the read corrected and BFF not used, the first result's dE/dx is computed at muboy_entpos[0], muboy's first entry point. |
| MatchedMuons.TotalRowsAppend | UserTools/ReconstructMatchedMuons/ReconstructMatchedMuons.cpp:121-331 | The rows of a queue extended by one candidate are the old total plus that candidate's rows. |
| MatchedMuons.NeedsAft | UserTools/ReconstructMatchedMuons/ReconstructMatchedMuons.cpp:137 | An AFT entry is prefetched only for a candidate that has one, and never when it is the entry the reader was on at the start. |
| MatchedMuons.AftBuffer | UserTools/ReconstructMatchedMuons/ReconstructMatchedMuons.cpp:136-156 | After a prefetch the buffer holds either its old contents or the AFT entry's hits. It keeps its old contents when the candidate has no AFT entry or that entry is the saved one. |
| MatchedMuons.PrimaryHits | UserTools/ReconstructMatchedMuons/ReconstructMatchedMuons.cpp:171-184 | Without a sub-trigger, the loaded window is the candidate's entry: under masking mode 0 (all bad channels masked) for a muon, under the current mode for a relic. |
| MatchedMuons.RowCount | UserTools/ReconstructMatchedMuons/ReconstructMatchedMuons.cpp:191-329 | A relic candidate adds one row and a failed muon reconstruction none. No candidate adds more than ten. |
| MatchedMuons.TotalRows | UserTools/ReconstructMatchedMuons/ReconstructMatchedMuons.cpp:191-329 | A relic queue adds one row per candidate. No queue adds more than ten rows per candidate. |
| MatchedMuons.MuonRowsAsWritten | UserTools/ReconstructMatchedMuons/ReconstructMatchedMuons.cpp:289-293 | With no stored "reco_muons" entry there are no rows. Otherwise the rows are the stored records, or none. |
| MatchedMuons.MergesCoveredStep | UserTools/ReconstructMatchedMuons/ReconstructMatchedMuons.cpp:136-206 | Unless the first candidate aborts, it covers its buffer (or skips the merge), and the rest of the queue is covered from the buffer it leaves. |
| MatchedMuons.LoadInto | UserTools/ReconstructMatchedMuons/ReconstructMatchedMuons.cpp:146 | Loading a window into the carried state: the counted hits become the window. The buffer, skroot_mu_ and the array sizes are kept. |
| MatchedMuons.AfterPrefetch | UserTools/ReconstructMatchedMuons/ReconstructMatchedMuons.cpp:136-156 | After the prefetch the buffer is `AftBuffer`; skroot_mu_ and the array sizes are kept. Nothing changes when no AFT entry is needed. |
| MatchedMuons.AfterPrimary | UserTools/ReconstructMatchedMuons/ReconstructMatchedMuons.cpp:158-184 | After the primary load the counted hits are `PrimaryHits` and fit the arrays. The buffer and skroot_mu_ are kept. |
| MatchedMuons.MergeInto | UserTools/ReconstructMatchedMuons/ReconstructMatchedMuons.cpp:205-206 | AddAftHits of the buffer: the banks become `MergeId`/`MergeOd` of the old banks with the buffer's hits. The buffer and skroot_mu_ are kept. |
| MatchedMuons.MuAfter | UserTools/ReconstructMatchedMuons/ReconstructMatchedMuons.cpp:409-710 | skroot_mu_ after ReconstructNextMuon: the failed selection's block when muyn_org is 0, otherwise, when muboy found tracks, the last track's record. |
| MatchedMuons.MuAfterReconstruction | UserTools/ReconstructMatchedMuons/ReconstructMatchedMuons.cpp:580-704 | After a successful reconstruction skroot_mu_ is the last record, or the block before the track loop when there is none. |
| MatchedMuons.FinishCandidate | UserTools/ReconstructMatchedMuons/ReconstructMatchedMuons.cpp:191-329 | The reconstruct-merge-fill step keeps the buffer and the array sizes, and adds `RowCount` rows. |
| MatchedMuons.FinishWritten | UserTools/ReconstructMatchedMuons/ReconstructMatchedMuons.cpp:191-329 | A written candidate's step is exactly: the block `MergeInto` the loaded state, skroot_mu_ the last record (or `MuAfter` when there is none), and rows `EventRows` of the merged hits with the candidate's payloads. |
| MatchedMuons.LoadedCandidate | UserTools/ReconstructMatchedMuons/ReconstructMatchedMuons.cpp:158-329 | The primary load followed by the reconstruct-merge-fill step keeps the buffer and adds `RowCount` rows. |
| MatchedMuons.WriteCandidate | UserTools/ReconstructMatchedMuons/ReconstructMatchedMuons.cpp:121-331 | One candidate that does not abort leaves the buffer as `AftBuffer` and adds `RowCount` rows. |
| MatchedMuons.QueueRowsStep | UserTools/ReconstructMatchedMuons/ReconstructMatchedMuons.cpp:121-331 | `QueueRows` of a queue whose first candidate aborts is empty. Otherwise it is that candidate's `WriteCandidate` rows followed by `QueueRows` of the rest from the state it leaves, and the rest stays covered. |
| MatchedMuons.QueueRowsAdvance | UserTools/ReconstructMatchedMuons/ReconstructMatchedMuons.cpp:121-331 | The rows before a candidate that does not abort, followed by its rows and the rest's `QueueRows`, are the rows before it followed by `QueueRows` from that candidate on. |
| MatchedMuons.QueueRowsCount | UserTools/ReconstructMatchedMuons/ReconstructMatchedMuons.cpp:121-331 | When no candidate aborts, `QueueRows` has `TotalRows` rows. |
| MatchedMuons.AbortedState | UserTools/ReconstructMatchedMuons/ReconstructMatchedMuons.cpp:136-184 | A candidate whose AFT read fails leaves the state as it was. One whose gated read fails leaves the buffer as `AftBuffer`. skroot_mu_ is kept either way. |
| MatchedMuons.QueueState | UserTools/ReconstructMatchedMuons/ReconstructMatchedMuons.cpp:121-331 | The state the loop leaves: `WriteCandidate` states in turn up to the first abort, then the aborting candidate's `AbortedState`. The array sizes are kept. |
| MatchedMuons.QueueStateStep | UserTools/ReconstructMatchedMuons/ReconstructMatchedMuons.cpp:121-331 | `QueueState` of a queue whose first candidate aborts is that candidate's `AbortedState`. Otherwise it is the rest's `QueueState` from the state the candidate leaves. |
| MatchedMuons.RelicQueueKeepsMu | UserTools/ReconstructMatchedMuons/ReconstructMatchedMuons.cpp:121-331 | A relic write-out leaves skroot_mu_ as it found it, so the next muon reconstruction starts from the last muon's block. |
| MatchedMuons.NoAftKeepsBuffer | UserTools/ReconstructMatchedMuons/ReconstructMatchedMuons.cpp:136-137 | When no candidate of a queue reads an AFT entry, the static buffer leaves the write-out as it came in. The next write-out then merges what an earlier one left (line 136). |
| MatchedMuons.AfterReload | UserTools/ReconstructMatchedMuons/ReconstructMatchedMuons.cpp:335-338 | The saved entry is reloaded, and its hits counted, only when the reader is not already on it. Otherwise the block keeps the last candidate's merged hits. The buffer and skroot_mu_ are kept. |
| MatchedMuons.LowERowsOnePerCandidate | UserTools/ReconstructMatchedMuons/ReconstructMatchedMuons.cpp:223-284 | A relic write-out fills exactly one row per candidate. |
| MatchedMuons.FailedMuonsFillNothing | UserTools/ReconstructMatchedMuons/ReconstructMatchedMuons.cpp:197-202 | A muon write-out whose every reconstruction fails fills no row. |
| MatchedMuons.NonEmptyPrimariesCover | UserTools/ReconstructMatchedMuons/ReconstructMatchedMuons.cpp:136-206 | When every candidate's primary window has hits in both subsystems, every AFT merge of the queue has a last hit to read, whatever the buffer held. |
| MatchedMuons.NoAftNeedsNoPrimaryHits | UserTools/ReconstructMatchedMuons/ReconstructMatchedMuons.cpp:136-206 | Relic candidates without AFT entries, starting from the empty static buffer, never need a last hit, so empty primary windows are merged too. |
| MatchedMuons.RowCountIsReconstructionSize | UserTools/ReconstructMatchedMuons/ReconstructMatchedMuons.cpp:286-329 | A muon candidate's row count is the number of records its reconstruction leaves in reco_muons. |
| MatchedMuons.EventRows | UserTools/ReconstructMatchedMuons/ReconstructMatchedMuons.cpp:208-220 | A written candidate adds one row per payload, each with the candidate's match columns and clock. |
| MatchedMuons.MuonPayloads | UserTools/ReconstructMatchedMuons/ReconstructMatchedMuons.cpp:294-301 | One muon payload per reconstructed record. |
| MatchedMuons.MuonRowsAsWrittenIgnoreReconstruction | UserTools/ReconstructMatchedMuons/ReconstructMatchedMuons.cpp:289-293 | With no "reco_muons" entry in the shared store, the muon rows as written are none. A reconstruction with n > 0 tracks has n records. |
| MatchedMuons.TreeReader.GetTreeEntry | UserTools/ReconstructMatchedMuons/ReconstructMatchedMuons.cpp:146-151 | A read succeeds exactly when the entry is readable. It then moves to that entry, and each bank becomes `LoadBank` of the old one with the entry's hits. A failed read changes neither the position nor the block. |
| MatchedMuons.TreeReader.ReadGated | UserTools/ReconstructMatchedMuons/ReconstructMatchedMuons.cpp:174-179 | The gated re-read returns the store's skcread_ status. Each bank becomes `LoadBank` of the old one with the gated hits of the current entry. |
| MatchedMuons.ReconstructMatchedMuons.constructor | UserTools/ReconstructMatchedMuons/ReconstructMatchedMuons.cpp:136 | The tool starts with empty queues, trees and reco_muons and an empty static AFT buffer. Its tryBFF value is the one given. |
| MatchedMuons.ReconstructMatchedMuons.SelectTrack | UserTools/ReconstructMatchedMuons/ReconstructMatchedMuons.cpp:425-467 | The selection succeeds exactly when muyn_org is non-zero. It leaves `AfterSelection` on success and `AfterFailedSelection` on failure. |
| MatchedMuons.ReconstructMatchedMuons.StoreMuboy | UserTools/ReconstructMatchedMuons/ReconstructMatchedMuons.cpp:473-496 | The entpos loop leaves `AfterMuboy`: muboy's results and one entry row per track, other rows kept. |
| MatchedMuons.ReconstructMatchedMuons.ApplyBff | UserTools/ReconstructMatchedMuons/ReconstructMatchedMuons.cpp:515-573 | The block becomes `AfterBff`, and the dE/dx entry point and direction are `FirstDedxEntry` and `DedxDir`. |
| MatchedMuons.ReconstructMatchedMuons.RecordTrack | UserTools/ReconstructMatchedMuons/ReconstructMatchedMuons.cpp:580-702 | One loop pass turns the previous track's record into track t's `TrackRecord`, at that track's entry point. |
| MatchedMuons.ReconstructMatchedMuons.RecordTracks | UserTools/ReconstructMatchedMuons/ReconstructMatchedMuons.cpp:580-704 | reco_muons gains exactly the per-track records `TrackRecords`, in track order. The block is left as the last track's record. |
| MatchedMuons.ReconstructMatchedMuons.ReconstructNextMuon | UserTools/ReconstructMatchedMuons/ReconstructMatchedMuons.cpp:409-710 | It returns true exactly when muyn_org is non-zero. On failure reco_muons is empty and the block is as the failed selection leaves it. On success reco_muons is `Reconstruct` of the old block. The block is `MuAfter` of the old one either way. |
| MatchedMuons.ReconstructMatchedMuons.PrefetchAft | UserTools/ReconstructMatchedMuons/ReconstructMatchedMuons.cpp:136-156 | It fails exactly when an AFT entry is needed (it exists and is not the saved entry) and unreadable. The buffer takes the AFT hits only when one was read; otherwise it keeps its old contents. A failure leaves the reader put. On success the state is `AfterPrefetch` of the old one. |
| MatchedMuons.ReconstructMatchedMuons.LoadPrimary | UserTools/ReconstructMatchedMuons/ReconstructMatchedMuons.cpp:158-189 | It fails exactly when a sub-trigger's gated read returns a non-zero status. The reader is on the candidate's entry. A muon's masking mode is set to 0 for the load and restored unless the gated read fails. On success the state is `AfterPrimary` of the old one. |
| MatchedMuons.ReconstructMatchedMuons.MergeAft | UserTools/ReconstructMatchedMuons/ReconstructMatchedMuons.cpp:205-206 | Both merges are defined on the loaded block, and the state becomes `MergeInto` of the old one: the banks are `MergeId`/`MergeOd` of the loaded banks with the buffered AFT hits. |
| MatchedMuons.ReconstructMatchedMuons.FillRows | UserTools/ReconstructMatchedMuons/ReconstructMatchedMuons.cpp:208-329 | The category's tree gains one relic row, or one muon row per reco_muons record, in order, each with the merged hits. skroot_mu_ is left as the last record. The other tree is unchanged. |
| MatchedMuons.ReconstructMatchedMuons.MergeAndFill | UserTools/ReconstructMatchedMuons/ReconstructMatchedMuons.cpp:205-329 | The banks become `MergeId`/`MergeOd` of the loaded banks with the buffer. Then the tree gains `EventRows` of the merged hits, one per payload. For a muon with records skroot_mu_ is the last record; otherwise it is kept. The other tree is unchanged. |
| MatchedMuons.ReconstructMatchedMuons.ReconstructCandidate | UserTools/ReconstructMatchedMuons/ReconstructMatchedMuons.cpp:191-202 | It succeeds exactly when the muon reconstruction does not fail. A relic is left alone. A muon's reco_muons is `Reconstruct` of the old block, with `RowCount` records, and skroot_mu_ is `MuAfter`. |
| MatchedMuons.ReconstructMatchedMuons.ReconstructMuonAndFill | UserTools/ReconstructMatchedMuons/ReconstructMatchedMuons.cpp:191-329 | A muon candidate is skipped exactly when its reconstruction fails. The new state and the muon rows are those of `FinishCandidate` on the old state. The relic tree is unchanged. |
| MatchedMuons.ReconstructMatchedMuons.ReconstructAndFill | UserTools/ReconstructMatchedMuons/ReconstructMatchedMuons.cpp:191-329 | A candidate is skipped exactly when its muon reconstruction fails. A muon's reco_muons is its reconstruction. The new state and the rows added are those of `FinishCandidate` on the old state: for a written candidate, `EventRows` of the `MergeInto` hits (`FinishWritten`). The other tree is unchanged. |
| MatchedMuons.ReconstructMatchedMuons.WriteLoaded | UserTools/ReconstructMatchedMuons/ReconstructMatchedMuons.cpp:158-329 | It aborts exactly on a failed gated read and skips exactly on a failed reconstruction. The reader ends on the candidate's entry, and the masking mode is restored unless it aborts. Unless it aborts, the new state and the rows added are those of `LoadedCandidate`; an abort adds no row. |
| MatchedMuons.ReconstructMatchedMuons.WriteEvent | UserTools/ReconstructMatchedMuons/ReconstructMatchedMuons.cpp:121-331 | One candidate aborts exactly on `Aborts` (a failed AFT read or gated read). An AFT failure leaves the reader and the masking mode as they were. An abort adds no row, keeps skroot_mu_, and leaves the buffer as it was or, after a failed gated read, as `AftBuffer`. Otherwise the new state and the rows added are those of `WriteCandidate`. The other tree and the queues are unchanged. |
| MatchedMuons.ReconstructMatchedMuons.WriteNext | UserTools/ReconstructMatchedMuons/ReconstructMatchedMuons.cpp:121-331 | One pass of the loop: it aborts exactly when the head candidate does, adds nothing, and leaves the buffer and skroot_mu_ of `QueueState`. Otherwise the reader is on the head's entry. The rows so far followed by `QueueRows` of the rest are the old rows followed by `QueueRows` of the whole rest, and the same holds for `QueueState`. |
| MatchedMuons.ReconstructMatchedMuons.WriteQueued | UserTools/ReconstructMatchedMuons/ReconstructMatchedMuons.cpp:121-331 | The loop succeeds exactly when no candidate aborts. It then keeps the masking mode, adds `TotalRows` rows, leaves the reader on the last candidate's entry and leaves the state `QueueState` of the queue. The tree gains exactly `QueueRows` of the queue from the starting state, in order. Either way the buffer and skroot_mu_ are `QueueState`'s. The other tree and the queues are unchanged. |
| MatchedMuons.ReconstructMatchedMuons.WriteEventsOut | UserTools/ReconstructMatchedMuons/ReconstructMatchedMuons.cpp:117-341 | It returns true exactly when no queued candidate aborts. On true the queue is empty, the reader is back on the saved entry and the masking mode is unchanged. The state is then `AfterReload` of the loop's `QueueState`, and the tree grew by `TotalRows`. On false the queue is kept. Either way the tree gains exactly `QueueRows` of the queue, and the static buffer and skroot_mu_ left for the next call are `QueueState`'s. The other category's queue and tree are unchanged. |

## Left out

- ROOT and SKROOT I/O are not modelled:
  - `skroot_set_tree_`, `skroot_set_lowe_`, `skroot_set_mu_` and `skroot_fill_tree_` become appending a `Row` to a sequence;
  - the header branch is represented by the entry number;
  - the output LUN is replaced by the candidate category.
- `getTreeEntry` and `skcread_` are not modelled internally. They are an `EventStore` oracle: the set of readable entries, the hits of an entry under a masking mode, and the status and hits of a gated re-read.
- A failed `getTreeEntry` is assumed to leave the reader's position and the hit block as they were. The reader's code is not part of this model.
- The Fortran routines are oracles whose results are inputs of type `Fitters`:
  - the charges before and after `fix_maxqisk_`;
  - `mfmuselect_`, `mffastfast_`, `muboy_zbs_` and `newmufit_`;
  - the two dE/dx estimators, as functions of entry point and direction.

  The numerics are left out, including the `sqrt`/`pow` normalisation of the BFF direction (lines 545-549): the oracle returns the direction.
- Lines 464-467 (muyn := muynf) are not modelled. They cannot run, since muyn_org is non-zero when they are reached.
- Logging and verbose printing are not modelled.
- `Initialise`, `Execute` and `Finalise` only call the modelled core.
- MuonReco.FittersOk assumes at most ten muboy tracks, the rows muboy_entpos has. The source does not test this.
- Hits.RawTqInfo.AddAftHits requires a positive primary count in each subsystem whose following window has hits. There the scan reads index `last_hit` = -1, outside the arrays, and the value read there is not modelled. With an empty following window nothing is read and the merge is modelled. It also requires every write to fit in the arrays, which the source never tests.
- MatchedMuons.ReconstructMatchedMuons.WriteEventsOut requires every queued candidate's entry to be readable, because the result of the primary `getTreeEntry` (line 171) is not tested. It requires the store to hand out windows that fill at most half the arrays (`StoreOk`). It also requires `MergesCovered`: every candidate that reaches AddAftHits has primary hits in each subsystem where the AFT buffer it merges has hits. These discharge the requirements of AddAftHits.
- MuonReco.MuboyTrackEntry, MuonReco.FilledEntpos and MatchedMuons.ReconstructMatchedMuons.StoreMuboy read track t's entry point at the corrected index `4*(t-1)+c`, not at `4*track-7` as line 491 does (first "## Findings" row).
- MuonReco.FirstDedxEntry and MatchedMuons.ReconstructMatchedMuons.ApplyBff use muboy's first entry point, not the transposed `muboy_entpos[i][0]` of line 521 (second "## Findings" row).
- MatchedMuons.ReconstructMatchedMuons.FillRows writes the muon rows from the member `reco_muons`, not from the shared store's "reco_muons" entry read at line 290 (third "## Findings" row).
- MatchedMuons.ReconstructMatchedMuons.WriteEventsOut: on false it states only that the masking mode is either the old one or 0 (a muon's gated read failed). It does not say which candidate aborted or where the reader was left.
- MatchedMuons.ReconstructMatchedMuons.WriteQueued and MatchedMuons.ReconstructMatchedMuons.WriteEventsOut: on false they state the buffer and skroot_mu_ the loop leaves, but not the hit banks. `QueueState` defines those banks (the aborting candidate's `AbortedState`). The next write-out loads its own windows over them, so they reach it only through the slots past its loaded counts (see the Hits.RawTqInfo.Load line).
- Hits.RawTqInfo.Load assumes that a successful `getTreeEntry` or `skcread_` (line 146) leaves the array slots past the loaded counts as they were. The reader's code is not part of this model. The assumption decides which stale hits get counted in `MergeIdMatch` when k is past the old count, and in `MergeOdNoMatch` and `MergeOdAtScanIndex` when the following count exceeds the primary count.
- MatchedMuons.ReconstructMatchedMuons.ReconstructNextMuon reads `tryBFF` (lines 418-419) as a value fixed when the tool is built (`tryBffVar`). No modelled code writes it; a change by another tool between calls is not modelled.
- Relic reconstruction (`LowECommon`) is copied through as an opaque value.

## Findings

| source | as written | input that shows it | evidently intended | confidence | as-written member | corrected member |
|---|---|---|---|---|---|---|
| UserTools/ReconstructMatchedMuons/ReconstructMatchedMuons.cpp:491-494 | track t's entry point is read from muboy_otherentry[4*t-7 .. 4*t-4] | muboy_ntrack = 2: track 1 reads indices -3..0 | track t (t >= 1) reads 4*(t-1) .. 4*(t-1)+3 | high (not executed) | MuonReco.OtherEntryAsWrittenIsShifted | MuonReco.OtherEntryIndexInRange |
| UserTools/ReconstructMatchedMuons/ReconstructMatchedMuons.cpp:521 | muentry[i] = muboy_entpos[i][0], the x of four different tracks | one track at (100, 200, 300), time 5, other rows zero: muentry is (100, 0, 0, 0) | muentry[i] = muboy_entpos[0][i], the first track's entry point | high (not executed) | MuonReco.FirstEntryAsWrittenIsTransposed | MuonReco.FirstTrackDedxAtMuboyEntry |
| UserTools/ReconstructMatchedMuons/ReconstructMatchedMuons.cpp:289-293 | muon rows come from the shared store's "reco_muons" entry, which this tool never sets; it fills the member reco_muons instead | a muon with muboy_ntrack = 1 and a non-zero selector: reco_muons has one record, no row is written | one row per record of the member reco_muons | medium (not executed) | MatchedMuons.MuonRowsAsWrittenIgnoreReconstruction | MatchedMuons.ReconstructMatchedMuons.FillRows |
