/** The muon reconstruction cascade of ReconstructNextMuon, as functions of the values the
    Fortran fitters return: the charge bookkeeping around fix_maxqisk_, the mfmuselect_ sign
    branch with the mffastfast_ fallback, the muboy_zbs_ multi-track fit, the gated BFF
    (newmufit_) fallback and the per-track dE/dx records (makededx_ and makededx_intg_). */
module MuonReco {

  datatype Option<T> = None | Some(value: T)

  /** Rows of muboy_entpos: the first track plus the nine whose entry points fit in the 36
      values of muboy_otherentry. */
  const MuboyMaxTracks: int := 10
  const MuboyOtherEntries: int := 36
  /** muboy_status of a single through-going muon. */
  const ThroughGoing: int := 1
  /** BFF is tried below this muboy goodness ... */
  const MuboyGoodnessLimit: real := 0.4
  /** ... and its result is used above this BFF goodness. */
  const BffGoodnessLimit: real := 0.3
  /** muinfo slots: BFF flag, muboy track number, start of the 200 values of the first dE/dx. */
  const InfoBffFlag: int := 6
  const InfoTrack: int := 7
  const InfoDedxStart: int := 10
  const DedxLength: int := 200
  /** muninfo once the first dE/dx is stored. */
  const NInfoWithDedx: int := 210

  /** The skroot_mu_ common block. */
  datatype MuRecord = MuRecord(
    muentpoint: seq<real>, mudir: seq<real>, mugoodness: real, muqismsk: real,
    muyn: int, mufastFlag: int,
    muboyStatus: int, muboyNtrack: int, muboyEntpos: seq<seq<real>>, muboyDir: seq<real>,
    muboyGoodness: real, muboyLength: real, muboyDedx: seq<real>,
    mubffEntpos: seq<real>, mubffDir: seq<real>, mubffGoodness: real,
    muninfo: int, muinfo: seq<real>)

  /** The fixed array shapes of the block that the cascade relies on. */
  predicate Shaped(mu: MuRecord)
  {
    |mu.muboyEntpos| == MuboyMaxTracks &&
    (forall t :: 0 <= t < |mu.muboyEntpos| ==> |mu.muboyEntpos[t]| == 4) &&
    |mu.muinfo| >= NInfoWithDedx
  }

  /** mfmuselect_: entry point, direction, goodness and the signed selector muyn_org. */
  datatype Selection = Selection(entpoint: seq<real>, dir: seq<real>, goodness: real, muynOrg: int)
  /** mffastfast_: entry point, direction and its own flag. */
  datatype FastFit = FastFit(entpoint: seq<real>, dir: seq<real>, muynf: int)
  /** muboy_zbs_: class, first entry point (x, y, z, t), direction, track length, goodness,
      number of tracks and the 36 values holding the further entry points. */
  datatype Muboy = Muboy(status: int, entry: seq<real>, dir: seq<real>, length: real,
                         goodness: real, ntrack: int, other: seq<real>)
  /** newmufit_: entry point, unit direction and goodness. */
  datatype Bff = Bff(entpos: seq<real>, dir: seq<real>, goodness: real)

  /** What the foreign routines return for the loaded event: the skq_ charges before and after
      fix_maxqisk_, every fitter's output, and the two dE/dx estimators as functions of the
      entry point and direction they are given. */
  datatype Fitters = Fitters(
    qismsk: real, qimxsk: real, fixedQismsk: real, fixedQimxsk: real,
    select: Selection, fast: FastFit, muboy: Muboy, bff: Bff,
    kirk: (seq<real>, seq<real>) -> seq<real>,
    scott: (seq<real>, seq<real>, real) -> seq<real>)

  /** The output sizes the routines write. */
  ghost predicate FittersOk(f: Fitters)
  {
    |f.muboy.entry| == 4 && |f.muboy.other| == MuboyOtherEntries &&
    f.muboy.ntrack <= MuboyMaxTracks &&
    |f.bff.entpos| == 3 && |f.bff.dir| == 3 &&
    forall e, d :: |f.kirk(e, d)| == DedxLength
  }

  /** Number of results a muboy track count yields. */
  function TrackCount(ntrack: int): nat
  {
    if ntrack < 0 then 0 else ntrack
  }

  /** Index into muboy_otherentry of coordinate c of track t >= 1: four values per track,
      starting with track 1 at index 0. */
  function OtherEntryIndex(t: int, c: int): int
  {
    4 * (t - 1) + c
  }

  /** The entry point (x, y, z, t) muboy reports for track t. */
  function MuboyTrackEntry(m: Muboy, t: int): (e: seq<real>)
    requires |m.entry| == 4 && |m.other| == MuboyOtherEntries && 0 <= t < MuboyMaxTracks
    ensures |e| == 4
  {
    if t == 0 then m.entry
    else m.other[OtherEntryIndex(t, 0)..OtherEntryIndex(t, 0) + 4]
  }

  /** Lines 425-436: charges saved around fix_maxqisk_ and muninfo raised to at least 4. */
  function ChargeBookkeeping(mu: MuRecord, f: Fitters): (r: MuRecord)
    requires Shaped(mu)
    ensures Shaped(r)
  {
    mu.(muinfo := mu.muinfo[0 := f.qismsk][2 := f.qimxsk][3 := f.fixedQimxsk],
        muqismsk := f.fixedQismsk,
        muninfo := if mu.muninfo < 4 then 4 else mu.muninfo)
  }

  /** The block when mfmuselect_ returns a zero selector and the reconstruction fails. */
  function AfterFailedSelection(mu: MuRecord, f: Fitters): (r: MuRecord)
    requires Shaped(mu)
    ensures Shaped(r)
  {
    ChargeBookkeeping(mu, f).(muentpoint := f.select.entpoint, mudir := f.select.dir,
                              mugoodness := f.select.goodness)
  }

  /** Lines 441-467 for a non-zero selector: a negative one takes mffastfast_'s entry point
      and direction and sets mufast_flag; muyn ends as muyn_org either way. */
  function AfterSelection(mu: MuRecord, f: Fitters): (r: MuRecord)
    requires Shaped(mu) && f.select.muynOrg != 0
    ensures Shaped(r)
  {
    var s := AfterFailedSelection(mu, f);
    if f.select.muynOrg < 0 then
      s.(muentpoint := f.fast.entpoint, mudir := f.fast.dir, mufastFlag := 1, muyn := f.select.muynOrg)
    else
      s.(mufastFlag := 0, muyn := f.select.muynOrg)
  }

  /** muboy_entpos after lines 484-496: rows below the track count from muboy, the others as
      they were. */
  function FilledEntpos(entpos: seq<seq<real>>, m: Muboy): (r: seq<seq<real>>)
    requires |entpos| == MuboyMaxTracks && |m.entry| == 4 && |m.other| == MuboyOtherEntries
    ensures |r| == |entpos|
  {
    seq(|entpos|, t requires 0 <= t < |entpos| =>
      if t < m.ntrack then MuboyTrackEntry(m, t) else entpos[t])
  }

  /** Lines 473-496: muboy's results stored in the block. */
  function AfterMuboy(mu: MuRecord, f: Fitters): (r: MuRecord)
    requires Shaped(mu) && FittersOk(f)
    ensures Shaped(r)
  {
    mu.(muboyStatus := f.muboy.status, muboyDir := f.muboy.dir, muboyLength := f.muboy.length,
        muboyGoodness := f.muboy.goodness, muboyNtrack := f.muboy.ntrack,
        muboyEntpos := FilledEntpos(mu.muboyEntpos, f.muboy))
  }

  /** The four-way gate of line 534. */
  predicate BffAttempted(noBFF: bool, tryBFF: bool, status: int, goodness: real): (r: bool)
    ensures noBFF || !tryBFF ==> !r
    ensures r ==> status == ThroughGoing && goodness < MuboyGoodnessLimit
  {
    !noBFF && tryBFF && status == ThroughGoing && goodness < MuboyGoodnessLimit
  }

  /** Whether BFF's entry point and direction replace muboy's for the dE/dx (line 552). */
  predicate BffOverrides(f: Fitters, noBFF: bool, tryBFF: bool): (r: bool)
    ensures r ==> BffAttempted(noBFF, tryBFF, f.muboy.status, f.muboy.goodness)
    ensures r ==> f.bff.goodness > BffGoodnessLimit
  {
    BffAttempted(noBFF, tryBFF, f.muboy.status, f.muboy.goodness) && f.bff.goodness > BffGoodnessLimit
  }

  /** Lines 534-573: the BFF fields and muinfo[6]. */
  function AfterBff(mu: MuRecord, f: Fitters, noBFF: bool, tryBFF: bool): (r: MuRecord)
    requires Shaped(mu)
    ensures Shaped(r)
  {
    if BffAttempted(noBFF, tryBFF, f.muboy.status, f.muboy.goodness) then
      mu.(mubffGoodness := f.bff.goodness, mubffEntpos := f.bff.entpos, mubffDir := f.bff.dir,
          muinfo := mu.muinfo[InfoBffFlag := if f.bff.goodness > BffGoodnessLimit then 1.0 else 0.0])
    else
      mu.(mubffGoodness := 0.0, mubffEntpos := [0.0, 0.0, 0.0], mubffDir := [0.0, 0.0, 0.0],
          muinfo := mu.muinfo[InfoBffFlag := 0.0])
  }

  /** The block as the per-track loop finds it. */
  function Template(mu: MuRecord, f: Fitters, noBFF: bool, tryBFF: bool): (r: MuRecord)
    requires Shaped(mu) && FittersOk(f) && f.select.muynOrg != 0
    ensures Shaped(r)
  {
    AfterBff(AfterMuboy(AfterSelection(mu, f), f), f, noBFF, tryBFF)
  }

  /** The entry point handed to the dE/dx estimators for the first track: muboy's first
      entry point, with x, y, z replaced by BFF's when BFF is used (the time stays). */
  function FirstDedxEntry(f: Fitters, noBFF: bool, tryBFF: bool): (e: seq<real>)
    requires FittersOk(f)
    ensures |e| == 4
  {
    if BffOverrides(f, noBFF, tryBFF) then f.bff.entpos + f.muboy.entry[3..] else f.muboy.entry
  }

  /** The direction handed to the dE/dx estimators, for every track. */
  function DedxDir(f: Fitters, noBFF: bool, tryBFF: bool): (d: seq<real>)
    ensures d == f.bff.dir || d == f.muboy.dir
    ensures !BffAttempted(noBFF, tryBFF, f.muboy.status, f.muboy.goodness) ==> d == f.muboy.dir
    ensures FittersOk(f) && BffOverrides(f, noBFF, tryBFF) ==> |d| == 3
  {
    if BffOverrides(f, noBFF, tryBFF) then f.bff.dir else f.muboy.dir
  }

  /** The entry point used for track t's dE/dx. */
  function TrackDedxEntry(tmpl: MuRecord, first: seq<real>, t: int): (e: seq<real>)
    requires Shaped(tmpl) && 0 <= t < MuboyMaxTracks
    ensures |first| == 4 ==> |e| == 4
  {
    if t == 0 then first else tmpl.muboyEntpos[t]
  }

  /** One iteration of lines 580-703: the track number, both dE/dx arrays and muninfo. */
  function TrackRecord(tmpl: MuRecord, f: Fitters, first: seq<real>, dir: seq<real>, t: int): (r: MuRecord)
    requires Shaped(tmpl) && FittersOk(f) && 0 <= t < MuboyMaxTracks
    ensures Shaped(r)
  {
    var e := TrackDedxEntry(tmpl, first, t);
    tmpl.(muinfo := tmpl.muinfo[InfoTrack := t as real][..InfoDedxStart] + f.kirk(e, dir)
                    + tmpl.muinfo[NInfoWithDedx..],
          muninfo := NInfoWithDedx,
          muboyDedx := f.scott(e, dir, tmpl.muboyLength))
  }

  /** One record per muboy track, each built from the template. */
  function TrackRecords(tmpl: MuRecord, f: Fitters, first: seq<real>, dir: seq<real>): (rs: seq<MuRecord>)
    requires Shaped(tmpl) && FittersOk(f)
    ensures |rs| == TrackCount(f.muboy.ntrack) <= MuboyMaxTracks
  {
    seq(TrackCount(f.muboy.ntrack), t requires 0 <= t < TrackCount(f.muboy.ntrack) =>
      TrackRecord(tmpl, f, first, dir, t))
  }

  /** A track's record differs from the template only in muinfo's entries from the track
      number on, muninfo and the dE/dx array. */
  lemma TrackRecordKeepsTemplate(tmpl: MuRecord, f: Fitters, first: seq<real>, dir: seq<real>, t: int)
    requires Shaped(tmpl) && FittersOk(f) && 0 <= t < MuboyMaxTracks
    ensures var r := TrackRecord(tmpl, f, first, dir, t);
      r == tmpl.(muinfo := r.muinfo, muninfo := r.muninfo, muboyDedx := r.muboyDedx) &&
      r.muinfo[..InfoTrack] == tmpl.muinfo[..InfoTrack]
  {
  }

  /** The records reco_muons receives, or None when the selector is zero. */
  function Reconstruct(mu: MuRecord, f: Fitters, noBFF: bool, tryBFF: bool): (r: Option<seq<MuRecord>>)
    requires Shaped(mu) && FittersOk(f)
    ensures r.None? <==> f.select.muynOrg == 0
    ensures r.Some? ==> |r.value| == TrackCount(f.muboy.ntrack) <= MuboyMaxTracks
  {
    if f.select.muynOrg == 0 then None
    else
      Some(TrackRecords(Template(mu, f, noBFF, tryBFF), f, FirstDedxEntry(f, noBFF, tryBFF), DedxDir(f, noBFF, tryBFF)))
  }

  /** The selector sign: zero fails; otherwise every result keeps muyn = muyn_org, and a
      negative selector is the fast-fit case (mufast_flag 1, mffastfast_'s entry point and
      direction) while a positive one keeps mfmuselect_'s (mufast_flag 0). */
  lemma SelectorSign(mu: MuRecord, f: Fitters, noBFF: bool, tryBFF: bool)
    requires Shaped(mu) && FittersOk(f)
    ensures Reconstruct(mu, f, noBFF, tryBFF).None? <==> f.select.muynOrg == 0
    ensures Reconstruct(mu, f, noBFF, tryBFF).Some? ==>
      forall r :: r in Reconstruct(mu, f, noBFF, tryBFF).value ==>
        r.muyn == f.select.muynOrg && r.mugoodness == f.select.goodness &&
        r.mufastFlag == (if f.select.muynOrg < 0 then 1 else 0) &&
        r.muentpoint == (if f.select.muynOrg < 0 then f.fast.entpoint else f.select.entpoint) &&
        r.mudir == (if f.select.muynOrg < 0 then f.fast.dir else f.select.dir)
  {
  }

  /** The block the track loop starts from holds the bookkeeping's charges in muinfo[0..6]. */
  lemma TemplateCharges(mu: MuRecord, f: Fitters, noBFF: bool, tryBFF: bool)
    requires Shaped(mu) && FittersOk(f) && f.select.muynOrg != 0
    ensures var tmpl := Template(mu, f, noBFF, tryBFF);
      tmpl.muinfo[..InfoBffFlag] == [f.qismsk, mu.muinfo[1], f.qimxsk, f.fixedQimxsk, mu.muinfo[4], mu.muinfo[5]] &&
      tmpl.muqismsk == f.fixedQismsk
  {
    var c := ChargeBookkeeping(mu, f);
    assert AfterMuboy(AfterSelection(mu, f), f).muinfo == c.muinfo;
    assert c.muinfo[..InfoBffFlag] == [f.qismsk, mu.muinfo[1], f.qimxsk, f.fixedQimxsk, mu.muinfo[4], mu.muinfo[5]];
  }

  /** The charge bookkeeping reaches every result: muinfo[0] and muinfo[2] hold skq_'s
      qismsk and qimxsk from before fix_maxqisk_, muinfo[3] and muqismsk the values after it,
      muinfo[1], [4] and [5] keep the block's values, and muninfo, raised to at least 4 by
      the bookkeeping, ends at 210. */
  lemma ChargesRecorded(mu: MuRecord, f: Fitters, noBFF: bool, tryBFF: bool)
    requires Shaped(mu) && FittersOk(f) && f.select.muynOrg != 0
    ensures forall r :: r in Reconstruct(mu, f, noBFF, tryBFF).value ==>
      r.muinfo[..InfoBffFlag] == [f.qismsk, mu.muinfo[1], f.qimxsk, f.fixedQimxsk, mu.muinfo[4], mu.muinfo[5]] &&
      r.muqismsk == f.fixedQismsk && r.muninfo == NInfoWithDedx
  {
    var tmpl := Template(mu, f, noBFF, tryBFF);
    TemplateCharges(mu, f, noBFF, tryBFF);
    var rs := Reconstruct(mu, f, noBFF, tryBFF).value;
    forall r | r in rs
      ensures r.muinfo[..InfoBffFlag] == tmpl.muinfo[..InfoBffFlag]
    {
      var t :| 0 <= t < |rs| && rs[t] == r;
      TrackRecordKeepsTemplate(tmpl, f, FirstDedxEntry(f, noBFF, tryBFF), DedxDir(f, noBFF, tryBFF), t);
      assert r.muinfo[..InfoBffFlag] == r.muinfo[..InfoTrack][..InfoBffFlag];
      assert tmpl.muinfo[..InfoBffFlag] == tmpl.muinfo[..InfoTrack][..InfoBffFlag];
    }
  }

  /** Exactly muboy_ntrack results; result t carries track number t, muninfo 210, and the
      muboy fit shared by all tracks. */
  lemma OneResultPerTrack(mu: MuRecord, f: Fitters, noBFF: bool, tryBFF: bool)
    requires Shaped(mu) && FittersOk(f) && f.select.muynOrg != 0
    ensures |Reconstruct(mu, f, noBFF, tryBFF).value| == TrackCount(f.muboy.ntrack)
    ensures forall t :: 0 <= t < TrackCount(f.muboy.ntrack) ==>
      var r := Reconstruct(mu, f, noBFF, tryBFF).value[t];
      r.muinfo[InfoTrack] == t as real && r.muninfo == NInfoWithDedx &&
      r.muboyNtrack == f.muboy.ntrack && r.muboyStatus == f.muboy.status &&
      r.muboyGoodness == f.muboy.goodness && r.muboyDir == f.muboy.dir &&
      r.muboyEntpos[t] == MuboyTrackEntry(f.muboy, t)
  {
  }

  /** BFF not attempted: its goodness, entry point, direction and muinfo[6] are zero in every
      result, and the dE/dx uses muboy's entry point and direction. */
  lemma BffSkipped(mu: MuRecord, f: Fitters, noBFF: bool, tryBFF: bool)
    requires Shaped(mu) && FittersOk(f) && f.select.muynOrg != 0
    requires !BffAttempted(noBFF, tryBFF, f.muboy.status, f.muboy.goodness)
    ensures forall r :: r in Reconstruct(mu, f, noBFF, tryBFF).value ==>
      r.mubffGoodness == 0.0 && r.mubffEntpos == [0.0, 0.0, 0.0] &&
      r.mubffDir == [0.0, 0.0, 0.0] && r.muinfo[InfoBffFlag] == 0.0
    ensures FirstDedxEntry(f, noBFF, tryBFF) == f.muboy.entry
    ensures DedxDir(f, noBFF, tryBFF) == f.muboy.dir
  {
    var rs := Reconstruct(mu, f, noBFF, tryBFF).value;
    forall r | r in rs
      ensures r.mubffGoodness == 0.0 && r.mubffEntpos == [0.0, 0.0, 0.0] &&
        r.mubffDir == [0.0, 0.0, 0.0] && r.muinfo[InfoBffFlag] == 0.0
    {
      var t :| 0 <= t < |rs| && rs[t] == r;
      TrackRecordKeepsTemplate(Template(mu, f, noBFF, tryBFF), f, FirstDedxEntry(f, noBFF, tryBFF), DedxDir(f, noBFF, tryBFF), t);
      assert r.muinfo[InfoBffFlag] == r.muinfo[..InfoTrack][InfoBffFlag];
    }
  }

  /** BFF attempted: its outputs are recorded in every result; muinfo[6] is 1 exactly when
      its goodness exceeds 0.3, and only then do its entry point and direction replace
      muboy's for the dE/dx. */
  lemma BffTried(mu: MuRecord, f: Fitters, noBFF: bool, tryBFF: bool)
    requires Shaped(mu) && FittersOk(f) && f.select.muynOrg != 0
    requires BffAttempted(noBFF, tryBFF, f.muboy.status, f.muboy.goodness)
    ensures forall r :: r in Reconstruct(mu, f, noBFF, tryBFF).value ==>
      r.mubffGoodness == f.bff.goodness && r.mubffEntpos == f.bff.entpos &&
      r.mubffDir == f.bff.dir &&
      r.muinfo[InfoBffFlag] == (if f.bff.goodness > BffGoodnessLimit then 1.0 else 0.0)
    ensures f.bff.goodness > BffGoodnessLimit ==>
      FirstDedxEntry(f, noBFF, tryBFF) == f.bff.entpos + [f.muboy.entry[3]] &&
      DedxDir(f, noBFF, tryBFF) == f.bff.dir
    ensures f.bff.goodness <= BffGoodnessLimit ==>
      FirstDedxEntry(f, noBFF, tryBFF) == f.muboy.entry && DedxDir(f, noBFF, tryBFF) == f.muboy.dir
  {
    var rs := Reconstruct(mu, f, noBFF, tryBFF).value;
    forall r | r in rs
      ensures r.mubffGoodness == f.bff.goodness && r.mubffEntpos == f.bff.entpos &&
        r.mubffDir == f.bff.dir &&
        r.muinfo[InfoBffFlag] == (if f.bff.goodness > BffGoodnessLimit then 1.0 else 0.0)
    {
      var t :| 0 <= t < |rs| && rs[t] == r;
      TrackRecordKeepsTemplate(Template(mu, f, noBFF, tryBFF), f, FirstDedxEntry(f, noBFF, tryBFF), DedxDir(f, noBFF, tryBFF), t);
      assert r.muinfo[InfoBffFlag] == r.muinfo[..InfoTrack][InfoBffFlag];
    }
  }

  /** Each of the four gate conditions, failing alone, keeps BFF from being attempted. */
  lemma EachGateConditionSkipsBff(status: int, goodness: real)
    ensures !BffAttempted(true, true, ThroughGoing, 0.0)
    ensures !BffAttempted(false, false, ThroughGoing, 0.0)
    ensures status != ThroughGoing ==> !BffAttempted(false, true, status, 0.0)
    ensures goodness >= MuboyGoodnessLimit ==> !BffAttempted(false, true, ThroughGoing, goodness)
    ensures goodness < MuboyGoodnessLimit ==> BffAttempted(false, true, ThroughGoing, goodness)
  {
  }

  /** Track t's dE/dx arrays are computed at the entry point chosen for it: the first
      track's (BFF-adjusted) entry point for t = 0, muboy's own entry point of track t for
      t > 0, always with the shared direction. */
  lemma DedxAtTrackEntry(mu: MuRecord, f: Fitters, noBFF: bool, tryBFF: bool, t: int)
    requires Shaped(mu) && FittersOk(f) && f.select.muynOrg != 0
    requires 0 <= t < TrackCount(f.muboy.ntrack)
    ensures var r := Reconstruct(mu, f, noBFF, tryBFF).value[t];
      var e := if t == 0 then FirstDedxEntry(f, noBFF, tryBFF) else MuboyTrackEntry(f.muboy, t);
      var d := DedxDir(f, noBFF, tryBFF);
      r.muinfo[InfoDedxStart..NInfoWithDedx] == f.kirk(e, d) &&
      r.muboyDedx == f.scott(e, d, f.muboy.length)
  {
    var r := Reconstruct(mu, f, noBFF, tryBFF).value[t];
    var tmpl := Template(mu, f, noBFF, tryBFF);
    var e := TrackDedxEntry(tmpl, FirstDedxEntry(f, noBFF, tryBFF), t);
    var d := DedxDir(f, noBFF, tryBFF);
    assert r == TrackRecord(tmpl, f, FirstDedxEntry(f, noBFF, tryBFF), d, t);
    var pre := tmpl.muinfo[InfoTrack := t as real][..InfoDedxStart];
    assert |pre| == InfoDedxStart;
    assert r.muinfo == pre + f.kirk(e, d) + tmpl.muinfo[NInfoWithDedx..];
    assert r.muinfo[InfoDedxStart..NInfoWithDedx] == f.kirk(e, d);
  }

  /** Two muboy tracks, a positive selector and BFF switched off: two results, neither using
      the fast fit, with dE/dx at muboy's two entry points. */
  lemma TwoTrackScenario(mu: MuRecord, f: Fitters, tryBFF: bool)
    requires Shaped(mu) && FittersOk(f)
    requires f.select.muynOrg > 0 && f.muboy.ntrack == 2
    ensures Reconstruct(mu, f, true, tryBFF).Some?
    ensures var rs := Reconstruct(mu, f, true, tryBFF).value;
      |rs| == 2 && rs[0].mufastFlag == 0 && rs[1].mufastFlag == 0 &&
      rs[0].muboyDedx == f.scott(f.muboy.entry, f.muboy.dir, f.muboy.length) &&
      rs[1].muboyDedx == f.scott(f.muboy.other[0..4], f.muboy.dir, f.muboy.length)
  {
    DedxAtTrackEntry(mu, f, true, tryBFF, 0);
    DedxAtTrackEntry(mu, f, true, tryBFF, 1);
  }

  // Findings on the muboy indexing.

  /** Line 491-494 as written: coordinate c of track t is read at 4*t - 7 + c. */
  function OtherEntryIndexAsWritten(t: int, c: int): int
  {
    4 * t - 7 + c
  }

  /** As written, track 1 reads three values in front of muboy_otherentry, and every later
      track t is read three values early: its x, y, z are track t-1's y, z, time. */
  lemma OtherEntryAsWrittenIsShifted()
    ensures OtherEntryIndexAsWritten(1, 0) == -3
    ensures forall t, c :: OtherEntryIndexAsWritten(t, c) == OtherEntryIndex(t, c) - 3
    ensures forall t :: 2 <= t ==> OtherEntryIndexAsWritten(t, 0) == OtherEntryIndex(t - 1, 1)
  {
  }

  /** The corrected index reads each of the 36 values once, inside the array, for tracks
      1 to 9. */
  lemma OtherEntryIndexInRange(t: int, c: int, t': int, c': int)
    requires 1 <= t < MuboyMaxTracks && 0 <= c < 4
    requires 1 <= t' < MuboyMaxTracks && 0 <= c' < 4
    ensures 0 <= OtherEntryIndex(t, c) < MuboyOtherEntries
    ensures OtherEntryIndex(t, c) == OtherEntryIndex(t', c') ==> t == t' && c == c'
  {
  }

  /** Line 521 as written: muentry[i] = muboy_entpos[i][0], the first coordinate of four
      different tracks. */
  function FirstEntryAsWritten(entpos: seq<seq<real>>): (e: seq<real>)
    requires |entpos| >= 4 && forall t :: 0 <= t < |entpos| ==> |entpos[t]| == 4
    ensures |e| == 4
  {
    [entpos[0][0], entpos[1][0], entpos[2][0], entpos[3][0]]
  }

  /** A single track at (100, 200, 300) with time 5 and the other rows zero: as written, the
      first track's dE/dx entry point would be (100, 0, 0) with time 0. */
  lemma FirstEntryAsWrittenIsTransposed()
    ensures var entpos := [[100.0, 200.0, 300.0, 5.0]] + seq(9, i => [0.0, 0.0, 0.0, 0.0]);
      FirstEntryAsWritten(entpos) == [100.0, 0.0, 0.0, 0.0] &&
      FirstEntryAsWritten(entpos) != entpos[0]
  {
    var entpos := [[100.0, 200.0, 300.0, 5.0]] + seq(9, i => [0.0, 0.0, 0.0, 0.0]);
    assert entpos[1] == [0.0, 0.0, 0.0, 0.0];
    assert entpos[2] == [0.0, 0.0, 0.0, 0.0];
    assert entpos[3] == [0.0, 0.0, 0.0, 0.0];
    assert FirstEntryAsWritten(entpos)[1] != entpos[0][1];
  }

  /** Corrected: when BFF is not used the first track's dE/dx is computed at muboy's own
      first entry point, which is also the first row of muboy_entpos. */
  lemma FirstTrackDedxAtMuboyEntry(mu: MuRecord, f: Fitters, noBFF: bool, tryBFF: bool)
    requires Shaped(mu) && FittersOk(f) && f.select.muynOrg != 0 && f.muboy.ntrack > 0
    requires !BffOverrides(f, noBFF, tryBFF)
    ensures var r := Reconstruct(mu, f, noBFF, tryBFF).value[0];
      r.muboyEntpos[0] == f.muboy.entry &&
      r.muboyDedx == f.scott(r.muboyEntpos[0], f.muboy.dir, f.muboy.length)
  {
    DedxAtTrackEntry(mu, f, noBFF, tryBFF, 0);
  }
}
