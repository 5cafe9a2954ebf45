/** The ReconstructMatchedMuons tool: write-out of the queued relic (LowE) and muon candidates.
    For each candidate it re-reads the candidate's entry (and, first, the following AFT entry)
    from the input reader, reconstructs muons, merges the AFT hits into the primary hits and
    appends rows to the candidate category's output tree; at the end it clears the queue and
    puts the reader back on the entry it was on. */
module MatchedMuons {
  import opened Hits
  import opened MuonReco

  datatype EventType = LowE | Muon

  /** The low-energy reconstruction payload copied through to skroot_lowe_ unchanged. */
  datatype LoweCommon = LoweCommon(values: seq<real>)

  /** What the upstream matching recorded about a candidate's matched partners. */
  datatype MatchInfo = MatchInfo(evNums: seq<int>, entryNums: seq<int>, hasAft: seq<bool>,
                                 timeDiff: seq<real>, energy: seq<real>)

  /** A queued ParticleCand. */
  datatype Candidate = Candidate(inEntry: int, subTrigger: int, it0xsk: int, hasAft: bool,
                                 matched: MatchInfo, eventTicks: int, numRollovers: int,
                                 lowe: LoweCommon)

  datatype Payload = LowePayload(lowe: LoweCommon) | MuonPayload(mu: MuRecord)

  /** One filled output-tree row: header entry, TQREAL hits, match columns and the
      category's reconstruction. */
  datatype Row = Row(entry: int, hits: Tq, matched: MatchInfo, eventTicks: int,
                     numRollovers: int, payload: Payload)

  /** The input file as the reader sees it: which entries can be read, the hits an entry
      loads under a bad-channel masking mode, the skcread_ status and hits of an entry
      re-read with a sub-trigger timing gate, and the fitters' outputs on an entry and
      sub-trigger. */
  datatype EventStore = EventStore(readable: set<int>,
                                   hitsAt: (int, int) -> Tq,
                                   gateAt: (int, int, int) -> (int, Tq),
                                   fitsAt: (int, int) -> Fitters)

  datatype Outcome = Aborted | Skipped | Written

  /** The masking mode set for muon loads: 0 masks every kind of bad channel. */
  const BadChannelMaskAll: int := 0

  /** A window fills at most half of each array. */
  predicate WindowFits(w: Tq, idCap: int, odCap: int)
  {
    2 * |w.id| <= idCap && 2 * |w.od| <= odCap
  }

  /** AddAftHits reads the primary's last hit in every subsystem where the buffer `a` has
      hits, so the primary window must have one there. */
  predicate Covers(p: Tq, a: Tq)
  {
    (|a.id| > 0 ==> |p.id| > 0) && (|a.od| > 0 ==> |p.od| > 0)
  }

  ghost predicate StoreOk(s: EventStore, idCap: int, odCap: int)
  {
    (forall e, m :: WindowFits(s.hitsAt(e, m), idCap, odCap)) &&
    (forall e, g, m :: WindowFits(s.gateAt(e, g, m).1, idCap, odCap)) &&
    (forall e, n :: FittersOk(s.fitsAt(e, n)))
  }

  function Other(kind: EventType): EventType
  {
    if kind == LowE then Muon else LowE
  }

  /** The masking mode in force while a candidate's primary entry is loaded. */
  function ModeFor(kind: EventType, mode: int): int
  {
    if kind == Muon then BadChannelMaskAll else mode
  }

  /** The AFT entry is prefetched only when there is one and it is not the entry the reader
      was on when the write-out started. */
  predicate NeedsAft(c: Candidate, saved: int): (r: bool)
    ensures r ==> c.hasAft
    ensures c.inEntry + 1 == saved ==> !r
  {
    c.hasAft && c.inEntry + 1 != saved
  }

  predicate AftFails(s: EventStore, c: Candidate, saved: int)
  {
    NeedsAft(c, saved) && c.inEntry + 1 !in s.readable
  }

  predicate GateFails(s: EventStore, kind: EventType, c: Candidate, mode: int)
  {
    c.subTrigger != 0 && s.gateAt(c.inEntry, c.it0xsk, ModeFor(kind, mode)).0 != 0
  }

  /** The two ways a candidate ends the whole write-out with false. */
  predicate Aborts(s: EventStore, kind: EventType, c: Candidate, saved: int, mode: int)
  {
    AftFails(s, c, saved) || GateFails(s, kind, c, mode)
  }

  /** A muon candidate whose reconstruction returns false. */
  predicate RecoFails(s: EventStore, kind: EventType, c: Candidate)
  {
    kind == Muon && s.fitsAt(c.inEntry, c.subTrigger).select.muynOrg == 0
  }

  /** The primary hits loaded for a candidate, before the merge. */
  function PrimaryHits(s: EventStore, kind: EventType, c: Candidate, mode: int): (p: Tq)
    ensures c.subTrigger == 0 ==> p == s.hitsAt(c.inEntry, ModeFor(kind, mode))
    ensures kind == Muon && c.subTrigger == 0 ==> p == s.hitsAt(c.inEntry, BadChannelMaskAll)
    ensures kind == LowE && c.subTrigger == 0 ==> p == s.hitsAt(c.inEntry, mode)
  {
    if c.subTrigger != 0 then s.gateAt(c.inEntry, c.it0xsk, ModeFor(kind, mode)).1
    else s.hitsAt(c.inEntry, ModeFor(kind, mode))
  }

  /** The static AFT buffer once a candidate's prefetch succeeded: the AFT entry, or the stale
      contents `a` when there was nothing to prefetch. */
  function AftBuffer(s: EventStore, c: Candidate, saved: int, mode: int, a: Tq): (b: Tq)
    ensures b == a || b == s.hitsAt(c.inEntry + 1, mode)
    ensures !c.hasAft || c.inEntry + 1 == saved ==> b == a
  {
    if NeedsAft(c, saved) then s.hitsAt(c.inEntry + 1, mode) else a
  }

  /** Every candidate of `cs` that reaches AddAftHits, starting with buffer `a`, has a primary
      window covering its buffer.  Candidates after one that aborts are not reached, and a
      failed muon reconstruction skips the merge but has already refreshed the buffer. */
  predicate MergesCovered(s: EventStore, kind: EventType, cs: seq<Candidate>, saved: int, mode: int, a: Tq)
    decreases |cs|
  {
    cs == [] || Aborts(s, kind, cs[0], saved, mode) ||
    ((RecoFails(s, kind, cs[0]) || Covers(PrimaryHits(s, kind, cs[0], mode), AftBuffer(s, cs[0], saved, mode, a))) &&
     MergesCovered(s, kind, cs[1..], saved, mode, AftBuffer(s, cs[0], saved, mode, a)))
  }

  /** One candidate's step of `MergesCovered`: unless it aborts, it covers its buffer (or skips
      the merge) and the rest of the queue is covered from the refreshed buffer. */
  lemma MergesCoveredStep(s: EventStore, kind: EventType, cs: seq<Candidate>, saved: int, mode: int, a: Tq)
    requires cs != [] && MergesCovered(s, kind, cs, saved, mode, a)
    ensures !Aborts(s, kind, cs[0], saved, mode) ==>
      (!RecoFails(s, kind, cs[0]) ==> Covers(PrimaryHits(s, kind, cs[0], mode), AftBuffer(s, cs[0], saved, mode, a))) &&
      MergesCovered(s, kind, cs[1..], saved, mode, AftBuffer(s, cs[0], saved, mode, a))
  {
  }

  /** Primary windows with hits in both subsystems cover every buffer, whatever the queue. */
  lemma {:induction false} NonEmptyPrimariesCover(s: EventStore, kind: EventType, cs: seq<Candidate>, saved: int, mode: int, a: Tq)
    requires forall i :: 0 <= i < |cs| ==>
      |PrimaryHits(s, kind, cs[i], mode).id| > 0 && |PrimaryHits(s, kind, cs[i], mode).od| > 0
    ensures MergesCovered(s, kind, cs, saved, mode, a)
  {
    if cs != [] {
      assert |PrimaryHits(s, kind, cs[0], mode).id| > 0 && |PrimaryHits(s, kind, cs[0], mode).od| > 0;
      NonEmptyPrimariesCover(s, kind, cs[1..], saved, mode, AftBuffer(s, cs[0], saved, mode, a));
    }
  }

  /** Relic candidates without AFT entries over an empty buffer never read a last hit, so any
      primary windows will do, empty ones included. */
  lemma {:induction false} NoAftNeedsNoPrimaryHits(s: EventStore, cs: seq<Candidate>, saved: int, mode: int)
    requires forall i :: 0 <= i < |cs| ==> !cs[i].hasAft
    ensures MergesCovered(s, LowE, cs, saved, mode, Tq([], []))
  {
    if cs != [] {
      assert !cs[0].hasAft;
      NoAftNeedsNoPrimaryHits(s, cs[1..], saved, mode);
    }
  }

  /** What the write-out carries from one candidate to the next: the static AFT buffer, the
      ID and OD banks of the rawtqinfo_ block (stale slots beyond the counts included) and the
      skroot_mu_ block. */
  datatype Carried = Carried(aft: Tq, id: Bank, od: Bank, mu: MuRecord)

  /** The banks are well formed and the buffer fits the arrays; the block has its shapes. */
  predicate CarriedOk(st: Carried)
  {
    WellFormed(st.id) && WellFormed(st.od) && WindowFits(st.aft, |st.id.slots|, |st.od.slots|) &&
    Shaped(st.mu)
  }

  /** The banks and the buffer of two states have the same sizes. */
  predicate SameCaps(st: Carried, st': Carried)
  {
    |st'.id.slots| == |st.id.slots| && |st'.od.slots| == |st.od.slots|
  }

  /** A read of window `w` into the block. */
  function LoadInto(st: Carried, w: Tq): (r: Carried)
    requires CarriedOk(st) && |w.id| <= |st.id.slots| && |w.od| <= |st.od.slots|
    ensures CarriedOk(r) && SameCaps(st, r)
    ensures Counted(r.id) == w.id && Counted(r.od) == w.od && r.aft == st.aft && r.mu == st.mu
  {
    st.(id := LoadBank(st.id, w.id), od := LoadBank(st.od, w.od))
  }

  /** Lines 136-156: a needed AFT entry is read into the block and copied into the buffer. */
  ghost function AfterPrefetch(s: EventStore, c: Candidate, saved: int, mode: int, st: Carried): (r: Carried)
    requires StoreOk(s, |st.id.slots|, |st.od.slots|) && CarriedOk(st)
    ensures CarriedOk(r) && SameCaps(st, r) && r.mu == st.mu
    ensures r.aft == AftBuffer(s, c, saved, mode, st.aft)
    ensures !NeedsAft(c, saved) ==> r == st
  {
    if NeedsAft(c, saved) then
      var w := s.hitsAt(c.inEntry + 1, mode);
      assert WindowFits(w, |st.id.slots|, |st.od.slots|);
      LoadInto(st, w).(aft := w)
    else st
  }

  /** Lines 158-184: the candidate's own entry, then its gated re-read for a sub-trigger; the
      counted hits become the primary window. */
  ghost function AfterPrimary(s: EventStore, kind: EventType, c: Candidate, mode: int, st: Carried): (r: Carried)
    requires StoreOk(s, |st.id.slots|, |st.od.slots|) && CarriedOk(st)
    ensures CarriedOk(r) && SameCaps(st, r) && r.aft == st.aft && r.mu == st.mu
    ensures HitsOf(r) == PrimaryHits(s, kind, c, mode)
    ensures WindowFits(HitsOf(r), |r.id.slots|, |r.od.slots|)
  {
    var m := ModeFor(kind, mode);
    assert WindowFits(s.hitsAt(c.inEntry, m), |st.id.slots|, |st.od.slots|);
    assert WindowFits(s.gateAt(c.inEntry, c.it0xsk, m).1, |st.id.slots|, |st.od.slots|);
    var loaded := LoadInto(st, s.hitsAt(c.inEntry, m));
    if c.subTrigger != 0 then LoadInto(loaded, s.gateAt(c.inEntry, c.it0xsk, m).1) else loaded
  }

  /** The counted hits of a state's block. */
  function HitsOf(st: Carried): Tq
    requires WellFormed(st.id) && WellFormed(st.od)
  {
    Tq(Counted(st.id), Counted(st.od))
  }

  /** AddAftHits of the buffer into the block (lines 205-206). */
  function MergeInto(st: Carried): (r: Carried)
    requires CarriedOk(st) && IdFits(st.id, st.aft.id) && OdFits(st.od, st.aft.od)
    ensures CarriedOk(r) && SameCaps(st, r) && r.aft == st.aft && r.mu == st.mu
    ensures r.id == MergeId(st.id, st.aft.id) && r.od == MergeOd(st.od, st.aft.od)
  {
    st.(id := MergeId(st.id, st.aft.id), od := MergeOd(st.od, st.aft.od))
  }

  /** The skroot_mu_ block ReconstructNextMuon leaves: the failed selection's, or the last
      track's record, or the block before the track loop when muboy found no track. */
  function MuAfter(mu: MuRecord, f: Fitters, noBFF: bool, tryBFF: bool): (r: MuRecord)
    requires Shaped(mu) && FittersOk(f)
    ensures Shaped(r)
    ensures f.select.muynOrg == 0 ==> r == AfterFailedSelection(mu, f)
    ensures f.select.muynOrg != 0 && f.muboy.ntrack > 0 ==>
      r == Reconstruct(mu, f, noBFF, tryBFF).value[TrackCount(f.muboy.ntrack) - 1]
  {
    var res := Reconstruct(mu, f, noBFF, tryBFF);
    if res.None? then AfterFailedSelection(mu, f)
    else if res.value == [] then Template(mu, f, noBFF, tryBFF)
    else
      TrackRecordsShaped(Template(mu, f, noBFF, tryBFF), f, FirstDedxEntry(f, noBFF, tryBFF), DedxDir(f, noBFF, tryBFF));
      res.value[|res.value| - 1]
  }

  /** After a successful reconstruction the block is the last record, or the block before the
      track loop when there is none. */
  lemma MuAfterReconstruction(mu: MuRecord, f: Fitters, noBFF: bool, tryBFF: bool)
    requires Shaped(mu) && FittersOk(f) && f.select.muynOrg != 0
    ensures var recs := Reconstruct(mu, f, noBFF, tryBFF).value;
      MuAfter(mu, f, noBFF, tryBFF) == if recs == [] then Template(mu, f, noBFF, tryBFF) else recs[|recs| - 1]
  {
  }

  /** The state and the rows one candidate leaves behind. */
  datatype Progress = Progress(st: Carried, rows: seq<Row>)

  /** Lines 191-329 on a loaded candidate: a muon is reconstructed; unless that fails, the
      buffer is merged into the block and the rows are filled from the merged hits. */
  ghost function FinishCandidate(s: EventStore, kind: EventType, c: Candidate, noBFF: bool, tryBFF: bool,
                                 st: Carried): (p: Progress)
    requires StoreOk(s, |st.id.slots|, |st.od.slots|) && CarriedOk(st)
    requires WindowFits(HitsOf(st), |st.id.slots|, |st.od.slots|)
    requires !RecoFails(s, kind, c) ==> Covers(HitsOf(st), st.aft)
    ensures CarriedOk(p.st) && SameCaps(st, p.st) && p.st.aft == st.aft
    ensures |p.rows| == RowCount(s, kind, c)
  {
    var f := s.fitsAt(c.inEntry, c.subTrigger);
    if RecoFails(s, kind, c) then
      Progress(st.(mu := MuAfter(st.mu, f, noBFF, tryBFF)), [])
    else
      HalfWindowsFit(st.id, st.aft.id);
      HalfWindowsFit(st.od, st.aft.od);
      var merged := MergeInto(st);
      if kind == LowE then
        Progress(merged, EventRows(c, HitsOf(merged), [LowePayload(c.lowe)]))
      else
        OneResultPerTrack(st.mu, f, noBFF, tryBFF);
        Progress(merged.(mu := MuAfter(st.mu, f, noBFF, tryBFF)),
                 EventRows(c, HitsOf(merged), MuonPayloads(Reconstruct(st.mu, f, noBFF, tryBFF).value)))
  }

  /** A merged block, skroot_mu_ and rows that match one FinishCandidate step. */
  lemma FinishWritten(s: EventStore, kind: EventType, c: Candidate, noBFF: bool, tryBFF: bool,
                      st: Carried, mu0: MuRecord, recs: seq<MuRecord>, merged: Carried, rows: seq<Row>)
    requires StoreOk(s, |st.id.slots|, |st.od.slots|) && CarriedOk(st)
    requires WindowFits(HitsOf(st), |st.id.slots|, |st.od.slots|)
    requires !RecoFails(s, kind, c) && Covers(HitsOf(st), st.aft)
    requires IdFits(st.id, st.aft.id) && OdFits(st.od, st.aft.od)
    requires merged == MergeInto(st).(mu := merged.mu)
    requires kind == LowE ==> merged.mu == st.mu
    requires kind == Muon ==> mu0 == MuAfter(st.mu, s.fitsAt(c.inEntry, c.subTrigger), noBFF, tryBFF)
    requires kind == Muon ==> recs == RecoList(Reconstruct(st.mu, s.fitsAt(c.inEntry, c.subTrigger), noBFF, tryBFF))
    requires kind == Muon ==> merged.mu == if recs == [] then mu0 else recs[|recs| - 1]
    requires rows == EventRows(c, HitsOf(merged), Payloads(kind, c, recs))
    ensures FinishCandidate(s, kind, c, noBFF, tryBFF, st) == Progress(merged, rows)
  {
    if kind == Muon {
      MuAfterReconstruction(st.mu, s.fitsAt(c.inEntry, c.subTrigger), noBFF, tryBFF);
    }
  }

  /** Lines 158-329: the candidate's primary load, then FinishCandidate. */
  ghost function LoadedCandidate(s: EventStore, kind: EventType, c: Candidate, mode: int,
                                 noBFF: bool, tryBFF: bool, st: Carried): (p: Progress)
    requires StoreOk(s, |st.id.slots|, |st.od.slots|) && CarriedOk(st)
    requires !RecoFails(s, kind, c) ==> Covers(PrimaryHits(s, kind, c, mode), st.aft)
    ensures CarriedOk(p.st) && SameCaps(st, p.st) && p.st.aft == st.aft
    ensures |p.rows| == RowCount(s, kind, c)
  {
    FinishCandidate(s, kind, c, noBFF, tryBFF, AfterPrimary(s, kind, c, mode, st))
  }

  /** One pass of the candidate loop (lines 121-331) that does not abort. */
  ghost function WriteCandidate(s: EventStore, kind: EventType, c: Candidate, saved: int, mode: int,
                                noBFF: bool, tryBFF: bool, st: Carried): (p: Progress)
    requires StoreOk(s, |st.id.slots|, |st.od.slots|) && CarriedOk(st)
    requires !RecoFails(s, kind, c) ==> Covers(PrimaryHits(s, kind, c, mode), AftBuffer(s, c, saved, mode, st.aft))
    ensures CarriedOk(p.st) && SameCaps(st, p.st)
    ensures p.st.aft == AftBuffer(s, c, saved, mode, st.aft)
    ensures |p.rows| == RowCount(s, kind, c)
  {
    LoadedCandidate(s, kind, c, mode, noBFF, tryBFF, AfterPrefetch(s, c, saved, mode, st))
  }

  /** The rows the candidate loop appends for `cs`, starting from state `st`, up to the first
      candidate that aborts. */
  ghost function QueueRows(s: EventStore, kind: EventType, cs: seq<Candidate>, saved: int, mode: int,
                           noBFF: bool, tryBFF: bool, st: Carried): seq<Row>
    requires StoreOk(s, |st.id.slots|, |st.od.slots|) && CarriedOk(st)
    requires MergesCovered(s, kind, cs, saved, mode, st.aft)
    decreases |cs|, 2
  {
    if cs == [] then [] else QueueRowsAtHead(s, kind, cs, saved, mode, noBFF, tryBFF, st)
  }

  /** `QueueRows` of a non-empty queue: nothing once its head aborts. */
  ghost function QueueRowsAtHead(s: EventStore, kind: EventType, cs: seq<Candidate>, saved: int, mode: int,
                                 noBFF: bool, tryBFF: bool, st: Carried): seq<Row>
    requires StoreOk(s, |st.id.slots|, |st.od.slots|) && CarriedOk(st)
    requires cs != [] && MergesCovered(s, kind, cs, saved, mode, st.aft)
    decreases |cs|, 1
  {
    if Aborts(s, kind, cs[0], saved, mode) then []
    else QueueRowsPastHead(s, kind, cs, saved, mode, noBFF, tryBFF, st)
  }

  /** `QueueRows` once the head is written: its rows, then the rest's from the state it leaves. */
  ghost function QueueRowsPastHead(s: EventStore, kind: EventType, cs: seq<Candidate>, saved: int, mode: int,
                                   noBFF: bool, tryBFF: bool, st: Carried): seq<Row>
    requires StoreOk(s, |st.id.slots|, |st.od.slots|) && CarriedOk(st)
    requires cs != [] && !Aborts(s, kind, cs[0], saved, mode)
    requires MergesCovered(s, kind, cs, saved, mode, st.aft)
    decreases |cs|, 0
  {
    var p := WriteCandidate(s, kind, cs[0], saved, mode, noBFF, tryBFF, st);
    p.rows + QueueRows(s, kind, cs[1..], saved, mode, noBFF, tryBFF, p.st)
  }

  /** With no candidate aborting, the rows the loop appends number `TotalRows`. */
  lemma {:induction false} QueueRowsCount(s: EventStore, kind: EventType, cs: seq<Candidate>, saved: int,
                                          mode: int, noBFF: bool, tryBFF: bool, st: Carried)
    requires StoreOk(s, |st.id.slots|, |st.od.slots|) && CarriedOk(st)
    requires MergesCovered(s, kind, cs, saved, mode, st.aft)
    requires forall i :: 0 <= i < |cs| ==> !Aborts(s, kind, cs[i], saved, mode)
    ensures |QueueRows(s, kind, cs, saved, mode, noBFF, tryBFF, st)| == TotalRows(s, kind, cs)
  {
    if cs != [] {
      assert !Aborts(s, kind, cs[0], saved, mode);
      QueueRowsStep(s, kind, cs, saved, mode, noBFF, tryBFF, st);
      var p := WriteCandidate(s, kind, cs[0], saved, mode, noBFF, tryBFF, st);
      assert forall i :: 0 <= i < |cs[1..]| ==> !Aborts(s, kind, cs[1..][i], saved, mode) by {
        forall i | 0 <= i < |cs[1..]|
          ensures !Aborts(s, kind, cs[1..][i], saved, mode)
        {
          assert cs[1..][i] == cs[i + 1];
        }
      }
      QueueRowsCount(s, kind, cs[1..], saved, mode, noBFF, tryBFF, p.st);
    }
  }

  /** One candidate's step of `QueueRows`: an aborting first candidate ends the rows; any other
      adds its rows and hands its state and buffer to the rest of the queue. */
  lemma QueueRowsStep(s: EventStore, kind: EventType, cs: seq<Candidate>, saved: int,
                      mode: int, noBFF: bool, tryBFF: bool, st: Carried)
    requires StoreOk(s, |st.id.slots|, |st.od.slots|) && CarriedOk(st)
    requires cs != [] && MergesCovered(s, kind, cs, saved, mode, st.aft)
    ensures Aborts(s, kind, cs[0], saved, mode) ==> QueueRows(s, kind, cs, saved, mode, noBFF, tryBFF, st) == []
    ensures !Aborts(s, kind, cs[0], saved, mode) ==>
      (!RecoFails(s, kind, cs[0]) ==> Covers(PrimaryHits(s, kind, cs[0], mode), AftBuffer(s, cs[0], saved, mode, st.aft))) &&
      MergesCovered(s, kind, cs[1..], saved, mode, AftBuffer(s, cs[0], saved, mode, st.aft)) &&
      QueueRows(s, kind, cs, saved, mode, noBFF, tryBFF, st) ==
        WriteCandidate(s, kind, cs[0], saved, mode, noBFF, tryBFF, st).rows +
        QueueRows(s, kind, cs[1..], saved, mode, noBFF, tryBFF, WriteCandidate(s, kind, cs[0], saved, mode, noBFF, tryBFF, st).st)
  {
    assert QueueRows(s, kind, cs, saved, mode, noBFF, tryBFF, st) ==
           QueueRowsAtHead(s, kind, cs, saved, mode, noBFF, tryBFF, st);
    if !Aborts(s, kind, cs[0], saved, mode) {
      MergesCoveredStep(s, kind, cs, saved, mode, st.aft);
      assert QueueRowsAtHead(s, kind, cs, saved, mode, noBFF, tryBFF, st) ==
             QueueRowsPastHead(s, kind, cs, saved, mode, noBFF, tryBFF, st);
    }
  }

  /** One loop step of the queue: rows already written before a candidate that does not abort,
      followed by its rows and the rows of the rest of the queue, are the rows before it
      followed by the rows of the queue from that candidate on. */
  lemma QueueRowsAdvance(s: EventStore, kind: EventType, cs: seq<Candidate>, saved: int,
                         mode: int, noBFF: bool, tryBFF: bool, st: Carried,
                         before: seq<Row>, after: seq<Row>, st': Carried)
    requires StoreOk(s, |st.id.slots|, |st.od.slots|) && CarriedOk(st)
    requires cs != [] && MergesCovered(s, kind, cs, saved, mode, st.aft)
    requires !Aborts(s, kind, cs[0], saved, mode)
    requires st' == WriteCandidate(s, kind, cs[0], saved, mode, noBFF, tryBFF, st).st
    requires after == before + WriteCandidate(s, kind, cs[0], saved, mode, noBFF, tryBFF, st).rows
    ensures StoreOk(s, |st'.id.slots|, |st'.od.slots|) && CarriedOk(st')
    ensures MergesCovered(s, kind, cs[1..], saved, mode, st'.aft)
    ensures after + QueueRows(s, kind, cs[1..], saved, mode, noBFF, tryBFF, st') ==
            before + QueueRows(s, kind, cs, saved, mode, noBFF, tryBFF, st)
  {
    QueueRowsStep(s, kind, cs, saved, mode, noBFF, tryBFF, st);
    var w := WriteCandidate(s, kind, cs[0], saved, mode, noBFF, tryBFF, st);
    var tail := QueueRows(s, kind, cs[1..], saved, mode, noBFF, tryBFF, st');
    AppendAssociative(before, w.rows, tail);
  }

  /** The state a candidate that aborts leaves: nothing changes when its AFT read fails
      (line 146); after a failed gated read (lines 174-179) the prefetch and the primary load
      have happened. */
  ghost function AbortedState(s: EventStore, kind: EventType, c: Candidate, saved: int, mode: int,
                              st: Carried): (r: Carried)
    requires StoreOk(s, |st.id.slots|, |st.od.slots|) && CarriedOk(st)
    ensures CarriedOk(r) && SameCaps(st, r) && r.mu == st.mu
    ensures AftFails(s, c, saved) ==> r == st
    ensures !AftFails(s, c, saved) ==> r.aft == AftBuffer(s, c, saved, mode, st.aft)
  {
    if AftFails(s, c, saved) then st
    else AfterPrimary(s, kind, c, mode, AfterPrefetch(s, c, saved, mode, st))
  }

  /** The state the candidate loop leaves for `cs` from `st`: each candidate's `WriteCandidate`
      state in turn, and at the first candidate that aborts the state it leaves. */
  ghost function QueueState(s: EventStore, kind: EventType, cs: seq<Candidate>, saved: int, mode: int,
                            noBFF: bool, tryBFF: bool, st: Carried): (r: Carried)
    requires StoreOk(s, |st.id.slots|, |st.od.slots|) && CarriedOk(st)
    requires MergesCovered(s, kind, cs, saved, mode, st.aft)
    ensures CarriedOk(r) && SameCaps(st, r)
    decreases |cs|, 2
  {
    if cs == [] then st else QueueStateAtHead(s, kind, cs, saved, mode, noBFF, tryBFF, st)
  }

  ghost function QueueStateAtHead(s: EventStore, kind: EventType, cs: seq<Candidate>, saved: int, mode: int,
                                  noBFF: bool, tryBFF: bool, st: Carried): (r: Carried)
    requires StoreOk(s, |st.id.slots|, |st.od.slots|) && CarriedOk(st)
    requires cs != [] && MergesCovered(s, kind, cs, saved, mode, st.aft)
    ensures CarriedOk(r) && SameCaps(st, r)
    decreases |cs|, 1
  {
    if Aborts(s, kind, cs[0], saved, mode) then AbortedState(s, kind, cs[0], saved, mode, st)
    else QueueStatePastHead(s, kind, cs, saved, mode, noBFF, tryBFF, st)
  }

  ghost function QueueStatePastHead(s: EventStore, kind: EventType, cs: seq<Candidate>, saved: int, mode: int,
                                    noBFF: bool, tryBFF: bool, st: Carried): (r: Carried)
    requires StoreOk(s, |st.id.slots|, |st.od.slots|) && CarriedOk(st)
    requires cs != [] && !Aborts(s, kind, cs[0], saved, mode)
    requires MergesCovered(s, kind, cs, saved, mode, st.aft)
    ensures CarriedOk(r) && SameCaps(st, r)
    decreases |cs|, 0
  {
    QueueState(s, kind, cs[1..], saved, mode, noBFF, tryBFF, WriteCandidate(s, kind, cs[0], saved, mode, noBFF, tryBFF, st).st)
  }

  /** One candidate's step of `QueueState`. */
  lemma QueueStateStep(s: EventStore, kind: EventType, cs: seq<Candidate>, saved: int,
                       mode: int, noBFF: bool, tryBFF: bool, st: Carried)
    requires StoreOk(s, |st.id.slots|, |st.od.slots|) && CarriedOk(st)
    requires cs != [] && MergesCovered(s, kind, cs, saved, mode, st.aft)
    ensures Aborts(s, kind, cs[0], saved, mode) ==>
      QueueState(s, kind, cs, saved, mode, noBFF, tryBFF, st) == AbortedState(s, kind, cs[0], saved, mode, st)
    ensures !Aborts(s, kind, cs[0], saved, mode) ==>
      MergesCovered(s, kind, cs[1..], saved, mode, AftBuffer(s, cs[0], saved, mode, st.aft)) &&
      QueueState(s, kind, cs, saved, mode, noBFF, tryBFF, st) ==
        QueueState(s, kind, cs[1..], saved, mode, noBFF, tryBFF, WriteCandidate(s, kind, cs[0], saved, mode, noBFF, tryBFF, st).st)
  {
    assert QueueState(s, kind, cs, saved, mode, noBFF, tryBFF, st) ==
           QueueStateAtHead(s, kind, cs, saved, mode, noBFF, tryBFF, st);
    if !Aborts(s, kind, cs[0], saved, mode) {
      MergesCoveredStep(s, kind, cs, saved, mode, st.aft);
      assert QueueStateAtHead(s, kind, cs, saved, mode, noBFF, tryBFF, st) ==
             QueueStatePastHead(s, kind, cs, saved, mode, noBFF, tryBFF, st);
    }
  }

  /** A relic write-out never touches skroot_mu_: a muon write-out after it starts from the
      block the last muon reconstruction left. */
  lemma {:induction false} RelicQueueKeepsMu(s: EventStore, cs: seq<Candidate>, saved: int, mode: int,
                                             noBFF: bool, tryBFF: bool, st: Carried)
    requires StoreOk(s, |st.id.slots|, |st.od.slots|) && CarriedOk(st)
    requires MergesCovered(s, LowE, cs, saved, mode, st.aft)
    ensures QueueState(s, LowE, cs, saved, mode, noBFF, tryBFF, st).mu == st.mu
  {
    if cs != [] {
      QueueStateStep(s, LowE, cs, saved, mode, noBFF, tryBFF, st);
      if !Aborts(s, LowE, cs[0], saved, mode) {
        var p := WriteCandidate(s, LowE, cs[0], saved, mode, noBFF, tryBFF, st);
        assert p.st.mu == st.mu;
        RelicQueueKeepsMu(s, cs[1..], saved, mode, noBFF, tryBFF, p.st);
      }
    }
  }

  /** The static buffer survives a queue none of whose candidates reads an AFT entry: the next
      write-out merges what an earlier one left in it (line 136). */
  lemma {:induction false} NoAftKeepsBuffer(s: EventStore, kind: EventType, cs: seq<Candidate>, saved: int,
                                            mode: int, noBFF: bool, tryBFF: bool, st: Carried)
    requires StoreOk(s, |st.id.slots|, |st.od.slots|) && CarriedOk(st)
    requires MergesCovered(s, kind, cs, saved, mode, st.aft)
    requires forall i :: 0 <= i < |cs| ==> !NeedsAft(cs[i], saved)
    ensures QueueState(s, kind, cs, saved, mode, noBFF, tryBFF, st).aft == st.aft
  {
    if cs != [] {
      assert !NeedsAft(cs[0], saved);
      QueueStateStep(s, kind, cs, saved, mode, noBFF, tryBFF, st);
      if !Aborts(s, kind, cs[0], saved, mode) {
        var p := WriteCandidate(s, kind, cs[0], saved, mode, noBFF, tryBFF, st);
        assert forall i :: 0 <= i < |cs[1..]| ==> !NeedsAft(cs[1..][i], saved) by {
          forall i | 0 <= i < |cs[1..]|
            ensures !NeedsAft(cs[1..][i], saved)
          {
            assert cs[1..][i] == cs[i + 1];
          }
        }
        NoAftKeepsBuffer(s, kind, cs[1..], saved, mode, noBFF, tryBFF, p.st);
      }
    }
  }

  /** The entry the reader is on after a loop over `cs` with no abort. */
  function EntryAfter(cs: seq<Candidate>, saved: int): int
  {
    if cs == [] then saved else cs[|cs| - 1].inEntry
  }

  /** Lines 335-338: the saved entry is reloaded unless the reader is already on it. */
  ghost function AfterReload(s: EventStore, saved: int, at: int, mode: int, st: Carried): (r: Carried)
    requires StoreOk(s, |st.id.slots|, |st.od.slots|) && CarriedOk(st)
    ensures CarriedOk(r) && SameCaps(st, r) && r.aft == st.aft && r.mu == st.mu
    ensures at == saved ==> r == st
    ensures at != saved ==> HitsOf(r) == s.hitsAt(saved, mode)
  {
    if at == saved then st
    else
      assert WindowFits(s.hitsAt(saved, mode), |st.id.slots|, |st.od.slots|);
      LoadInto(st, s.hitsAt(saved, mode))
  }

  lemma AppendAssociative<T>(a: seq<T>, b: seq<T>, c: seq<T>)
    ensures (a + b) + c == a + (b + c)
  {
  }

  /** Rows a candidate that does not abort adds: one for LowE, none for a failed muon
      reconstruction, one per muboy track otherwise. */
  function RowCount(s: EventStore, kind: EventType, c: Candidate): (n: nat)
    ensures kind == LowE ==> n == 1
    ensures RecoFails(s, kind, c) ==> n == 0
    ensures FittersOk(s.fitsAt(c.inEntry, c.subTrigger)) ==> n <= MuboyMaxTracks
  {
    if kind == LowE then 1
    else if RecoFails(s, kind, c) then 0
    else TrackCount(s.fitsAt(c.inEntry, c.subTrigger).muboy.ntrack)
  }

  function TotalRows(s: EventStore, kind: EventType, cs: seq<Candidate>): (n: nat)
    ensures kind == LowE ==> n == |cs|
    ensures (forall c :: c in cs ==> FittersOk(s.fitsAt(c.inEntry, c.subTrigger))) ==> n <= MuboyMaxTracks * |cs|
  {
    if cs == [] then 0 else RowCount(s, kind, cs[0]) + TotalRows(s, kind, cs[1..])
  }

  lemma {:induction false} TotalRowsAppend(s: EventStore, kind: EventType, cs: seq<Candidate>, c: Candidate)
    ensures TotalRows(s, kind, cs + [c]) == TotalRows(s, kind, cs) + RowCount(s, kind, c)
  {
    if cs != [] {
      assert (cs + [c])[1..] == cs[1..] + [c];
      TotalRowsAppend(s, kind, cs[1..], c);
    }
  }

  /** A LowE write-out fills exactly one row per candidate. */
  lemma {:induction false} LowERowsOnePerCandidate(s: EventStore, cs: seq<Candidate>)
    ensures TotalRows(s, LowE, cs) == |cs|
  {
    if cs != [] {
      LowERowsOnePerCandidate(s, cs[1..]);
    }
  }

  /** A muon write-out whose every reconstruction fails fills no row. */
  lemma {:induction false} FailedMuonsFillNothing(s: EventStore, cs: seq<Candidate>)
    requires forall i :: 0 <= i < |cs| ==> RecoFails(s, Muon, cs[i])
    ensures TotalRows(s, Muon, cs) == 0
  {
    if cs != [] {
      assert RecoFails(s, Muon, cs[0]);
      FailedMuonsFillNothing(s, cs[1..]);
    }
  }

  predicate AllShaped(rs: seq<MuRecord>)
  {
    forall j :: 0 <= j < |rs| ==> Shaped(rs[j])
  }

  /** The records a reconstruction leaves in reco_muons. */
  function RecoList(r: Option<seq<MuRecord>>): seq<MuRecord>
  {
    if r.Some? then r.value else []
  }

  /** A muon candidate's row count is the number of records its reconstruction produces. */
  lemma RowCountIsReconstructionSize(s: EventStore, c: Candidate, mu: MuRecord, noBFF: bool, tryBFF: bool)
    requires Shaped(mu) && FittersOk(s.fitsAt(c.inEntry, c.subTrigger))
    ensures RowCount(s, Muon, c) ==
      |RecoList(Reconstruct(mu, s.fitsAt(c.inEntry, c.subTrigger), noBFF, tryBFF))|
  {
    if s.fitsAt(c.inEntry, c.subTrigger).select.muynOrg != 0 {
      OneResultPerTrack(mu, s.fitsAt(c.inEntry, c.subTrigger), noBFF, tryBFF);
    }
  }

  /** The rows one written candidate appends, one per payload. */
  function EventRows(c: Candidate, hits: Tq, payloads: seq<Payload>): (rows: seq<Row>)
    ensures |rows| == |payloads|
  {
    seq(|payloads|, j requires 0 <= j < |payloads| =>
      Row(c.inEntry, hits, c.matched, c.eventTicks, c.numRollovers, payloads[j]))
  }

  function MuonPayloads(rs: seq<MuRecord>): (ps: seq<Payload>)
    ensures |ps| == |rs|
  {
    seq(|rs|, j requires 0 <= j < |rs| => MuonPayload(rs[j]))
  }

  function Payloads(kind: EventType, c: Candidate, rs: seq<MuRecord>): seq<Payload>
  {
    if kind == LowE then [LowePayload(c.lowe)] else MuonPayloads(rs)
  }

  /** As written, the muon rows come from the "reco_muons" entry of the shared store, which
      nothing in this tool sets (lines 289-293). */
  function MuonRowsAsWritten(stored: Option<seq<MuRecord>>): (rows: seq<MuRecord>)
    ensures stored.None? ==> rows == []
    ensures rows == [] || (stored.Some? && rows == stored.value)
  {
    if stored.Some? && |stored.value| > 0 then stored.value else []
  }

  /** With no "reco_muons" entry in the store, a muon reconstructed with any number of
      tracks fills no row as written, while one row per track is intended. */
  lemma MuonRowsAsWrittenIgnoreReconstruction(mu: MuRecord, f: Fitters, noBFF: bool, tryBFF: bool)
    requires Shaped(mu) && FittersOk(f) && f.select.muynOrg != 0 && f.muboy.ntrack > 0
    ensures |MuonRowsAsWritten(None)| == 0
    ensures |RecoList(Reconstruct(mu, f, noBFF, tryBFF))| == f.muboy.ntrack
  {
    OneResultPerTrack(mu, f, noBFF, tryBFF);
  }

  /** The input reader: an entry number over the event store.  Loading an entry fills the
      rawtqinfo_ block. */
  class TreeReader {
    const store: EventStore
    var entry: int

    constructor (store: EventStore, entry: int)
      ensures this.store == store && this.entry == entry
    {
      this.store := store;
      this.entry := entry;
    }

    /** getTreeEntry: a successful read moves to `e` and loads its hits under masking mode
        `mode`; a failed one leaves everything as it was. */
    method GetTreeEntry(e: int, mode: int, tq: RawTqInfo) returns (ok: bool)
      requires tq.Valid() && StoreOk(store, tq.icabbf.Length, tq.icabaz.Length)
      modifies this, tq.Repr
      ensures tq.Valid()
      ensures ok == (e in store.readable)
      ensures ok ==> entry == e && tq.Snapshot() == store.hitsAt(e, mode)
      ensures ok ==> tq.Id() == LoadBank(old(tq.Id()), store.hitsAt(e, mode).id) &&
                     tq.Od() == LoadBank(old(tq.Od()), store.hitsAt(e, mode).od)
      ensures !ok ==> entry == old(entry) && tq.Id() == old(tq.Id()) && tq.Od() == old(tq.Od())
    {
      ok := e in store.readable;
      if ok {
        entry := e;
        tq.Load(store.hitsAt(e, mode));
      }
    }

    /** set_timing_gate_ then skcread_: re-reads the current entry through the sub-trigger's
        gate and returns the read status. */
    method ReadGated(it0xsk: int, mode: int, tq: RawTqInfo) returns (status: int)
      requires tq.Valid() && StoreOk(store, tq.icabbf.Length, tq.icabaz.Length)
      modifies tq.Repr
      ensures tq.Valid()
      ensures status == store.gateAt(entry, it0xsk, mode).0
      ensures tq.Snapshot() == store.gateAt(entry, it0xsk, mode).1
      ensures tq.Id() == LoadBank(old(tq.Id()), store.gateAt(entry, it0xsk, mode).1.id) &&
              tq.Od() == LoadBank(old(tq.Od()), store.gateAt(entry, it0xsk, mode).1.od)
    {
      var g := store.gateAt(entry, it0xsk, mode);
      assert WindowFits(g.1, tq.icabbf.Length, tq.icabaz.Length) by {
        assert forall e, g', m :: WindowFits(store.gateAt(e, g', m).1, tq.icabbf.Length, tq.icabaz.Length);
      }
      tq.Load(g.1);
      status := g.0;
    }
  }

  class ReconstructMatchedMuons {
    const reader: TreeReader
    /** The rawtqinfo_ common block. */
    const tq: RawTqInfo
    const noBFF: bool
    /** combad_.imaskbadopt, and the copy saved around a muon's primary load. */
    var maskMode: int
    var currentBadchMasking: int
    /** The static rawtqinfo_aft buffer: it keeps its contents between candidates and calls. */
    var aft: Tq
    /** The skroot_mu_ common block and the reco_muons vector. */
    var mu: MuRecord
    var recoMuons: seq<MuRecord>
    /** The "tryBFF" entry of the shared variables, if any tool set it. */
    const tryBffVar: Option<bool>
    var writeOutRelics: seq<Candidate>
    var muonsToRec: seq<Candidate>
    var relicRows: seq<Row>
    var muRows: seq<Row>

    ghost predicate Valid()
      reads this, reader, tq
    {
      tq.Valid() &&
      this !in tq.Repr && reader !in tq.Repr &&
      reader.entry in reader.store.readable &&
      WindowFits(aft, tq.icabbf.Length, tq.icabaz.Length) && Shaped(mu)
    }

    /** The event store hands out windows that fit the block and well-formed fitter outputs;
        this depends on constants only. */
    ghost predicate Sound()
    {
      StoreOk(reader.store, tq.icabbf.Length, tq.icabaz.Length)
    }

    function Queue(kind: EventType): seq<Candidate>
      reads this`writeOutRelics, this`muonsToRec
    {
      if kind == LowE then writeOutRelics else muonsToRec
    }

    function Rows(kind: EventType): seq<Row>
      reads this`relicRows, this`muRows
    {
      if kind == LowE then relicRows else muRows
    }

    function TryBff(): bool
    {
      tryBffVar.Some? && tryBffVar.value
    }

    /** The AFT buffer, both banks of the block and skroot_mu_. */
    function State(): Carried
      requires tq.Valid()
      reads this`aft, this`mu, tq.Repr
    {
      Carried(aft, tq.Id(), tq.Od(), mu)
    }

    constructor (reader: TreeReader, tq: RawTqInfo, noBFF: bool, tryBffVar: Option<bool>, maskMode: int, mu: MuRecord)
      requires tq.Valid() && StoreOk(reader.store, tq.icabbf.Length, tq.icabaz.Length)
      requires reader.entry in reader.store.readable && reader !in tq.Repr && Shaped(mu)
      ensures Valid() && Sound()
      ensures this.reader == reader && this.tq == tq && this.noBFF == noBFF
      ensures this.maskMode == maskMode && this.mu == mu && aft == Tq([], [])
      ensures recoMuons == [] && this.tryBffVar == tryBffVar
      ensures writeOutRelics == [] && muonsToRec == [] && relicRows == [] && muRows == []
    {
      this.reader := reader;
      this.tq := tq;
      this.noBFF := noBFF;
      this.maskMode := maskMode;
      currentBadchMasking := maskMode;
      aft := Tq([], []);
      this.mu := mu;
      recoMuons := [];
      this.tryBffVar := tryBffVar;
      writeOutRelics, muonsToRec := [], [];
      relicRows, muRows := [], [];
    }

    /** Lines 425-467: charges around fix_maxqisk_, then mfmuselect_ and, for a negative
        selector, mffastfast_.  Returns false on a zero selector. */
    method SelectTrack(f: Fitters) returns (ok: bool)
      requires Shaped(mu)
      modifies this`mu
      ensures ok == (f.select.muynOrg != 0)
      ensures !ok ==> mu == AfterFailedSelection(old(mu), f)
      ensures ok ==> mu == AfterSelection(old(mu), f)
    {
      mu := mu.(muinfo := mu.muinfo[0 := f.qismsk][2 := f.qimxsk]);
      mu := mu.(muqismsk := f.fixedQismsk, muinfo := mu.muinfo[3 := f.fixedQimxsk]);
      if mu.muninfo < 4 {
        mu := mu.(muninfo := 4);
      }
      mu := mu.(muentpoint := f.select.entpoint, mudir := f.select.dir, mugoodness := f.select.goodness);
      var muynOrg := f.select.muynOrg;
      if muynOrg > 0 {
        mu := mu.(muyn := 1);
      } else if muynOrg < 0 {
        mu := mu.(muyn := 0);
      } else {
        return false;
      }
      if mu.muyn == 0 {
        mu := mu.(muentpoint := f.fast.entpoint, mudir := f.fast.dir);
        mu := mu.(mufastFlag := 1);
      } else {
        mu := mu.(mufastFlag := 0);
      }
      mu := mu.(muyn := muynOrg);
      ok := true;
    }

    /** Lines 473-496: muboy_zbs_'s results and one entry-point row per track. */
    method StoreMuboy(f: Fitters)
      requires Shaped(mu) && FittersOk(f)
      modifies this`mu
      ensures mu == AfterMuboy(old(mu), f)
    {
      var m := f.muboy;
      mu := mu.(muboyStatus := m.status, muboyDir := m.dir, muboyLength := m.length,
                muboyGoodness := m.goodness, muboyNtrack := m.ntrack);
      ghost var beforeRows := mu;
      var track := 0;
      while track < mu.muboyNtrack
        invariant 0 <= track <= TrackCount(m.ntrack)
        invariant mu == beforeRows.(muboyEntpos := mu.muboyEntpos)
        invariant |mu.muboyEntpos| == MuboyMaxTracks
        invariant forall t :: 0 <= t < MuboyMaxTracks ==>
          mu.muboyEntpos[t] == if t < track then MuboyTrackEntry(m, t) else beforeRows.muboyEntpos[t]
      {
        var row: seq<real>;
        if track == 0 {
          row := m.entry;
        } else {
          var at := OtherEntryIndex(track, 0);
          row := m.other[at..at + 4];
        }
        mu := mu.(muboyEntpos := mu.muboyEntpos[track := row]);
        track := track + 1;
      }
      assert mu.muboyEntpos == FilledEntpos(beforeRows.muboyEntpos, m);
    }

    /** Lines 517-573: the dE/dx entry point and direction start as muboy's; BFF, when it is
        tried, fills its fields and replaces them if its goodness exceeds the limit. */
    method ApplyBff(f: Fitters, tryBFF: bool) returns (muentry: seq<real>, mudir: seq<real>)
      requires Shaped(mu) && FittersOk(f) && mu.muboyStatus == f.muboy.status
      requires mu.muboyGoodness == f.muboy.goodness && mu.muboyDir == f.muboy.dir
      modifies this`mu
      ensures mu == AfterBff(old(mu), f, noBFF, tryBFF)
      ensures muentry == FirstDedxEntry(f, noBFF, tryBFF) && mudir == DedxDir(f, noBFF, tryBFF)
    {
      mudir := mu.muboyDir;
      muentry := f.muboy.entry;
      if !noBFF && tryBFF && mu.muboyStatus == ThroughGoing && mu.muboyGoodness < MuboyGoodnessLimit {
        mu := mu.(mubffGoodness := f.bff.goodness, mubffEntpos := f.bff.entpos, mubffDir := f.bff.dir);
        if mu.mubffGoodness > BffGoodnessLimit {
          muentry := mu.mubffEntpos + muentry[3..];
          mudir := mu.mubffDir;
          mu := mu.(muinfo := mu.muinfo[InfoBffFlag := 1.0]);
        } else {
          mu := mu.(muinfo := mu.muinfo[InfoBffFlag := 0.0]);
        }
      } else {
        mu := mu.(mubffGoodness := 0.0, mubffEntpos := [0.0, 0.0, 0.0], mubffDir := [0.0, 0.0, 0.0]);
        mu := mu.(muinfo := mu.muinfo[InfoBffFlag := 0.0]);
      }
    }

    /** One iteration of the per-track loop (lines 580-700): track number, entry point,
        both dE/dx estimates and muninfo for track `mutrack`. */
    method RecordTrack(ghost tmpl: MuRecord, f: Fitters, first: seq<real>, mudir: seq<real>,
                       mutrack: int, muentry0: seq<real>) returns (muentry: seq<real>)
      requires Shaped(tmpl) && FittersOk(f) && 0 <= mutrack < MuboyMaxTracks
      requires mu == if mutrack == 0 then tmpl else TrackRecord(tmpl, f, first, mudir, mutrack - 1)
      requires muentry0 == if mutrack <= 1 then first else tmpl.muboyEntpos[mutrack - 1]
      modifies this`mu
      ensures mu == TrackRecord(tmpl, f, first, mudir, mutrack)
      ensures muentry == TrackDedxEntry(tmpl, first, mutrack)
    {
      muentry := muentry0;
      mu := mu.(muinfo := mu.muinfo[InfoTrack := mutrack as real]);
      if mutrack > 0 {
        muentry := mu.muboyEntpos[mutrack];
      }
      var kirk := f.kirk(muentry, mudir);
      mu := mu.(muinfo := mu.muinfo[..InfoDedxStart] + kirk + mu.muinfo[NInfoWithDedx..]);
      mu := mu.(muninfo := NInfoWithDedx);
      mu := mu.(muboyDedx := f.scott(muentry, mudir, mu.muboyLength));
      TrackRecordStep(tmpl, f, first, mudir, mutrack, mu);
    }

    /** Lines 580-703: one record per muboy track appended to reco_muons, each the block with
        that track's number and dE/dx. */
    method RecordTracks(f: Fitters, first: seq<real>, mudir: seq<real>)
      requires Shaped(mu) && FittersOk(f) && |first| == 4 && mu.muboyNtrack == f.muboy.ntrack
      modifies this`mu, this`recoMuons
      ensures recoMuons == old(recoMuons) + TrackRecords(old(mu), f, first, mudir)
      ensures mu == if TrackCount(f.muboy.ntrack) == 0 then old(mu)
                    else TrackRecord(old(mu), f, first, mudir, TrackCount(f.muboy.ntrack) - 1)
    {
      ghost var tmpl := mu;
      ghost var recs := TrackRecords(tmpl, f, first, mudir);
      var muentry := first;
      var mutrack := 0;
      while mutrack < mu.muboyNtrack
        invariant 0 <= mutrack <= |recs|
        invariant recoMuons == old(recoMuons) + recs[..mutrack]
        invariant mu == if mutrack == 0 then tmpl else TrackRecord(tmpl, f, first, mudir, mutrack - 1)
        invariant muentry == if mutrack <= 1 then first else tmpl.muboyEntpos[mutrack - 1]
      {
        muentry := RecordTrack(tmpl, f, first, mudir, mutrack, muentry);
        assert recs[..mutrack + 1] == recs[..mutrack] + [mu];
        recoMuons := recoMuons + [mu];
        mutrack := mutrack + 1;
      }
      assert recs[..mutrack] == recs;
    }

    /** ReconstructNextMuon, with the fitters' outputs for the loaded event. */
    method ReconstructNextMuon(f: Fitters) returns (ok: bool)
      requires Shaped(mu) && FittersOk(f)
      modifies this`mu, this`recoMuons
      ensures Shaped(mu) && AllShaped(recoMuons)
      ensures ok == (f.select.muynOrg != 0)
      ensures !ok ==> recoMuons == [] && mu == AfterFailedSelection(old(mu), f)
      ensures ok ==> recoMuons == Reconstruct(old(mu), f, noBFF, TryBff()).value
      ensures ok ==> mu == if recoMuons == [] then Template(old(mu), f, noBFF, TryBff())
                           else recoMuons[|recoMuons| - 1]
      ensures mu == MuAfter(old(mu), f, noBFF, TryBff())
    {
      recoMuons := [];
      var tryBFF := TryBff();
      ok := SelectTrack(f);
      if !ok {
        return;
      }
      StoreMuboy(f);
      var muentry, mudir := ApplyBff(f, tryBFF);
      ghost var tmpl := mu;
      assert tmpl == Template(old(mu), f, noBFF, tryBFF);
      RecordTracks(f, muentry, mudir);
      TrackRecordsShaped(tmpl, f, muentry, mudir);
    }

    /** Prefetches the AFT entry into the static buffer when the candidate needs one. */
    method PrefetchAft(c: Candidate, saved: int) returns (ok: bool)
      requires Valid() && Sound()
      modifies this`aft, reader, tq.Repr
      ensures Valid()
      ensures ok == !AftFails(reader.store, c, saved)
      ensures aft == if NeedsAft(c, saved) && ok then reader.store.hitsAt(c.inEntry + 1, maskMode) else old(aft)
      ensures !ok ==> reader.entry == old(reader.entry)
      ensures ok ==> State() == AfterPrefetch(reader.store, c, saved, maskMode, old(State()))
    {
      ok := true;
      if c.hasAft && c.inEntry + 1 != saved {
        ok := reader.GetTreeEntry(c.inEntry + 1, maskMode, tq);
        if ok {
          aft := tq.Snapshot();
        }
      }
    }

    /** Loads the candidate's own entry, with every bad channel masked for a muon, then
        re-reads it through the sub-trigger's gate when there is one.  The masking mode is put
        back unless the gated read fails. */
    method LoadPrimary(c: Candidate, kind: EventType) returns (ok: bool)
      requires Valid() && Sound() && c.inEntry in reader.store.readable
      modifies this`maskMode, this`currentBadchMasking, reader, tq.Repr
      ensures Valid()
      ensures ok == !GateFails(reader.store, kind, c, old(maskMode))
      ensures reader.entry == c.inEntry
      ensures maskMode == if ok then old(maskMode) else ModeFor(kind, old(maskMode))
      ensures ok ==> tq.Snapshot() == PrimaryHits(reader.store, kind, c, old(maskMode))
      ensures ok ==> State() == AfterPrimary(reader.store, kind, c, old(maskMode), old(State()))
    {
      if kind == Muon {
        currentBadchMasking := maskMode;
        maskMode := BadChannelMaskAll;
      }
      var loaded := reader.GetTreeEntry(c.inEntry, maskMode, tq);
      ok := true;
      if c.subTrigger != 0 {
        var status := reader.ReadGated(c.it0xsk, maskMode, tq);
        if status != 0 {
          return false;
        }
      }
      if kind == Muon {
        maskMode := currentBadchMasking;
      }
    }

    /** AddAftHits on the loaded window with the buffered AFT hits. */
    method MergeAft()
      requires Valid() && Sound() && WindowFits(tq.Snapshot(), tq.icabbf.Length, tq.icabaz.Length)
      requires Covers(tq.Snapshot(), aft)
      modifies tq.Repr
      ensures Valid()
      ensures IdFits(old(tq.Id()), aft.id) && OdFits(old(tq.Od()), aft.od)
      ensures State() == MergeInto(old(State()))
    {
      var a := aft;
      HalfWindowsFit(tq.Id(), a.id);
      HalfWindowsFit(tq.Od(), a.od);
      tq.AddAftHits(a);
    }

    /** Fills the category's output rows for a candidate: one relic row, or one muon row per
        reconstructed record with skroot_mu_ set to that record. */
    method FillRows(c: Candidate, kind: EventType)
      requires Valid() && Sound() && reader.entry == c.inEntry
      requires kind == Muon ==> AllShaped(recoMuons)
      modifies this`relicRows, this`muRows, this`mu
      ensures Valid()
      ensures Rows(kind) == old(Rows(kind)) + EventRows(c, tq.Snapshot(), Payloads(kind, c, recoMuons))
      ensures Rows(Other(kind)) == old(Rows(Other(kind)))
      ensures kind == LowE || recoMuons == [] ==> mu == old(mu)
      ensures kind == Muon && recoMuons != [] ==> mu == recoMuons[|recoMuons| - 1]
    {
      var hits := tq.Snapshot();
      if kind == LowE {
        var row := Row(reader.entry, hits, c.matched, c.eventTicks, c.numRollovers, LowePayload(c.lowe));
        relicRows := relicRows + [row];
        assert [row] == EventRows(c, hits, [LowePayload(c.lowe)]);
      } else {
        ghost var rows0 := muRows;
        var j := 0;
        while j < |recoMuons|
          invariant 0 <= j <= |recoMuons|
          invariant muRows == rows0 + EventRows(c, hits, MuonPayloads(recoMuons[..j]))
          invariant relicRows == old(relicRows)
          invariant Shaped(mu) && mu == if j == 0 then old(mu) else recoMuons[j - 1]
        {
          mu := recoMuons[j];
          var row := Row(reader.entry, hits, c.matched, c.eventTicks, c.numRollovers, MuonPayload(mu));
          muRows := muRows + [row];
          assert EventRows(c, hits, MuonPayloads(recoMuons[..j + 1]))
            == EventRows(c, hits, MuonPayloads(recoMuons[..j])) + [row];
          j := j + 1;
        }
        assert recoMuons[..j] == recoMuons;
      }
    }

    /** The AFT merge, then the rows filled from the merged block. */
    method MergeAndFill(c: Candidate, kind: EventType)
      requires Valid() && Sound() && reader.entry == c.inEntry
      requires WindowFits(tq.Snapshot(), tq.icabbf.Length, tq.icabaz.Length)
      requires Covers(tq.Snapshot(), aft)
      requires kind == Muon ==> AllShaped(recoMuons)
      modifies this`mu, this`relicRows, this`muRows, tq.Repr
      ensures Valid()
      ensures Rows(kind) == old(Rows(kind)) + EventRows(c, tq.Snapshot(), Payloads(kind, c, recoMuons))
      ensures Rows(Other(kind)) == old(Rows(Other(kind)))
      ensures kind == LowE || recoMuons == [] ==> mu == old(mu)
      ensures kind == Muon && recoMuons != [] ==> mu == recoMuons[|recoMuons| - 1]
      ensures IdFits(old(tq.Id()), aft.id) && OdFits(old(tq.Od()), aft.od)
      ensures tq.Id() == MergeId(old(tq.Id()), aft.id) && tq.Od() == MergeOd(old(tq.Od()), aft.od)
    {
      MergeAft();
      FillRows(c, kind);
    }

    /** ReconstructNextMuon on a muon candidate (lines 191-202); a relic is not reconstructed. */
    method ReconstructCandidate(c: Candidate, kind: EventType) returns (ok: bool)
      requires Valid() && Sound()
      modifies this`mu, this`recoMuons
      ensures Valid()
      ensures ok == !RecoFails(reader.store, kind, c)
      ensures kind == LowE ==> mu == old(mu) && recoMuons == old(recoMuons)
      ensures kind == Muon ==> AllShaped(recoMuons) && |recoMuons| == RowCount(reader.store, kind, c)
      ensures kind == Muon ==> mu == MuAfter(old(mu), reader.store.fitsAt(c.inEntry, c.subTrigger), noBFF, TryBff())
      ensures kind == Muon ==>
        recoMuons == RecoList(Reconstruct(old(mu), reader.store.fitsAt(c.inEntry, c.subTrigger), noBFF, TryBff()))
    {
      ok := true;
      if kind == Muon {
        RowCountIsReconstructionSize(reader.store, c, mu, noBFF, TryBff());
        ok := ReconstructNextMuon(reader.store.fitsAt(c.inEntry, c.subTrigger));
      }
    }

    /** A muon candidate: ReconstructNextMuon, then, unless it fails, the AFT merge and the
        rows (lines 191-329). */
    method ReconstructMuonAndFill(c: Candidate) returns (step: Outcome)
      requires Valid() && Sound() && reader.entry == c.inEntry
      requires WindowFits(tq.Snapshot(), tq.icabbf.Length, tq.icabaz.Length)
      requires !RecoFails(reader.store, Muon, c) ==> Covers(tq.Snapshot(), aft)
      modifies this`mu, this`recoMuons, this`relicRows, this`muRows, tq.Repr
      ensures Valid()
      ensures !step.Aborted? && (step.Skipped? <==> RecoFails(reader.store, Muon, c))
      ensures relicRows == old(relicRows)
      ensures recoMuons == RecoList(Reconstruct(old(mu), reader.store.fitsAt(c.inEntry, c.subTrigger), noBFF, TryBff()))
      ensures State() == FinishCandidate(reader.store, Muon, c, noBFF, TryBff(), old(State())).st
      ensures muRows == old(muRows) + FinishCandidate(reader.store, Muon, c, noBFF, TryBff(), old(State())).rows
    {
      ghost var st := State();
      var ok := ReconstructCandidate(c, Muon);
      if !ok {
        step := Skipped;
        return;
      }
      ghost var mu0, rows0 := mu, muRows;
      MergeAndFill(c, Muon);
      FinishWritten(reader.store, Muon, c, noBFF, TryBff(), st, mu0, recoMuons, State(), muRows[|rows0|..]);
      step := Written;
    }

    /** Reconstruction (for a muon), the AFT merge and the rows, on a loaded candidate. */
    method ReconstructAndFill(c: Candidate, kind: EventType) returns (step: Outcome)
      requires Valid() && Sound() && reader.entry == c.inEntry
      requires WindowFits(tq.Snapshot(), tq.icabbf.Length, tq.icabaz.Length)
      requires !RecoFails(reader.store, kind, c) ==> Covers(tq.Snapshot(), aft)
      modifies this`mu, this`recoMuons, this`relicRows, this`muRows, tq.Repr
      ensures Valid()
      ensures !step.Aborted? && (step.Skipped? <==> RecoFails(reader.store, kind, c))
      ensures kind == LowE ==> recoMuons == old(recoMuons)
      ensures kind == Muon ==>
        recoMuons == RecoList(Reconstruct(old(mu), reader.store.fitsAt(c.inEntry, c.subTrigger), noBFF, TryBff()))
      ensures Rows(Other(kind)) == old(Rows(Other(kind)))
      ensures State() == FinishCandidate(reader.store, kind, c, noBFF, TryBff(), old(State())).st
      ensures Rows(kind) == old(Rows(kind)) + FinishCandidate(reader.store, kind, c, noBFF, TryBff(), old(State())).rows
    {
      if kind == Muon {
        step := ReconstructMuonAndFill(c);
        return;
      }
      ghost var st, rows0 := State(), relicRows;
      MergeAndFill(c, LowE);
      FinishWritten(reader.store, LowE, c, noBFF, TryBff(), st, mu, recoMuons, State(), relicRows[|rows0|..]);
      step := Written;
    }

    /** The candidate's own entry loaded, then ReconstructAndFill. */
    method WriteLoaded(c: Candidate, kind: EventType) returns (step: Outcome)
      requires Valid() && Sound() && c.inEntry in reader.store.readable
      requires !GateFails(reader.store, kind, c, maskMode) && !RecoFails(reader.store, kind, c) ==>
        Covers(PrimaryHits(reader.store, kind, c, maskMode), aft)
      modifies this`maskMode, this`currentBadchMasking, this`mu, this`recoMuons, this`relicRows, this`muRows
      modifies reader, tq.Repr
      ensures Valid()
      ensures step.Aborted? <==> GateFails(reader.store, kind, c, old(maskMode))
      ensures step.Skipped? <==> !GateFails(reader.store, kind, c, old(maskMode)) && RecoFails(reader.store, kind, c)
      ensures reader.entry == c.inEntry
      ensures maskMode == if step.Aborted? then ModeFor(kind, old(maskMode)) else old(maskMode)
      ensures kind == LowE || step.Aborted? ==> recoMuons == old(recoMuons)
      ensures kind == Muon && !step.Aborted? ==>
        recoMuons == RecoList(Reconstruct(old(mu), reader.store.fitsAt(c.inEntry, c.subTrigger), noBFF, TryBff()))
      ensures step.Aborted? ==> Rows(kind) == old(Rows(kind)) && mu == old(mu) && aft == old(aft)
      ensures Rows(Other(kind)) == old(Rows(Other(kind)))
      ensures !step.Aborted? ==> (State() ==
        LoadedCandidate(reader.store, kind, c, old(maskMode), noBFF, TryBff(), old(State())).st)
      ensures !step.Aborted? ==> (Rows(kind) == old(Rows(kind)) +
        LoadedCandidate(reader.store, kind, c, old(maskMode), noBFF, TryBff(), old(State())).rows)
    {
      var ok := LoadPrimary(c, kind);
      if !ok {
        step := Aborted;
        return;
      }
      assert WindowFits(reader.store.gateAt(c.inEntry, c.it0xsk, ModeFor(kind, maskMode)).1, tq.icabbf.Length, tq.icabaz.Length);
      step := ReconstructAndFill(c, kind);
    }

    /** One pass of the candidate loop of WriteEventsOut. */
    method WriteEvent(c: Candidate, kind: EventType, saved: int) returns (step: Outcome)
      requires Valid() && Sound() && c.inEntry in reader.store.readable
      requires !Aborts(reader.store, kind, c, saved, maskMode) && !RecoFails(reader.store, kind, c) ==>
        Covers(PrimaryHits(reader.store, kind, c, maskMode), AftBuffer(reader.store, c, saved, maskMode, aft))
      modifies this, reader, tq.Repr
      ensures Valid()
      ensures step.Aborted? <==> Aborts(reader.store, kind, c, saved, old(maskMode))
      ensures step.Skipped? <==> !Aborts(reader.store, kind, c, saved, old(maskMode)) && RecoFails(reader.store, kind, c)
      ensures !step.Aborted? ==> maskMode == old(maskMode) && reader.entry == c.inEntry
      ensures AftFails(reader.store, c, saved) ==> maskMode == old(maskMode) && reader.entry == old(reader.entry)
      ensures step.Aborted? && !AftFails(reader.store, c, saved) ==>
        maskMode == ModeFor(kind, old(maskMode)) && reader.entry == c.inEntry
      ensures kind == LowE || step.Aborted? ==> recoMuons == old(recoMuons)
      ensures step.Aborted? ==> Rows(kind) == old(Rows(kind)) && mu == old(mu)
      ensures step.Aborted? ==> aft == if AftFails(reader.store, c, saved) then old(aft) else AftBuffer(reader.store, c, saved, old(maskMode), old(aft))
      ensures Rows(Other(kind)) == old(Rows(Other(kind)))
      ensures writeOutRelics == old(writeOutRelics) && muonsToRec == old(muonsToRec)
      ensures !step.Aborted? ==> (State() ==
        WriteCandidate(reader.store, kind, c, saved, old(maskMode), noBFF, TryBff(), old(State())).st)
      ensures !step.Aborted? ==> (Rows(kind) == old(Rows(kind)) +
        WriteCandidate(reader.store, kind, c, saved, old(maskMode), noBFF, TryBff(), old(State())).rows)
    {
      var ok := PrefetchAft(c, saved);
      if !ok {
        step := Aborted;
        return;
      }
      step := WriteLoaded(c, kind);
    }

    /** One pass of the loop over a queue: writes the candidate at the head of `rest`. */
    method WriteNext(kind: EventType, rest: seq<Candidate>, saved: int) returns (aborted: bool)
      requires Valid() && Sound() && rest != [] && rest[0].inEntry in reader.store.readable
      requires MergesCovered(reader.store, kind, rest, saved, maskMode, aft)
      modifies this, reader, tq.Repr
      ensures Valid()
      ensures aborted <==> Aborts(reader.store, kind, rest[0], saved, old(maskMode))
      ensures !aborted ==> maskMode == old(maskMode) && reader.entry == rest[0].inEntry
      ensures aborted ==> (aft == QueueState(reader.store, kind, rest, saved, old(maskMode), noBFF, TryBff(), old(State())).aft &&
                           mu == QueueState(reader.store, kind, rest, saved, old(maskMode), noBFF, TryBff(), old(State())).mu)
      ensures aborted ==> maskMode == old(maskMode) || (kind == Muon && maskMode == BadChannelMaskAll)
      ensures aborted ==> (Rows(kind) == old(Rows(kind)) &&
        QueueRows(reader.store, kind, rest, saved, old(maskMode), noBFF, TryBff(), old(State())) == [])
      ensures writeOutRelics == old(writeOutRelics) && muonsToRec == old(muonsToRec)
      ensures Rows(Other(kind)) == old(Rows(Other(kind)))
      ensures !aborted ==> MergesCovered(reader.store, kind, rest[1..], saved, maskMode, aft)
      ensures !aborted ==> (Rows(kind) + QueueRows(reader.store, kind, rest[1..], saved, maskMode, noBFF, TryBff(), State()) ==
        old(Rows(kind)) + QueueRows(reader.store, kind, rest, saved, maskMode, noBFF, TryBff(), old(State())))
      ensures !aborted ==> (QueueState(reader.store, kind, rest[1..], saved, maskMode, noBFF, TryBff(), State()) ==
        QueueState(reader.store, kind, rest, saved, maskMode, noBFF, TryBff(), old(State())))
    {
      ghost var st0, rows0 := State(), Rows(kind);
      QueueRowsStep(reader.store, kind, rest, saved, maskMode, noBFF, TryBff(), st0);
      QueueStateStep(reader.store, kind, rest, saved, maskMode, noBFF, TryBff(), st0);
      var step := WriteEvent(rest[0], kind, saved);
      aborted := step.Aborted?;
      if aborted {
        return;
      }
      QueueRowsAdvance(reader.store, kind, rest, saved, maskMode, noBFF, TryBff(), st0,
                       rows0, Rows(kind), State());
    }

    /** The candidate loop of WriteEventsOut: writes `events` in order and stops with false
        at the first one that aborts. */
    method WriteQueued(kind: EventType, events: seq<Candidate>, saved: int) returns (ok: bool)
      requires Valid() && Sound()
      requires forall c :: c in events ==> c.inEntry in reader.store.readable
      requires MergesCovered(reader.store, kind, events, saved, maskMode, aft)
      modifies this, reader, tq.Repr
      ensures Valid()
      ensures ok <==> forall i :: 0 <= i < |events| ==> !Aborts(reader.store, kind, events[i], saved, old(maskMode))
      ensures ok ==> maskMode == old(maskMode) && reader.entry == EntryAfter(events, old(reader.entry))
      ensures ok ==> |Rows(kind)| == |old(Rows(kind))| + TotalRows(reader.store, kind, events)
      ensures !ok ==> maskMode == old(maskMode) || (kind == Muon && maskMode == BadChannelMaskAll)
      ensures writeOutRelics == old(writeOutRelics) && muonsToRec == old(muonsToRec)
      ensures Rows(Other(kind)) == old(Rows(Other(kind)))
      ensures Rows(kind) == old(Rows(kind)) +
        QueueRows(reader.store, kind, events, saved, old(maskMode), noBFF, TryBff(), old(State()))
      ensures old(Rows(kind)) <= Rows(kind)
      ensures ok ==> State() == QueueState(reader.store, kind, events, saved, old(maskMode), noBFF, TryBff(), old(State()))
      ensures aft == QueueState(reader.store, kind, events, saved, old(maskMode), noBFF, TryBff(), old(State())).aft &&
              mu == QueueState(reader.store, kind, events, saved, old(maskMode), noBFF, TryBff(), old(State())).mu
    {
      var i := 0;
      while i < |events|
        invariant Valid() && 0 <= i <= |events|
        invariant writeOutRelics == old(writeOutRelics) && muonsToRec == old(muonsToRec)
        invariant Rows(Other(kind)) == old(Rows(Other(kind)))
        invariant maskMode == old(maskMode)
        invariant forall j :: 0 <= j < i ==> !Aborts(reader.store, kind, events[j], saved, maskMode)
        invariant MergesCovered(reader.store, kind, events[i..], saved, maskMode, aft)
        invariant Rows(kind) + QueueRows(reader.store, kind, events[i..], saved, maskMode, noBFF, TryBff(), State())
                  == old(Rows(kind)) + QueueRows(reader.store, kind, events, saved, maskMode, noBFF, TryBff(), old(State()))
        invariant QueueState(reader.store, kind, events[i..], saved, maskMode, noBFF, TryBff(), State())
                  == QueueState(reader.store, kind, events, saved, maskMode, noBFF, TryBff(), old(State()))
        invariant reader.entry == if i == 0 then old(reader.entry) else events[i - 1].inEntry
      {
        assert events[i..][0] == events[i] && events[i..][1..] == events[i + 1..];
        var aborted := WriteNext(kind, events[i..], saved);
        if aborted {
          return false;
        }
        i := i + 1;
      }
      assert events[i..] == [];
      ok := true;
      QueueRowsCount(reader.store, kind, events, saved, maskMode, noBFF, TryBff(), old(State()));
    }

    /** WriteEventsOut: writes every queued candidate of `kind`, then clears the queue and
        reloads the entry the reader was on at the start.  On an abort it returns false at
        once, leaving the queue, the reader position and a muon's masking mode as they are. */
    method WriteEventsOut(kind: EventType) returns (ok: bool)
      requires Valid() && Sound()
      requires forall c :: c in Queue(kind) ==> c.inEntry in reader.store.readable
      requires MergesCovered(reader.store, kind, Queue(kind), reader.entry, maskMode, aft)
      modifies this, reader, tq.Repr
      ensures Valid()
      ensures ok <==> forall i :: 0 <= i < |old(Queue(kind))| ==>
        !Aborts(reader.store, kind, old(Queue(kind))[i], old(reader.entry), old(maskMode))
      ensures ok ==> Queue(kind) == [] && reader.entry == old(reader.entry) && maskMode == old(maskMode)
      ensures ok ==> |Rows(kind)| == |old(Rows(kind))| + TotalRows(reader.store, kind, old(Queue(kind)))
      ensures old(Rows(kind)) <= Rows(kind)
      ensures !ok ==> Queue(kind) == old(Queue(kind))
      ensures !ok ==> maskMode == old(maskMode) || (kind == Muon && maskMode == BadChannelMaskAll)
      ensures Queue(Other(kind)) == old(Queue(Other(kind))) && Rows(Other(kind)) == old(Rows(Other(kind)))
      ensures Rows(kind) == old(Rows(kind)) +
        QueueRows(reader.store, kind, old(Queue(kind)), old(reader.entry), old(maskMode), noBFF, TryBff(), old(State()))
      ensures aft == QueueState(reader.store, kind, old(Queue(kind)), old(reader.entry), old(maskMode), noBFF, TryBff(), old(State())).aft
      ensures mu == QueueState(reader.store, kind, old(Queue(kind)), old(reader.entry), old(maskMode), noBFF, TryBff(), old(State())).mu
      ensures ok ==> (State() ==
        AfterReload(reader.store, old(reader.entry), EntryAfter(old(Queue(kind)), old(reader.entry)), old(maskMode),
                    QueueState(reader.store, kind, old(Queue(kind)), old(reader.entry), old(maskMode), noBFF, TryBff(), old(State()))))
    {
      var currentEntry := reader.entry;
      ok := WriteQueued(kind, Queue(kind), currentEntry);
      if !ok {
        return;
      }
      if kind == LowE {
        writeOutRelics := [];
      } else {
        muonsToRec := [];
      }
      if currentEntry != reader.entry {
        var reloaded := reader.GetTreeEntry(currentEntry, maskMode, tq);
      }
    }
  }

  /** Every record built from a well-shaped template is well shaped. */
  lemma TrackRecordsShaped(tmpl: MuRecord, f: Fitters, first: seq<real>, dir: seq<real>)
    requires Shaped(tmpl) && FittersOk(f)
    ensures AllShaped(TrackRecords(tmpl, f, first, dir))
  {
  }

  /** One iteration of the per-track loop turns the record of track t - 1 (or the template,
      for t = 0) into the record of track t. */
  lemma TrackRecordStep(tmpl: MuRecord, f: Fitters, first: seq<real>, dir: seq<real>, t: int, mu: MuRecord)
    requires Shaped(tmpl) && FittersOk(f) && 0 <= t < MuboyMaxTracks
    requires var prev := if t == 0 then tmpl else TrackRecord(tmpl, f, first, dir, t - 1);
      var e := TrackDedxEntry(tmpl, first, t);
      var info := prev.muinfo[InfoTrack := t as real];
      mu == prev.(muinfo := info[..InfoDedxStart] + f.kirk(e, dir) + info[NInfoWithDedx..],
                  muninfo := NInfoWithDedx, muboyDedx := f.scott(e, dir, prev.muboyLength))
    ensures mu == TrackRecord(tmpl, f, first, dir, t)
  {
    var prev := if t == 0 then tmpl else TrackRecord(tmpl, f, first, dir, t - 1);
    var info := prev.muinfo[InfoTrack := t as real];
    var ref := tmpl.muinfo[InfoTrack := t as real];
    assert |prev.muinfo| == |tmpl.muinfo|;
    assert info[..InfoDedxStart] == ref[..InfoDedxStart];
    assert info[NInfoWithDedx..] == ref[NInfoWithDedx..];
  }
}
