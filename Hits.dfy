/** The raw hit arrays of one trigger (the rawtqinfo_ common block) and the merge of the hits
    of the following trigger window (the AFT window) into them.  Both detector subsystems, the
    inner detector (ID: icabbf_raw, qbuf_raw, tbuf_raw, nqisk_raw) and the outer detector (OD:
    icabaz_raw, qaskz_raw, taskz_raw, nhitaz_raw), are fixed-size parallel arrays and a count. */
module Hits {

  /** One PMT hit: cable number, charge and time. */
  datatype Hit = Hit(cable: int, charge: real, time: real)

  /** The counted hits of one trigger window, ID and OD, in readout order. */
  datatype Tq = Tq(id: seq<Hit>, od: seq<Hit>)

  /** One subsystem's arrays as a value: every slot of the fixed-size arrays, and the count.
      Slots at and beyond the count hold whatever was last written there. */
  datatype Bank = Bank(slots: seq<Hit>, count: int)

  predicate WellFormed(b: Bank)
  {
    0 <= b.count <= |b.slots|
  }

  /** The hits the count makes visible. */
  function Counted(b: Bank): (s: seq<Hit>)
    requires WellFormed(b)
    ensures |s| == b.count
  {
    b.slots[..b.count]
  }

  /** The three parallel arrays read as one sequence of hits. */
  function Zip(c: seq<int>, q: seq<real>, t: seq<real>): (r: seq<Hit>)
    requires |q| == |c| && |t| == |c|
    ensures |r| == |c|
  {
    seq(|c|, i requires 0 <= i < |c| => Hit(c[i], q[i], t[i]))
  }

  /** Slot i of the zipped arrays holds the i-th cable, charge and time. */
  lemma ZipAt(c: seq<int>, q: seq<real>, t: seq<real>)
    requires |q| == |c| && |t| == |c|
    ensures forall i :: 0 <= i < |c| ==> Zip(c, q, t)[i] == Hit(c[i], q[i], t[i])
  {
  }

  /** `s` with the slots from `start` on overwritten by `f`. */
  function Splice(s: seq<Hit>, start: nat, f: seq<Hit>): (r: seq<Hit>)
    requires start + |f| <= |s|
    ensures |r| == |s|
    ensures r[..start] == s[..start] && r[start..start + |f|] == f && r[start + |f|..] == s[start + |f|..]
  {
    s[..start] + f + s[start + |f|..]
  }

  /** What reading a window into a bank does: its hits fill the slots from 0 and set the count;
      the slots beyond keep whatever they held. */
  function LoadBank(b: Bank, w: seq<Hit>): (r: Bank)
    requires |w| <= |b.slots|
    ensures WellFormed(r) && |r.slots| == |b.slots|
    ensures Counted(r) == w && r.slots[|w|..] == b.slots[|w|..]
  {
    Bank(Splice(b.slots, 0, w), |w|)
  }

  /** The duplicate test of the merge: same cable and same charge.  Times are not compared,
      since the two windows' times are relative to different trigger times. */
  predicate SameCableCharge(h: Hit, last: Hit)
  {
    h.cable == last.cable && h.charge == last.charge
  }

  /** The index of the first following-window hit that repeats `last` on (cable, charge),
      or |f| when there is none. */
  function FirstMatch(f: seq<Hit>, last: Hit): (k: nat)
    ensures k <= |f|
    ensures forall i :: 0 <= i < k ==> !SameCableCharge(f[i], last)
    ensures k < |f| ==> SameCableCharge(f[k], last)
  {
    if f == [] then 0
    else if SameCableCharge(f[0], last) then 0
    else 1 + FirstMatch(f[1..], last)
  }

  /** The first-match property determines the index. */
  lemma FirstMatchUnique(f: seq<Hit>, last: Hit, k: nat)
    requires k <= |f|
    requires forall i :: 0 <= i < k ==> !SameCableCharge(f[i], last)
    requires k < |f| ==> SameCableCharge(f[k], last)
    ensures k == FirstMatch(f, last)
  {
    var m := FirstMatch(f, last);
    assert m < |f| ==> SameCableCharge(f[m], last);
  }

  /** The primary's last hit, read at index count - 1. */
  function LastHit(b: Bank): Hit
    requires WellFormed(b) && b.count > 0
  {
    b.slots[b.count - 1]
  }

  /** Where the ID merge starts writing: the scan's index k, reused as an index into the
      primary arrays, or the primary count when the scan ran off the following window. */
  function IdWriteStart(b: Bank, f: seq<Hit>): (j: nat)
    requires Scannable(b, f)
    ensures (forall i :: 0 <= i < |f| ==> !SameCableCharge(f[i], LastHit(b))) ==> j == b.count
    ensures forall i :: 0 <= i < |f| && SameCableCharge(f[i], LastHit(b)) ==>
      j <= i && SameCableCharge(f[j], LastHit(b))
  {
    var k := ScanIndex(b, f);
    if k != |f| then k else b.count
  }

  /** Where the OD merge starts writing: the scan's index is compared with the PRIMARY count,
      so the choice always comes out as k. */
  function OdWriteStart(k: nat, count: nat): (j: nat)
    ensures j == k
  {
    if k != count then k else count
  }

  /** The scan reads the primary's last hit, at count - 1, as soon as the following window
      has a hit; with an empty primary that read is outside the arrays.  With an empty
      following window the scan loop does not run and nothing is read. */
  predicate Scannable(b: Bank, f: seq<Hit>)
  {
    WellFormed(b) && (b.count > 0 || f == [])
  }

  /** The scan's result: the first repeat of the last hit, or 0 when there is nothing to scan. */
  function ScanIndex(b: Bank, f: seq<Hit>): (k: nat)
    requires Scannable(b, f)
    ensures k <= |f|
  {
    if f == [] then 0 else FirstMatch(f, LastHit(b))
  }

  /** The ID merge can scan and writes inside the arrays (the source checks neither). */
  predicate IdFits(b: Bank, f: seq<Hit>)
  {
    Scannable(b, f) && IdWriteStart(b, f) + |f| <= |b.slots|
  }

  predicate OdFits(b: Bank, f: seq<Hit>)
  {
    Scannable(b, f) && OdWriteStart(ScanIndex(b, f), b.count) + |f| <= |b.slots|
  }

  /** The ID half of the merge: every following hit, from index 0, is copied starting at the
      write start, and the count becomes write start + following count. */
  function MergeId(b: Bank, f: seq<Hit>): (r: Bank)
    requires IdFits(b, f)
    ensures WellFormed(r) && |r.slots| == |b.slots|
  {
    var j := IdWriteStart(b, f);
    Bank(Splice(b.slots, j, f), j + |f|)
  }

  /** The OD half of the merge, with the OD write start. */
  function MergeOd(b: Bank, f: seq<Hit>): (r: Bank)
    requires OdFits(b, f)
    ensures WellFormed(r) && |r.slots| == |b.slots|
  {
    var j := OdWriteStart(ScanIndex(b, f), b.count);
    Bank(Splice(b.slots, j, f), j + |f|)
  }

  /** Scanning ignores times: windows that agree on cables and charges scan alike. */
  lemma FirstMatchIgnoresTime(f: seq<Hit>, g: seq<Hit>, last: Hit, last': Hit)
    requires |f| == |g|
    requires forall i :: 0 <= i < |f| ==> f[i].cable == g[i].cable && f[i].charge == g[i].charge
    requires last.cable == last'.cable && last.charge == last'.charge
    ensures FirstMatch(f, last) == FirstMatch(g, last')
  {
    var k := FirstMatch(f, last);
    assert k < |f| ==> SameCableCharge(g[k], last');
    assert forall i :: 0 <= i < k ==> !SameCableCharge(g[i], last');
    FirstMatchUnique(g, last', k);
  }

  /** ID merge, no repeat of the last hit: the following hits are appended after the primary
      hits, in order, and the count grows by the following count. */
  lemma MergeIdNoMatch(b: Bank, f: seq<Hit>)
    requires IdFits(b, f)
    requires forall i :: 0 <= i < |f| ==> !SameCableCharge(f[i], LastHit(b))
    ensures MergeId(b, f).count == b.count + |f|
    ensures Counted(MergeId(b, f)) == Counted(b) + f
    ensures MergeId(b, f).slots[b.count + |f|..] == b.slots[b.count + |f|..]
  {
    if f != [] {
      FirstMatchUnique(f, LastHit(b), |f|);
    }
    var r := MergeId(b, f);
    assert r.slots == Splice(b.slots, b.count, f);
    assert Counted(r) == Counted(b) + f by {
      forall i | 0 <= i < b.count + |f|
        ensures Counted(r)[i] == (Counted(b) + f)[i]
      {
      }
    }
  }

  /** ID merge, repeat found at the first matching index k: writing starts at primary index k,
      all following hits from index 0 are copied, the count becomes k + following count, and
      the primary slots below k are untouched. */
  lemma MergeIdMatch(b: Bank, f: seq<Hit>, k: nat)
    requires IdFits(b, f)
    requires k < |f| && SameCableCharge(f[k], LastHit(b))
    requires forall i :: 0 <= i < k ==> !SameCableCharge(f[i], LastHit(b))
    ensures MergeId(b, f).count == k + |f|
    ensures MergeId(b, f).slots[..k] == b.slots[..k]
    ensures MergeId(b, f).slots[k..k + |f|] == f
    ensures k <= b.count ==> Counted(MergeId(b, f)) == Counted(b)[..k] + f
    ensures b.count < k ==> Counted(MergeId(b, f)) == Counted(b) + b.slots[b.count..k] + f
  {
    FirstMatchUnique(f, LastHit(b), k);
    var r := MergeId(b, f);
    assert r.slots == Splice(b.slots, k, f);
    assert Counted(r) == r.slots[..k] + r.slots[k..k + |f|] by {
      assert r.slots[..k + |f|] == r.slots[..k] + r.slots[k..k + |f|];
    }
    if k <= b.count {
      assert Counted(b)[..k] == b.slots[..k];
    } else {
      assert b.slots[..k] == Counted(b) + b.slots[b.count..k];
    }
  }

  /** When the very first following hit repeats the primary's last hit, the merged ID window
      is exactly the following window: every primary hit is overwritten. */
  lemma MergeIdFirstHitMatches(b: Bank, f: seq<Hit>)
    requires IdFits(b, f)
    requires |f| > 0 && SameCableCharge(f[0], LastHit(b))
    ensures Counted(MergeId(b, f)) == f
  {
    MergeIdMatch(b, f, 0);
  }

  /** An empty following ID window leaves the ID arrays and count as they were, whatever the
      primary count. */
  lemma MergeIdEmpty(b: Bank)
    requires WellFormed(b)
    ensures IdFits(b, [])
    ensures MergeId(b, []) == b
  {
    assert Splice(b.slots, b.count, []) == b.slots;
  }

  /** An empty following OD window leaves an OD count of 0, whatever the primary count. */
  lemma MergeOdEmpty(b: Bank)
    requires WellFormed(b)
    ensures OdFits(b, [])
    ensures MergeOd(b, []) == Bank(b.slots, 0)
  {
    assert Splice(b.slots, 0, []) == b.slots;
  }

  /** OD merge, whatever the scan finds: writing starts at the scan index k, the following
      hits occupy slots k..k + |f|, the count is k + |f|, and slots below k are untouched. */
  lemma MergeOdAtScanIndex(b: Bank, f: seq<Hit>)
    requires OdFits(b, f)
    ensures MergeOd(b, f).count == ScanIndex(b, f) + |f|
    ensures MergeOd(b, f).slots[..ScanIndex(b, f)] == b.slots[..ScanIndex(b, f)]
    ensures MergeOd(b, f).slots[ScanIndex(b, f)..ScanIndex(b, f) + |f|] == f
  {
    var k := ScanIndex(b, f);
    var r := MergeOd(b, f);
    assert r.slots == Splice(b.slots, k, f);
    assert r.slots[k..k + |f|] == f;
  }

  /** OD merge, no repeat of the last hit: the following hits land at slots |f|..2|f| and the
      OD count becomes twice the following count, whatever the primary count was. */
  lemma MergeOdNoMatch(b: Bank, f: seq<Hit>)
    requires OdFits(b, f)
    requires forall i :: 0 <= i < |f| ==> !SameCableCharge(f[i], LastHit(b))
    ensures MergeOd(b, f).count == 2 * |f|
    ensures MergeOd(b, f).slots[|f|..2 * |f|] == f
  {
    if f != [] {
      FirstMatchUnique(f, LastHit(b), |f|);
    }
    MergeOdAtScanIndex(b, f);
  }

  /** A primary window of one hit and an empty following window: the ID rule keeps the hit,
      the OD rule drops it, so the OD merge does not mirror the ID merge. */
  lemma OdRuleDiffersFromIdRule(h: Hit, spare: Hit)
    ensures IdFits(Bank([h, spare], 1), []) && OdFits(Bank([h, spare], 1), [])
    ensures MergeId(Bank([h, spare], 1), []).count == 1
    ensures MergeOd(Bank([h, spare], 1), []).count == 0
  {
    MergeIdEmpty(Bank([h, spare], 1));
    MergeOdEmpty(Bank([h, spare], 1));
  }

  /** The merge is not commutative: swapping two disjoint one-hit windows swaps the order of
      the merged hits. */
  lemma MergeNotCommutative()
    ensures var a, c, spare := Hit(1, 1.0, 0.0), Hit(2, 2.0, 0.0), Hit(0, 0.0, 0.0);
      IdFits(Bank([a, spare], 1), [c]) && IdFits(Bank([c, spare], 1), [a]) &&
      Counted(MergeId(Bank([a, spare], 1), [c])) == [a, c] &&
      Counted(MergeId(Bank([c, spare], 1), [a])) == [c, a]
  {
    var a, c, spare := Hit(1, 1.0, 0.0), Hit(2, 2.0, 0.0), Hit(0, 0.0, 0.0);
    MergeIdNoMatch(Bank([a, spare], 1), [c]);
    MergeIdNoMatch(Bank([c, spare], 1), [a]);
  }

  /** Windows that each fill at most half of the arrays always merge inside the arrays, when
      the scan has a last hit to read. */
  lemma HalfWindowsFit(b: Bank, f: seq<Hit>)
    requires Scannable(b, f)
    requires 2 * b.count <= |b.slots| && 2 * |f| <= |b.slots|
    ensures IdFits(b, f) && OdFits(b, f)
  {
  }

  /** Copies `f` into the parallel arrays from index `start` on (lines 372-380 and
      395-402). */
  method CopyInto(cab: array<int>, q: array<real>, t: array<real>, start: nat, f: seq<Hit>)
    requires q != t && q.Length == cab.Length && t.Length == cab.Length
    requires start + |f| <= cab.Length
    modifies cab, q, t
    ensures Zip(cab[..], q[..], t[..]) == Splice(old(Zip(cab[..], q[..], t[..])), start, f)
  {
    ghost var before := Zip(cab[..], q[..], t[..]);
    var j := start;
    var i := 0;
    while i < |f|
      invariant 0 <= i <= |f| && j == start + i
      invariant forall p :: 0 <= p < cab.Length ==>
        Hit(cab[p], q[p], t[p]) == if start <= p < j then f[p - start] else before[p]
    {
      t[j] := f[i].time;
      q[j] := f[i].charge;
      cab[j] := f[i].cable;
      j := j + 1;
      i := i + 1;
    }
    assert Zip(cab[..], q[..], t[..]) == Splice(before, start, f);
  }

  /** The scan of lines 359-365 and 386-392: the first index whose hit repeats `last` on
      (cable, charge), or |f|. */
  method ScanForMatch(f: seq<Hit>, last: Hit) returns (k: nat)
    ensures k <= |f|
    ensures forall i :: 0 <= i < k ==> !SameCableCharge(f[i], last)
    ensures k < |f| ==> SameCableCharge(f[k], last)
    ensures k == FirstMatch(f, last)
  {
    k := 0;
    while k < |f|
      invariant k <= |f|
      invariant forall i :: 0 <= i < k ==> !SameCableCharge(f[i], last)
    {
      if f[k].cable != last.cable || f[k].charge != last.charge {
        k := k + 1;
      } else {
        break;
      }
    }
    FirstMatchUnique(f, last, k);
  }

  /** The rawtqinfo_ common block. */
  class RawTqInfo {
    const icabbf: array<int>
    const qbuf: array<real>
    const tbuf: array<real>
    var nqisk: int
    const icabaz: array<int>
    const qaskz: array<real>
    const taskz: array<real>
    var nhitaz: int
    ghost const Repr: set<object>

    ghost predicate Valid()
      reads this
    {
      Repr == {this, icabbf, qbuf, tbuf, icabaz, qaskz, taskz} &&
      qbuf.Length == icabbf.Length && tbuf.Length == icabbf.Length &&
      qaskz.Length == icabaz.Length && taskz.Length == icabaz.Length &&
      icabbf != icabaz && qbuf != tbuf && qaskz != taskz &&
      qbuf != qaskz && qbuf != taskz && tbuf != qaskz && tbuf != taskz &&
      0 <= nqisk <= icabbf.Length && 0 <= nhitaz <= icabaz.Length
    }

    /** The ID arrays and count. */
    function Id(): (b: Bank)
      requires Valid()
      reads this, icabbf, qbuf, tbuf
      ensures WellFormed(b) && |b.slots| == icabbf.Length
    {
      Bank(Zip(icabbf[..], qbuf[..], tbuf[..]), nqisk)
    }

    /** The OD arrays and count. */
    function Od(): (b: Bank)
      requires Valid()
      reads this, icabaz, qaskz, taskz
      ensures WellFormed(b) && |b.slots| == icabaz.Length
    {
      Bank(Zip(icabaz[..], qaskz[..], taskz[..]), nhitaz)
    }

    /** The counted hits, as a copy of the block would hold them. */
    function Snapshot(): Tq
      requires Valid()
      reads Repr
    {
      Tq(Counted(Id()), Counted(Od()))
    }

    /** A zero-initialised block with the given array capacities. */
    constructor (idCap: nat, odCap: nat)
      ensures Valid() && fresh(Repr)
      ensures icabbf.Length == idCap && icabaz.Length == odCap
      ensures Snapshot() == Tq([], [])
    {
      icabbf := new int[idCap];
      qbuf := new real[idCap];
      tbuf := new real[idCap];
      nqisk := 0;
      icabaz := new int[odCap];
      qaskz := new real[odCap];
      taskz := new real[odCap];
      nhitaz := 0;
      Repr := {this, icabbf, qbuf, tbuf, icabaz, qaskz, taskz};
    }

    /** What loading a record does to the block: its hits fill the arrays from slot 0 and set
        the counts; later slots keep their old contents. */
    method Load(w: Tq)
      requires Valid()
      requires |w.id| <= icabbf.Length && |w.od| <= icabaz.Length
      modifies Repr
      ensures Valid()
      ensures Id() == LoadBank(old(Id()), w.id)
      ensures Od() == LoadBank(old(Od()), w.od)
      ensures Snapshot() == w
    {
      CopyInto(icabbf, qbuf, tbuf, 0, w.id);
      nqisk := |w.id|;
      CopyInto(icabaz, qaskz, taskz, 0, w.od);
      nhitaz := |w.od|;
      assert Counted(Id()) == w.id;
      assert Counted(Od()) == w.od;
    }

    /** The ID half of AddAftHits (lines 357-381): scan, then copy from the write start. */
    method MergeIdHits(f: seq<Hit>)
      requires Valid() && IdFits(Id(), f)
      modifies this`nqisk, icabbf, qbuf, tbuf
      ensures Valid()
      ensures Id() == MergeId(old(Id()), f)
    {
      ZipAt(icabbf[..], qbuf[..], tbuf[..]);
      var lastHit := nqisk - 1;
      var k := 0;
      if |f| > 0 {
        // the scan loop reads the last hit only when it runs
        k := ScanForMatch(f, Hit(icabbf[lastHit], qbuf[lastHit], tbuf[lastHit]));
      }
      var j := if k != |f| then k else nqisk;
      CopyInto(icabbf, qbuf, tbuf, j, f);
      nqisk := j + |f|;
    }

    /** The OD half of AddAftHits (lines 384-403), with the OD comparison against the count. */
    method MergeOdHits(f: seq<Hit>)
      requires Valid() && OdFits(Od(), f)
      modifies this`nhitaz, icabaz, qaskz, taskz
      ensures Valid()
      ensures Od() == MergeOd(old(Od()), f)
    {
      ZipAt(icabaz[..], qaskz[..], taskz[..]);
      var lastHit := nhitaz - 1;
      var k := 0;
      if |f| > 0 {
        k := ScanForMatch(f, Hit(icabaz[lastHit], qaskz[lastHit], taskz[lastHit]));
      }
      var j := if k != nhitaz then k else nhitaz;
      CopyInto(icabaz, qaskz, taskz, j, f);
      nhitaz := j + |f|;
    }

    /** AddAftHits: merges the following window `aft` into the block, ID then OD. */
    method AddAftHits(aft: Tq)
      requires Valid()
      requires IdFits(Id(), aft.id) && OdFits(Od(), aft.od)
      modifies Repr
      ensures Valid()
      ensures Id() == MergeId(old(Id()), aft.id)
      ensures Od() == MergeOd(old(Od()), aft.od)
    {
      MergeIdHits(aft.id);
      MergeOdHits(aft.od);
    }
  }
}
