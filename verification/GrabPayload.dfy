/** The decoder script's extractor, and where it agrees with the driver's scanner. */
module GrabPayloads {
  import opened Bytes
  import opened Numerals
  import opened WaveTable
  import opened FrameScan
  import opened Encapsulation

  const SDSM_ID: uint16 := 41

  /** `id` starts at index `k` of `d`. */
  predicate PairAt(d: seq<uint8>, id: uint16, k: nat) {
    k + 1 < |d| && IdAt(d, k) == id
  }

  /** `bytes.find` for a two-byte pattern, from index `i` on. */
  function Find(d: seq<uint8>, id: uint16, i: nat): (r: Option<nat>)
    ensures r.Some? ==> i <= r.value && PairAt(d, id, r.value)
    ensures r.Some? ==> forall k: nat :: i <= k < r.value ==> !PairAt(d, id, k)
    ensures r.None? ==> forall k: nat :: i <= k ==> !PairAt(d, id, k)
    decreases |d| - i
  {
    if i + 1 >= |d| then None
    else if IdAt(d, i) == id then Some(i)
    else Find(d, id, i + 1)
  }

  function GrabPayload(d: seq<uint8>): Option<seq<uint8>> {
    match Find(d, BSM_ID, 0)
    case Some(k) => Some(d[k..])
    case None =>
      match Find(d, SDSM_ID, 0)
      case Some(k) => Some(d[k..])
      case None => None
  }

  ghost predicate NoPairBefore(d: seq<uint8>, id: uint16, i: nat) {
    forall k: nat :: k < i ==> !PairAt(d, id, k)
  }

  /** The script returns the suffix at the first BSM pair; without one, at the first SDSM pair; and nothing
      exactly when neither pair occurs. */
  lemma GrabPayloadExactly(d: seq<uint8>, k: nat)
    ensures PairAt(d, BSM_ID, k) && NoPairBefore(d, BSM_ID, k) ==> GrabPayload(d) == Some(d[k..])
    ensures NoPairBefore(d, BSM_ID, |d|) && PairAt(d, SDSM_ID, k) && NoPairBefore(d, SDSM_ID, k) ==>
              GrabPayload(d) == Some(d[k..])
    ensures GrabPayload(d).None? <==> NoPairBefore(d, BSM_ID, |d|) && NoPairBefore(d, SDSM_ID, |d|)
  {
    hide Find;
    assert GrabPayload(d).None? <==> Find(d, BSM_ID, 0).None? && Find(d, SDSM_ID, 0).None?;
  }

  /** When the driver delivers a BSM, the script returns a suffix that contains it, and the same bytes
      exactly when no earlier byte pair looks like a BSM's ID. */
  lemma ExtractorsOnBsm(t: Tables, d: seq<uint8>, after: Overread, f: seq<uint8>)
    requires Scan(t, d, after) == Delivered(f, BSM_ID)
    ensures |f| <= |d| && f == d[|d| - |f|..]
    ensures GrabPayload(d).Some? && exists j :: 0 <= j <= |d| - |f| && GrabPayload(d).value == d[j..]
    ensures GrabPayload(d) == Some(f) <==> NoPairBefore(d, BSM_ID, |d| - |f|)
  {
    hide Scan, FirstFrame, Find;
    var i := DeliveredIsFirstFrame(t, d, after);
    assert PairAt(d, BSM_ID, i);
    assert |f| == |d| - i;
  }

  /** When the driver delivers an SDSM, the two agree exactly when no byte pair anywhere looks like a
      BSM's ID and no earlier one like an SDSM's. */
  lemma ExtractorsOnSdsm(t: Tables, d: seq<uint8>, after: Overread, f: seq<uint8>)
    requires Scan(t, d, after) == Delivered(f, SDSM_ID)
    ensures |f| <= |d| && f == d[|d| - |f|..]
    ensures GrabPayload(d) == Some(f) <==>
            NoPairBefore(d, BSM_ID, |d|) && NoPairBefore(d, SDSM_ID, |d| - |f|)
  {
    hide Scan, FirstFrame, Find;
    var i := DeliveredIsFirstFrame(t, d, after);
    assert PairAt(d, SDSM_ID, i);
    assert |f| == |d| - i;
    var k := Find(d, BSM_ID, 0);
    if k.Some? {
      assert IdAt(d[k.value..], 0) == BSM_ID;
      assert IdAt(f, 0) == SDSM_ID;
    }
  }

  /** The script, which knows nothing of headers, still finds the same BSM behind them. */
  lemma ExtractorsOnEncapsulatedBsm(w: seq<uint8>, f: seq<uint8>)
    requires WsmLength(w) && |f| < 0x1_0000 && BsmFrame(f)
    ensures GrabPayload(Encapsulated(w, f)) == Some(f)
  {
    var d, h := Encapsulated(w, f), HeaderTail(w, |f|);
    TailOfEncapsulated(w, f);
    HeaderTailHasNoSmallId(w, |f|);
    assert d[0] == 0 && d[1] == 0x20;
    forall k: nat | k < |h| + 1 ensures !PairAt(d, BSM_ID, k) {
      if k > 0 {
        PairInTail(d, h, f, k - 1);
      }
    }
    var i := |h| + 1;
    assert d[i..] == f;
    assert d[i] == f[0] && d[i + 1] == f[1];
    assert PairAt(d, BSM_ID, i);
  }

  lemma PairInTail(d: seq<uint8>, h: seq<uint8>, f: seq<uint8>, k: nat)
    requires |d| > 0 && d[1..] == h + f && |f| > 0 && f[0] == 0 && k < |h|
    ensures k + 2 < |d| && IdAt(d, k + 1) == IdInHeader(h, k)
  {
  }
}
