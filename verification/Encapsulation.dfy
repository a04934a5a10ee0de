/** A BSM behind its WSMP and IEEE 1609.2 header bytes. */
module Encapsulation {
  import opened Bytes
  import opened Numerals
  import opened WaveTable
  import opened FrameScan

  /** One or two WSM length bytes; of two, the first is never zero. */
  predicate WsmLength(w: seq<uint8>) {
    |w| == 1 || (|w| == 2 && w[0] != 0)
  }

  /** The canonical length of sections 6.3.2 to 6.3.4 of IEEE 1609.2: one byte below 128, then 0x81
      with one byte, then 0x82 with two. */
  function CanonicalLength(n: nat): seq<uint8>
    requires n < 0x1_0000
  {
    if n < 128 then [n as uint8]
    else if n < 256 then [0x81, n as uint8]
    else [0x82, (n / 256) as uint8, (n % 256) as uint8]
  }

  /** A reader of such a length and of what follows it. */
  function ReadLength(s: seq<uint8>): Option<(nat, seq<uint8>)> {
    if s == [] then None
    else if s[0] < 128 then Some((s[0] as nat, s[1..]))
    else if s[0] == 0x81 && |s| >= 2 then Some((s[1] as nat, s[2..]))
    else if s[0] == 0x82 && |s| >= 3 then Some((256 * (s[1] as nat) + s[2] as nat, s[3..]))
    else None
  }

  lemma CanonicalLengthReads(n: nat, rest: seq<uint8>)
    requires n < 0x1_0000
    ensures ReadLength(CanonicalLength(n) + rest) == Some((n, rest))
  {
    var s := CanonicalLength(n) + rest;
    assert s[|CanonicalLength(n)|..] == rest;
  }

  function Encapsulated(w: seq<uint8>, f: seq<uint8>): seq<uint8>
    requires |f| < 0x1_0000
  {
    [0x00, 0x20] + w + [0x03, 0x80] + CanonicalLength(|f|) + f
  }

  /** A table under which header bytes cannot pass for a message ID. */
  ghost predicate SmallIds(t: Tables) {
    forall id: uint16 :: Recognised(t, id) ==> 4 <= id <= 255
  }

  ghost predicate BsmFrame(f: seq<uint8>) {
    |f| >= 4 && f[0] == 0 && f[1] == 20 && Sized(f)
  }

  /** The ID that starts at `h[k]` when a zero byte follows `h`. */
  function IdInHeader(h: seq<uint8>, k: nat): uint16
    requires k < |h|
  {
    BigEndian(h[k], if k + 1 < |h| then h[k + 1] else 0)
  }

  ghost predicate NoSmallId(h: seq<uint8>) {
    forall k: nat :: k < |h| ==> !(4 <= IdInHeader(h, k) <= 255)
  }

  /** Bytes among which no small ID starts are walked over. */
  lemma {:induction false} HeaderIsWalkedOver(t: Tables, h: seq<uint8>, f: seq<uint8>, after: Overread)
    requires SmallIds(t) && NoSmallId(h) && |f| >= 3 && f[0] == 0
    ensures Scan(t, h + f, after) == Scan(t, f, after)
  {
    hide Scan, Recognised;
    if h == [] {
      assert h + f == f;
    } else {
      var d := h + f;
      assert d[1] == if 1 < |h| then h[1] else 0;
      assert IdAt(d, 0) == IdInHeader(h, 0);
      assert d[1..] == h[1..] + f;
      assert forall k: nat :: k < |h[1..]| ==> IdInHeader(h[1..], k) == IdInHeader(h, k + 1);
      UnrecognisedByteIsSkipped(t, d, after);
      HeaderIsWalkedOver(t, h[1..], f, after);
    }
  }

  function HeaderTail(w: seq<uint8>, n: nat): seq<uint8>
    requires n < 0x1_0000
  {
    [0x20] + w + [0x03, 0x80] + CanonicalLength(n)
  }

  lemma HeaderTailHasNoSmallId(w: seq<uint8>, n: nat)
    requires WsmLength(w) && 4 <= n < 0x1_0000
    ensures NoSmallId(HeaderTail(w, n))
  {
  }

  /** The header announces a BSM: its element ID and the BSM's message ID lie in the window. */
  lemma HeaderIsSeenThrough(t: Tables, w: seq<uint8>, f: seq<uint8>, after: Overread)
    requires WsmLength(w) && BsmFrame(f) && |Encapsulated(w, f)| <= MAX_FRAME
    requires PsidCheck(t, BSM_PSID) == Listed
    ensures Judge(t, Encapsulated(w, f), after) == Skip
  {
    var d := Encapsulated(w, f);
    var p := 2 + |w|;
    var q := p + 2 + |CanonicalLength(|f|)|;
    assert d[0] == 0 && d[1] == 0x20 && IdAt(d, 0) == BSM_PSID;
    assert d[p] == 3 && d[p + 1] == 0x80 && d[q] == f[0] && d[q + 1] == f[1];
    assert IdAt(d + after, p) == WSMP_ELEMENT && IdAt(d + after, q) == BSM_ID;
  }

  lemma BareBsmIsDelivered(t: Tables, f: seq<uint8>, after: Overread)
    requires Recognised(t, BSM_ID) && PsidCheck(t, BSM_ID) == NotListed
    requires BsmFrame(f) && |f| <= MAX_FRAME
    ensures Scan(t, f, after) == Delivered(f, BSM_ID)
  {
  }

  lemma RecoveredWhenNotOversize(t: Tables, w: seq<uint8>, f: seq<uint8>, after: Overread)
    requires SmallIds(t) && Recognised(t, BSM_ID)
    requires PsidCheck(t, BSM_PSID) == Listed && PsidCheck(t, BSM_ID) == NotListed
    requires WsmLength(w) && BsmFrame(f) && |Encapsulated(w, f)| <= MAX_FRAME
    ensures Scan(t, Encapsulated(w, f), after) == Delivered(f, BSM_ID)
  {
    HeaderIsSeenThrough(t, w, f, after);
    SkippedByte(t, Encapsulated(w, f), after);
    TailOfEncapsulated(w, f);
    HeaderTailHasNoSmallId(w, |f|);
    HeaderIsWalkedOver(t, HeaderTail(w, |f|), f, after);
    BareBsmIsDelivered(t, f, after);
  }

  lemma SkippedByte(t: Tables, d: seq<uint8>, after: Overread)
    requires |d| >= 4 && Judge(t, d, after) == Skip
    ensures Scan(t, d, after) == Scan(t, d[1..], after)
  {
  }

  lemma TailOfEncapsulated(w: seq<uint8>, f: seq<uint8>)
    requires |f| < 0x1_0000
    ensures Encapsulated(w, f)[1..] == HeaderTail(w, |f|) + f
  {
  }

  /** A well-formed BSM is recovered from behind its headers, whatever the WSM length bytes say,
      exactly when the whole datagram is not oversize. */
  lemma EncapsulatedBsmIsRecovered(t: Tables, w: seq<uint8>, f: seq<uint8>, after: Overread)
    requires SmallIds(t) && Recognised(t, BSM_ID) && Recognised(t, BSM_PSID)
    requires PsidCheck(t, BSM_PSID) == Listed && PsidCheck(t, BSM_ID) == NotListed
    requires WsmLength(w) && |f| < 0x1_0000 && BsmFrame(f)
    ensures Scan(t, Encapsulated(w, f), after) == Delivered(f, BSM_ID) <==> |Encapsulated(w, f)| <= MAX_FRAME
  {
    if |Encapsulated(w, f)| <= MAX_FRAME {
      RecoveredWhenNotOversize(t, w, f, after);
    } else {
      OversizeIsDiscarded(t, w, f, after);
    }
  }

  lemma OversizeIsDiscarded(t: Tables, w: seq<uint8>, f: seq<uint8>, after: Overread)
    requires |f| < 0x1_0000 && |Encapsulated(w, f)| > MAX_FRAME && Recognised(t, BSM_PSID)
    ensures Scan(t, Encapsulated(w, f), after) == Discarded
  {
    hide Recognised, CanonicalLength, Sized;
    var d := Encapsulated(w, f);
    assert d[0] == 0 && d[1] == 0x20 && IdAt(d, 0) == BSM_PSID;
  }
}
