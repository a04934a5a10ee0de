/** The inbound scanner as a specification. Every per-index decision of the driver looks only at the
    bytes from that index on, so the scan is a recursion over suffixes of the datagram. */
module FrameScan {
  import opened Bytes
  import opened Numerals
  import opened WaveTable

  const MAX_FRAME := 16383
  const SHORT_FRAME := 3
  const LONG_FRAME := 4
  const BSM_ID: uint16 := 20
  const BSM_PSID: uint16 := 32
  const WSMP_ELEMENT: uint16 := 896

  /** The eight bytes that happen to follow the datagram in memory: near the end of a datagram the
      PSID window check reads into them. Every theorem holds for all of their values. */
  type Overread = s: seq<uint8> | |s| == 8 witness [0, 0, 0, 0, 0, 0, 0, 0]

  datatype Outcome =
    | Nothing                                    // walked off the end
    | Discarded                                  // gave up: too many bytes for one length field
    | Delivered(frame: seq<uint8>, id: uint16)   // one onMessageReceived signal
    | Threw                                      // a PSID in the table is not a hexadecimal int

  datatype Verdict = Skip | Discard | Deliver | Throw

  function IdAt(s: seq<uint8>, k: nat): uint16
    requires k + 1 < |s|
  {
    BigEndian(s[k], s[k + 1])
  }

  /** One length byte is read when the whole frame has fewer than 128 bytes, and two otherwise. */
  function HeaderSize(s: seq<uint8>): nat {
    if |s| > 127 then LONG_FRAME else SHORT_FRAME
  }

  function DeclaredLength(s: seq<uint8>): nat
    requires |s| >= 3
  {
    if |s| > 127 then BigEndian(DropTopBit(s[2]), s[3]) as nat else s[2] as nat
  }

  /** The length field of a frame agrees with the bytes that follow it. */
  predicate LengthMatches(s: seq<uint8>)
    requires |s| >= 4
  {
    DeclaredLength(s) == |s| - HeaderSize(s)
  }

  /** What the nested window loops look for from the start of `w`. */
  predicate BsmWindow(w: seq<uint8>)
    requires |w| >= 12
  {
    exists p, q :: 0 <= p < 6 && p <= q < p + 6 && IdAt(w, p) == WSMP_ELEMENT && IdAt(w, q) == BSM_ID
  }

  function Judge(t: Tables, s: seq<uint8>, after: Overread): Verdict
    requires |s| >= 4
  {
    if !Recognised(t, IdAt(s, 0)) then Skip
    else if |s| > MAX_FRAME then Discard
    else if !LengthMatches(s) then Skip
    else
      match PsidCheck(t, IdAt(s, 0))
      case Throws => Throw
      case NotListed => Deliver
      case Listed => if BsmWindow(s + after) then Skip else Deliver
  }

  function Scan(t: Tables, s: seq<uint8>, after: Overread): Outcome
    decreases |s|
  {
    if |s| < 4 then Nothing
    else
      match Judge(t, s, after)
      case Skip => Scan(t, s[1..], after)
      case Discard => Discarded
      case Deliver => Delivered(s, IdAt(s, 0))
      case Throw => Threw
  }

  // ---------- the scan, stated without recursion ----------

  /** The length that `s` states is right, in arithmetic: below 128 bytes the third byte is the size less
      three; from there on bytes three and four are the size less four, the flag bit aside. */
  predicate Sized(s: seq<uint8>)
    requires |s| >= 4
  {
    if |s| < 128 then s[2] as int == |s| - 3
    else s[2] as int % 128 == (|s| - 4) / 256 && s[3] as int == (|s| - 4) % 256
  }

  lemma LengthMatchesExactly(s: seq<uint8>)
    requires |s| >= 4
    ensures LengthMatches(s) <==> Sized(s)
  {
    SplitNumber(s[2] as int % 128, s[3] as int, |s| - 4);
  }

  lemma SplitNumber(hi: nat, lo: nat, n: nat)
    requires lo < 256
    ensures 256 * hi + lo == n <==> hi == n / 256 && lo == n % 256
  {
  }

  /** Index `k` of datagram `d` holds a recognised ID. */
  predicate Candidate(t: Tables, d: seq<uint8>, k: nat) {
    k + 3 < |d| && Recognised(t, IdAt(d, k))
  }

  /** A candidate whose length field fits. */
  predicate Fits(t: Tables, d: seq<uint8>, k: nat) {
    Candidate(t, d, k) && Sized(d[k..])
  }

  /** A fitting candidate that is not a WSMP header announcing a BSM. */
  predicate Framed(t: Tables, d: seq<uint8>, after: Overread, k: nat) {
    Fits(t, d, k) && (PsidCheck(t, IdAt(d, k)) == Listed ==> !BsmWindow(d[k..] + after))
  }

  /** `k` is the least framed index, and no candidate up to it is oversize or breaks the PSID check. */
  ghost predicate FirstFrame(t: Tables, d: seq<uint8>, after: Overread, k: nat) {
    && Framed(t, d, after, k)
    && (forall j: nat :: j < k ==> !Framed(t, d, after, j))
    && (forall j: nat :: j <= k && Candidate(t, d, j) ==> |d| - j <= MAX_FRAME)
    && (forall j: nat :: j <= k && Fits(t, d, j) ==> PsidCheck(t, IdAt(d, j)) != Throws)
  }

  lemma JudgeAt(t: Tables, d: seq<uint8>, after: Overread, k: nat)
    requires k + 3 < |d|
    ensures IdAt(d[k..], 0) == IdAt(d, k)
    ensures Judge(t, d[k..], after) == Deliver <==>
            Framed(t, d, after, k) && |d| - k <= MAX_FRAME && PsidCheck(t, IdAt(d, k)) != Throws
    ensures Judge(t, d[k..], after) == Skip <==>
            || !Candidate(t, d, k)
            || (|d| - k <= MAX_FRAME && !Framed(t, d, after, k) &&
                (Fits(t, d, k) ==> PsidCheck(t, IdAt(d, k)) != Throws))
    ensures Judge(t, d[k..], after) == Discard <==> Candidate(t, d, k) && |d| - k > MAX_FRAME
  {
    LengthMatchesExactly(d[k..]);
    hide LengthMatches, Sized, BsmWindow, Recognised, PsidCheck;
  }

  /** The scan stops at the first index whose verdict is not `Skip`. */
  lemma {:induction false} ScanFrom(t: Tables, d: seq<uint8>, after: Overread, i: nat) returns (k: nat)
    requires i <= |d|
    ensures i <= k
    ensures forall j: nat :: i <= j < k && j + 3 < |d| ==> Judge(t, d[j..], after) == Skip
    ensures k + 3 < |d| ==>
              && Judge(t, d[k..], after) != Skip
              && Scan(t, d[i..], after) ==
                 match Judge(t, d[k..], after)
                 case Discard => Discarded
                 case Deliver => Delivered(d[k..], IdAt(d, k))
                 case _ => Threw
    ensures k + 3 >= |d| ==> Scan(t, d[i..], after) == Nothing
    decreases |d| - i
  {
    k := i;
    if i + 3 >= |d| {
    } else {
      JudgeAt(t, d, after, i);
      if Judge(t, d[i..], after) == Skip {
        assert d[i..][1..] == d[i + 1..];
        k := ScanFrom(t, d, after, i + 1);
      }
    }
  }

  lemma FirstFrameIsDelivered(t: Tables, d: seq<uint8>, after: Overread, k: nat)
    requires FirstFrame(t, d, after, k)
    ensures Scan(t, d, after) == Delivered(d[k..], IdAt(d, k))
  {
    hide Judge, Scan, Sized, Recognised, BsmWindow, PsidCheck, LengthMatches;
    var stop := ScanFrom(t, d, after, 0);
    assert d[0..] == d;
    JudgeAt(t, d, after, k);
    if stop < k {
      JudgeAt(t, d, after, stop);
      assert false;
    }
  }

  lemma DeliveredIsFirstFrame(t: Tables, d: seq<uint8>, after: Overread) returns (k: nat)
    requires Scan(t, d, after).Delivered?
    ensures FirstFrame(t, d, after, k) && k + 3 < |d|
    ensures Scan(t, d, after) == Delivered(d[k..], IdAt(d, k))
  {
    k := ScanFrom(t, d, after, 0);
    assert d[0..] == d;
    forall j: nat | j <= k
      ensures Candidate(t, d, j) ==> |d| - j <= MAX_FRAME
      ensures Fits(t, d, j) ==> PsidCheck(t, IdAt(d, j)) != Throws
      ensures Framed(t, d, after, j) <==> j == k
    {
      JudgeAt(t, d, after, j);
    }
  }

  /** A frame is delivered exactly when it is the suffix at the first frame index, with the
      big-endian ID found there. */
  lemma DeliveredExactly(t: Tables, d: seq<uint8>, after: Overread, f: seq<uint8>, id: uint16)
    ensures Scan(t, d, after) == Delivered(f, id) <==>
            exists k: nat :: FirstFrame(t, d, after, k) && f == d[k..] && id == IdAt(d, k)
  {
    if Scan(t, d, after) == Delivered(f, id) {
      var k := DeliveredIsFirstFrame(t, d, after);
    }
    forall k: nat | FirstFrame(t, d, after, k) ensures Scan(t, d, after) == Delivered(d[k..], IdAt(d, k)) {
      FirstFrameIsDelivered(t, d, after, k);
    }
  }

  ghost predicate FirstCandidate(t: Tables, d: seq<uint8>, k: nat) {
    Candidate(t, d, k) && forall j: nat :: j < k ==> !Candidate(t, d, j)
  }

  /** A datagram is given up for its size exactly when its first recognised ID is more than 16383
      bytes from the end; a later recognised ID never causes it. */
  lemma DiscardedExactly(t: Tables, d: seq<uint8>, after: Overread)
    ensures Scan(t, d, after) == Discarded <==>
            exists k: nat :: FirstCandidate(t, d, k) && |d| - k > MAX_FRAME
  {
    var stop := ScanFrom(t, d, after, 0);
    assert d[0..] == d;
    if Scan(t, d, after) == Discarded {
      forall j: nat | j <= stop ensures Candidate(t, d, j) <==> j == stop {
        JudgeAt(t, d, after, j);
      }
      assert FirstCandidate(t, d, stop);
    }
    if stop + 3 < |d| {
      JudgeAt(t, d, after, stop);
    }
    forall k: nat | FirstCandidate(t, d, k) && |d| - k > MAX_FRAME ensures stop == k {
      JudgeAt(t, d, after, k);
    }
  }

  /** Candidate `k` fits, is within the limit, and a PSID check of its ID throws. */
  predicate Breaks(t: Tables, d: seq<uint8>, k: nat) {
    Fits(t, d, k) && |d| - k <= MAX_FRAME && PsidCheck(t, IdAt(d, k)) == Throws
  }

  /** A scan is left by an exception exactly when a fitting candidate breaks the PSID check and every
      earlier candidate is within the limit and not framed. */
  lemma ThrewExactly(t: Tables, d: seq<uint8>, after: Overread)
    ensures Scan(t, d, after) == Threw <==>
            exists k: nat :: Breaks(t, d, k) &&
              forall j: nat :: j < k ==> !Framed(t, d, after, j) && (Candidate(t, d, j) ==> |d| - j <= MAX_FRAME)
  {
    var stop := ScanFrom(t, d, after, 0);
    assert d[0..] == d;
    forall j: nat | j + 3 < |d|
      ensures Judge(t, d[j..], after) == Skip <==>
              !Framed(t, d, after, j) && (Candidate(t, d, j) ==> |d| - j <= MAX_FRAME)
      ensures Judge(t, d[j..], after) == Throw <==> Breaks(t, d, j)
    {
      JudgeAt(t, d, after, j);
    }
    hide Judge, Framed, Fits, Candidate, Recognised;
    if Scan(t, d, after) == Threw {
      assert Breaks(t, d, stop);
    }
    assert forall k: nat :: Breaks(t, d, k) ==> k + 3 < |d| by { BreaksInside(t, d); }
  }

  lemma BreaksInside(t: Tables, d: seq<uint8>)
    ensures forall k: nat :: Candidate(t, d, k) ==> k + 3 < |d|
    ensures forall k: nat :: Breaks(t, d, k) ==> k + 3 < |d|
  {
  }

  lemma UnrecognisedByteIsSkipped(t: Tables, d: seq<uint8>, after: Overread)
    requires |d| > 0 && (|d| >= 4 ==> !Recognised(t, IdAt(d, 0)))
    ensures Scan(t, d, after) == Scan(t, d[1..], after)
  {
  }

  /** Bytes that start no recognised ID can be put before a datagram without any effect; when every
      recognised ID is below 256 that is any run of nonzero bytes. */
  lemma {:induction false} PrefixTransparency(t: Tables, p: seq<uint8>, s: seq<uint8>, after: Overread)
    requires forall id: uint16 :: Recognised(t, id) ==> id < 256
    requires forall i :: 0 <= i < |p| ==> p[i] != 0
    ensures Scan(t, p + s, after) == Scan(t, s, after)
  {
    hide Scan, Recognised;
    if p == [] {
      assert p + s == s;
    } else {
      PrefixTransparency(t, p[1..], s, after);
      assert |p + s| >= 4 ==> IdAt(p + s, 0) >= 256;
      UnrecognisedByteIsSkipped(t, p + s, after);
      assert (p + s)[1..] == p[1..] + s;
    }
  }

  /** Tables that no lookup tells apart give the same scan. */
  lemma {:induction false} ScanOfSameLookups(t: Tables, u: Tables, s: seq<uint8>, after: Overread)
    requires SameLookups(t, u)
    ensures Scan(t, s, after) == Scan(u, s, after)
    decreases |s|
  {
    if |s| < 4 {
    } else {
      assert Judge(t, s, after) == Judge(u, s, after) by {
        assert Recognised(t, IdAt(s, 0)) == Recognised(u, IdAt(s, 0));
      }
      ScanOfSameLookups(t, u, s[1..], after);
    }
  }

  /** Loading a file again and again never changes a scan. */
  lemma ReloadingKeepsScans(doc: seq<WaveEntry>, n: nat, s: seq<uint8>, after: Overread)
    requires n > 0
    ensures Scan(LoadedTimes(doc, n), s, after) == Scan(TablesOf(doc), s, after)
  {
    ReloadingIsInvisible(doc, n);
    ScanOfSameLookups(LoadedTimes(doc, n), TablesOf(doc), s, after);
  }

  // ---------- the length field ----------

  /** The one-byte reading. */
  lemma OneByteLengthExactly(s: seq<uint8>)
    requires 4 <= |s| <= 127
    ensures LengthMatches(s) <==> s[2] as int == |s| - 3
  {
  }

  /** Whatever is delivered carries its ID in its first two bytes and its own size behind them. */
  lemma DeliveredFramesStateTheirSize(t: Tables, d: seq<uint8>, after: Overread)
    requires Scan(t, d, after).Delivered?
    ensures var Delivered(f, id) := Scan(t, d, after);
            && 4 <= |f| <= 16383 && |f| <= |d| && f == d[|d| - |f|..]
            && id as int == 256 * (f[0] as int) + f[1] as int
            && (|f| <= 127 ==> f[2] as int == |f| - 3)
            && (|f| >= 128 ==> 256 * (f[2] as int % 128) + f[3] as int == |f| - 4)
  {
    var k := DeliveredIsFirstFrame(t, d, after);
    var s := d[k..];
    assert Candidate(t, d, k) && Sized(s) && |s| <= MAX_FRAME && IdAt(s, 0) == IdAt(d, k);
    hide Scan, FirstFrame, Framed;
    SplitNumber(s[2] as int % 128, s[3] as int, |s| - 4);
  }

  /** So a recognised ID at the front of a short datagram is answered with the datagram itself only if its
      third byte is the size less three. */
  lemma ShortDatagramExactly(t: Tables, d: seq<uint8>, after: Overread)
    requires 4 <= |d| <= 127 && Recognised(t, IdAt(d, 0)) && PsidCheck(t, IdAt(d, 0)) == NotListed
    ensures Scan(t, d, after) == Delivered(d, IdAt(d, 0)) <==> d[2] as int == |d| - 3
  {
    ScanIsNeverLonger(t, d[1..], after);
  }

  /** The two-byte reading, byte by byte: the flag bit is ignored. */
  lemma TwoByteLengthExactly(s: seq<uint8>)
    requires 128 <= |s| <= MAX_FRAME
    ensures LengthMatches(s) <==>
            && s[3] as int == (|s| - 4) % 256
            && (s[2] as int == (|s| - 4) / 256 || s[2] as int == (|s| - 4) / 256 + 128)
  {
    MaskedLength(s[2] as int, s[3] as int, |s| - 4);
  }

  lemma MaskedLength(hi: nat, lo: nat, n: nat)
    requires hi < 256 && lo < 256 && n <= MAX_FRAME
    ensures 256 * (hi % 128) + lo == n <==> lo == n % 256 && (hi == n / 256 || hi == n / 256 + 128)
  {
  }

  /** The length determinant of section 11.9.3 of ITU-T X.691 for `n` below 16384. */
  function LengthDeterminant(n: nat): seq<uint8>
    requires n <= MAX_FRAME
  {
    if n < 128 then [n as uint8] else [(128 + n / 256) as uint8, (n % 256) as uint8]
  }

  /** A MessageFrame as UPER encodes it. */
  function Frame(id: uint16, payload: seq<uint8>): seq<uint8>
    requires |payload| <= MAX_FRAME
  {
    [(id / 256) as uint8, (id % 256) as uint8] + LengthDeterminant(|payload|) + payload
  }

  /** A canonical frame with a recognised ID arrives whole exactly when its payload has 1 to 124 or 128
      to 16379 bytes and its ID, if it is a listed PSID, announces no BSM in the window and breaks no PSID
      check. The scanner chooses the field width by the size of the frame, the encoding by the payload. */
  lemma CanonicalFrameExactly(t: Tables, id: uint16, payload: seq<uint8>, after: Overread)
    requires |payload| <= MAX_FRAME && Recognised(t, id)
    ensures Scan(t, Frame(id, payload), after) == Delivered(Frame(id, payload), id) <==>
            && (1 <= |payload| <= 124 || 128 <= |payload| <= 16379)
            && PsidCheck(t, id) != Throws
            && (PsidCheck(t, id) == Listed ==> !BsmWindow(Frame(id, payload) + after))
  {
    var f := Frame(id, payload);
    if payload != [] {
      FrameHeader(id, payload);
      ScanIsNeverLonger(t, f[1..], after);
    }
  }

  lemma FrameHeader(id: uint16, payload: seq<uint8>)
    requires 0 < |payload| <= MAX_FRAME
    ensures |Frame(id, payload)| >= 4 && IdAt(Frame(id, payload), 0) == id
    ensures |Frame(id, payload)| <= MAX_FRAME ==>
              (LengthMatches(Frame(id, payload)) <==> |payload| <= 124 || 128 <= |payload|)
  {
    var f := Frame(id, payload);
    assert f[0] == (id / 256) as uint8 && f[1] == (id % 256) as uint8;
    if |payload| < 128 {
      assert f[2] as int == |payload|;
      assert |f| > 127 ==> 256 * (f[2] as int % 128) > |f|;
    } else if |f| <= MAX_FRAME {
      assert f[2] as int == 128 + |payload| / 256 && f[3] as int == |payload| % 256;
      TwoByteLengthExactly(f);
    }
  }

  lemma {:induction false} ScanIsNeverLonger(t: Tables, s: seq<uint8>, after: Overread)
    ensures Scan(t, s, after).Delivered? ==> |Scan(t, s, after).frame| <= |s|
    decreases |s|
  {
    if |s| < 4 {
    } else {
      ScanIsNeverLonger(t, s[1..], after);
    }
  }

  // ---------- the PSID window ----------

  /** The second loop cannot match before the element's own two bytes are behind it. */
  lemma WindowOffsets(w: seq<uint8>)
    requires |w| >= 12
    ensures BsmWindow(w) <==>
            exists p, q :: 0 <= p <= 5 && p + 2 <= q <= p + 5 && IdAt(w, p) == WSMP_ELEMENT && IdAt(w, q) == BSM_ID
  {
  }

  /** The check depends on twelve bytes. */
  lemma WindowIsTwelveBytes(w: seq<uint8>)
    requires |w| >= 12
    ensures BsmWindow(w) <==> BsmWindow(w[..12])
  {
    assert forall k: nat :: k < 11 ==> IdAt(w[..12], k) == IdAt(w, k);
  }

  /** With twelve bytes left it does not look past the datagram. */
  lemma WindowInsideDatagram(s: seq<uint8>, a: Overread)
    requires |s| >= 12
    ensures BsmWindow(s + a) <==> BsmWindow(s)
  {
    WindowIsTwelveBytes(s + a);
    WindowIsTwelveBytes(s);
    assert (s + a)[..12] == s[..12];
  }

  /** When every fitting candidate that is a listed PSID has twelve bytes left, the scan does not depend
      on what follows the datagram in memory. */
  lemma {:induction false} ScanInsideDatagram(t: Tables, d: seq<uint8>, a: Overread, b: Overread)
    requires forall k: nat :: Fits(t, d, k) && PsidCheck(t, IdAt(d, k)) == Listed ==> |d| - k >= 12
    ensures Scan(t, d, a) == Scan(t, d, b)
    decreases |d|
  {
    if |d| < 4 {
    } else {
      JudgeInsideDatagram(t, d, a, b);
      forall k: nat | Fits(t, d[1..], k) && PsidCheck(t, IdAt(d[1..], k)) == Listed ensures |d[1..]| - k >= 12 {
        assert IdAt(d[1..], k) == IdAt(d, k + 1) && d[1..][k..] == d[k + 1..];
        assert Fits(t, d, k + 1);
      }
      hide Judge, Fits, PsidCheck;
      ScanInsideDatagram(t, d[1..], a, b);
    }
  }

  lemma JudgeInsideDatagram(t: Tables, d: seq<uint8>, a: Overread, b: Overread)
    requires |d| >= 4 && (Fits(t, d, 0) && PsidCheck(t, IdAt(d, 0)) == Listed ==> |d| >= 12)
    ensures Judge(t, d, a) == Judge(t, d, b)
  {
    assert d[0..] == d;
    LengthMatchesExactly(d);
    hide BsmWindow, Recognised, PsidCheck, LengthMatches, Sized;
    if |d| >= 12 {
      WindowInsideDatagram(d, a);
      WindowInsideDatagram(d, b);
    }
  }
}
