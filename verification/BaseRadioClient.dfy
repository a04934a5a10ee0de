/** The radio client's inbound side, with the driver's loops, proved against `FrameScan`. */
module BaseRadioClients {
  import opened Bytes
  import opened Numerals
  import opened WaveTable
  import opened FrameScan

  datatype Message = Message(frame: seq<uint8>, id: uint16)

  /** The signals a scan outcome stands for. */
  function Emitted(o: Outcome): seq<Message> {
    if o.Delivered? then [Message(o.frame, o.id)] else []
  }

  /** The tables after a datagram: one too short to scan loads nothing. */
  function TablesAfter(t: Tables, path: string, files: WaveFiles, d: seq<uint8>): Tables {
    if |d| < 4 then t else LazyLoaded(t, path, files)
  }

  datatype Datagram = Datagram(bytes: seq<uint8>, after: Overread)

  /** What a client that loads its table on demand signals for a series of datagrams. An exception that
      leaves a scan ends the io thread, and the process with it. */
  function ReceiveAll(t: Tables, path: string, files: WaveFiles, ds: seq<Datagram>): seq<Message>
    decreases |ds|
  {
    if ds == [] then []
    else
      var u := TablesAfter(t, path, files, ds[0].bytes);
      var o := Scan(u, ds[0].bytes, ds[0].after);
      if o == Threw then [] else Emitted(o) + ReceiveAll(u, path, files, ds[1..])
  }

  /** What the datagrams give one by one under a fixed table. */
  function ScanAll(t: Tables, ds: seq<Datagram>): seq<Message> {
    if ds == [] then []
    else
      var o := Scan(t, ds[0].bytes, ds[0].after);
      if o == Threw then [] else Emitted(o) + ScanAll(t, ds[1..])
  }

  /** Loading on demand is invisible: a fresh client signals, for every series of datagrams, what one
      preloaded with the file would; and without a file it never signals anything. */
  lemma {:induction false} LoadingOnDemandIsInvisible(t: Tables, path: string, files: WaveFiles, ds: seq<Datagram>)
    requires t == EMPTY_TABLES || (path != "" && path in files && t == TablesOf(files[path]))
    ensures path != "" && path in files ==> ReceiveAll(t, path, files, ds) == ScanAll(TablesOf(files[path]), ds)
    ensures path == "" || path !in files ==> ReceiveAll(t, path, files, ds) == []
    decreases |ds|
  {
    if ds == [] {
    } else {
      hide Scan;
      var u := TablesAfter(t, path, files, ds[0].bytes);
      LazyLoadingSettles(t, path, files);
      if path in files && path != "" && files[path] == [] {
        assert TablesOf(files[path]) == EMPTY_TABLES;
      }
      EmptyTablesDeliverNothing(ds[0].bytes, ds[0].after);
      ShortDatagramsGiveNothing(u, ds[0].bytes, ds[0].after);
      if path != "" && path in files {
        ShortDatagramsGiveNothing(TablesOf(files[path]), ds[0].bytes, ds[0].after);
      }
      LoadingOnDemandIsInvisible(u, path, files, ds[1..]);
    }
  }

  lemma {:induction false} EmptyTablesDeliverNothing(s: seq<uint8>, after: Overread)
    ensures Scan(EMPTY_TABLES, s, after) == Nothing
    decreases |s|
  {
    if |s| < 4 {
    } else {
      EmptyTablesDeliverNothing(s[1..], after);
    }
  }

  lemma ShortDatagramsGiveNothing(t: Tables, s: seq<uint8>, after: Overread)
    ensures |s| < 4 ==> Scan(t, s, after) == Nothing
  {
  }

  /** Byte `k` of the memory that starts with the datagram. */
  function MemoryAt(entry: seq<uint8>, after: Overread, k: nat): (b: uint8)
    requires k < |entry| + 8
    ensures b == (entry + after)[k]
  {
    if k < |entry| then entry[k] else after[k - |entry|]
  }

  class BaseRadioClient {
    var dsrcMsgIds: seq<string>
    var psids: seq<string>
    var waveFilePath: string
    var received: seq<Message>  // what onMessageReceived has signalled so far

    constructor ()
      ensures Contents() == EMPTY_TABLES && waveFilePath == "" && received == []
    {
      dsrcMsgIds, psids, waveFilePath, received := [], [], "", [];
    }

    function Contents(): Tables
      reads this
    {
      Tables(dsrcMsgIds, psids)
    }

    ghost predicate Valid()
      reads this
    {
      Contents().Paired()
    }

    method SetWaveFilePath(path: string)
      modifies this`waveFilePath
      ensures waveFilePath == path
    {
      waveFilePath := path;
    }

    method LoadWaveConfigIds(files: WaveFiles, fileName: string)
      requires Valid()
      modifies this`dsrcMsgIds, this`psids
      ensures Valid()
      ensures Contents() == if fileName in files then Loaded(old(Contents()), files[fileName]) else old(Contents())
    {
      if fileName !in files {
        return;
      }
      var doc := files[fileName];
      for i := 0 to |doc|
        invariant dsrcMsgIds == old(dsrcMsgIds) + Ids(doc[..i])
        invariant psids == old(psids) + Psids(doc[..i])
      {
        assert Ids(doc[..i + 1]) == Ids(doc[..i]) + [doc[i].dsrcMsgId];
        assert Psids(doc[..i + 1]) == Psids(doc[..i]) + [doc[i].psid];
        dsrcMsgIds := dsrcMsgIds + [doc[i].dsrcMsgId];
        psids := psids + [doc[i].psid];
      }
      assert doc[..|doc|] == doc;
    }

    method IsValidMsgID(files: WaveFiles, msgId: string) returns (found: bool)
      requires Valid()
      modifies this`dsrcMsgIds, this`psids
      ensures Valid()
      ensures Contents() == LazyLoaded(old(Contents()), waveFilePath, files)
      ensures found <==> msgId in Contents().ids
    {
      if dsrcMsgIds == [] {
        if waveFilePath == "" {
          return false;
        }
        LoadWaveConfigIds(files, waveFilePath);
      }
      for i := 0 to |dsrcMsgIds|
        invariant msgId !in dsrcMsgIds[..i]
      {
        if msgId == dsrcMsgIds[i] {
          return true;
        }
      }
      return false;
    }

    method IsPossiblePSID(files: WaveFiles, msgId: string) returns (r: Lookup)
      requires Valid()
      modifies this`dsrcMsgIds, this`psids
      ensures Valid()
      ensures Contents() == LazyLoaded(old(Contents()), waveFilePath, files)
      ensures r == PsidLookup(psids, msgId)
    {
      hide StoiHex, ToDecimal, PsidLookup;
      PsidLookupOfNone(msgId);
      if psids == [] {
        if waveFilePath == "" {
          return NotListed;
        }
        LoadWaveConfigIds(files, waveFilePath);
      }
      for i := 0 to |psids|
        invariant Valid() && Contents() == LazyLoaded(old(Contents()), waveFilePath, files) && i <= |psids|
        invariant PsidLookup(psids, msgId) == PsidLookup(psids[i..], msgId)
      {
        PsidLookupAt(psids, msgId, i);
        var psidValue := StoiHex(psids[i]);
        if psidValue == None {
          return Throws;
        }
        if msgId == ToDecimal(psidValue.value) {
          return Listed;
        }
      }
      assert psids[|psids|..] == [];
      return NotListed;
    }

    /** `startIndex` must leave room for the frame header in `entry`, as the source's iterators do. */
    method IsValidMsgSize(msgVec: seq<uint8>, startIndex: nat, entry: array<uint8>) returns (ok: bool)
      requires |msgVec| >= 3 ==> startIndex + HeaderSize(msgVec) <= entry.Length
      ensures |msgVec| > 127 ==>
                (ok <==> 256 * (msgVec[2] as int % 128) + msgVec[3] as int == entry.Length - startIndex - 4)
      ensures 3 <= |msgVec| <= 127 ==> (ok <==> msgVec[2] as int == entry.Length - startIndex - 3)
      ensures |msgVec| < 3 ==> !ok
    {
      if |msgVec| > 127 {
        var tmpStartIndex := startIndex + LONG_FRAME;
        var longVec := entry[tmpStartIndex..];
        var msgSize := BigEndian(DropTopBit(msgVec[2]), msgVec[3]);
        return msgSize as int == |longVec|;
      } else if |msgVec| < 128 && |msgVec| >= 3 {
        var tmpStartIndex := startIndex + SHORT_FRAME;
        var shortVec := entry[tmpStartIndex..];
        var msgSize := msgVec[2];
        return msgSize as int == |shortVec|;
      }
      return false;
    }

    /** The result depends on the twelve bytes from `startIndex`, which may run past the datagram. */
    method IsValidMsgAssumingBSMPSID(startIndex: nat, entry: array<uint8>, after: Overread) returns (found: bool)
      requires startIndex + 4 <= entry.Length
      ensures found <==> BsmWindow((entry[startIndex..] + after)[..12])
    {
      ghost var w := entry[startIndex..] + after;
      WindowIsTwelveBytes(w);
      assert forall k: nat :: startIndex <= k < entry.Length + 8 ==>
          MemoryAt(entry[..], after, k) == w[k - startIndex];
      for i := startIndex to startIndex + 6
        invariant forall p, q :: 0 <= p < i - startIndex && p <= q < p + 6 && IdAt(w, p) == WSMP_ELEMENT ==>
            IdAt(w, q) != BSM_ID
      {
        var elementId := BigEndian(MemoryAt(entry[..], after, i), MemoryAt(entry[..], after, i + 1));
        assert elementId == IdAt(w, i - startIndex);
        if elementId == 896 {
          var elementIdIndex := i;
          for j := elementIdIndex to elementIdIndex + 6
            invariant forall q :: i - startIndex <= q < j - startIndex ==> IdAt(w, q) != BSM_ID
          {
            var possibleMsgId := BigEndian(MemoryAt(entry[..], after, j), MemoryAt(entry[..], after, j + 1));
            assert possibleMsgId == IdAt(w, j - startIndex);
            if possibleMsgId == 20 {
              return true;
            }
          }
        }
      }
      return false;
    }

    /** The body of the scan loop at index `i`, up to the signal: `Skip` is its `continue`, `Discard`
        the oversize `break`, `Deliver` the signal and `Throw` an exception of the PSID check. */
    method Examine(files: WaveFiles, i: nat, entry: array<uint8>, after: Overread) returns (verdict: Verdict)
      requires Valid() && i + 3 < entry.Length
      modifies this`dsrcMsgIds, this`psids
      ensures Valid()
      ensures Contents() == LazyLoaded(old(Contents()), waveFilePath, files)
      ensures verdict == Judge(Contents(), entry[i..], after)
    {
      hide PsidLookup, ToDecimal, BsmWindow;
      LazyLoadingSettles(Contents(), waveFilePath, files);
      var msgId := BigEndian(entry[i], entry[i + 1]);
      var recognised := IsValidMsgID(files, ToDecimal(msgId as int));
      if !recognised {
        return Skip;
      }
      if i + SHORT_FRAME >= entry.Length {
        return Discard;
      }
      var startIndex := i;
      var msgVec := entry[startIndex..];
      if |msgVec| > 16383 {
        return Discard;
      }
      var sizeOk := IsValidMsgSize(msgVec, startIndex, entry);
      if !sizeOk {
        return Skip;
      }
      var possiblePsid := IsPossiblePSID(files, ToDecimal(msgId as int));
      if possiblePsid == Throws {
        return Throw;
      }
      var shouldProcess := true;
      if possiblePsid == Listed {
        WindowIsTwelveBytes(msgVec + after);
        var bsm := IsValidMsgAssumingBSMPSID(startIndex, entry, after);
        shouldProcess := !bsm;
      }
      return if shouldProcess then Deliver else Skip;
    }

    /** Scans one datagram. `threw` tells that an exception left the scan. */
    method Process(files: WaveFiles, entry: array<uint8>, after: Overread) returns (threw: bool)
      requires Valid()
      modifies this`dsrcMsgIds, this`psids, this`received
      ensures Valid()
      ensures Contents() == TablesAfter(old(Contents()), waveFilePath, files, entry[..])
      ensures entry.Length < 4 || old(dsrcMsgIds) != [] ==> Contents() == old(Contents())
      ensures entry.Length >= 4 && old(Contents()) == EMPTY_TABLES && waveFilePath != "" && waveFilePath in files ==>
                Contents() == TablesOf(files[waveFilePath])
      ensures received == old(received) + Emitted(Scan(Contents(), entry[..], after))
      ensures threw <==> Scan(Contents(), entry[..], after) == Threw
    {
      if entry.Length == 0 || entry.Length < 3 {
        return false;
      }
      ghost var t := TablesAfter(Contents(), waveFilePath, files, entry[..]);
      LazyLoadingSettles(Contents(), waveFilePath, files);
      assert entry[0..] == entry[..];
      for i := 0 to entry.Length - 3
        invariant Valid() && received == old(received)
        invariant Contents() == if i == 0 then old(Contents()) else t
        invariant Scan(t, entry[..], after) == Scan(t, entry[i..], after)
      {
        assert entry[i..][1..] == entry[i + 1..];
        var verdict := Examine(files, i, entry, after);
        match verdict {
          case Skip =>
          case Discard =>
            break;
          case Throw =>
            return true;
          case Deliver =>
            var msgVec := entry[i..];
            received := received + [Message(msgVec, BigEndian(msgVec[0], msgVec[1]))];
            break;
        }
      }
      return false;
    }

    /** The PSID beside a message ID; this lookup never loads the file. */
    method PsidForDsrcMsgId(dsrcMsgId: string) returns (psid: string)
      requires Valid()
      ensures psid == PsidFor(Contents(), dsrcMsgId)
    {
      for i := 0 to |dsrcMsgIds|
        invariant PsidFor(Contents(), dsrcMsgId) == PsidFor(Tables(dsrcMsgIds[i..], psids[i..]), dsrcMsgId)
      {
        if dsrcMsgIds[i] == dsrcMsgId {
          return psids[i];
        }
        assert dsrcMsgIds[i..][1..] == dsrcMsgIds[i + 1..] && psids[i..][1..] == psids[i + 1..];
      }
      return "";
    }
  }
}
