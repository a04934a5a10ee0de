/** The two copies of the wave configuration: the radio client's parallel ID and PSID lists, and the
    node's list of whole entries. A file that opens, parses and fits the schema is a sequence of
    entries; `WaveFiles` maps each such path to its entries, so a path outside it is a failed load. */
module WaveTable {
  import opened Bytes
  import opened Numerals

  datatype WaveEntry = WaveEntry(name: string, psid: string, dsrcMsgId: string,
                                 channel: string, priority: string)

  type WaveFiles = map<string, seq<WaveEntry>>

  datatype Tables = Tables(ids: seq<string>, psids: seq<string>) {
    predicate Paired() {
      |ids| == |psids|
    }
  }

  const EMPTY_TABLES := Tables([], [])

  /** What a PSID check does with a message ID: it may also leave by an exception of `std::stoi`. */
  datatype Lookup = Listed | NotListed | Throws

  function Ids(doc: seq<WaveEntry>): seq<string> {
    seq(|doc|, i requires 0 <= i < |doc| => doc[i].dsrcMsgId)
  }

  function Psids(doc: seq<WaveEntry>): seq<string> {
    seq(|doc|, i requires 0 <= i < |doc| => doc[i].psid)
  }

  function TablesOf(doc: seq<WaveEntry>): Tables {
    Tables(Ids(doc), Psids(doc))
  }

  /** Loading appends; it never clears. */
  function Loaded(t: Tables, doc: seq<WaveEntry>): Tables {
    Tables(t.ids + Ids(doc), t.psids + Psids(doc))
  }

  /** The tables after a check that loads the file when it finds them empty. */
  function LazyLoaded(t: Tables, path: string, files: WaveFiles): Tables {
    if t.ids == [] && path != "" && path in files then Loaded(t, files[path]) else t
  }

  function PsidLookup(psids: seq<string>, msgId: string): Lookup {
    if psids == [] then NotListed
    else
      match StoiHex(psids[0])
      case None => Throws
      case Some(v) => if ToDecimal(v) == msgId then Listed else PsidLookup(psids[1..], msgId)
  }

  /** The PSID beside the first row with this ID, or the empty string. */
  function PsidFor(t: Tables, msgId: string): string
    requires t.Paired()
    decreases |t.ids|
  {
    if t.ids == [] then ""
    else if t.ids[0] == msgId then t.psids[0]
    else PsidFor(Tables(t.ids[1..], t.psids[1..]), msgId)
  }

  predicate Recognised(t: Tables, id: uint16) {
    ToDecimal(id as int) in t.ids
  }

  function PsidCheck(t: Tables, id: uint16): Lookup {
    PsidLookup(t.psids, ToDecimal(id as int))
  }

  // ---------- what the lookups find ----------

  /** Row `k` of the PSID column reads as this ID. */
  predicate PsidRow(psids: seq<string>, msgId: string, k: nat) {
    k < |psids| && StoiHex(psids[k]).Some? && ToDecimal(StoiHex(psids[k]).value) == msgId
  }

  lemma PsidLookupAt(psids: seq<string>, msgId: string, i: nat)
    requires i < |psids|
    ensures PsidLookup(psids[i..], msgId) ==
            match StoiHex(psids[i])
            case None => Throws
            case Some(v) => if ToDecimal(v) == msgId then Listed else PsidLookup(psids[i + 1..], msgId)
  {
    hide StoiHex, ToDecimal;
    assert psids[i..][1..] == psids[i + 1..];
  }

  lemma PsidLookupOfNone(msgId: string)
    ensures PsidLookup([], msgId) == NotListed
  {
  }

  /** The check stops at the first row that matches or does not read as a number. */
  lemma {:induction false} PsidLookupStops(psids: seq<string>, msgId: string) returns (k: nat)
    ensures k <= |psids|
    ensures forall j :: 0 <= j < k ==> StoiHex(psids[j]).Some? && !PsidRow(psids, msgId, j)
    ensures match PsidLookup(psids, msgId)
            case Listed => PsidRow(psids, msgId, k)
            case Throws => k < |psids| && StoiHex(psids[k]).None?
            case NotListed => k == |psids|
  {
    hide StoiHex, ToDecimal;
    k := 0;
    if psids == [] || StoiHex(psids[0]).None? || PsidRow(psids, msgId, 0) {
    } else {
      k := PsidLookupStops(psids[1..], msgId);
      forall j | 0 < j < k + 1 ensures StoiHex(psids[j]).Some? && !PsidRow(psids, msgId, j) {
        assert psids[j] == psids[1..][j - 1];
      }
      k := k + 1;
    }
  }

  /** Listed means: some row reads as the ID and every row before it reads as a number. Not listed
      means: all rows read as numbers and none as the ID. */
  lemma PsidLookupExactly(psids: seq<string>, msgId: string)
    ensures PsidLookup(psids, msgId) == Listed <==>
            exists k: nat :: PsidRow(psids, msgId, k) && forall j: nat :: j < k ==> StoiHex(psids[j]).Some?
    ensures PsidLookup(psids, msgId) == NotListed <==>
            forall k: nat :: k < |psids| ==> StoiHex(psids[k]).Some? && !PsidRow(psids, msgId, k)
  {
    hide StoiHex, ToDecimal, PsidLookup;
    var k := PsidLookupStops(psids, msgId);
    forall i: nat | PsidRow(psids, msgId, i) ensures k <= i {
    }
  }

  /** When row `k` reads as `ns[k]`, for all rows, the check finds exactly those numbers and never throws. */
  lemma {:induction false} PsidLookupOfNumbers(psids: seq<string>, ns: seq<nat>, id: uint16)
    requires |psids| == |ns| && forall k :: 0 <= k < |ns| ==> StoiHex(psids[k]) == Some(ns[k])
    ensures PsidLookup(psids, ToDecimal(id as int)) == if id as nat in ns then Listed else NotListed
  {
    hide StoiHex, Print;
    if psids == [] {
    } else {
      PsidLookupOfNumbers(psids[1..], ns[1..], id);
      assert ns == [ns[0]] + ns[1..];
      if ToDecimal(ns[0]) == ToDecimal(id as int) {
        PrintInjective(ns[0], id as nat);
      }
    }
  }

  /** In particular when the rows are numbers in hexadecimal. */
  lemma PsidLookupOfHexRows(ns: seq<nat>, id: uint16)
    requires forall k :: 0 <= k < |ns| ==> ns[k] <= INT_MAX
    ensures PsidLookup(seq(|ns|, k requires 0 <= k < |ns| => PrintHex(ns[k])), ToDecimal(id as int)) ==
            if id as nat in ns then Listed else NotListed
  {
    hide StoiHex, PrintHex, PsidLookup;
    var psids := seq(|ns|, k requires 0 <= k < |ns| => PrintHex(ns[k]));
    forall k | 0 <= k < |ns| ensures StoiHex(psids[k]) == Some(ns[k]) {
      StoiOfHex(ns[k]);
    }
    PsidLookupOfNumbers(psids, ns, id);
  }

  lemma {:induction false} PsidForIsFirst(t: Tables, msgId: string)
    requires t.Paired()
    ensures msgId in t.ids ==>
              exists k :: 0 <= k < |t.ids| && t.ids[k] == msgId && PsidFor(t, msgId) == t.psids[k]
                          && forall j :: 0 <= j < k ==> t.ids[j] != msgId
    ensures msgId !in t.ids ==> PsidFor(t, msgId) == ""
    decreases |t.ids|
  {
    if t.ids == [] || t.ids[0] == msgId {
    } else {
      var rest := Tables(t.ids[1..], t.psids[1..]);
      PsidForIsFirst(rest, msgId);
      assert t.ids == [t.ids[0]] + rest.ids;
      if msgId in t.ids {
        var k :| 0 <= k < |rest.ids| && rest.ids[k] == msgId && PsidFor(rest, msgId) == rest.psids[k]
                 && forall j :: 0 <= j < k ==> rest.ids[j] != msgId;
        assert t.ids[k + 1] == msgId && t.psids[k + 1] == rest.psids[k];
        assert forall j :: 0 < j < k + 1 ==> t.ids[j] == rest.ids[j - 1];
      }
    }
  }

  // ---------- reloading ----------

  /** No lookup can tell the two tables apart. */
  ghost predicate SameLookups(t: Tables, u: Tables) {
    && t.Paired() && u.Paired()
    && (forall m: string :: m in t.ids <==> m in u.ids)
    && (forall m: string :: PsidLookup(t.psids, m) == PsidLookup(u.psids, m))
    && (forall m: string :: PsidFor(t, m) == PsidFor(u, m))
  }

  function LoadedTimes(doc: seq<WaveEntry>, n: nat): (t: Tables)
    ensures t.Paired()
  {
    if n == 0 then EMPTY_TABLES else Loaded(LoadedTimes(doc, n - 1), doc)
  }

  lemma {:induction false} PsidLookupConcat(p: seq<string>, q: seq<string>, m: string)
    ensures PsidLookup(p + q, m) ==
            if PsidLookup(p, m) == NotListed then PsidLookup(q, m) else PsidLookup(p, m)
  {
    if p == [] {
      assert p + q == q;
    } else {
      PsidLookupConcat(p[1..], q, m);
      assert (p + q)[0] == p[0] && (p + q)[1..] == p[1..] + q;
    }
  }

  lemma {:induction false} PsidForConcat(t: Tables, u: Tables, m: string)
    requires t.Paired() && u.Paired()
    ensures PsidFor(Tables(t.ids + u.ids, t.psids + u.psids), m) ==
            if m in t.ids then PsidFor(t, m) else PsidFor(u, m)
    decreases |t.ids|
  {
    if t.ids == [] {
      assert Tables(t.ids + u.ids, t.psids + u.psids) == u;
    } else {
      var rest := Tables(t.ids[1..], t.psids[1..]);
      PsidForConcat(rest, u, m);
      assert (t.ids + u.ids)[1..] == rest.ids + u.ids;
      assert (t.psids + u.psids)[1..] == rest.psids + u.psids;
      assert m in t.ids <==> m == t.ids[0] || m in rest.ids;
    }
  }

  /** However often a file is loaded, every lookup answers as after the first load. */
  lemma {:induction false} ReloadingIsInvisible(doc: seq<WaveEntry>, n: nat)
    requires n > 0
    ensures SameLookups(LoadedTimes(doc, n), TablesOf(doc))
    decreases n
  {
    if n == 1 {
      assert LoadedTimes(doc, 0) == EMPTY_TABLES;
      assert LoadedTimes(doc, 1) == TablesOf(doc);
    } else {
      var before := LoadedTimes(doc, n - 1);
      ReloadingIsInvisible(doc, n - 1);
      forall m: string
        ensures PsidLookup(LoadedTimes(doc, n).psids, m) == PsidLookup(Psids(doc), m)
        ensures PsidFor(LoadedTimes(doc, n), m) == PsidFor(TablesOf(doc), m)
      {
        PsidLookupConcat(before.psids, Psids(doc), m);
        PsidForConcat(before, TablesOf(doc), m);
      }
    }
  }

  /** A first check on empty tables leaves the tables a client preloaded with the file would have,
      and a later check changes nothing more. */
  lemma LazyLoadingSettles(t: Tables, path: string, files: WaveFiles)
    requires t.Paired()
    ensures LazyLoaded(t, path, files).Paired()
    ensures LazyLoaded(LazyLoaded(t, path, files), path, files) == LazyLoaded(t, path, files)
    ensures path != "" && path in files && t == EMPTY_TABLES ==>
              LazyLoaded(t, path, files) == TablesOf(files[path])
    ensures path != "" && path in files && files[path] != [] ==>
              LazyLoaded(TablesOf(files[path]), path, files) == TablesOf(files[path])
  {
  }

  // ---------- the node's copy ----------

  /** `std::find_if` by ID; the type published for a delivered ID. */
  function TypeName(items: seq<WaveEntry>, id: uint16): string {
    if items == [] then "Unknown"
    else if items[0].dsrcMsgId == ToDecimal(id as int) then items[0].name
    else TypeName(items[1..], id)
  }

  /** `std::find_if` by name. */
  function FindByName(items: seq<WaveEntry>, name: string): (r: Option<WaveEntry>)
    ensures r.Some? ==> exists k :: 0 <= k < |items| && items[k] == r.value && r.value.name == name
                                    && forall j :: 0 <= j < k ==> items[j].name != name
    ensures r.None? <==> forall k :: 0 <= k < |items| ==> items[k].name != name
  {
    if items == [] then None
    else if items[0].name == name then Some(items[0])
    else
      var r := FindByName(items[1..], name);
      assert forall k :: 0 < k < |items| ==> items[k] == items[1..][k - 1];
      r
  }

  /** The name published for an ID is the one in the first entry with that ID; an ID the client
      recognises always has one. */
  lemma {:induction false} TypeNameIsFirst(items: seq<WaveEntry>, id: uint16)
    ensures Recognised(TablesOf(items), id) ==>
              exists k :: 0 <= k < |items| && items[k].dsrcMsgId == ToDecimal(id as int)
                          && TypeName(items, id) == items[k].name
                          && forall j :: 0 <= j < k ==> items[j].dsrcMsgId != ToDecimal(id as int)
    ensures !Recognised(TablesOf(items), id) ==> TypeName(items, id) == "Unknown"
  {
    hide ToDecimal;
    if items == [] {
    } else {
      TypeNameIsFirst(items[1..], id);
      assert Ids(items) == [items[0].dsrcMsgId] + Ids(items[1..]);
      if items[0].dsrcMsgId != ToDecimal(id as int) && Recognised(TablesOf(items), id) {
        var k :| 0 <= k < |items[1..]| && items[1..][k].dsrcMsgId == ToDecimal(id as int)
                 && TypeName(items[1..], id) == items[1..][k].name
                 && forall j :: 0 <= j < k ==> items[1..][j].dsrcMsgId != ToDecimal(id as int);
        assert items[k + 1] == items[1..][k];
        assert forall j :: 0 < j < k + 1 ==> items[j] == items[1..][j - 1];
      }
    }
  }

  ghost predicate DistinctIds(items: seq<WaveEntry>) {
    forall j, k :: 0 <= j < k < |items| ==> items[j].dsrcMsgId != items[k].dsrcMsgId
  }

  /** With distinct IDs, an ID's published type is the name in its own entry. */
  lemma {:induction false} TypeNameOfEntry(items: seq<WaveEntry>, e: WaveEntry, id: uint16)
    requires DistinctIds(items) && e in items && e.dsrcMsgId == ToDecimal(id as int)
    ensures TypeName(items, id) == e.name
  {
    var k :| 0 <= k < |items| && items[k] == e;
    if k == 0 {
    } else {
      assert items[1..][k - 1] == e;
      TypeNameOfEntry(items[1..], e, id);
    }
  }
}
