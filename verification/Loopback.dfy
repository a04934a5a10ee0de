/** A message sent as WAVE text and received again as a datagram with its payload. */
module Loopback {
  import opened Bytes
  import opened Numerals
  import opened WaveTable
  import opened FrameScan
  import opened WaveText
  import opened BaseRadioClients
  import opened DriverNodes

  /** What the node publishes for a datagram, node and client having loaded the same file. */
  function Published(items: seq<WaveEntry>, d: seq<uint8>, after: Overread): seq<ByteArray> {
    match Scan(TablesOf(items), d, after)
    case Delivered(f, id) => [ByteArray(TypeName(items, id), f)]
    case _ => []
  }

  /** Pack, read the payload back out of the text, scan it, publish. */
  function RoundTrip(items: seq<WaveEntry>, m: ByteArray, after: Overread): seq<ByteArray>
    requires FindByName(items, m.messageType).Some? || |m.content| >= 2
  {
    match ParseText(TextOf(Packed(items, m)))
    case Some(parsed) => Published(items, parsed.payload, after)
    case None => []
  }

  /** A message comes back unchanged exactly when the scanner accepts its content as it stands and its
      type is the one published for the ID its content starts with. */
  lemma RoundTripExactly(items: seq<WaveEntry>, m: ByteArray, after: Overread)
    requires WellFormed(items, m.messageType)
    requires FindByName(items, m.messageType).Some? || |m.content| >= 2
    ensures RoundTrip(items, m, after) == [m] <==>
            && |m.content| >= 4
            && Judge(TablesOf(items), m.content, after) == Deliver
            && m.messageType == TypeName(items, IdAt(m.content, 0))
  {
    var t := TablesOf(items);
    PackRoundTrip(items, m);
    if |m.content| >= 4 && Judge(t, m.content, after) == Skip {
      ScanIsNeverLonger(t, m.content[1..], after);
    }
  }

  /** In particular: with distinct IDs, any message whose type and ID are those of one entry. */
  lemma ListedMessageSurvives(items: seq<WaveEntry>, e: WaveEntry, m: ByteArray, after: Overread)
    requires WellFormed(items, m.messageType) && DistinctIds(items)
    requires |m.content| >= 4 && Judge(TablesOf(items), m.content, after) == Deliver
    requires e in items && e.name == m.messageType && e.dsrcMsgId == ToDecimal(IdAt(m.content, 0) as int)
    ensures RoundTrip(items, m, after) == [m]
  {
    TypeNameOfEntry(items, e, IdAt(m.content, 0));
    RoundTripExactly(items, m, after);
  }

  /** With both tables from one file, whatever is delivered is published under the name of an entry
      with its ID; "Unknown" is never made up. */
  lemma PublishedIsNamed(items: seq<WaveEntry>, d: seq<uint8>, after: Overread)
    ensures forall p :: p in Published(items, d, after) ==>
              exists e :: e in items && p.messageType == e.name &&
                          |p.content| >= 4 && e.dsrcMsgId == ToDecimal(IdAt(p.content, 0) as int)
  {
    if Scan(TablesOf(items), d, after).Delivered? {
      var k := DeliveredIsFirstFrame(TablesOf(items), d, after);
      TypeNameIsFirst(items, IdAt(d, k));
      assert IdAt(d[k..], 0) == IdAt(d, k);
    }
  }

  /** Node and client work with one file, which the client may yet have to load. */
  ghost predicate OneFile(client: BaseRadioClient, node: Node, files: WaveFiles)
    reads client, node
  {
    && client.Valid() && client.waveFilePath != "" && client.waveFilePath in files
    && node.waveItems == files[client.waveFilePath]
    && (client.Contents() == EMPTY_TABLES || client.Contents() == TablesOf(node.waveItems))
  }

  lemma SameScanEitherWay(t: Tables, path: string, files: WaveFiles, d: seq<uint8>, after: Overread)
    requires path != "" && path in files && (t == EMPTY_TABLES || t == TablesOf(files[path]))
    ensures Scan(TablesAfter(t, path, files, d), d, after) == Scan(TablesOf(files[path]), d, after)
    ensures var u := TablesAfter(t, path, files, d);
            u == EMPTY_TABLES || u == TablesOf(files[path])
  {
    LazyLoadingSettles(t, path, files);
    ShortDatagramsGiveNothing(t, d, after);
    ShortDatagramsGiveNothing(TablesOf(files[path]), d, after);
    assert files[path] == [] ==> TablesOf(files[path]) == EMPTY_TABLES;
  }

  /** A datagram goes through the client, and each of its signals through the node's handler. */
  method Receive(client: BaseRadioClient, node: Node, entry: array<uint8>, files: WaveFiles, after: Overread)
    requires OneFile(client, node, files)
    modifies client`dsrcMsgIds, client`psids, client`received, node`published
    ensures OneFile(client, node, files)
    ensures node.published == old(node.published) + Published(node.waveItems, entry[..], after)
  {
    hide Scan, TablesOf, EMPTY_TABLES, TablesAfter;
    var before := |client.received|;
    SameScanEitherWay(client.Contents(), client.waveFilePath, files, entry[..], after);
    var threw := client.Process(files, entry, after);
    ghost var signals := Emitted(Scan(TablesOf(node.waveItems), entry[..], after));
    assert client.received[before..] == signals;
    var i := before;
    while i < |client.received|
      invariant before <= i <= |client.received| && client.received[before..] == signals
      invariant OneFile(client, node, files)
      invariant node.published ==
                old(node.published) + if i == before then [] else Published(node.waveItems, entry[..], after)
    {
      var signal := client.received[i];
      assert signal == signals[i - before];
      node.OnMessageReceivedHandler(signal.frame, signal.id);
      i := i + 1;
    }
  }

  /** The loop through the classes: a node packs, and the payload read out of its text is a datagram for
      a client. The message is published, unchanged and alone, exactly when the scanner accepts its
      content as it stands and its type is the one published for its ID. */
  method SendAndReceive(sender: Node, client: BaseRadioClient, receiver: Node, m: ByteArray,
                        files: WaveFiles, after: Overread)
    requires OneFile(client, receiver, files) && sender.waveItems == receiver.waveItems
    requires WellFormed(sender.waveItems, m.messageType)
    requires FindByName(sender.waveItems, m.messageType).Some? || |m.content| >= 2
    modifies client`dsrcMsgIds, client`psids, client`received, receiver`published
    ensures receiver.published == old(receiver.published) + RoundTrip(sender.waveItems, m, after)
    ensures receiver.published == old(receiver.published) + [m] <==>
            && |m.content| >= 4
            && Judge(TablesOf(sender.waveItems), m.content, after) == Deliver
            && m.messageType == TypeName(sender.waveItems, IdAt(m.content, 0))
  {
    hide Judge, Scan, Published, OneFile, ParseText, TextOf, Packed, TypeName, TablesOf;
    var text := sender.PackMessage(m);
    PackRoundTrip(sender.waveItems, m);
    RoundTripExactly(sender.waveItems, m, after);
    var payload := ParseText(TextOf(text)).value.payload;
    var entry := new uint8[|payload|](i requires 0 <= i < |payload| => payload[i]);
    assert entry[..] == payload;
    Receive(client, receiver, entry, files, after);
    AddedAlike(old(receiver.published), RoundTrip(sender.waveItems, m, after), [m]);
  }

  lemma AddedAlike(had: seq<ByteArray>, a: seq<ByteArray>, b: seq<ByteArray>)
    ensures had + a == had + b <==> a == b
  {
    assert (had + a)[|had|..] == a && (had + b)[|had|..] == b;
  }
}
