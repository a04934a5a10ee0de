/** The ROS node's message handlers. The radio's answers are parameters of the calls. */
module DriverNodes {
  import opened Bytes
  import opened Numerals
  import opened WaveTable
  import opened WaveText
  import opened OutboundQueue

  lemma PackingCarries(items: seq<WaveEntry>, m: ByteArray)
    requires FindByName(items, m.messageType).Some? || |m.content| >= 2
    ensures WellFormed(items, m.messageType) ==> Carries(items, m, Packed(items, m))
  {
    if WellFormed(items, m.messageType) {
      PackedCarries(items, m);
    }
  }

  predicate HasId(e: WaveEntry, id: uint16) {
    e.dsrcMsgId == ToDecimal(id as int)
  }

  ghost predicate FirstWithId(items: seq<WaveEntry>, id: uint16, k: int) {
    0 <= k < |items| && HasId(items[k], id) && forall j :: 0 <= j < k ==> !HasId(items[j], id)
  }

  lemma UnlinesSnoc(lines: seq<string>, line: string)
    ensures Unlines(lines + [line]) == Unlines(lines) + line + "\n"
  {
    if lines == [] {
      assert lines + [line] == [line];
      assert [line][1..] == [];
    } else {
      UnlinesSnoc(lines[1..], line);
      assert (lines + [line])[1..] == lines[1..] + [line];
    }
  }

  /** `ss << line << std::endl`, for line `k` of a text. */
  method WriteLine(ss: string, line: string, ghost lines: seq<string>, ghost k: nat) returns (r: string)
    requires k < |lines| && line == lines[k] && ss == Unlines(lines[..k])
    ensures r == Unlines(lines[..k + 1])
  {
    UnlinesSnoc(lines[..k], line);
    assert lines[..k + 1] == lines[..k] + [line];
    r := ss + line + "\n";
  }

  method Uint8VectorToHexString(v: seq<uint8>) returns (ss: string)
    ensures ss == Base16(v)
  {
    ss := "";
    for i := 0 to |v|
      invariant ss == Base16(v[..i])
    {
      HexByteIsDigitPair(v[i]);
      Base16Snoc(v[..i], v[i]);
      assert v[..i + 1] == v[..i] + [v[i]];
      ss := ss + HexByte(v[i]);
    }
    assert v[..|v|] == v;
  }

  class Node {
    var waveItems: seq<WaveEntry>
    var protocol: string
    var sendMsgQueue: seq<seq<uint8>>
    var done: seq<seq<uint8>>       // messages taken off the queue
    var sent: seq<seq<uint8>>       // messages whose send returned true
    var published: seq<ByteArray>   // inbound messages published to ROS

    constructor (items: seq<WaveEntry>, protocol: string)
      ensures waveItems == items && this.protocol == protocol && published == []
      ensures Contents() == Outbox([], [], [])
    {
      waveItems, this.protocol := items, protocol;
      sendMsgQueue, done, sent, published := [], [], [], [];
    }

    function Contents(): Outbox
      reads this
    {
      Outbox(sendMsgQueue, done, sent)
    }

    /** Publishes the frame once, under the name in the first entry with its ID, or as "Unknown" when no
        entry has it. */
    method OnMessageReceivedHandler(data: seq<uint8>, id: uint16)
      modifies this`published
      ensures var n := |old(published)|;
              && |published| == n + 1 && published[..n] == old(published) && published[n].content == data
              && (forall k :: FirstWithId(waveItems, id, k) ==> published[n].messageType == waveItems[k].name)
              && ((forall k :: 0 <= k < |waveItems| ==> !HasId(waveItems[k], id)) ==>
                    published[n].messageType == "Unknown")
      ensures published == old(published) + [ByteArray(TypeName(waveItems, id), data)]
    {
      var it := 0;
      while it < |waveItems| && waveItems[it].dsrcMsgId != ToDecimal(id as int)
        invariant 0 <= it <= |waveItems|
        invariant forall j :: 0 <= j < it ==> !HasId(waveItems[j], id)
        invariant TypeName(waveItems, id) == TypeName(waveItems[it..], id)
      {
        assert waveItems[it..][1..] == waveItems[it + 1..];
        it := it + 1;
      }
      var messageType := if it != |waveItems| then waveItems[it].name else "Unknown";
      published := published + [ByteArray(messageType, data)];
    }

    /** A type that is not in the table needs two bytes of content to take its ID from. */
    method PackMessage(message: ByteArray) returns (bytes: seq<uint8>)
      requires FindByName(waveItems, message.messageType).Some? || |message.content| >= 2
      ensures bytes == Packed(waveItems, message)
      ensures WellFormed(waveItems, message.messageType) ==> Carries(waveItems, message, bytes)
    {
      hide Carries, WellFormed;
      PackingCarries(waveItems, message);
      var waveItem := FindByName(waveItems, message.messageType);
      var cfg: WaveEntry;
      if waveItem == None {
        var dsrcMsgId := ToDecimal(BigEndian(message.content[0], message.content[1]) as int);
        cfg := WaveEntry(message.messageType, dsrcMsgId, dsrcMsgId, "CCH", "1");
      } else {
        cfg := waveItem.value;
      }
      var str := WriteText(cfg, message.content);
      bytes := BytesOf(str);
    }

    static method WriteText(cfg: WaveEntry, content: seq<uint8>) returns (ss: string)
      ensures ss == PackedText(cfg, content)
    {
      ghost var lines := PackedLines(cfg, content);
      ss := "";
      ss := WriteLine(ss, "Version=0.7", lines, 0);
      ss := WriteLine(ss, "Type=" + cfg.name, lines, 1);
      ss := WriteLine(ss, "PSID=" + cfg.psid, lines, 2);
      ss := WriteLine(ss, "Priority=" + cfg.priority, lines, 3);
      ss := WriteLine(ss, "TxMode=ALT", lines, 4);
      ss := WriteLine(ss, "TxChannel=" + cfg.channel, lines, 5);
      ss := WriteLine(ss, "TxInterval=0", lines, 6);
      ss := WriteLine(ss, "DeliveryStart=", lines, 7);
      ss := WriteLine(ss, "DeliveryStop=", lines, 8);
      ss := WriteLine(ss, "Signature=False", lines, 9);
      ss := WriteLine(ss, "Encryption=False", lines, 10);
      var hex := Uint8VectorToHexString(content);
      ss := WriteLine(ss, "Payload=" + hex, lines, 11);
      assert lines[..12] == lines;
    }

    method OnOutboundMessage(message: ByteArray, connected: bool, result: SendResult)
      requires protocol == "mqtt" || FindByName(waveItems, message.messageType).Some? || |message.content| >= 2
      modifies this`sendMsgQueue, this`done, this`sent
      ensures Contents() ==
              if protocol == "mqtt" then Handle(old(Contents()), Callback(connected, message.content, result))
              else Handle(old(Contents()), Callback(connected, Packed(waveItems, message), result))
      ensures var (had, has) := (old(Contents().done + Contents().queue), Contents().done + Contents().queue);
              && (!connected ==> has == had)
              && (connected ==> |has| == |had| + 1 && has[..|had|] == had)
              && (connected && protocol == "mqtt" ==> has[|had|] == message.content)
              && (connected && protocol != "mqtt" && WellFormed(waveItems, message.messageType) ==>
                    Carries(waveItems, message, has[|had|]))
    {
      hide Carries, WellFormed, Packed;
      if !connected {
        return;
      }
      var messageContent;
      if protocol == "mqtt" {
        messageContent := message.content;
      } else {
        messageContent := PackMessage(message);
      }
      sendMsgQueue := sendMsgQueue + [messageContent];
      SendMessageFromQueue(result);
    }

    method SendMessageFromQueue(result: SendResult)
      modifies this`sendMsgQueue, this`done, this`sent
      ensures Contents() == SendFront(old(Contents()), result)
    {
      if sendMsgQueue != [] {
        if result == Threw {
          return;
        }
        if result == Sent {
          sent := sent + [sendMsgQueue[0]];
        }
        done := done + [sendMsgQueue[0]];
        sendMsgQueue := sendMsgQueue[1..];
      }
    }
  }
}
