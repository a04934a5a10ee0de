/** The MQTT client's outbound side: from the ID in a message to the topic it is published on. */
module MqttRadioClients {
  import opened Bytes
  import opened Numerals
  import opened WaveTable
  import opened FrameScan
  import opened BaseRadioClients
  import opened OutboundQueue

  /** The override map. Two of its entries share the key "0082"; `shared` is the one that is kept. */
  function Overrides(shared: int): map<string, int> {
    map["0020" := 32, "0083" := 131, "0082" := shared, "8010" := 144, "0027" := 39, "BFEE" := 16494]
  }

  /** The number a topic ends in; `None` is an exception of `std::stoi`. */
  function TopicNumber(psidHex: string, shared: int): Option<int> {
    if psidHex in Overrides(shared) then Some(Overrides(shared)[psidHex]) else StoiHex(psidHex)
  }

  function TopicText(prefix: string, n: int): string {
    prefix + "/req/J2735/" + ToDecimal(n)
  }

  function PublishTopic(prefix: string, psidHex: string, shared: int): Option<string> {
    match TopicNumber(psidHex, shared)
    case None => None
    case Some(n) => Some(TopicText(prefix, n))
  }

  /** The PSID text for an ID: the table's, or the ID's own decimal digits. */
  function PsidText(t: Tables, id: uint16): string
    requires t.Paired()
  {
    var psid := PsidFor(t, ToDecimal(id as int));
    if psid == "" then ToDecimal(id as int) else psid
  }

  predicate Unmapped(t: Tables, id: uint16)
    requires t.Paired()
  {
    PsidFor(t, ToDecimal(id as int)) == ""
  }

  datatype Publication = Publication(topic: string, payload: seq<uint8>)

  /** What a send does: its result, and what it publishes. */
  function SendEffect(t: Tables, up: bool, m: Option<seq<uint8>>, prefix: string, shared: int, rcOk: bool)
    : (SendResult, seq<Publication>)
    requires t.Paired()
  {
    if !up || m.None? || |m.value| < 2 then (Refused, [])
    else
      match PublishTopic(prefix, PsidText(t, IdAt(m.value, 0)), shared)
      case None => (SendResult.Threw, [])
      case Some(topic) => if rcOk then (Sent, [Publication(topic, m.value)]) else (Refused, [])
  }

  /** A send is refused when the client is down, when there is no message or it is too short, and when the
      library refuses it; it throws when there is no topic number; and otherwise it publishes the whole
      message, once, under the prefix and the number. */
  lemma SendEffectExactly(t: Tables, up: bool, m: Option<seq<uint8>>, prefix: string, shared: int, rcOk: bool)
    requires t.Paired()
    ensures !up || m.None? || |m.value| < 2 ==> SendEffect(t, up, m, prefix, shared, rcOk) == (Refused, [])
    ensures up && m.Some? && |m.value| >= 2 ==>
              var number := TopicNumber(PsidText(t, IdAt(m.value, 0)), shared);
              var (r, out) := SendEffect(t, up, m, prefix, shared, rcOk);
              && (r == SendResult.Threw <==> number.None?)
              && (r == Sent <==> number.Some? && rcOk)
              && (r == Refused <==> number.Some? && !rcOk)
              && (r != Sent ==> out == [])
              && (r == Sent ==> |out| == 1 && out[0].payload == m.value &&
                                out[0].topic == prefix + "/req/J2735/" + ToDecimal(number.value))
  {
    hide TopicNumber, PsidText, ToDecimal;
  }

  // ---------- IDs without a PSID ----------

  lemma {:induction false} NoLeadingZero(n: nat)
    ensures |Print(n)| > 0 && (n > 0 ==> Print(n)[0] != '0')
  {
    if n < 10 {
    } else {
      NoLeadingZero(n / 10);
    }
  }

  lemma PrintOf8010()
    ensures Print(8010) == "8010"
  {
  }

  /** Decimal text hits an override key for one number only. */
  lemma OverrideHit(n: nat, shared: int)
    ensures Print(n) in Overrides(shared) <==> n == 8010
  {
    PrintOf8010();
    NoLeadingZero(n);
    PrintIsDecimal(n);
    if Print(n) == "8010" {
      PrintInjective(n, 8010);
    }
    assert "BFEE"[0] == 'B' && "0020"[0] == '0' && "0083"[0] == '0' && "0082"[0] == '0' && "0027"[0] == '0';
    assert n == 0 ==> Print(n) == "0";
  }

  /** Without a PSID the topic number is the ID's decimal digits read as hexadecimal, but for 8010. */
  lemma FallbackNumber(t: Tables, id: uint16, shared: int)
    requires t.Paired() && Unmapped(t, id)
    ensures TopicNumber(PsidText(t, id), shared) == Some(FallbackValue(id as nat))
  {
    OverrideHit(id as nat, shared);
    RereadOfUint16(id as nat);
    StoiOfDecimal(id as nat);
    PrintOf8010();
  }

  lemma SignShows(m: int)
    ensures |ToDecimal(m)| > 0 && (m < 0 <==> ToDecimal(m)[0] == '-')
  {
    hide Print;
    PrintIsDecimal(if m < 0 then -m else m);
  }

  lemma ToDecimalInjective(m: int, n: int)
    requires ToDecimal(m) == ToDecimal(n)
    ensures m == n
  {
    hide Print;
    SignShows(m);
    SignShows(n);
    if m < 0 {
      assert ToDecimal(m)[1..] == Print(-m) && ToDecimal(n)[1..] == Print(-n);
      PrintInjective(-m, -n);
    } else {
      PrintInjective(m, n);
    }
  }

  lemma TopicTextInjective(prefix: string, m: int, n: int)
    requires TopicText(prefix, m) == TopicText(prefix, n)
    ensures m == n
  {
    var k := |prefix + "/req/J2735/"|;
    assert TopicText(prefix, m)[k..] == ToDecimal(m) && TopicText(prefix, n)[k..] == ToDecimal(n);
    ToDecimalInjective(m, n);
  }

  /** Two IDs without PSIDs share a topic only if they are 90 and 8010. */
  lemma FallbackCollision(t: Tables, a: uint16, b: uint16, prefix: string, shared: int)
    requires t.Paired() && Unmapped(t, a) && Unmapped(t, b)
    ensures PublishTopic(prefix, PsidText(t, a), shared) == PublishTopic(prefix, PsidText(t, b), shared) <==>
            a == b || (a == 90 && b == 8010) || (a == 8010 && b == 90)
  {
    FallbackNumber(t, a, shared);
    FallbackNumber(t, b, shared);
    OnlyNinetyRereadsTo144(a as nat);
    OnlyNinetyRereadsTo144(b as nat);
    var m, n := FallbackValue(a as nat), FallbackValue(b as nat);
    if TopicText(prefix, m) == TopicText(prefix, n) {
      TopicTextInjective(prefix, m, n);
      if a < b {
        RereadStrictlyIncreasing(a as nat, b as nat);
      } else if b < a {
        RereadStrictlyIncreasing(b as nat, a as nat);
      }
    }
  }

  /** The outbound lookup never loads the table. Until an inbound datagram has been scanned a message
      goes out on the topic it has afterwards exactly when its PSID's number is its fallback number. */
  lemma UnloadedTopicExactly(t: Tables, id: uint16, prefix: string, shared: int)
    requires t.Paired()
    ensures PublishTopic(prefix, PsidText(EMPTY_TABLES, id), shared) ==
            PublishTopic(prefix, PsidText(t, id), shared) <==>
            TopicNumber(PsidText(t, id), shared) == Some(FallbackValue(id as nat))
  {
    FallbackNumber(EMPTY_TABLES, id, shared);
    hide TopicNumber, PsidText, TopicText, FallbackValue;
    var warm := TopicNumber(PsidText(t, id), shared);
    if warm.Some? && TopicText(prefix, FallbackValue(id as nat)) == TopicText(prefix, warm.value) {
      TopicTextInjective(prefix, FallbackValue(id as nat), warm.value);
    }
  }

  function FallbackValue(n: nat): nat {
    if n == 8010 then 144 else Reread(n)
  }

  lemma OnlyNinetyRereadsTo144(n: nat)
    ensures Reread(n) == 144 <==> n == 90
  {
    assert Reread(9) == 9 && Reread(90) == 144;
    if n < 90 {
      RereadStrictlyIncreasing(n, 90);
    } else if n > 90 {
      RereadStrictlyIncreasing(90, n);
    }
  }

  // ---------- the queue in front of the client ----------

  /** One outbound callback for MQTT: the node's test of the connection, the message, and what the send
      finds: the client still up or not, and the library's answer. */
  datatype MqttCallback = MqttCallback(connected: bool, bytes: seq<uint8>, up: bool, rcOk: bool)

  /** The callback for the queue: how its send ends depends on the message at the front. */
  function Answered(t: Tables, prefix: string, shared: int, o: Outbox, c: MqttCallback): Callback
    requires t.Paired()
  {
    var front := (o.queue + [c.bytes])[0];
    Callback(c.connected, c.bytes, SendEffect(t, c.up, Some(front), prefix, shared, c.rcOk).0)
  }

  function MqttRun(t: Tables, prefix: string, shared: int, o: Outbox, cs: seq<MqttCallback>): Outbox
    requires t.Paired()
    decreases |cs|
  {
    if cs == [] then o else MqttRun(t, prefix, shared, Handle(o, Answered(t, prefix, shared, o, cs[0])), cs[1..])
  }

  /** The messages the callbacks put on the queue. */
  function Queued(cs: seq<MqttCallback>): seq<seq<uint8>> {
    if cs == [] then [] else (if cs[0].connected then [cs[0].bytes] else []) + Queued(cs[1..])
  }

  /** The PSID text for the message's ID is no number. */
  predicate Unsendable(t: Tables, shared: int, bytes: seq<uint8>)
    requires t.Paired()
  {
    |bytes| >= 2 && TopicNumber(PsidText(t, IdAt(bytes, 0)), shared).None?
  }

  /** The schema only asks for text: with a word for a PSID every message of that row is unsendable. */
  lemma WordForPsidIsUnsendable(e: WaveEntry, shared: int, bytes: seq<uint8>)
    requires e.psid != "" && 'g' <= e.psid[0] <= 'z'
    requires |bytes| >= 2 && e.dsrcMsgId == ToDecimal(IdAt(bytes, 0) as int)
    ensures Unsendable(TablesOf([e]), shared, bytes)
  {
    hide ToDecimal;
    assert Ids([e])[0] == e.dsrcMsgId && Psids([e])[0] == e.psid;
    assert PsidText(TablesOf([e]), IdAt(bytes, 0)) == e.psid;
    assert e.psid !in Overrides(shared) by {
      assert "0020"[0] == '0' && "0083"[0] == '0' && "0082"[0] == '0' && "8010"[0] == '8' && "0027"[0] == '0';
      assert "BFEE"[0] == 'B';
    }
    assert SkipHexPrefix(e.psid) == e.psid && HexRun(e.psid) == "";
  }

  /** Every callback that finds the client connected still finds it so when it sends. */
  ghost predicate StaysUp(cs: seq<MqttCallback>) {
    forall i :: 0 <= i < |cs| && cs[i].connected ==> cs[i].up
  }

  lemma UnsendableAtFront(t: Tables, prefix: string, shared: int, o: Outbox, c: MqttCallback)
    requires t.Paired() && o.queue != [] && Unsendable(t, shared, o.queue[0])
    ensures var r := Handle(o, Answered(t, prefix, shared, o, c));
            if c.connected && !c.up then r.done == o.done + [o.queue[0]]
            else r == o.(queue := o.queue + if c.connected then [c.bytes] else [])
  {
    assert (o.queue + [c.bytes])[0] == o.queue[0];
  }

  lemma {:induction false} DoneGrows(t: Tables, prefix: string, shared: int, o: Outbox, cs: seq<MqttCallback>)
    requires t.Paired()
    ensures |MqttRun(t, prefix, shared, o, cs).done| >= |o.done|
    decreases |cs|
  {
    if cs == [] {
    } else {
      DoneGrows(t, prefix, shared, Handle(o, Answered(t, prefix, shared, o, cs[0])), cs[1..]);
    }
  }

  lemma QueuedStep(q: seq<seq<uint8>>, cs: seq<MqttCallback>)
    requires cs != []
    ensures var pushed := if cs[0].connected then [cs[0].bytes] else [];
            q + Queued(cs) == q + pushed + Queued(cs[1..])
  {
    var pushed, rest := if cs[0].connected then [cs[0].bytes] else [], Queued(cs[1..]);
    assert Queued(cs) == pushed + rest;
    hide Queued;
    Regroup(q, pushed, rest);
  }

  lemma StaysUpStep(cs: seq<MqttCallback>)
    requires cs != []
    ensures StaysUp(cs) <==> (cs[0].connected ==> cs[0].up) && StaysUp(cs[1..])
  {
    assert forall i :: 0 < i < |cs| ==> cs[i] == cs[1..][i - 1];
  }

  lemma MqttRunStep(t: Tables, prefix: string, shared: int, o: Outbox, cs: seq<MqttCallback>)
    requires t.Paired() && cs != []
    ensures MqttRun(t, prefix, shared, o, cs) ==
            MqttRun(t, prefix, shared, Handle(o, Answered(t, prefix, shared, o, cs[0])), cs[1..])
  {
  }

  /** Under fixed tables a message whose PSID is no number blocks the queue for good: while the client
      stays up, nothing that comes after it is ever sent, and it is all kept. It leaves the queue, unsent,
      exactly when some callback finds the connection gone between its own test and the send. */
  lemma {:induction false} UnsendableBlocksExactly(t: Tables, prefix: string, shared: int, o: Outbox,
                                                   cs: seq<MqttCallback>)
    requires t.Paired() && o.queue != [] && Unsendable(t, shared, o.queue[0])
    ensures MqttRun(t, prefix, shared, o, cs).done == o.done <==> StaysUp(cs)
    ensures StaysUp(cs) ==> MqttRun(t, prefix, shared, o, cs) == Outbox(o.queue + Queued(cs), o.done, o.sent)
    decreases |cs|
  {
    if cs == [] {
      assert o.queue + [] == o.queue;
    } else {
      hide *;
      var r := Handle(o, Answered(t, prefix, shared, o, cs[0]));
      UnsendableAtFront(t, prefix, shared, o, cs[0]);
      QueuedStep(o.queue, cs);
      StaysUpStep(cs);
      MqttRunStep(t, prefix, shared, o, cs);
      if cs[0].connected && !cs[0].up {
        DoneGrows(t, prefix, shared, r, cs[1..]);
      } else {
        UnsendableBlocksExactly(t, prefix, shared, r, cs[1..]);
      }
    }
  }

  class MqttRadioClient {
    const base: BaseRadioClient
    const mqttTopicPrefix: string
    var connected: bool
    var hasMosq: bool
    var published: seq<Publication>

    constructor (base: BaseRadioClient, prefix: string)
      ensures this.base == base && mqttTopicPrefix == prefix && !connected && !hasMosq && published == []
    {
      this.base, mqttTopicPrefix := base, prefix;
      connected, hasMosq, published := false, false, [];
    }

    /** `rcOk` is the answer of the MQTT library's publish call. */
    method SendV2xMessage(message: Option<seq<uint8>>, shared: int, rcOk: bool) returns (r: SendResult)
      requires base.Valid()
      modifies this`published
      ensures var effect := SendEffect(base.Contents(), connected && hasMosq, message, mqttTopicPrefix, shared, rcOk);
              r == effect.0 && published == old(published) + effect.1
      ensures !connected || !hasMosq || message.None? || |message.value| < 2 ==>
                r == Refused && published == old(published)
      ensures connected && hasMosq && message.Some? && |message.value| >= 2 ==>
                match TopicNumber(PsidText(base.Contents(), IdAt(message.value, 0)), shared)
                case None => r == SendResult.Threw && published == old(published)
                case Some(n) =>
                  if rcOk then
                    && r == Sent
                    && published == old(published) +
                       [Publication(mqttTopicPrefix + "/req/J2735/" + ToDecimal(n), message.value)]
                  else r == Refused && published == old(published)
    {
      hide TopicNumber, ToDecimal, PsidFor;
      if !connected || !hasMosq {
        return Refused;
      }
      if message == None || |message.value| < 2 {
        return Refused;
      }
      var dsrcMsgId := BigEndian(message.value[0], message.value[1]);
      var dsrcMsgIdStr := ToDecimal(dsrcMsgId as int);
      var psid := base.PsidForDsrcMsgId(dsrcMsgIdStr);
      if psid == "" {
        psid := dsrcMsgIdStr;
      }
      var topic := PublishTopic(mqttTopicPrefix, psid, shared);
      if topic == None {
        return SendResult.Threw;
      }
      if !rcOk {
        return Refused;
      }
      published := published + [Publication(topic.value, message.value)];
      return Sent;
    }
  }
}
