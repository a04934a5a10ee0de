/** The outbound queue as a value, and what every run of outbound callbacks keeps. */
module OutboundQueue {
  import opened Bytes

  /** How one `sendV2xMessage` call ended. */
  datatype SendResult = Sent | Refused | Threw

  /** `done` are the messages taken off the queue after a send, `sent` those whose send returned true. */
  datatype Outbox = Outbox(queue: seq<seq<uint8>>, done: seq<seq<uint8>>, sent: seq<seq<uint8>>)

  /** One outbound callback: the radio's state, the encoded message, and how the one send ended. */
  datatype Callback = Callback(connected: bool, bytes: seq<uint8>, result: SendResult)

  /** Sends the front message; it leaves the queue unless the send throws. */
  function SendFront(o: Outbox, result: SendResult): Outbox {
    if o.queue == [] || result == Threw then o
    else Outbox(o.queue[1..], o.done + [o.queue[0]], if result == Sent then o.sent + [o.queue[0]] else o.sent)
  }

  function Handle(o: Outbox, c: Callback): Outbox {
    if c.connected then SendFront(o.(queue := o.queue + [c.bytes]), c.result) else o
  }

  function Run(o: Outbox, cs: seq<Callback>): Outbox
    decreases |cs|
  {
    if cs == [] then o else Run(Handle(o, cs[0]), cs[1..])
  }

  function Pushed(c: Callback): seq<seq<uint8>> {
    if c.connected then [c.bytes] else []
  }

  /** The messages a run puts on the queue, in order. */
  function Offered(cs: seq<Callback>): seq<seq<uint8>> {
    if cs == [] then [] else Pushed(cs[0]) + Offered(cs[1..])
  }

  function SentNow(c: Callback): seq<seq<uint8>> {
    if c.connected && c.result == Sent then [c.bytes] else []
  }

  /** The messages whose own callback's send returned true, in order. */
  function OfferedAndSent(cs: seq<Callback>): seq<seq<uint8>> {
    if cs == [] then []
    else SentNow(cs[0]) + OfferedAndSent(cs[1..])
  }

  function Throwing(cs: seq<Callback>): nat {
    if cs == [] then 0
    else (if cs[0].connected && cs[0].result == Threw then 1 else 0) + Throwing(cs[1..])
  }

  lemma Regroup<T>(a: seq<T>, b: seq<T>, c: seq<T>)
    ensures a + b + c == a + (b + c)
  {
  }

  lemma OneCallback(o: Outbox, c: Callback)
    ensures Handle(o, c).done + Handle(o, c).queue == o.done + o.queue + Pushed(c)
    ensures |Handle(o, c).queue| == |o.queue| + if c.connected && c.result == Threw then 1 else 0
  {
  }

  /** First in, first out, and nothing lost or made up: what left the queue followed by what is still
      in it is what there was, followed by what was offered. Each throwing send leaves one message. */
  lemma {:induction false} Conservation(o: Outbox, cs: seq<Callback>)
    ensures Run(o, cs).done + Run(o, cs).queue == o.done + o.queue + Offered(cs)
    ensures |Run(o, cs).queue| == |o.queue| + Throwing(cs)
    decreases |cs|
  {
    if cs == [] {
    } else {
      hide Handle, Pushed;
      OneCallback(o, cs[0]);
      Conservation(Handle(o, cs[0]), cs[1..]);
      Regroup(o.done + o.queue, Pushed(cs[0]), Offered(cs[1..]));
    }
  }

  /** From an empty queue it is empty again after a run exactly when no send threw, and then each send
      was of its own callback's message: a refused one drops that message and no other. */
  lemma {:induction false} EmptyBetweenCallbacks(o: Outbox, cs: seq<Callback>)
    requires o.queue == []
    ensures Run(o, cs).queue == [] <==> Throwing(cs) == 0
    ensures Throwing(cs) == 0 ==> Run(o, cs).done == o.done + Offered(cs)
    ensures Throwing(cs) == 0 ==> Run(o, cs).sent == o.sent + OfferedAndSent(cs)
  {
    Conservation(o, cs);
    if Throwing(cs) == 0 {
      assert Run(o, cs).done + [] == Run(o, cs).done && o.done + [] == o.done;
      SentInOrder(o, cs);
    }
  }

  lemma OwnMessageIsSent(o: Outbox, c: Callback)
    requires o.queue == [] && !(c.connected && c.result == Threw)
    ensures Handle(o, c).queue == [] && Handle(o, c).sent == o.sent + SentNow(c)
  {
    assert o.queue + [c.bytes] == [c.bytes];
  }

  lemma {:induction false} SentInOrder(o: Outbox, cs: seq<Callback>)
    requires o.queue == [] && Throwing(cs) == 0
    ensures Run(o, cs).sent == o.sent + OfferedAndSent(cs)
    decreases |cs|
  {
    if cs == [] {
    } else {
      hide Handle, SentNow;
      OwnMessageIsSent(o, cs[0]);
      SentInOrder(Handle(o, cs[0]), cs[1..]);
      Regroup(o.sent, SentNow(cs[0]), OfferedAndSent(cs[1..]));
    }
  }
}
