/** Reassembly of an incoming MQTT publish from the fragments the stack delivers. */
module MqttReceive {
  import opened Config
  import opened CText
  import opened JsonCodec

  const TOPIC_SEND: string := "irhub/send"
  const TOPIC_CELLS: nat := 64

  /** What has arrived of the current publish. */
  datatype Rx = Rx(topic: string, held: string)

  function PublishStep(topic: string): Rx {
    Rx(topic[..Min(|topic|, TOPIC_CELLS - 1)], "")
  }

  /** One fragment: kept whole if it fits, else dropped; on the last one a send
      command is decoded and offered to the transmit queue. */
  function DataStep(rx: Rx, data: string, last: bool): (Rx, Option<IrMessage>) {
    var held := if |rx.held| + |data| < MQTT_MAX_PAYLOAD_LEN then rx.held + data else rx.held;
    (rx.(held := held), if last && rx.topic == TOPIC_SEND then Offered(Buffer(held), |held|) else None)
  }

  /** The fragments of one publish in order, the last one flagged. */
  function Deliver(rx: Rx, fragments: seq<string>): (Rx, Option<IrMessage>)
    requires fragments != []
    decreases |fragments|
  {
    var (rx', offer) := DataStep(rx, fragments[0], |fragments| == 1);
    if |fragments| == 1 then (rx', offer) else Deliver(rx', fragments[1..])
  }

  lemma {:induction false} DeliverConcat(rx: Rx, fragments: seq<string>)
    requires fragments != [] && |rx.held + Concat(fragments)| < MQTT_MAX_PAYLOAD_LEN
    ensures var text := rx.held + Concat(fragments);
            Deliver(rx, fragments) == (rx.(held := text), if rx.topic == TOPIC_SEND then Offered(Buffer(text), |text|) else None)
    decreases |fragments|
  {
    hide Offered, Buffer;
    var text := rx.held + Concat(fragments);
    assert (rx.held + fragments[0]) + Concat(fragments[1..]) == text;
    if |fragments| == 1 {
      assert fragments[1..] == [];
      assert text == rx.held + fragments[0];
    } else {
      DeliverConcat(rx.(held := rx.held + fragments[0]), fragments[1..]);
    }
  }

  lemma {:induction false} HeldStaysShort(rx: Rx, fragments: seq<string>)
    requires fragments != [] && |rx.held| < MQTT_MAX_PAYLOAD_LEN
    ensures |Deliver(rx, fragments).0.held| < MQTT_MAX_PAYLOAD_LEN
    decreases |fragments|
  {
    hide Offered;
    if |fragments| <= 1 {
    } else {
      HeldStaysShort(DataStep(rx, fragments[0], false).0, fragments[1..]);
    }
  }

  /** The receive buffer ends up holding the payload exactly when the payload is
      shorter than the buffer, however it is cut up. */
  lemma {:induction false} ReassembledIff(topic: string, fragments: seq<string>)
    requires fragments != []
    ensures Deliver(PublishStep(topic), fragments).0.held == Concat(fragments) <==> |Concat(fragments)| < 8192
  {
    hide Offered;
    var rx := PublishStep(topic);
    HeldStaysShort(rx, fragments);
    if |Concat(fragments)| < MQTT_MAX_PAYLOAD_LEN {
      assert rx.held + Concat(fragments) == Concat(fragments);
      DeliverConcat(rx, fragments);
    }
  }

  /** A publish on any other topic offers nothing, whatever it carries. */
  lemma {:induction false} OtherTopicsOfferNothing(topic: string, rx: Rx, fragments: seq<string>)
    requires fragments != [] && topic != "irhub/send" && rx.topic == PublishStep(topic).topic
    ensures Deliver(rx, fragments).1 == None
    decreases |fragments|
  {
    hide Offered, Buffer;
    assert rx.topic != TOPIC_SEND by {
      if |topic| < TOPIC_CELLS { assert topic[..|topic|] == topic; }
    }
    if |fragments| == 1 {
    } else {
      OtherTopicsOfferNothing(topic, DataStep(rx, fragments[0], false).0, fragments[1..]);
    }
  }

  /** A shaped payload that fits, in any layout and any fragmentation, makes the
      hub offer exactly its pulses, or nothing when there are none or too many;
      the one layout that fails is a carriage return in front of a comma. */
  lemma {:induction false} SendCommandOffered(l: Layout, fragments: seq<string>)
    requires l.Shaped() && fragments != [] && Concat(fragments) == l.Text() && |l.Text()| < MQTT_MAX_PAYLOAD_LEN
    ensures var o := Deliver(PublishStep(TOPIC_SEND), fragments).1;
            (if o.Some? then Some(o.value.pulses) else None) == Expected(Values(l.items)) <==> NoEarlyReturn(l.items)
  {
    var rx := PublishStep(TOPIC_SEND);
    assert TOPIC_SEND[..|TOPIC_SEND|] == TOPIC_SEND;
    assert rx.held + Concat(fragments) == l.Text();
    DeliverConcat(rx, fragments);
    OfferedAsSent(l);
    hide Offered, Layout.Text, Buffer, NoEarlyReturn, Layout.Shaped;
  }

  /** The receive callbacks over their static buffers. */
  class Receiver {
    var topic: string
    const payload: array<char>
    var len: nat

    ghost predicate Valid()
      reads this`len
    {
      payload.Length == MQTT_MAX_PAYLOAD_LEN && len < MQTT_MAX_PAYLOAD_LEN
    }

    ghost function View(): Rx
      requires Valid()
      reads this, payload
    {
      Rx(topic, payload[..len])
    }

    constructor ()
      ensures Valid() && View() == Rx("", "") && fresh(payload)
    {
      topic, len := "", 0;
      payload := new char[MQTT_MAX_PAYLOAD_LEN](_ => NUL);
    }

    method IncomingPublish(t: string)
      requires Valid()
      modifies this
      ensures Valid() && View() == PublishStep(t)
    {
      topic := if |t| < TOPIC_CELLS then t else t[..TOPIC_CELLS - 1];
      len := 0;
      assert t[..|t|] == t;
    }

    method IncomingData(data: string, last: bool) returns (offer: Option<IrMessage>)
      requires Valid()
      modifies this, payload
      ensures Valid() && (View(), offer) == DataStep(old(View()), data, last)
    {
      hide Offered;
      if len + |data| < payload.Length {
        forall i | 0 <= i < |data| { payload[len + i] := data[i]; }
        assert payload[..len + |data|] == old(payload[..len]) + data;
        len := len + |data|;
      }
      offer := None;
      if last {
        payload[len] := NUL;
        if topic == TOPIC_SEND {
          assert payload[..len + 1] == Buffer(payload[..len]);
          var m := DecodeIrMessage(payload[..len + 1], len);
          offer := if m.Some? && m.value.truncated then None else m;
          OfferedIsDecoded(payload[..len + 1], len);
        }
      }
    }
  }

  lemma {:induction false} OfferedIsDecoded(buf: string, len: nat)
    requires Terminated(buf, len)
    ensures var m := Decode(buf, len);
            Offered(buf, len) == if m.Some? && m.value.truncated then None else m
  {
    hide Decode;
  }
}
