/** Both directions of the wire: what the hub publishes and what the backend
    sends are read back exactly. */
module WireFormat {
  import opened Config
  import opened CText
  import opened JsonCodec

  const CARRIER_KEY: string := "\"carrier_freq\""

  /** Opening of both payloads: the carrier, then other members. */
  function Opening(carrier: uint32, others: string): string {
    "{" + (CARRIER_KEY + (":" + (Decimal(carrier) + others)))
  }

  /** The compact object {"carrier_freq":c<others>"pulses":[...]}. */
  function CompactText(carrier: uint32, others: string, pulses: seq<uint16>): string {
    Opening(carrier, others) + PULSES_KEY + ":[" + PulseList(pulses) + "]}"
  }

  /** What JSON.stringify gives for { carrier_freq, pulses }. */
  function SendText(carrier: uint32, pulses: seq<uint16>): string {
    CompactText(carrier, ",", pulses)
  }

  function Metadata(m: IrMessage): string {
    ",\"frame_count\":" + Decimal(m.frameCount) + ",\"truncated\":" + (if m.truncated then "true" else "false") + ","
  }

  /** The encoder's output is of the compact form. */
  lemma {:induction false} RenderIsCompact(m: IrMessage)
    ensures Render(m) == CompactText(m.carrierFreq, Metadata(m), m.pulses)
  {
    HeadIsOpening(m);
    hide Head, Opening, Metadata, PulseList;
  }

  lemma {:induction false} HeadIsOpening(m: IrMessage)
    ensures Head(m) == Opening(m.carrierFreq, Metadata(m)) + PULSES_KEY + ":["
  {
    hide Decimal;
    var t := if m.truncated then "true" else "false";
    OpeningLiterals();
    Reassociate("{", CARRIER_KEY, ":", Decimal(m.carrierFreq), ",\"frame_count\":", Decimal(m.frameCount),
                ",\"truncated\":", t, ",", PULSES_KEY, ":[");
  }

  lemma {:induction false} OpeningLiterals()
    ensures "{\"carrier_freq\":" == "{" + CARRIER_KEY + ":"
    ensures ",\"pulses\":[" == "," + PULSES_KEY + ":["
  {
  }

  lemma {:induction false} Reassociate(a: string, k: string, b: string, c: string, x: string, f: string, y: string,
                                       t: string, w: string, q: string, z: string)
    ensures (a + k + b) + c + x + f + y + t + (w + q + z) == (a + (k + (b + (c + (x + f + y + t + w))))) + q + z
  {
  }

  // ---- the array text, front to back ----

  function Bare(pulses: seq<uint16>): (items: seq<Item>)
    ensures |items| == |pulses|
    ensures forall i :: 0 <= i < |items| ==> items[i] == Item("", pulses[i], "")
  {
    seq(|pulses|, i requires 0 <= i < |pulses| => Item("", pulses[i], ""))
  }

  /** Every further number with its comma. */
  function Tail(p: seq<uint16>): string
    decreases |p|
  {
    if p == [] then "" else "," + Decimal(p[0]) + Tail(p[1..])
  }

  lemma {:induction false} TailSnoc(p: seq<uint16>, x: uint16)
    ensures Tail(p + [x]) == Tail(p) + "," + Decimal(x)
    decreases |p|
  {
    hide Decimal;
    var q := p + [x];
    if p == [] {
      assert q[1..] == [];
    } else {
      assert q[0] == p[0] && q[1..] == p[1..] + [x];
      TailSnoc(p[1..], x);
    }
  }

  lemma {:induction false} PulseListIsTail(x: uint16, p: seq<uint16>)
    ensures PulseList([x] + p) == Decimal(x) + Tail(p)
    decreases |p|
  {
    hide Decimal;
    var q := [x] + p;
    if p == [] {
      assert q[..0] == [] && q == [x];
    } else {
      var front, last := p[..|p| - 1], p[|p| - 1];
      assert p == front + [last];
      assert q[..|q| - 1] == [x] + front;
      PulseListIsTail(x, front);
      TailSnoc(front, last);
    }
  }

  lemma {:induction false} RestIsTail(p: seq<uint16>)
    ensures Rest("", Bare(p)) == Tail(p) + "]"
    decreases |p|
  {
    hide Decimal;
    if p == [] {
    } else {
      assert Bare(p)[1..] == Bare(p[1..]);
      RestIsTail(p[1..]);
    }
  }

  /** A compact payload as a layout with no white space. */
  function CompactLayout(carrier: uint32, others: string, pulses: seq<uint16>): Layout {
    Layout(Opening(carrier, others), ":", "", Bare(pulses), "}")
  }

  lemma {:induction false} CompactLayoutText(carrier: uint32, others: string, pulses: seq<uint16>)
    ensures CompactLayout(carrier, others, pulses).Text() == CompactText(carrier, others, pulses)
  {
    hide Decimal, Opening;
    var l := CompactLayout(carrier, others, pulses);
    if pulses == [] {
      assert PulseList(pulses) == "";
    } else {
      assert pulses == [pulses[0]] + pulses[1..];
      PulseListIsTail(pulses[0], pulses[1..]);
      assert Bare(pulses)[1..] == Bare(pulses[1..]);
      RestIsTail(pulses[1..]);
    }
    hide PulseList;
    assert l.ArrayText() == PulseList(pulses) + "]";
  }

  /** Members between the carrier and the pulses that hold neither a 'p' nor a NUL. */
  ghost predicate Plain(others: string) {
    |others| > 0 && others[0] == ',' && 'p' !in others && NUL !in others
  }

  lemma {:induction false} DecimalHasNo(n: nat, c: char)
    requires !IsDigit(c)
    ensures c !in Decimal(n)
  {
  }

  lemma {:induction false} MetadataPlain(m: IrMessage)
    ensures Plain(Metadata(m))
  {
    DecimalHasNo(m.frameCount, 'p');
    DecimalHasNo(m.frameCount, NUL);
    hide Decimal;
    var t := if m.truncated then "true" else "false";
    assert 'p' !in t && NUL !in t;
    assert 'p' !in ",\"frame_count\":" && NUL !in ",\"frame_count\":";
    assert 'p' !in ",\"truncated\":" && NUL !in ",\"truncated\":";
  }

  lemma {:induction false} OpeningPlain(carrier: uint32, others: string)
    requires Plain(others)
    ensures 'p' !in Opening(carrier, others) && NUL !in Opening(carrier, others)
  {
    DecimalHasNo(carrier, 'p');
    DecimalHasNo(carrier, NUL);
    hide Decimal;
    assert 'p' !in CARRIER_KEY && NUL !in CARRIER_KEY && 'p' !in "{" && NUL !in "{" && 'p' !in ":" && NUL !in ":";
  }

  /** The key cannot start before its place: its second letter occurs nowhere there. */
  lemma {:induction false} NoEarlierKey(head: string, rest: string, j: nat)
    requires 'p' !in head && j < |head|
    ensures !At(head + (PULSES_KEY + rest), j, PULSES_KEY)
  {
    var t := head + (PULSES_KEY + rest);
    assert t[j + 1] == if j + 1 < |head| then head[j + 1] else PULSES_KEY[0];
    if j + 1 < |head| { assert head[j + 1] in head; }
    Differs(t, j, PULSES_KEY, 1);
  }

  lemma {:induction false} CompactShaped(carrier: uint32, others: string, pulses: seq<uint16>)
    requires Plain(others)
    ensures CompactLayout(carrier, others, pulses).Shaped()
  {
    OpeningPlain(carrier, others);
    hide Opening, At, Layout.ArrayText;
    var l := CompactLayout(carrier, others, pulses);
    forall j | 0 <= j < |l.head| ensures !At(l.Text(), j, PULSES_KEY) {
      NoEarlierKey(l.head, l.mid + ("[" + (l.ArrayText() + l.tail)), j);
    }
  }

  // ---- the carrier ----

  lemma {:induction false} ReadsCarrier(carrier: uint32, others: string, rest: string)
    requires Plain(others)
    ensures Carrier(Buffer(Opening(carrier, others) + rest)) == carrier
  {
    var t := Opening(carrier, others) + rest;
    var buf := Buffer(t);
    var d := Decimal(carrier);
    DecimalHasNo(carrier, NUL);
    hide Decimal;
    var after := others + rest + [NUL];
    OpeningInBuffer("{", CARRIER_KEY, ":", d, others, rest);
    hide Opening, Buffer, Carrier;
    FiveAt(buf, "{", CARRIER_KEY, ":", d, after);
    CarrierFrom(buf, carrier, after);
  }

  lemma {:induction false} OpeningInBuffer(a: string, b: string, c: string, d: string, e: string, rest: string)
    ensures Buffer((a + (b + (c + (d + e)))) + rest) == a + (b + (c + (d + (e + rest + [NUL]))))
  {
  }

  lemma {:induction false} FiveAt(buf: string, a: string, b: string, c: string, d: string, e: string)
    requires buf == a + (b + (c + (d + e)))
    ensures At(buf, 0, a) && At(buf, |a|, b) && At(buf, |a| + |b|, c) && At(buf, |a| + |b| + |c|, d)
    ensures At(buf, |a| + |b| + |c| + |d|, e)
  {
    assert At(buf, 0, buf);
    hide At;
    AtSplit(buf, 0, a, b + (c + (d + e)));
    AtSplit(buf, |a|, b, c + (d + e));
    AtSplit(buf, |a| + |b|, c, d + e);
    AtSplit(buf, |a| + |b| + |c|, d, e);
  }

  lemma {:induction false} CarrierFrom(buf: string, carrier: uint32, after: string)
    requires At(buf, 0, "{") && At(buf, 1, CARRIER_KEY) && At(buf, 15, ":") && At(buf, 16, Decimal(carrier))
    requires At(buf, 16 + |Decimal(carrier)|, after) && |after| > 0 && after[0] == ','
    ensures Carrier(buf) == carrier
  {
    hide Decimal;
    AtIndex(buf, 0, "{");
    AtIndex(buf, 1, CARRIER_KEY);
    AtIndex(buf, 15, ":");
    AtIndex(buf, 16 + |Decimal(carrier)|, after);
    assert buf[0 + 0] == "{"[0] && buf[15 + 0] == ":"[0] && buf[16 + |Decimal(carrier)| + 0] == after[0];
    Differs(buf, 0, CARRIER_KEY, 0);
    StrStrFirst(buf, 0, 1, CARRIER_KEY);
    forall j | 1 <= j < 15 ensures buf[j] != ':' && buf[j] != NUL {
      assert buf[1 + (j - 1)] == CARRIER_KEY[j - 1];
    }
    StrChrFirst(buf, 1, 15, ':');
    ReadsDecimal(buf, 16, 16, carrier);
    hide StrStr, StrChr, StrToUL, At;
  }

  /** One to 800 pulses and any carrier come back exactly. */
  lemma {:induction false} CompactReadsBack(carrier: uint32, others: string, pulses: seq<uint16>)
    requires Plain(others) && 1 <= |pulses| <= IR_MAX_PULSES
    ensures var t := CompactText(carrier, others, pulses);
            Offered(Buffer(t), |t|) == Decode(Buffer(t), |t|) == Some(IrMessage(carrier, 1, false, pulses))
  {
    var l := CompactLayout(carrier, others, pulses);
    CompactLayoutText(carrier, others, pulses);
    CompactShaped(carrier, others, pulses);
    ReadsCarrier(carrier, others, PULSES_KEY + (l.mid + ("[" + (l.ArrayText() + l.tail))));
    OfferedIs(l);
    assert NoEarlyReturn(l.items);
    TotalReadFull(l.items);
    assert Values(l.items) == pulses;
    assert l.items[..|l.items|] == l.items;
    OfferedCarrier(Buffer(l.Text()), |l.Text()|);
    hide Offered, Decode, CompactText, Carrier, Layout.ArrayText;
  }

  lemma {:induction false} OfferedCarrier(buf: string, len: nat)
    requires Terminated(buf, len)
    ensures Offered(buf, len).Some? ==>
              Offered(buf, len) == Decode(buf, len) && Offered(buf, len).value.carrierFreq == Carrier(buf)
  {
    hide ArrayStart, ScanPulses, Carrier, DigitAhead;
  }

  /** decode inverts encode on everything a capture can hold, but for the two
      fields that only travel outward. */
  lemma {:induction false} EncodeReadsBack(m: IrMessage)
    requires 1 <= |m.pulses| <= IR_MAX_PULSES
    ensures Decode(Buffer(Render(m)), |Render(m)|) == Some(IrMessage(m.carrierFreq, 1, false, m.pulses))
  {
    RenderIsCompact(m);
    MetadataPlain(m);
    CompactReadsBack(m.carrierFreq, Metadata(m), m.pulses);
    hide Decode, Render, CompactText, Buffer;
  }

  /** What the backend sends is what the hub will transmit. */
  lemma {:induction false} SendReadsBack(carrier: uint32, pulses: seq<uint16>)
    requires 1 <= |pulses| <= IR_MAX_PULSES
    ensures var t := SendText(carrier, pulses);
            Offered(Buffer(t), |t|) == Some(IrMessage(carrier, 1, false, pulses))
  {
    CompactReadsBack(carrier, ",", pulses);
    hide Offered, Decode, CompactText, Buffer;
  }
}
