/** The one JSON shape on the wire: the bounded encoder and the tolerant scanner. */
module JsonCodec {
  import opened Config
  import opened CText

  // ---- encoding ----

  function Head(m: IrMessage): string {
    "{\"carrier_freq\":" + Decimal(m.carrierFreq) + ",\"frame_count\":" + Decimal(m.frameCount) +
    ",\"truncated\":" + (if m.truncated then "true" else "false") + ",\"pulses\":["
  }

  /** The numbers with commas between them. */
  function PulseList(p: seq<uint16>): string
    decreases |p|
  {
    if p == [] then ""
    else PulseList(p[..|p| - 1]) + (if |p| == 1 then "" else ",") + Decimal(p[|p| - 1])
  }

  function PulseText(i: nat, pulse: uint16): string {
    (if i == 0 then "" else ",") + Decimal(pulse)
  }

  lemma {:induction false} PulseListNext(p: seq<uint16>, i: nat)
    requires i < |p|
    ensures PulseList(p[..i + 1]) == PulseList(p[..i]) + PulseText(i, p[i])
  {
    hide Decimal;
    assert p[..i + 1][..i] == p[..i];
  }

  /** The payload of irhub/learned. */
  function Render(m: IrMessage): string {
    Head(m) + PulseList(m.pulses) + "]}"
  }

  /** How much of a text snprintf stores in `size` cells, beside the NUL. */
  function Stored(text: string, size: nat): (k: nat)
    ensures k <= |text| && (size > 0 ==> k < size)
  {
    if |text| < size then |text| else if size == 0 then 0 else size - 1
  }

  /** snprintf(out + pos, size, "%s", text): writes what fits and a NUL, nothing
      else, and returns the full length. */
  method Snprintf(out: array<char>, pos: nat, size: nat, text: string) returns (n: nat)
    requires pos + size <= out.Length
    modifies out
    ensures n == |text|
    ensures out[..pos] == old(out[..pos])
    ensures size == 0 ==> out[..] == old(out[..])
    ensures size > 0 ==>
              var k := Stored(text, size);
              out[pos..pos + k] == text[..k] && out[pos + k] == NUL && out[pos + k + 1..] == old(out[pos + k + 1..])
  {
    var i := 0;
    while i < |text| && i + 1 < size
      invariant i <= |text| && (i == 0 || i < size)
      invariant out[..pos] == old(out[..pos]) && out[pos + i..] == old(out[pos + i..])
      invariant out[pos..pos + i] == text[..i]
    {
      out[pos + i] := text[i];
      i := i + 1;
      assert out[pos..pos + i] == out[pos..pos + i - 1] + [text[i - 1]];
      assert out[pos + i..] == old(out[pos + i - 1..])[1..];
    }
    if size > 0 { out[pos + i] := NUL; }
    n := |text|;
  }

  /** One piece of the text, behind the ones before it: whether it fitted. */
  method Append(out: array<char>, pos: nat, outLen: nat, text: string) returns (ok: bool)
    requires pos <= outLen <= out.Length
    modifies out
    ensures ok <==> pos + |text| < outLen
    ensures ok ==> out[..pos + |text|] == old(out[..pos]) + text && out[pos + |text|] == NUL
    ensures out[outLen..] == old(out[outLen..])
  {
    var n := Snprintf(out, pos, outLen - pos, text);
    ok := n < outLen - pos;
    if ok {
      assert out[..pos + n] == out[..pos] + out[pos..pos + n];
    }
    if pos < outLen {
      var k := pos + Stored(text, outLen - pos) + 1;
      assert out[outLen..] == out[k..][outLen - k..];
    }
  }

  /** encode_ir_message: the rendered text if it and its NUL fit, else 0. */
  method EncodeIrMessage(m: IrMessage, out: array<char>, outLen: nat) returns (r: nat)
    requires outLen <= out.Length
    modifies out
    ensures |Render(m)| < outLen ==> r == |Render(m)| && out[..r] == Render(m) && out[r] == NUL
    ensures |Render(m)| >= outLen ==> r == 0
    ensures out[outLen..] == old(out[outLen..])
  {
    hide Head, Decimal, PulseList, PulseText;
    PulseListGrows(m.pulses);
    EmptyList();
    var ok := Append(out, 0, outLen, Head(m));
    if !ok { return 0; }
    var pos := |Head(m)|;
    for i := 0 to |m.pulses|
      invariant pos == |Head(m) + PulseList(m.pulses[..i])| < outLen
      invariant out[..pos] == Head(m) + PulseList(m.pulses[..i])
      invariant out[outLen..] == old(out[outLen..])
    {
      PulseListNext(m.pulses, i);
      assert |PulseList(m.pulses[..i + 1])| <= |PulseList(m.pulses)|;
      ok := Append(out, pos, outLen, PulseText(i, m.pulses[i]));
      if !ok { return 0; }
      pos := pos + |PulseText(i, m.pulses[i])|;
    }
    assert m.pulses[..|m.pulses|] == m.pulses;
    ok := Append(out, pos, outLen, "]}");
    r := if ok then pos + 2 else 0;
  }

  lemma {:induction false} EmptyList()
    ensures PulseList([]) == ""
  {
  }

  lemma {:induction false} PulseListGrows(p: seq<uint16>)
    ensures forall i {:trigger p[..i]} :: 0 <= i <= |p| ==> |PulseList(p[..i])| <= |PulseList(p)|
    decreases |p|
  {
    assert p[..|p|] == p;
    if p == [] {
    } else {
      var front := p[..|p| - 1];
      PulseListGrows(front);
      forall i | 0 <= i < |p| ensures |PulseList(p[..i])| <= |PulseList(p)| {
        assert front[..i] == p[..i];
      }
    }
  }

  lemma {:induction false} DecimalWidth(n: nat, w: nat)
    requires w > 0 && (w == 5 ==> n < 100000) && (w == 10 ==> n < 10000000000) && w in {1, 2, 3, 4, 5, 6, 7, 8, 9, 10}
    requires w == 1 ==> n < 10
    requires w == 2 ==> n < 100
    requires w == 3 ==> n < 1000
    requires w == 4 ==> n < 10000
    requires w == 6 ==> n < 1000000
    requires w == 7 ==> n < 10000000
    requires w == 8 ==> n < 100000000
    requires w == 9 ==> n < 1000000000
    ensures |Decimal(n)| <= w
    decreases w
  {
    if n < 10 {
    } else {
      DecimalWidth(n / 10, w - 1);
    }
  }

  /** A capture never overflows the publish buffer. */
  lemma {:induction false} RenderFits(m: IrMessage)
    requires |m.pulses| <= IR_MAX_PULSES
    ensures |Render(m)| <= 4876 < MQTT_MAX_PAYLOAD_LEN
  {
    DecimalWidth(m.carrierFreq, 10);
    DecimalWidth(m.frameCount, 5);
    PulseListFits(m.pulses);
    hide Decimal, PulseList;
  }

  lemma {:induction false} PulseListFits(p: seq<uint16>)
    ensures |PulseList(p)| <= if p == [] then 0 else 6 * |p| - 1
    decreases |p|
  {
    if p == [] {
    } else {
      PulseListFits(p[..|p| - 1]);
      DecimalWidth(p[|p| - 1], 5);
    }
  }

  // ---- decoding ----

  predicate IsSeparator(c: char) {
    c == ' ' || c == ',' || c == '\n' || c == '\t'
  }

  /** The inner loop that skips white space and commas. */
  function SkipSeparators(buf: string, p: nat, end: nat): (q: nat)
    requires p <= end <= |buf|
    ensures p <= q <= end
    decreases end - p
  {
    if p < end && IsSeparator(buf[p]) then SkipSeparators(buf, p + 1, end) else p
  }

  /** Conversion of a long to uint16_t. */
  function ToUint16(v: int): uint16 {
    v % 0x1_0000
  }

  /** The array loop: the pulses it keeps and where it stops. */
  function ScanPulses(buf: string, p: nat, end: nat, acc: seq<uint16>): (r: (seq<uint16>, nat))
    requires p <= end && Terminated(buf, end)
    ensures r.1 <= end
    decreases end - p
  {
    if p < end && buf[p] != ']' && |acc| < IR_MAX_PULSES then
      var q := SkipSeparators(buf, p, end);
      if q >= end || buf[q] == ']' then (acc, q)
      else
        var (v, next) := StrToL(buf, q);
        StrToLStops(buf, q, end);
        if next == q then (acc, q) else ScanPulses(buf, next, end, acc + [ToUint16(v)])
    else (acc, p)
  }

  /** A digit before the closing bracket. */
  predicate DigitAhead(buf: string, p: nat, end: nat)
    requires p <= end <= |buf|
    decreases end - p
  {
    p < end && buf[p] != ']' && (IsDigit(buf[p]) || DigitAhead(buf, p + 1, end))
  }

  function Carrier(buf: string): uint32 {
    match StrStr(buf, 0, "\"carrier_freq\"")
    case None => IR_CARRIER_HZ
    case Some(cf) =>
      match StrChr(buf, cf, ':')
      case None => IR_CARRIER_HZ
      case Some(colon) => StrToUL(buf, colon + 1)
  }

  /** The position after the bracket that opens the pulse array. */
  function ArrayStart(buf: string, len: nat): (r: Option<nat>)
    requires Terminated(buf, len)
    ensures r.Some? ==> r.value <= len
  {
    match StrStr(buf, 0, "\"pulses\"")
    case None => None
    case Some(arr) =>
      StrStrStops(buf, 0, "\"pulses\"", len);
      StrChrStops(buf, arr, '[', len);
      match StrChr(buf, arr, '[')
      case None => None
      case Some(bracket) => Some(bracket + 1)
  }

  /** decode_ir_message: None is its false. */
  function Decode(buf: string, len: nat): Option<IrMessage>
    requires Terminated(buf, len)
  {
    match ArrayStart(buf, len)
    case None => None
    case Some(start) =>
      var (pulses, at) := ScanPulses(buf, start, len, []);
      if pulses == [] then None
      else Some(IrMessage(Carrier(buf), 1, |pulses| >= IR_MAX_PULSES && DigitAhead(buf, at, len), pulses))
  }

  /** The loop over the numbers of the array. */
  method ReadPulses(buf: string, start: nat, len: nat) returns (pulses: seq<uint16>, p: nat)
    requires Terminated(buf, len) && start <= len
    ensures p <= len && (pulses, p) == ScanPulses(buf, start, len, [])
  {
    hide StrToL;
    p, pulses := start, [];
    while p < len && buf[p] != ']' && |pulses| < IR_MAX_PULSES
      invariant p <= len
      invariant ScanPulses(buf, p, len, pulses) == ScanPulses(buf, start, len, [])
      decreases len - p
    {
      ghost var before := p;
      while p < len && IsSeparator(buf[p])
        invariant before <= p <= len && SkipSeparators(buf, p, len) == SkipSeparators(buf, before, len)
      {
        p := p + 1;
      }
      if p >= len || buf[p] == ']' { break; }
      var (v, next) := StrToL(buf, p);
      StrToLStops(buf, p, len);
      if next == p { break; }
      pulses := pulses + [ToUint16(v)];
      p := next;
    }
  }

  /** Whether a digit comes before the end of the array. */
  method FindDigit(buf: string, start: nat, len: nat) returns (found: bool)
    requires start <= len <= |buf|
    ensures found == DigitAhead(buf, start, len)
  {
    var p := start;
    while p < len && buf[p] != ']'
      invariant start <= p <= len && DigitAhead(buf, p, len) == DigitAhead(buf, start, len)
    {
      if IsDigit(buf[p]) { return true; }
      p := p + 1;
    }
    found := false;
  }

  /** The scanner as the firmware runs it. */
  method DecodeIrMessage(buf: string, len: nat) returns (r: Option<IrMessage>)
    requires Terminated(buf, len)
    ensures r == Decode(buf, len)
  {
    hide Carrier, ArrayStart, ScanPulses, DigitAhead;
    var carrier := Carrier(buf);
    var start := ArrayStart(buf, len);
    if start == None { return None; }
    var pulses, p := ReadPulses(buf, start.value, len);
    var truncated := false;
    if |pulses| >= IR_MAX_PULSES { truncated := FindDigit(buf, p, len); }
    r := if |pulses| > 0 then Some(IrMessage(carrier, 1, truncated, pulses)) else None;
  }

  /** What data_cb hands to the transmit queue: nothing for a payload that does
      not decode or that carries too many pulses. */
  function Offered(buf: string, len: nat): Option<IrMessage>
    requires Terminated(buf, len)
  {
    var m := Decode(buf, len);
    if m.Some? && m.value.truncated then None else m
  }

  // ---- payloads of the agreed shape, in any layout ----

  /** White space JSON allows between tokens. */
  predicate JsonSpace(s: string) {
    forall i :: 0 <= i < |s| ==> s[i] == ' ' || s[i] == '\n' || s[i] == '\t' || s[i] == '\r'
  }

  /** One array element with the white space around it. */
  datatype Item = Item(pre: string, value: uint16, post: string) {
    predicate Shaped() {
      JsonSpace(pre) && JsonSpace(post)
    }
  }

  function Values(items: seq<Item>): (v: seq<uint16>)
    ensures |v| == |items|
    ensures forall i :: 0 <= i < |items| ==> v[i] == items[i].value
  {
    seq(|items|, i requires 0 <= i < |items| => items[i].value)
  }

  /** What follows an element: its white space, then the other elements. */
  function Rest(post: string, items: seq<Item>): string
    decreases |items|
  {
    if items == [] then post + "]"
    else post + "," + items[0].pre + Decimal(items[0].value) + Rest(items[0].post, items[1..])
  }

  /** How many more elements the scanner reads: it stops when the array is
      full, and at a carriage return in front of a comma. */
  function ReadCount(post: string, items: seq<Item>, room: nat): (n: nat)
    ensures n <= |items| && n <= room
    decreases |items|
  {
    if items == [] || room == 0 || '\r' in post then 0 else 1 + ReadCount(items[0].post, items[1..], room - 1)
  }

  lemma {:induction false} SkipSeparatorsTo(buf: string, p: nat, end: nat, k: nat)
    requires p <= k < end <= |buf| && !IsSeparator(buf[k])
    requires forall j :: p <= j < k ==> IsSeparator(buf[j])
    ensures SkipSeparators(buf, p, end) == k
    decreases k - p
  {
    if p >= k {
    } else {
      SkipSeparatorsTo(buf, p + 1, end, k);
    }
  }

  /** First character of s that the separator loop does not skip. */
  function Firm(s: string): (k: nat)
    ensures k <= |s|
    ensures k < |s| ==> !IsSeparator(s[k])
    ensures forall j :: 0 <= j < k ==> IsSeparator(s[j])
    decreases |s|
  {
    if s == [] || !IsSeparator(s[0]) then 0 else 1 + Firm(s[1..])
  }

  /** One round of the array loop: over the text s to a number. */
  lemma {:induction false} Cross(buf: string, p: nat, end: nat, s: string, v: uint16, acc: seq<uint16>)
    requires Terminated(buf, end) && At(buf, p, s + Decimal(v)) && p + |s + Decimal(v)| < end
    requires !IsDigit(buf[p + |s + Decimal(v)|]) && |acc| < IR_MAX_PULSES
    requires (s != [] ==> s[0] != ']') && forall j :: Firm(s) <= j < |s| ==> IsSpace(s[j])
    ensures ScanPulses(buf, p, end, acc) == ScanPulses(buf, p + |s + Decimal(v)|, end, acc + [v])
  {
    hide Decimal, SkipSeparators, Firm, At, IsSpace, StrToL, JsonSpace;
    var k := p + Firm(s);
    AtSplit(buf, p, s, Decimal(v));
    NumberStarts(buf, p + |s|, v);
    SkipsToFirm(buf, p, end, s);
    ReadsDecimal(buf, k, p + |s|, v);
    if s != [] { AtIndex(buf, p, s); assert buf[p + 0] == s[0]; }
  }

  lemma {:induction false} NumberStarts(buf: string, p: nat, v: nat)
    requires At(buf, p, Decimal(v))
    ensures p < |buf| && IsDigit(buf[p])
  {
    AtIndex(buf, p, Decimal(v));
    assert buf[p + 0] == Decimal(v)[0];
  }

  /** The separator loop crosses s as far as its first firm character. */
  lemma {:induction false} SkipsToFirm(buf: string, p: nat, end: nat, s: string)
    requires At(buf, p, s) && p + |s| < end <= |buf| && IsDigit(buf[p + |s|])
    requires forall j :: Firm(s) <= j < |s| ==> IsSpace(s[j])
    ensures SkipSeparators(buf, p, end) == p + Firm(s)
    ensures forall j :: p + Firm(s) <= j < p + |s| ==> IsSpace(buf[j])
    ensures buf[p + Firm(s)] != ']'
  {
    AtIndex(buf, p, s);
    var k := Firm(s);
    forall j | p <= j < p + k ensures IsSeparator(buf[j]) { assert buf[p + (j - p)] == s[j - p]; }
    assert k < |s| ==> buf[p + k] == s[k];
    SkipSeparatorsTo(buf, p, end, p + k);
    forall j | p + k <= j < p + |s| ensures IsSpace(buf[j]) { assert buf[p + (j - p)] == s[j - p]; }
  }

  /** The array loop stops at a position where no number can be read. */
  lemma {:induction false} Stuck(buf: string, p: nat, end: nat, s: string, acc: seq<uint16>)
    requires Terminated(buf, end) && At(buf, p, s) && p + |s| <= end
    requires s != [] && (s[|s| - 1] == ',' || s[|s| - 1] == ']') && JsonSpace(s[..|s| - 1])
    requires s[|s| - 1] == ',' ==> '\r' in s
    ensures ScanPulses(buf, p, end, acc).0 == acc
  {
    hide StrToL, SkipSeparators;
    AtIndex(buf, p, s);
    var k, last := Firm(s), |s| - 1;
    assert forall j :: 0 <= j < last ==> s[j] == s[..last][j];
    if s[last] == ',' {
      var c :| 0 <= c < |s| && s[c] == '\r';
      assert k <= c;
    }
    forall j | p <= j < p + k ensures IsSeparator(buf[j]) { assert buf[p + (j - p)] == s[j - p]; }
    assert buf[p + k] == s[k] && buf[p + 0] == s[0];
    SkipSeparatorsTo(buf, p, end, p + k);
    if s[k] != ']' {
      forall j | p + k <= j < p + last ensures IsSpace(buf[j]) { assert buf[p + (j - p)] == s[j - p]; }
      assert buf[p + last] == s[last];
      ReadsNothing(buf, p + k, p + last);
    }
  }

  lemma {:induction false} DigitAheadIs(buf: string, p: nat, end: nat, k: nat)
    requires p <= k < end <= |buf| && forall j :: p <= j < k ==> buf[j] != ']' && !IsDigit(buf[j])
    requires buf[k] == ']' || IsDigit(buf[k])
    ensures DigitAhead(buf, p, end) == IsDigit(buf[k])
    decreases k - p
  {
    if p >= k {
    } else {
      DigitAheadIs(buf, p + 1, end, k);
    }
  }

  predicate AllShaped(items: seq<Item>) {
    forall i :: 0 <= i < |items| ==> items[i].Shaped()
  }

  /** The text up to the next element's number. */
  function Gap(post: string, item: Item): string {
    post + "," + item.pre
  }

  lemma {:induction false} RestCons(buf: string, p: nat, post: string, items: seq<Item>)
    requires items != [] && At(buf, p, Rest(post, items))
    ensures var s := Gap(post, items[0]) + Decimal(items[0].value);
            && At(buf, p, s) && At(buf, p + |s|, Rest(items[0].post, items[1..]))
            && |Rest(post, items)| == |s| + |Rest(items[0].post, items[1..])|
            && At(buf, p, post + ",")
  {
    var tail := Rest(items[0].post, items[1..]);
    var s := Gap(post, items[0]) + Decimal(items[0].value);
    hide Decimal, At;
    assert Rest(post, items) == s + tail;
    AtSplit(buf, p, s, tail);
    var gapTail := items[0].pre + Decimal(items[0].value) + tail;
    assert Rest(post, items) == (post + ",") + gapTail;
    AtSplit(buf, p, post + ",", gapTail);
  }

  /** What comes right after an element is no digit. */
  lemma {:induction false} RestStart(buf: string, p: nat, post: string, items: seq<Item>)
    requires JsonSpace(post) && At(buf, p, Rest(post, items))
    ensures p < |buf| && !IsDigit(buf[p]) && |Rest(post, items)| > 0
  {
    AtIndex(buf, p, Rest(post, items));
    hide Decimal;
    assert buf[p + 0] == Rest(post, items)[0];
  }

  /** White space without a carriage return is crossed up to the comma, and the
      rest of the gap is white space strtol skips. */
  lemma {:induction false} GapCrossable(post: string, item: Item)
    requires JsonSpace(post) && JsonSpace(item.pre) && '\r' !in post
    ensures var s := Gap(post, item);
            s != [] && s[0] != ']' && forall j :: Firm(s) <= j < |s| ==> IsSpace(s[j])
  {
    var s := Gap(post, item);
    var k := Firm(s);
    assert forall j {:trigger post[j]} :: 0 <= j < |post| ==> post[j] in post && s[j] == post[j];
    assert s[|post|] == ',';
    if k <= |post| {
      assert k < |s|;
      assert k < |post| ==> IsSeparator(post[k]);
      assert false;
    }
    forall j | k <= j < |s| ensures IsSpace(s[j]) {
      assert s[j] == item.pre[j - |post| - 1];
    }
  }

  /** A full array: is there another number before the bracket? */
  lemma {:induction false} FullArray(buf: string, p: nat, end: nat, post: string, items: seq<Item>)
    requires Terminated(buf, end) && At(buf, p, Rest(post, items)) && p + |Rest(post, items)| <= end
    requires JsonSpace(post) && AllShaped(items)
    ensures DigitAhead(buf, p, end) <==> items != []
  {
    hide Decimal, DigitAhead;
    if items == [] {
      FullArrayEnds(buf, p, end, post);
    } else {
      RestCons(buf, p, post, items);
      RestStart(buf, p + |Gap(post, items[0]) + Decimal(items[0].value)|, items[0].post, items[1..]);
      var g := Gap(post, items[0]);
      AtSplit(buf, p, g, Decimal(items[0].value));
      NumberStarts(buf, p + |g|, items[0].value);
      AtIndex(buf, p, g);
      assert items[0].Shaped();
      forall j | p <= j < p + |g| ensures buf[j] != ']' && !IsDigit(buf[j]) { assert buf[p + (j - p)] == g[j - p]; }
      DigitAheadIs(buf, p, end, p + |g|);
    }
  }

  lemma {:induction false} FullArrayEnds(buf: string, p: nat, end: nat, post: string)
    requires Terminated(buf, end) && At(buf, p, post + "]") && p + |post| + 1 <= end && JsonSpace(post)
    ensures !DigitAhead(buf, p, end)
  {
    AtIndex(buf, p, post + "]");
    assert buf[p + |post|] == (post + "]")[|post|] == ']';
    forall j | p <= j < p + |post| ensures buf[j] != ']' && !IsDigit(buf[j]) {
      assert buf[p + (j - p)] == (post + "]")[j - p] == post[j - p];
    }
    DigitAheadIs(buf, p, end, p + |post|);
  }

  lemma {:induction false} ValuesCons(items: seq<Item>, k: nat)
    requires items != [] && k < |items|
    ensures [items[0].value] + Values(items[1..][..k]) == Values(items[..k + 1])
  {
    assert forall i {:trigger items[1..][..k][i]} :: 0 <= i < k ==> items[1..][..k][i] == items[..k + 1][i + 1];
  }

  /** The array loop from just after an element on. */
  lemma {:induction false} ScanRest(buf: string, p: nat, end: nat, post: string, items: seq<Item>, acc: seq<uint16>)
    requires Terminated(buf, end) && At(buf, p, Rest(post, items)) && p + |Rest(post, items)| <= end
    requires JsonSpace(post) && AllShaped(items) && |acc| <= IR_MAX_PULSES
    ensures var k, r := ReadCount(post, items, IR_MAX_PULSES - |acc|), ScanPulses(buf, p, end, acc);
            && r.0 == acc + Values(items[..k])
            && (|acc| + k == IR_MAX_PULSES ==> (DigitAhead(buf, r.1, end) <==> k < |items|))
    decreases |items|
  {
    hide Decimal, At, IsSpace, StrToL, SkipSeparators, JsonSpace, Firm, DigitAhead, ScanPulses, Terminated;
    if |acc| == IR_MAX_PULSES {
      FullArray(buf, p, end, post, items);
      ScanFull(buf, p, end, acc);
    } else if items == [] {
      LastStuck(buf, p, end, post, acc);
    } else {
      RestCons(buf, p, post, items);
      var s := Gap(post, items[0]);
      if '\r' in post {
        CommaStuck(buf, p, end, post, acc);
      } else {
        var v, p' := items[0].value, p + |s + Decimal(items[0].value)|;
        assert items[0].Shaped();
        GapCrossable(post, items[0]);
        RestStart(buf, p', items[0].post, items[1..]);
        Cross(buf, p, end, s, v, acc);
        ScanRest(buf, p', end, items[0].post, items[1..], acc + [v]);
        var k := ReadCount(items[0].post, items[1..], IR_MAX_PULSES - |acc| - 1);
        ValuesCons(items, k);
        assert acc + [v] + Values(items[1..][..k]) == acc + Values(items[..k + 1]);
      }
    }
  }

  lemma {:induction false} ScanFull(buf: string, p: nat, end: nat, acc: seq<uint16>)
    requires Terminated(buf, end) && p <= end && |acc| == IR_MAX_PULSES
    ensures ScanPulses(buf, p, end, acc) == (acc, p)
  {
  }

  lemma {:induction false} LastStuck(buf: string, p: nat, end: nat, post: string, acc: seq<uint16>)
    requires Terminated(buf, end) && At(buf, p, post + "]") && p + |post| + 1 <= end && JsonSpace(post)
    ensures ScanPulses(buf, p, end, acc).0 == acc
  {
    assert (post + "]")[..|post|] == post;
    Stuck(buf, p, end, post + "]", acc);
  }

  lemma {:induction false} CommaStuck(buf: string, p: nat, end: nat, post: string, acc: seq<uint16>)
    requires Terminated(buf, end) && At(buf, p, post + ",") && p + |post| + 1 <= end && JsonSpace(post) && '\r' in post
    ensures ScanPulses(buf, p, end, acc).0 == acc
  {
    assert (post + ",")[..|post|] == post;
    var c :| 0 <= c < |post| && post[c] == '\r';
    assert (post + ",")[c] == '\r';
    Stuck(buf, p, end, post + ",", acc);
  }

  // ---- whole payloads ----

  const PULSES_KEY: string := "\"pulses\""

  /** A payload: anything, the key, anything up to the bracket, the elements. */
  datatype Layout = Layout(head: string, mid: string, blank: string, items: seq<Item>, tail: string) {
    function ArrayText(): string {
      if items == [] then blank + "]"
      else items[0].pre + Decimal(items[0].value) + Rest(items[0].post, items[1..])
    }

    function Text(): string {
      head + (PULSES_KEY + (mid + ("[" + (ArrayText() + tail))))
    }

    ghost predicate Shaped() {
      && NUL !in head && NUL !in mid && '[' !in mid
      && (forall j :: 0 <= j < |head| ==> !At(Text(), j, PULSES_KEY))
      && JsonSpace(blank) && AllShaped(items)
    }

    function ArrayAt(): nat {
      |head| + |PULSES_KEY| + |mid| + 1
    }
  }

  /** The payload as it lies in the receive buffer. */
  function Buffer(text: string): (buf: string)
    ensures Terminated(buf, |text|)
  {
    text + [NUL]
  }

  lemma {:induction false} AtInBuffer(text: string, p: nat, s: string)
    requires NUL !in s && (s != [] || p <= |text|)
    ensures At(Buffer(text), p, s) <==> At(text, p, s)
  {
    var buf := Buffer(text);
    if p + |s| <= |text| {
      assert buf[p..p + |s|] == text[p..p + |s|];
    } else if At(buf, p, s) {
      LastCharacter(buf, p, s);
    }
  }

  lemma {:induction false} LastCharacter(buf: string, p: nat, s: string)
    requires At(buf, p, s) && s != []
    ensures buf[p + |s| - 1] in s
  {
    AtIndex(buf, p, s);
    assert buf[p + (|s| - 1)] == s[|s| - 1];
  }

  /** Where the pieces of a payload lie. */
  lemma {:induction false} PiecesAt(l: Layout)
    ensures At(l.Text(), 0, l.head) && At(l.Text(), |l.head|, PULSES_KEY)
    ensures At(l.Text(), |l.head| + |PULSES_KEY|, l.mid) && At(l.Text(), l.ArrayAt() - 1, "[")
    ensures At(l.Text(), l.ArrayAt(), l.ArrayText()) && l.ArrayAt() + |l.ArrayText()| <= |l.Text()|
  {
    var t := l.Text();
    var a4 := l.ArrayText() + l.tail;
    var a3 := "[" + a4;
    var a2 := l.mid + a3;
    var a1 := PULSES_KEY + a2;
    assert At(t, 0, t);
    hide At, Layout.ArrayText;
    AtSplit(t, 0, l.head, a1);
    AtSplit(t, |l.head|, PULSES_KEY, a2);
    AtSplit(t, |l.head| + |PULSES_KEY|, l.mid, a3);
    AtSplit(t, l.ArrayAt() - 1, "[", a4);
    AtSplit(t, l.ArrayAt(), l.ArrayText(), l.tail);
  }

  lemma {:induction false} NoBracketBetween(buf: string, from: nat, key: string, mid: string)
    requires At(buf, from, key) && At(buf, from + |key|, mid)
    requires '[' !in key && NUL !in key && '[' !in mid && NUL !in mid
    ensures forall j :: from <= j < from + |key| + |mid| ==> buf[j] != '[' && buf[j] != NUL
  {
    AtIndex(buf, from, key);
    AtIndex(buf, from + |key|, mid);
    forall j | from <= j < from + |key| + |mid| ensures buf[j] != '[' && buf[j] != NUL {
      if j < from + |key| {
        assert buf[from + (j - from)] == key[j - from] && key[j - from] in key;
      } else {
        assert buf[from + |key| + (j - from - |key|)] == mid[j - from - |key|] && mid[j - from - |key|] in mid;
      }
    }
  }

  lemma {:induction false} FindsKey(l: Layout)
    requires l.Shaped()
    ensures StrStr(Buffer(l.Text()), 0, PULSES_KEY) == Some(|l.head|)
  {
    var t, buf := l.Text(), Buffer(l.Text());
    PiecesAt(l);
    hide Layout.Text, Layout.ArrayText;
    AtInBuffer(t, |l.head|, PULSES_KEY);
    AtIndex(t, 0, l.head);
    forall j | 0 <= j < |l.head| ensures !At(buf, j, PULSES_KEY) && j < |buf| && buf[j] != NUL {
      AtInBuffer(t, j, PULSES_KEY);
      assert t[0 + j] == l.head[j] && l.head[j] in l.head;
    }
    StrStrFirst(buf, 0, |l.head|, PULSES_KEY);
    hide StrStr, At;
  }

  lemma {:induction false} FindsBracket(l: Layout)
    requires l.Shaped()
    ensures StrChr(Buffer(l.Text()), |l.head|, '[') == Some(l.ArrayAt() - 1)
  {
    var t, buf := l.Text(), Buffer(l.Text());
    PiecesAt(l);
    hide Layout.Text, Layout.ArrayText;
    AtInBuffer(t, |l.head|, PULSES_KEY);
    AtInBuffer(t, |l.head| + |PULSES_KEY|, l.mid);
    AtIndex(t, l.ArrayAt() - 1, "[");
    assert t[l.ArrayAt() - 1 + 0] == "["[0];
    hide StrChr, At;
    NoBracketBetween(buf, |l.head|, PULSES_KEY, l.mid);
    StrChrFirst(buf, |l.head|, l.ArrayAt() - 1, '[');
  }

  lemma {:induction false} FindsArray(l: Layout)
    requires l.Shaped()
    ensures ArrayStart(Buffer(l.Text()), |l.Text()|) == Some(l.ArrayAt())
  {
    FindsKey(l);
    FindsBracket(l);
    hide StrStr, StrChr, Layout.Text, Buffer;
  }

  /** How many elements of a payload the scanner reads. */
  function TotalRead(items: seq<Item>): (n: nat)
    ensures n <= |items| && n <= IR_MAX_PULSES
  {
    if items == [] then 0 else 1 + ReadCount(items[0].post, items[1..], IR_MAX_PULSES - 1)
  }

  lemma {:induction false} ScanArray(buf: string, p: nat, end: nat, l: Layout)
    requires Terminated(buf, end) && At(buf, p, l.ArrayText()) && p + |l.ArrayText()| <= end
    requires JsonSpace(l.blank) && AllShaped(l.items)
    ensures var n, r := TotalRead(l.items), ScanPulses(buf, p, end, []);
            && r.0 == Values(l.items[..n])
            && (n == IR_MAX_PULSES ==> (DigitAhead(buf, r.1, end) <==> n < |l.items|))
  {
    hide Decimal, At, IsSpace, StrToL, SkipSeparators, DigitAhead, ScanPulses;
    if l.items == [] {
      LastStuck(buf, p, end, l.blank, []);
      assert Values(l.items[..0]) == [];
    } else {
      var i0, more := l.items[0], l.items[1..];
      assert i0.Shaped();
      var s := i0.pre + Decimal(i0.value);
      AtSplit(buf, p, s, Rest(i0.post, more));
      RestStart(buf, p + |s|, i0.post, more);
      FirstGap(i0.pre);
      hide JsonSpace, Firm;
      Cross(buf, p, end, i0.pre, i0.value, []);
      assert [] + [i0.value] == [i0.value];
      ScanRest(buf, p + |s|, end, i0.post, more, [i0.value]);
      ValuesCons(l.items, ReadCount(i0.post, more, IR_MAX_PULSES - 1));
    }
  }

  lemma {:induction false} FirstGap(s: string)
    requires JsonSpace(s)
    ensures (s != [] ==> s[0] != ']') && forall j :: Firm(s) <= j < |s| ==> IsSpace(s[j])
  {
  }

  /** What any payload of the agreed shape makes the hub offer. */
  lemma {:induction false} OfferedIs(l: Layout)
    requires l.Shaped()
    ensures var n, o := TotalRead(l.items), Offered(Buffer(l.Text()), |l.Text()|);
            if n == 0 || (n == IR_MAX_PULSES && |l.items| > n) then o == None
            else o.Some? && o.value.pulses == Values(l.items[..n]) && !o.value.truncated && o.value.frameCount == 1
  {
    hide *;
    var t, buf := l.Text(), Buffer(l.Text());
    FindsArray(l);
    PiecesAt(l);
    ArrayInBuffer(l);
    ShapedItems(l);
    ScanArray(buf, l.ArrayAt(), |t|, l);
    OfferedByScan(buf, |t|, l.ArrayAt(), TotalRead(l.items), |l.items|);
  }

  lemma {:induction false} ShapedItems(l: Layout)
    requires l.Shaped()
    ensures JsonSpace(l.blank) && AllShaped(l.items)
  {
  }

  /** From what the array loop did to what is offered. */
  lemma {:induction false} OfferedByScan(buf: string, len: nat, start: nat, n: nat, total: nat)
    requires Terminated(buf, len) && start <= len && ArrayStart(buf, len) == Some(start)
    requires |ScanPulses(buf, start, len, []).0| == n <= total && n <= IR_MAX_PULSES
    requires n == IR_MAX_PULSES ==> (DigitAhead(buf, ScanPulses(buf, start, len, []).1, len) <==> n < total)
    ensures var o := Offered(buf, len);
            if n == 0 || (n == IR_MAX_PULSES && total > n) then o == None
            else o == Some(IrMessage(Carrier(buf), 1, false, ScanPulses(buf, start, len, []).0))
  {
    hide Carrier, ArrayStart, ScanPulses, DigitAhead;
  }

  lemma {:induction false} ArrayInBuffer(l: Layout)
    requires At(l.Text(), l.ArrayAt(), l.ArrayText())
    ensures At(Buffer(l.Text()), l.ArrayAt(), l.ArrayText())
  {
    hide Layout.Text, Layout.ArrayText;
    var t := l.Text();
    assert Buffer(t)[l.ArrayAt()..l.ArrayAt() + |l.ArrayText()|] == t[l.ArrayAt()..l.ArrayAt() + |l.ArrayText()|];
  }

  /** What should be offered for k numbers: all of them, or nothing when there
      are none or too many. */
  function Expected(values: seq<uint16>): Option<seq<uint16>> {
    if 1 <= |values| <= IR_MAX_PULSES then Some(values) else None
  }

  /** No carriage return stands in front of a comma the scanner has to cross. */
  ghost predicate NoEarlyReturn(items: seq<Item>) {
    forall i :: 0 <= i < |items| - 1 && i < IR_MAX_PULSES - 1 ==> '\r' !in items[i].post
  }

  lemma {:induction false} ReadCountFull(post: string, items: seq<Item>, room: nat)
    ensures ReadCount(post, items, room) == Min(|items|, room) <==>
            (items == [] || room == 0 ||
             ('\r' !in post && forall i :: 0 <= i < |items| - 1 && i < room - 1 ==> '\r' !in items[i].post))
    decreases |items|
  {
    if items == [] || room == 0 || '\r' in post {
    } else {
      var more := items[1..];
      ReadCountFull(items[0].post, more, room - 1);
      assert forall i {:trigger more[i]} :: 0 <= i < |more| ==> more[i] == items[i + 1];
      if forall i :: 0 <= i < |items| - 1 && i < room - 1 ==> '\r' !in items[i].post {
        forall i | 0 <= i < |more| - 1 && i < room - 2 ensures '\r' !in more[i].post {
          assert '\r' !in items[i + 1].post;
        }
      } else {
        var i :| 0 <= i < |items| - 1 && i < room - 1 && '\r' in items[i].post;
        if i > 0 { assert '\r' in more[i - 1].post; }
      }
    }
  }

  lemma {:induction false} TotalReadFull(items: seq<Item>)
    ensures TotalRead(items) == Min(|items|, IR_MAX_PULSES) <==> NoEarlyReturn(items)
  {
    if items != [] {
      var more := items[1..];
      ReadCountFull(items[0].post, more, IR_MAX_PULSES - 1);
      assert forall i {:trigger more[i]} :: 0 <= i < |more| ==> more[i] == items[i + 1];
      if NoEarlyReturn(items) {
        forall i | 0 <= i < |more| - 1 && i < IR_MAX_PULSES - 2 ensures '\r' !in more[i].post {
          assert '\r' !in items[i + 1].post;
        }
      } else {
        var i :| 0 <= i < |items| - 1 && i < IR_MAX_PULSES - 1 && '\r' in items[i].post;
        if i > 0 { assert '\r' in more[i - 1].post; }
      }
    }
  }

  /** Main result on the inbound shape: exactly the numbers in the array are
      offered, and nothing when there are none or more than fit, if and only if
      no carriage return stands between a number and its comma. */
  lemma {:induction false} OfferedAsSent(l: Layout)
    requires l.Shaped()
    ensures var o := Offered(Buffer(l.Text()), |l.Text()|);
            (if o.Some? then Some(o.value.pulses) else None) == Expected(Values(l.items)) <==> NoEarlyReturn(l.items)
  {
    OfferedIs(l);
    TotalReadFull(l.items);
    hide NoEarlyReturn, Offered, Layout.Text, TotalRead, Buffer;
    var n := TotalRead(l.items);
    assert l.items[..|l.items|] == l.items;
  }

  /** "[1\r,2]" is such a payload: one pulse goes out instead of two. */
  lemma {:induction false} ReturnBeforeComma(l: Layout)
    requires l == Layout("", ":", "", [Item("", 1, "\r"), Item("", 2, "")], "")
    ensures l.Shaped() && Offered(Buffer(l.Text()), |l.Text()|).Some?
    ensures Offered(Buffer(l.Text()), |l.Text()|).value.pulses == [1]
  {
    OfferedIs(l);
    hide Offered, Layout.Text, Buffer;
    assert l.items[1..] == [l.items[1]];
    assert '\r' in l.items[0].post;
    assert Values(l.items[..1]) == [1];
  }
}
