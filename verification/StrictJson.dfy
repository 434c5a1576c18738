/** A strict reader of JSON as the backend's JSON.parse reads what the hub
    publishes: the object grammar of sections 2 to 7 of RFC 8259, with integers
    for numbers and no escapes in strings. */
module StrictJson {
  import opened Config
  import opened CText
  import opened JsonCodec
  import opened WireFormat

  datatype Value =
    | Null
    | Bool(b: bool)
    | Num(n: int)
    | Str(s: string)
    | Arr(items: seq<Value>)
    | Obj(members: seq<(string, Value)>)

  /** A value or list read, and what is left of the text. */
  type Read<T> = Option<(T, string)>

  predicate IsWhite(c: char) {
    c == ' ' || c == '\t' || c == '\n' || c == '\r'
  }

  function Skip(s: string): (r: string)
    ensures |r| <= |s|
    ensures r != "" ==> !IsWhite(r[0])
  {
    if s == "" || !IsWhite(s[0]) then s else Skip(s[1..])
  }

  function Digits(s: string, acc: nat): (r: (nat, string))
    ensures |r.1| <= |s|
    decreases |s|
  {
    if s == "" || !IsDigit(s[0]) then (acc, s) else Digits(s[1..], 10 * acc + DigitOf(s[0]))
  }

  /** An integer without leading zeros. */
  function ReadNat(s: string): (r: Read<nat>)
    ensures r.Some? ==> |r.value.1| < |s|
  {
    if s == "" || !IsDigit(s[0]) then None
    else if s[0] == '0' then Some((0, s[1..]))
    else Some(Digits(s[1..], DigitOf(s[0])))
  }

  /** The rest of a string, behind its opening quote. */
  function ReadString(s: string): (r: Read<string>)
    ensures r.Some? ==> |r.value.1| < |s|
  {
    if s == "" || s[0] == '\\' || s[0] < ' ' then None
    else if s[0] == '"' then Some(("", s[1..]))
    else
      match ReadString(s[1..])
      case None => None
      case Some((t, rest)) => Some(([s[0]] + t, rest))
  }

  /** A fixed word at the start of the text. */
  function ReadWord(s: string, w: string, v: Value): (r: Read<Value>)
    requires w != ""
    ensures r.Some? ==> |r.value.1| < |s|
  {
    if |w| <= |s| && s[..|w|] == w then Some((v, s[|w|..])) else None
  }

  function Negated(n: nat): int {
    var i: int := n;
    -i
  }

  function ReadValue(text: string): (r: Read<Value>)
    ensures r.Some? ==> |r.value.1| < |text|
    decreases |text|, 3
  {
    var s := Skip(text);
    if s == "" then None
    else if s[0] == '{' then ReadObject(s[1..])
    else if s[0] == '[' then ReadArray(s[1..])
    else if s[0] == '"' then
      match ReadString(s[1..])
      case None => None
      case Some((t, rest)) => Some((Str(t), rest))
    else if s[0] == '-' then
      match ReadNat(s[1..])
      case None => None
      case Some((n, rest)) => Some((Num(Negated(n)), rest))
    else if IsDigit(s[0]) then
      match ReadNat(s)
      case None => None
      case Some((n, rest)) => Some((Num(n), rest))
    else if s[0] == 't' then ReadWord(s, "true", Bool(true))
    else if s[0] == 'f' then ReadWord(s, "false", Bool(false))
    else ReadWord(s, "null", Null)
  }

  function ReadArray(text: string): (r: Read<Value>)
    ensures r.Some? ==> |r.value.1| < |text|
    decreases |text|, 5
  {
    var s := Skip(text);
    if s != "" && s[0] == ']' then Some((Arr([]), s[1..]))
    else
      match ReadItems(text)
      case None => None
      case Some((items, rest)) => Some((Arr(items), rest))
  }

  /** value, then a comma and more of them, or the closing bracket. */
  function ReadItems(text: string): (r: Read<seq<Value>>)
    ensures r.Some? ==> |r.value.1| < |text|
    decreases |text|, 4
  {
    match ReadValue(text)
    case None => None
    case Some((v, after)) =>
      var s := Skip(after);
      if s == "" then None
      else if s[0] == ']' then Some(([v], s[1..]))
      else if s[0] != ',' then None
      else
        match ReadItems(s[1..])
        case None => None
        case Some((items, rest)) => Some(([v] + items, rest))
  }

  function ReadObject(text: string): (r: Read<Value>)
    ensures r.Some? ==> |r.value.1| < |text|
    decreases |text|, 5
  {
    var s := Skip(text);
    if s != "" && s[0] == '}' then Some((Obj([]), s[1..]))
    else
      match ReadMembers(text)
      case None => None
      case Some((members, rest)) => Some((Obj(members), rest))
  }

  /** "name" : value, then a comma and more of them, or the closing brace. */
  function ReadMembers(text: string): (r: Read<seq<(string, Value)>>)
    ensures r.Some? ==> |r.value.1| < |text|
    decreases |text|, 4
  {
    match ReadMember(text)
    case None => None
    case Some((member, after)) =>
      var s := Skip(after);
      if s == "" then None
      else if s[0] == '}' then Some(([member], s[1..]))
      else if s[0] != ',' then None
      else
        match ReadMembers(s[1..])
        case None => None
        case Some((members, rest)) => Some(([member] + members, rest))
  }

  function ReadMember(text: string): (r: Read<(string, Value)>)
    ensures r.Some? ==> |r.value.1| < |text|
    decreases |text|, 3
  {
    var s := Skip(text);
    if s == "" || s[0] != '"' then None
    else
      match ReadString(s[1..])
      case None => None
      case Some((name, after)) =>
        var t := Skip(after);
        if t == "" || t[0] != ':' then None
        else
          match ReadValue(t[1..])
          case None => None
          case Some((v, rest)) => Some(((name, v), rest))
  }

  /** A whole text: one value and nothing behind it but white space. */
  function Parse(text: string): Option<Value> {
    match ReadValue(text)
    case None => None
    case Some((v, rest)) => if Skip(rest) == "" then Some(v) else None
  }

  // ---- a signal object ----

  /** The value of a member; a repeated name means the last one. */
  function Member(members: seq<(string, Value)>, name: string): Option<Value> {
    if members == [] then None
    else if members[|members| - 1].0 == name then Some(members[|members| - 1].1)
    else Member(members[..|members| - 1], name)
  }

  function Pulses(items: seq<Value>): Option<seq<uint16>> {
    if items == [] then Some([])
    else
      var rest := Pulses(items[1..]);
      if rest == None || !items[0].Num? || !(0 <= items[0].n < 0x1_0000) then None
      else Some([items[0].n as uint16] + rest.value)
  }

  function Signal(v: Value): Option<IrMessage> {
    if !v.Obj? then None
    else
      var carrier, frames := Member(v.members, "carrier_freq"), Member(v.members, "frame_count");
      var truncated, pulses := Member(v.members, "truncated"), Member(v.members, "pulses");
      if carrier == None || frames == None || truncated == None || pulses == None then None
      else if !carrier.value.Num? || !(0 <= carrier.value.n < 0x1_0000_0000) then None
      else if !frames.value.Num? || !(0 <= frames.value.n < 0x1_0000) then None
      else if !truncated.value.Bool? || !pulses.value.Arr? then None
      else
        var p := Pulses(pulses.value.items);
        if p == None then None
        else Some(IrMessage(carrier.value.n as uint32, frames.value.n as uint16, truncated.value.b, p.value))
  }

  function ParseSignal(text: string): Option<IrMessage> {
    match Parse(text)
    case None => None
    case Some(v) => Signal(v)
  }

  // ---- reading back what the hub writes ----

  lemma {:induction false} FirstDigit(n: nat)
    ensures n > 0 ==> Decimal(n)[0] != '0'
    ensures n < 10 ==> Decimal(n) == [CharOf(n)]
    decreases n
  {
    if n < 10 {
    } else {
      FirstDigit(n / 10);
    }
  }

  lemma {:induction false} DigitsRead(n: nat, rest: string)
    ensures Digits(Decimal(n) + rest, 0) == Digits(rest, n)
    decreases n
  {
    if n < 10 {
      assert ([CharOf(n)] + rest)[1..] == rest;
    } else {
      var c := [CharOf(n % 10)];
      DigitsRead(n / 10, c + rest);
      assert Decimal(n) + rest == Decimal(n / 10) + (c + rest);
      assert (c + rest)[1..] == rest;
    }
  }

  /** An integer is read whole where the next character is no digit. */
  lemma {:induction false} NatReads(n: nat, rest: string)
    requires rest != "" && !IsDigit(rest[0])
    ensures ReadNat(Decimal(n) + rest) == Some((n, rest))
  {
    FirstDigit(n);
    var t := Decimal(n) + rest;
    assert t[0] == Decimal(n)[0];
    if n == 0 {
      assert t[1..] == rest;
    } else {
      DigitsRead(n, rest);
      assert Digits(t, 0) == Digits(t[1..], DigitOf(t[0]));
    }
  }

  lemma {:induction false} NumberReads(n: nat, rest: string)
    requires rest != "" && !IsDigit(rest[0])
    ensures ReadValue(Decimal(n) + rest) == Some((Num(n), rest))
  {
    hide Decimal, ReadNat, ReadObject, ReadArray, ReadString;
    NatReads(n, rest);
    var t := Decimal(n) + rest;
    assert IsDigit(t[0]);
    assert Skip(t) == t;
  }

  lemma {:induction false} WordReads(b: bool, rest: string)
    ensures ReadValue((if b then "true" else "false") + rest) == Some((Bool(b), rest))
  {
    hide ReadNat, ReadObject, ReadArray, ReadString;
    var w := if b then "true" else "false";
    var t := w + rest;
    assert t[0] == w[0] && t[..|w|] == w && t[|w|..] == rest;
    assert Skip(t) == t;
  }

  predicate PlainName(name: string) {
    forall i :: 0 <= i < |name| ==> name[i] != '"' && name[i] != '\\' && name[i] >= ' '
  }

  lemma {:induction false} NameReads(name: string, rest: string)
    requires PlainName(name)
    ensures ReadString(name + ("\"" + rest)) == Some((name, rest))
    decreases |name|
  {
    var t := name + ("\"" + rest);
    if name == "" {
      assert t == "\"" + rest && t[1..] == rest;
    } else {
      assert t[1..] == name[1..] + ("\"" + rest);
      NameReads(name[1..], rest);
      assert [name[0]] + name[1..] == name;
    }
  }

  /** "name":value, and what follows. */
  function Field(name: string, value: string, rest: string): string {
    "\"" + (name + ("\"" + (":" + (value + rest))))
  }

  lemma {:induction false} FieldReads(name: string, value: string, rest: string, v: Value)
    requires PlainName(name) && ReadValue(value + rest) == Some((v, rest))
    ensures ReadMember(Field(name, value, rest)) == Some(((name, v), rest))
  {
    hide ReadValue, ReadString, PlainName;
    var t := Field(name, value, rest);
    NameReads(name, ":" + (value + rest));
    assert t[0] == '"' && t[1..] == name + ("\"" + (":" + (value + rest)));
    assert Skip(t) == t;
    var u := ":" + (value + rest);
    assert u[0] == ':' && u[1..] == value + rest;
    assert Skip(u) == u;
  }

  lemma {:induction false} MoreMembers(text: string, m: (string, Value), u: string, ms: seq<(string, Value)>, rest: string)
    requires ReadMember(text) == Some((m, "," + u)) && ReadMembers(u) == Some((ms, rest))
    ensures ReadMembers(text) == Some(([m] + ms, rest))
  {
    hide ReadMember;
    var t := "," + u;
    assert t[0] == ',' && t[1..] == u;
    assert Skip(t) == t;
  }

  lemma {:induction false} LastMember(text: string, m: (string, Value), rest: string)
    requires ReadMember(text) == Some((m, "}" + rest))
    ensures ReadMembers(text) == Some(([m], rest))
  {
    hide ReadMember;
    var t := "}" + rest;
    assert t[0] == '}' && t[1..] == rest;
    assert Skip(t) == t;
  }

  function Nums(p: seq<uint16>): (items: seq<Value>) {
    if p == [] then [] else [Num(p[0])] + Nums(p[1..])
  }

  lemma {:induction false} PulsesOfNums(p: seq<uint16>)
    ensures Pulses(Nums(p)) == Some(p)
    decreases |p|
  {
    if p == [] {
      assert Nums(p) == [];
      assert Pulses([]) == Some([]);
    } else {
      PulsesOfNums(p[1..]);
      var items := Nums(p);
      assert items[0] == Num(p[0]) && items[1..] == Nums(p[1..]);
      assert Pulses(items) != None;
      assert Pulses(items).value == [p[0]] + p[1..] == p;
    }
  }

  lemma {:induction false} ItemsRead(x: uint16, p: seq<uint16>, rest: string)
    ensures ReadItems(Decimal(x) + (Tail(p) + ("]" + rest))) == Some(([Num(x)] + Nums(p), rest))
    decreases |p|
  {
    hide Decimal, ReadValue;
    var close := "]" + rest;
    if p == [] {
      assert Tail(p) + close == close;
      assert close[0] == ']' && close[1..] == rest;
      NumberReads(x, close);
      assert Skip(close) == close;
      assert [Num(x)] + Nums(p) == [Num(x)];
    } else {
      var more := Decimal(p[0]) + (Tail(p[1..]) + close);
      var t := "," + more;
      assert Tail(p) + close == t;
      assert t[0] == ',' && t[1..] == more;
      NumberReads(x, t);
      assert Skip(t) == t;
      ItemsRead(p[0], p[1..], rest);
      assert [Num(x)] + Nums(p) == [Num(x)] + ([Num(p[0])] + Nums(p[1..]));
    }
  }

  /** The array the encoder writes, whatever follows it. */
  lemma {:induction false} ArrayReads(p: seq<uint16>, rest: string)
    ensures ReadValue("[" + PulseList(p) + "]" + rest) == Some((Arr(Nums(p)), rest))
  {
    hide Decimal, ReadItems, ReadObject, ReadString, ReadNat, PulseList;
    var t := "[" + PulseList(p) + "]" + rest;
    var u := PulseList(p) + ("]" + rest);
    assert t[0] == '[' && t[1..] == u;
    assert Skip(t) == t;
    if p == [] {
      EmptyList();
      assert u == "]" + rest && u[0] == ']' && u[1..] == rest;
      assert Skip(u) == u;
    } else {
      assert p == [p[0]] + p[1..];
      PulseListIsTail(p[0], p[1..]);
      assert u == Decimal(p[0]) + (Tail(p[1..]) + ("]" + rest));
      assert u[0] == Decimal(p[0])[0];
      ItemsRead(p[0], p[1..], rest);
      assert Skip(u) == u;
    }
  }

  /** The encoder's text, field by field. */
  function Fields(m: IrMessage): string {
    "{" + Field("carrier_freq", Decimal(m.carrierFreq),
      "," + Field("frame_count", Decimal(m.frameCount),
        "," + Field("truncated", if m.truncated then "true" else "false",
          "," + Field("pulses", "[" + PulseList(m.pulses) + "]", "}"))))
  }

  lemma {:induction false} FieldJoins(a: string, name: string, value: string, rest: string)
    ensures a + Field(name, value, rest) == a + "\"" + name + "\":" + value + rest
  {
  }

  lemma {:induction false} RenderIsFields(m: IrMessage)
    ensures Render(m) == Fields(m)
  {
    hide Decimal, PulseList, Field;
    var t := if m.truncated then "true" else "false";
    var f4 := Field("pulses", "[" + PulseList(m.pulses) + "]", "}");
    var f3 := Field("truncated", t, "," + f4);
    var f2 := Field("frame_count", Decimal(m.frameCount), "," + f3);
    FieldJoins("{", "carrier_freq", Decimal(m.carrierFreq), "," + f2);
    FieldJoins(",", "frame_count", Decimal(m.frameCount), "," + f3);
    FieldJoins(",", "truncated", t, "," + f4);
    FieldJoins(",", "pulses", "[" + PulseList(m.pulses) + "]", "}");
    Literals();
    Regroup("{\"carrier_freq\":", Decimal(m.carrierFreq), ",\"frame_count\":", Decimal(m.frameCount), ",\"truncated\":", t,
            ",\"pulses\":", "[", PulseList(m.pulses));
  }

  lemma {:induction false} Literals()
    ensures "{" + "\"" + "carrier_freq" + "\":" == "{\"carrier_freq\":"
    ensures "," + "\"" + "frame_count" + "\":" == ",\"frame_count\":"
    ensures "," + "\"" + "truncated" + "\":" == ",\"truncated\":"
    ensures "," + "\"" + "pulses" + "\":" == ",\"pulses\":"
    ensures ",\"pulses\":[" == ",\"pulses\":" + "["
  {
  }

  lemma {:induction false} Regroup(
      a: string, c: string, b: string, f: string, d: string, t: string, e: string, o: string, p: string)
    ensures a + c + b + f + d + t + (e + o) + p + "]}" == a + c + (b + f + (d + t + (e + (o + p + "]") + "}")))
  {
    assert e + (o + p + "]") + "}" == (e + o) + p + "]}";
    assert d + t + ((e + o) + p + "]}") == d + t + (e + o) + p + "]}";
  }

  lemma {:induction false} Names()
    ensures PlainName("carrier_freq") && PlainName("frame_count") && PlainName("truncated") && PlainName("pulses")
  {
  }

  function Members(m: IrMessage): seq<(string, Value)> {
    [("carrier_freq", Num(m.carrierFreq)), ("frame_count", Num(m.frameCount)), ("truncated", Bool(m.truncated)),
     ("pulses", Arr(Nums(m.pulses)))]
  }

  lemma {:induction false} FieldsRead(m: IrMessage)
    ensures ReadValue(Fields(m)) == Some((Obj(Members(m)), ""))
  {
    hide Decimal, PulseList, Field, ReadMember, ReadMembers, PlainName, Nums, ReadArray, ReadString, ReadNat;
    Names();
    var t := if m.truncated then "true" else "false";
    var a := "[" + PulseList(m.pulses) + "]";
    var f4 := Field("pulses", a, "}");
    ArrayReads(m.pulses, "}");
    FieldReads("pulses", a, "}", Arr(Nums(m.pulses)));
    assert "}" + "" == "}";
    LastMember(f4, ("pulses", Arr(Nums(m.pulses))), "");
    var f3 := Field("truncated", t, "," + f4);
    WordReads(m.truncated, "," + f4);
    FieldReads("truncated", t, "," + f4, Bool(m.truncated));
    MoreMembers(f3, ("truncated", Bool(m.truncated)), f4, [("pulses", Arr(Nums(m.pulses)))], "");
    var f2 := Field("frame_count", Decimal(m.frameCount), "," + f3);
    NumberReads(m.frameCount, "," + f3);
    FieldReads("frame_count", Decimal(m.frameCount), "," + f3, Num(m.frameCount));
    var ms := Members(m);
    assert ms[2..] == [ms[2]] + [ms[3]] && ms[1..] == [ms[1]] + ms[2..] && ms == [ms[0]] + ms[1..];
    MoreMembers(f2, ms[1], f3, ms[2..], "");
    var f1 := Field("carrier_freq", Decimal(m.carrierFreq), "," + f2);
    NumberReads(m.carrierFreq, "," + f2);
    FieldReads("carrier_freq", Decimal(m.carrierFreq), "," + f2, Num(m.carrierFreq));
    MoreMembers(f1, ms[0], f2, ms[1..], "");
    FieldStarts("carrier_freq", Decimal(m.carrierFreq), "," + f2);
    ObjectReads(f1, Members(m), "");
  }

  lemma {:induction false} FieldStarts(name: string, value: string, rest: string)
    ensures Field(name, value, rest) != "" && Field(name, value, rest)[0] == '"'
  {
  }

  lemma {:induction false} ObjectReads(text: string, members: seq<(string, Value)>, rest: string)
    requires text != "" && text[0] == '"' && ReadMembers(text) == Some((members, rest))
    ensures ReadValue("{" + text) == Some((Obj(members), rest))
  {
    hide ReadMembers, ReadArray, ReadString, ReadNat;
    var t := "{" + text;
    assert t[0] == '{' && t[1..] == text;
    assert Skip(t) == t && Skip(text) == text;
  }

  lemma {:induction false} MembersAre(m: IrMessage)
    ensures Signal(Obj(Members(m))) == Some(m)
  {
    hide Pulses, Nums;
    PulsesOfNums(m.pulses);
    MembersFound(m);
  }

  lemma {:induction false} MembersFound(m: IrMessage)
    ensures var ms := Members(m);
            && Member(ms, "carrier_freq") == Some(Num(m.carrierFreq)) && Member(ms, "frame_count") == Some(Num(m.frameCount))
            && Member(ms, "truncated") == Some(Bool(m.truncated)) && Member(ms, "pulses") == Some(Arr(Nums(m.pulses)))
  {
    hide Nums;
    var ms := Members(m);
    assert ms[..3] == [ms[0], ms[1], ms[2]] && ms[..3][..2] == [ms[0], ms[1]] && ms[..3][..2][..1] == [ms[0]];
    assert Member([ms[0]], "carrier_freq") == Some(ms[0].1);
    assert Member([ms[0], ms[1]], "frame_count") == Some(ms[1].1);
    assert Member([ms[0], ms[1]], "carrier_freq") == Member([ms[0]], "carrier_freq");
    assert Member(ms[..3], "carrier_freq") == Member(ms[..3][..2], "carrier_freq");
    assert Member(ms[..3], "frame_count") == Member(ms[..3][..2], "frame_count");
  }

  /** What the hub publishes is strict JSON, and denotes exactly the message. */
  lemma {:induction false} RenderIsJson(m: IrMessage)
    ensures ParseSignal(Render(m)) == Some(m)
  {
    hide Render, Fields, ReadValue, Members, Signal;
    RenderIsFields(m);
    FieldsRead(m);
    MembersAre(m);
  }
}
