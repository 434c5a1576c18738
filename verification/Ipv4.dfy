/** The dotted-quad scanner of the settings record, and the split-based rule of
    the setup page that it must agree with. */
module Ipv4 {
  import opened Config

  type Text = seq<byte>

  const DOT: byte := 0x2E

  predicate IsDigit(c: byte) {
    0x30 <= c <= 0x39
  }

  function DigitValue(c: byte): nat
    requires IsDigit(c)
  {
    if c == 0x30 then 0 else if c == 0x31 then 1 else if c == 0x32 then 2 else if c == 0x33 then 3
    else if c == 0x34 then 4 else if c == 0x35 then 5 else if c == 0x36 then 6 else if c == 0x37 then 7
    else if c == 0x38 then 8 else 9
  }

  function DigitByte(d: nat): (c: byte)
    requires d < 10
    ensures IsDigit(c) && DigitValue(c) == d
  {
    if d == 0 then 0x30 else if d == 1 then 0x31 else if d == 2 then 0x32 else if d == 3 then 0x33
    else if d == 4 then 0x34 else if d == 5 then 0x35 else if d == 6 then 0x36 else if d == 7 then 0x37
    else if d == 8 then 0x38 else 0x39
  }

  predicate AllDigits(t: Text) {
    forall i :: 0 <= i < |t| ==> IsDigit(t[i])
  }

  /** The number a digit string denotes. */
  function Value(t: Text): nat
    requires AllDigits(t)
    decreases |t|
  {
    if t == [] then 0 else Value(t[..|t| - 1]) * 10 + DigitValue(t[|t| - 1])
  }

  datatype Address = Address(a: uint8, b: uint8, c: uint8, d: uint8)

  // ---- the setup page's rule ----

  /** The pieces between dots, as String.split('.') gives them. */
  function Split(t: Text): (s: seq<Text>)
    ensures s != []
    decreases |t|
  {
    if t == [] then [[]]
    else
      var rest := Split(t[1..]);
      if t[0] == DOT then [[]] + rest else [[t[0]] + rest[0]] + rest[1..]
  }

  predicate IsOctet(t: Text) {
    1 <= |t| <= 3 && AllDigits(t) && Value(t) <= 255
  }

  function Octet(t: Text): uint8 {
    if IsOctet(t) then Value(t) else 0
  }

  /** Four pieces of one to three digits, each at most 255, not all zero. */
  function PageRule(t: Text): Option<Address> {
    var p := Split(t);
    if |p| == 4 && IsOctet(p[0]) && IsOctet(p[1]) && IsOctet(p[2]) && IsOctet(p[3]) &&
       (Octet(p[0]) != 0 || Octet(p[1]) != 0 || Octet(p[2]) != 0 || Octet(p[3]) != 0)
    then Some(Address(Octet(p[0]), Octet(p[1]), Octet(p[2]), Octet(p[3])))
    else None
  }

  // ---- the firmware's left-to-right scan ----

  /** The digit loop: `digits` digits of value v are already behind. */
  function ScanDigits(t: Text, digits: nat, v: nat): Option<(nat, Text)>
    decreases |t|
  {
    if t != [] && IsDigit(t[0]) then
      var v' := v * 10 + DigitValue(t[0]);
      if digits + 1 > 3 || v' > 255 then None else ScanDigits(t[1..], digits + 1, v')
    else if digits == 0 then None
    else Some((v, t))
  }

  /** The part loop: `octets` were read, `t` is what is left. */
  function ScanParts(t: Text, octets: seq<nat>): Option<seq<nat>>
    requires |octets| <= 4
    decreases 4 - |octets|
  {
    if |octets| == 4 then
      if t != [] || octets == [0, 0, 0, 0] then None else Some(octets)
    else if octets != [] && (t == [] || t[0] != DOT) then None
    else
      match ScanDigits(if octets == [] then t else t[1..], 0, 0)
      case None => None
      case Some(found) => ScanParts(found.1, octets + [found.0])
  }

  /** Position of the terminating NUL. */
  function Length(s: Text): (n: nat)
    requires 0 in s
    ensures n < |s| && s[n] == 0 && 0 !in s[..n]
    decreases |s|
  {
    if s[0] == 0 then 0
    else
      var n := Length(s[1..]);
      assert s[..n + 1] == [s[0]] + s[1..][..n];
      n + 1
  }

  /** The C string a NUL-terminated buffer holds. */
  function CString(s: Text): Text
    requires 0 in s
  {
    s[..Length(s)]
  }

  /** parse_ipv4 on a NUL-terminated buffer. The scan and the page agree on
      every string, in what they accept and in what they read. */
  method ParseIpv4(s: Text) returns (r: Option<Address>)
    requires 0 in s
    ensures r == PageRule(CString(s))
  {
    ghost var text := CString(s);
    ScanIsPageRule(text);
    hide PageRule;
    var p := 0;
    var tmp: seq<nat> := [];
    for part := 0 to 4
      invariant |tmp| == part && p <= |text|
      invariant forall k :: 0 <= k < part ==> tmp[k] <= 255
      invariant ScanParts(text[p..], tmp) == ScanParts(text, [])
    {
      assert s[|text|] == 0 && (p < |text| ==> s[p] == text[p] && s[p] != 0);
      if part > 0 {
        if s[p] != DOT { return None; }
        p := p + 1;
        assert text[p - 1..][1..] == text[p..];
      }
      var digits: nat, v: nat := 0, 0;
      ghost var start := p;
      while IsDigit(s[p])
        invariant start <= p <= |text| && digits <= 3 && v <= 255
        invariant ScanDigits(text[p..], digits, v) == ScanDigits(text[start..], 0, 0)
        decreases |text| - p
      {
        assert p < |text| && text[p..][0] == s[p] && text[p..][1..] == text[p + 1..];
        v := v * 10 + DigitValue(s[p]);
        p := p + 1;
        digits := digits + 1;
        if digits > 3 || v > 255 { return None; }
      }
      assert p < |text| ==> text[p..][0] == s[p];
      if digits == 0 { return None; }
      tmp := tmp + [v];
    }
    if s[p] != 0 { return None; }
    if tmp[0] == 0 && tmp[1] == 0 && tmp[2] == 0 && tmp[3] == 0 { return None; }
    assert tmp == [tmp[0], tmp[1], tmp[2], tmp[3]];
    r := Some(Address(tmp[0], tmp[1], tmp[2], tmp[3]));
  }

  /** What the scan found, as an address. */
  ghost predicate Agrees(scan: Option<seq<nat>>, page: Option<Address>) {
    match page
    case None => scan == None
    case Some(x) => scan == Some([x.a as nat, x.b as nat, x.c as nat, x.d as nat])
  }

  // ---- the scan reads what the split finds ----

  /** The digits at the front of t. */
  function Run(t: Text): (r: Text)
    ensures AllDigits(r) && |r| <= |t| && t[..|r|] == r && (|r| < |t| ==> !IsDigit(t[|r|]))
    decreases |t|
  {
    if t == [] || !IsDigit(t[0]) then [] else [t[0]] + Run(t[1..])
  }

  lemma {:induction false} ValueSnoc(p: Text, c: byte)
    requires AllDigits(p) && IsDigit(c)
    ensures AllDigits(p + [c]) && Value(p + [c]) == Value(p) * 10 + DigitValue(c)
  {
    assert (p + [c])[..|p|] == p;
  }

  lemma {:induction false} ValueGrows(p: Text, x: Text)
    requires AllDigits(p) && AllDigits(x)
    ensures AllDigits(p + x) && Value(p + x) >= Value(p)
    decreases |x|
  {
    hide IsDigit;
    if x == [] {
      assert p + x == p;
    } else {
      assert (p + x)[..|p + x| - 1] == p + x[..|x| - 1];
      ValueGrows(p, x[..|x| - 1]);
    }
  }

  /** The digit loop accepts the run in front of it exactly when, with the
      digits already behind, it is an octet. */
  lemma {:induction false} ScanDigitsIs(t: Text, p: Text)
    requires AllDigits(p) && |p| <= 3 && Value(p) <= 255
    ensures var r := p + Run(t);
            ScanDigits(t, |p|, Value(p)) == if IsOctet(r) then Some((Value(r), t[|Run(t)|..])) else None
    decreases |t|
  {
    hide IsDigit;
    if t != [] && IsDigit(t[0]) {
      var p' := p + [t[0]];
      ValueSnoc(p, t[0]);
      assert p' + Run(t[1..]) == p + Run(t);
      if |p'| > 3 || Value(p') > 255 {
        ValueGrows(p', Run(t[1..]));
      } else {
        ScanDigitsIs(t[1..], p');
        assert t[1..][|Run(t[1..])|..] == t[|Run(t)|..];
      }
    } else {
      assert p + Run(t) == p && t[0..] == t;
    }
  }

  /** Splitting leaves the digits in front of t in the first piece. */
  lemma {:induction false} SplitRun(t: Text)
    ensures var r, rest := Run(t), Split(t[|Run(t)|..]);
            Split(t) == [r + rest[0]] + rest[1..]
    decreases |t|
  {
    if t != [] && IsDigit(t[0]) {
      SplitRun(t[1..]);
      assert t[1..][|Run(t[1..])|..] == t[|Run(t)|..];
      var rest := Split(t[|Run(t)|..]);
      assert [t[0]] + (Run(t[1..]) + rest[0]) == Run(t) + rest[0];
    } else {
      assert t[0..] == t;
      assert [] + Split(t)[0] == Split(t)[0];
      assert Split(t) == [Split(t)[0]] + Split(t)[1..];
    }
  }

  function Octets(p: seq<Text>): (v: seq<nat>)
    ensures |v| == |p|
    ensures forall i :: 0 <= i < |p| ==> v[i] == Octet(p[i])
  {
    seq(|p|, i requires 0 <= i < |p| => Octet(p[i]))
  }

  predicate AllOctets(p: seq<Text>) {
    forall i :: 0 <= i < |p| ==> IsOctet(p[i])
  }

  /** The verdict on pieces still to come after `octets`. */
  function Verdict(p: seq<Text>, octets: seq<nat>): Option<seq<nat>> {
    if |octets| + |p| == 4 && AllOctets(p) && octets + Octets(p) != [0, 0, 0, 0]
    then Some(octets + Octets(p)) else None
  }

  function ScanFrom(t: Text, octets: seq<nat>): Option<seq<nat>>
    requires |octets| < 4
  {
    match ScanDigits(t, 0, 0)
    case None => None
    case Some(found) => ScanParts(found.1, octets + [found.0])
  }

  /** How the text in front decides its first piece. */
  lemma {:induction false} FirstPiece(t: Text)
    ensures var r := Run(t);
            var rest := t[|r|..];
            && (rest == [] ==> Split(t) == [r])
            && (rest != [] && rest[0] == DOT ==> Split(t) == [r] + Split(rest[1..]))
            && (rest != [] && rest[0] != DOT ==> !IsOctet(Split(t)[0]))
  {
    SplitRun(t);
    var r := Run(t);
    var rest := t[|r|..];
    assert r + [] == r;
    if rest == [] {
      assert Split(rest) == [[]];
    } else if rest[0] == DOT {
      assert Split(rest) == [[]] + Split(rest[1..]);
    } else {
      assert Split(t)[0][|r|] == rest[0];
    }
  }

  lemma {:induction false} ScanFromIs(t: Text, octets: seq<nat>)
    requires |octets| < 4
    ensures ScanFrom(t, octets) == Verdict(Split(t), octets)
    decreases 4 - |octets|
  {
    hide IsDigit, IsOctet, Run, Split, ScanDigits, Octet;
    FirstPiece(t);
    DigitsAtStart(t);
    var r := Run(t);
    var rest := t[|r|..];
    if IsOctet(r) {
      var more := octets + [Octet(r)];
      if rest == [] {
        assert octets + Octets([r]) == more;
      } else if rest[0] == DOT && |more| < 4 {
        ScanFromIs(rest[1..], more);
        assert octets + Octets([r] + Split(rest[1..])) == more + Octets(Split(rest[1..]));
        VerdictCons(r, Split(rest[1..]), octets);
      } else if rest[0] != DOT {
        NoVerdict(Split(t), octets);
      }
    } else {
      NoVerdict(Split(t), octets);
    }
  }

  lemma {:induction false} NoVerdict(p: seq<Text>, octets: seq<nat>)
    requires p != [] && !IsOctet(p[0])
    ensures Verdict(p, octets) == None
  {
    hide IsOctet;
  }

  lemma {:induction false} DigitsAtStart(t: Text)
    ensures ScanDigits(t, 0, 0) == if IsOctet(Run(t)) then Some((Octet(Run(t)), t[|Run(t)|..])) else None
  {
    assert [] + Run(t) == Run(t);
    ScanDigitsIs(t, []);
  }

  lemma {:induction false} VerdictCons(r: Text, p: seq<Text>, octets: seq<nat>)
    requires IsOctet(r)
    ensures Verdict([r] + p, octets) == Verdict(p, octets + [Octet(r)])
  {
    hide IsOctet, Octet;
    assert octets + Octets([r] + p) == octets + [Octet(r)] + Octets(p);
    AllOctetsCons(r, p);
    hide AllOctets;
  }

  lemma {:induction false} AllOctetsCons(r: Text, p: seq<Text>)
    requires IsOctet(r)
    ensures AllOctets([r] + p) <==> AllOctets(p)
  {
    hide IsOctet;
    var q := [r] + p;
    if AllOctets(q) {
      forall i | 0 <= i < |p| ensures IsOctet(p[i]) {
        assert q[i + 1] == p[i];
      }
    }
  }

  /** The firmware's scan and the page's rule agree on every string. */
  lemma {:induction false} ScanIsPageRule(t: Text)
    ensures Agrees(ScanParts(t, []), PageRule(t))
  {
    hide IsOctet, Octet, Split, ScanDigits, ScanParts;
    ScanFromIs(t, []);
    StartOfScan(t);
    var p := Split(t);
    assert [] + Octets(p) == Octets(p);
    if |p| == 4 {
      assert Octets(p) == [Octet(p[0]) as nat, Octet(p[1]) as nat, Octet(p[2]) as nat, Octet(p[3]) as nat];
    }
  }

  lemma {:induction false} StartOfScan(t: Text)
    ensures ScanParts(t, []) == ScanFrom(t, [])
  {
  }

  // ---- the scan inverts the printer ----

  function Decimal(n: nat): (t: Text)
    ensures AllDigits(t) && Value(t) == n
    ensures |t| == if n < 10 then 1 else |Decimal(n / 10)| + 1
    decreases n
  {
    var last := DigitByte(n % 10);
    if n < 10 then
      ValueSnoc([], last);
      assert [] + [last] == [last];
      [last]
    else
      ValueSnoc(Decimal(n / 10), last);
      Decimal(n / 10) + [last]
  }

  lemma {:induction false} DecimalIsOctet(n: nat)
    requires n <= 255
    ensures IsOctet(Decimal(n)) && Octet(Decimal(n)) == n
  {
    assert |Decimal(n / 10)| <= 2 by {
      assert |Decimal(n / 10 / 10)| == 1;
    }
  }

  function Print(x: Address): Text {
    Decimal(x.a) + [DOT] + (Decimal(x.b) + [DOT] + (Decimal(x.c) + [DOT] + Decimal(x.d)))
  }

  lemma {:induction false} SplitPiece(r: Text, rest: Text)
    requires AllDigits(r)
    ensures Split(r + [DOT] + rest) == [r] + Split(rest)
    decreases |r|
  {
    if r == [] {
      assert (r + [DOT] + rest)[1..] == rest;
    } else {
      var t := r + [DOT] + rest;
      assert t[0] == r[0] && t[1..] == r[1..] + [DOT] + rest;
      SplitPiece(r[1..], rest);
      assert [r[0]] + r[1..] == r;
    }
  }

  lemma {:induction false} SplitLast(r: Text)
    requires AllDigits(r)
    ensures Split(r) == [r]
    decreases |r|
  {
    if r == [] {
    } else {
      SplitLast(r[1..]);
      assert [r[0]] + r[1..] == r;
    }
  }

  /** Reading back a printed address gives that address, unless it is 0.0.0.0,
      which is refused. */
  lemma {:induction false} PrintReadsBack(x: Address)
    ensures PageRule(Print(x)) == if x == Address(0, 0, 0, 0) then None else Some(x)
  {
    DecimalIsOctet(x.a);
    DecimalIsOctet(x.b);
    DecimalIsOctet(x.c);
    DecimalIsOctet(x.d);
    SplitPrint(x);
    hide Split, Decimal, IsOctet, Octet, Print;
  }

  lemma {:induction false} SplitPrint(x: Address)
    ensures Split(Print(x)) == [Decimal(x.a), Decimal(x.b), Decimal(x.c), Decimal(x.d)]
  {
    hide Split, Decimal, AllDigits;
    var a, b, c, d := Decimal(x.a), Decimal(x.b), Decimal(x.c), Decimal(x.d);
    var cd := c + [DOT] + d;
    var bcd := b + [DOT] + cd;
    SplitLast(d);
    SplitPiece(c, d);
    SplitPiece(b, cd);
    SplitPiece(a, bcd);
    assert Print(x) == a + [DOT] + bcd;
  }
}
