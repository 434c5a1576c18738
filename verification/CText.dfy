/** The C library routines the JSON helper leans on, over NUL-terminated buffers. */
module CText {
  import opened Config

  const NUL: char := '\0'

  /** Text `s` stands at position p of the buffer. */
  predicate At(buf: string, p: nat, s: string) {
    p + |s| <= |buf| && buf[p..p + |s|] == s
  }

  lemma {:induction false} AtSplit(buf: string, p: nat, s: string, t: string)
    ensures At(buf, p, s + t) <==> At(buf, p, s) && At(buf, p + |s|, t)
  {
    if At(buf, p, s + t) {
      assert buf[p..p + |s|] == (s + t)[..|s|];
      assert buf[p + |s|..p + |s| + |t|] == (s + t)[|s|..];
    }
    if At(buf, p, s) && At(buf, p + |s|, t) {
      assert buf[p..p + |s + t|] == buf[p..p + |s|] + buf[p + |s|..p + |s| + |t|];
    }
  }

  lemma {:induction false} AtIndex(buf: string, p: nat, s: string)
    requires At(buf, p, s)
    ensures forall k {:trigger s[k]} :: 0 <= k < |s| ==> buf[p + k] == s[k]
  {
    forall k | 0 <= k < |s| ensures buf[p + k] == s[k] {
      assert buf[p..p + |s|][k] == s[k];
    }
  }

  lemma {:induction false} Differs(buf: string, p: nat, s: string, k: nat)
    requires k < |s| && p + k < |buf| && buf[p + k] != s[k]
    ensures !At(buf, p, s)
  {
    assert p + |s| <= |buf| ==> buf[p..p + |s|][k] == buf[p + k];
  }

  /** A terminated buffer holding len characters. */
  predicate Terminated(buf: string, len: nat) {
    len < |buf| && buf[len] == NUL
  }

  predicate IsDigit(c: char) {
    '0' <= c <= '9'
  }

  function DigitOf(c: char): nat
    requires IsDigit(c)
  {
    c as int - '0' as int
  }

  function CharOf(d: nat): (c: char)
    requires d < 10
    ensures IsDigit(c) && DigitOf(c) == d
  {
    ('0' as int + d) as char
  }

  /** isspace() in the C locale. */
  predicate IsSpace(c: char) {
    c == ' ' || c == '\n' || c == '\t' || c == '\r' || c == 11 as char || c == 12 as char
  }

  /** Unsigned decimal, no leading zeros: printf's %u and JSON's integers. */
  function Decimal(n: nat): (t: string)
    ensures t != [] && forall i :: 0 <= i < |t| ==> IsDigit(t[i])
    decreases n
  {
    if n < 10 then [CharOf(n)] else Decimal(n / 10) + [CharOf(n % 10)]
  }

  /** strstr from position i: the first occurrence before the NUL. */
  function StrStr(buf: string, i: nat, pat: string): (r: Option<nat>)
    ensures r.Some? ==> i <= r.value && At(buf, r.value, pat)
    decreases |buf| - i
  {
    if At(buf, i, pat) then Some(i)
    else if i >= |buf| || buf[i] == NUL then None
    else StrStr(buf, i + 1, pat)
  }

  /** strchr from position i. */
  function StrChr(buf: string, i: nat, c: char): (r: Option<nat>)
    requires c != NUL
    ensures r.Some? ==> i <= r.value < |buf| && buf[r.value] == c
    decreases |buf| - i
  {
    if i >= |buf| || buf[i] == NUL then None
    else if buf[i] == c then Some(i)
    else StrChr(buf, i + 1, c)
  }

  function SkipSpace(buf: string, i: nat): (j: nat)
    ensures i <= j
    ensures i <= |buf| ==> j <= |buf|
    decreases |buf| - i
  {
    if i < |buf| && IsSpace(buf[i]) then SkipSpace(buf, i + 1) else i
  }

  /** The digits from i on, onto the value v, and where they end. */
  function ScanNumber(buf: string, i: nat, v: nat): (r: (nat, nat))
    ensures i <= r.1
    ensures i <= |buf| ==> r.1 <= |buf|
    decreases |buf| - i
  {
    if i < |buf| && IsDigit(buf[i]) then ScanNumber(buf, i + 1, v * 10 + DigitOf(buf[i])) else (v, i)
  }

  /** Where the digits of a number at i start, after space and sign. */
  function DigitsFrom(buf: string, i: nat): (nat, bool) {
    var j := SkipSpace(buf, i);
    if j < |buf| && buf[j] == '-' then (j + 1, true)
    else if j < |buf| && buf[j] == '+' then (j + 1, false)
    else (j, false)
  }

  /** strtol(p, &next, 10) with a 32-bit long: saturates; next == p when there
      is no digit. */
  function StrToL(buf: string, i: nat): (r: (int, nat))
    requires i <= |buf|
    ensures i <= r.1 <= |buf|
  {
    var (start, negative) := DigitsFrom(buf, i);
    if start >= |buf| || !IsDigit(buf[start]) then (0, i)
    else
      var (v, next) := ScanNumber(buf, start, 0);
      (if negative then (if v > 0x8000_0000 then -0x8000_0000 else 0 - (v as int))
       else if v > 0x7FFF_FFFF then 0x7FFF_FFFF else v, next)
  }

  /** strtoul(p, nullptr, 10) with a 32-bit long: saturates, and negates a
      number that has a minus sign. */
  function StrToUL(buf: string, i: nat): uint32
    requires i <= |buf|
  {
    var (start, negative) := DigitsFrom(buf, i);
    if start >= |buf| || !IsDigit(buf[start]) then 0
    else
      var v := ScanNumber(buf, start, 0).0;
      if v > 0xFFFF_FFFF then 0xFFFF_FFFF
      else if negative && v > 0 then 0x1_0000_0000 - v else v
  }

  // ---- what they find ----

  lemma {:induction false} StrStrFirst(buf: string, i: nat, k: nat, pat: string)
    requires i <= k && At(buf, k, pat)
    requires forall j :: i <= j < k ==> !At(buf, j, pat) && j < |buf| && buf[j] != NUL
    ensures StrStr(buf, i, pat) == Some(k)
    decreases k - i
  {
    if i >= k {
    } else {
      StrStrFirst(buf, i + 1, k, pat);
    }
  }

  lemma {:induction false} StrChrFirst(buf: string, i: nat, k: nat, c: char)
    requires i <= k < |buf| && buf[k] == c != NUL
    requires forall j :: i <= j < k ==> buf[j] != c && buf[j] != NUL
    ensures StrChr(buf, i, c) == Some(k)
    decreases k - i
  {
    if i >= k {
    } else {
      StrChrFirst(buf, i + 1, k, c);
    }
  }

  lemma {:induction false} SkipSpaceTo(buf: string, i: nat, k: nat)
    requires i <= k < |buf| && !IsSpace(buf[k])
    requires forall j :: i <= j < k ==> IsSpace(buf[j])
    ensures SkipSpace(buf, i) == k
    decreases k - i
  {
    if i >= k {
    } else {
      SkipSpaceTo(buf, i + 1, k);
    }
  }

  /** Reading back what Decimal printed. */
  lemma {:induction false} ScanDecimal(buf: string, i: nat, n: nat)
    requires At(buf, i, Decimal(n))
    ensures ScanNumber(buf, i, 0) == ScanNumber(buf, i + |Decimal(n)|, n)
    decreases n
  {
    if n >= 10 {
      var front := Decimal(n / 10);
      AtSplit(buf, i, front, [CharOf(n % 10)]);
      ScanDecimal(buf, i, n / 10);
      assert buf[i + |front|] == buf[i + |front|..i + |front| + 1][0] == CharOf(n % 10);
    } else {
      assert buf[i] == buf[i..i + 1][0] == CharOf(n);
    }
  }

  /** A printed number, after white space and before a non-digit, is what both
      conversions read. */
  lemma {:induction false} ReadsDecimal(buf: string, i: nat, k: nat, n: nat)
    requires i <= k && At(buf, k, Decimal(n)) && k + |Decimal(n)| < |buf| && !IsDigit(buf[k + |Decimal(n)|])
    requires forall j :: i <= j < k ==> IsSpace(buf[j])
    ensures n <= 0x7FFF_FFFF ==> StrToL(buf, i) == (n, k + |Decimal(n)|)
    ensures n <= 0xFFFF_FFFF ==> StrToUL(buf, i) == n
  {
    assert buf[k] == buf[k..k + |Decimal(n)|][0];
    SkipSpaceTo(buf, i, k);
    ScanDecimal(buf, k, n);
    hide Decimal, SkipSpace;
  }

  /** No number: white space, then something that starts none. */
  lemma {:induction false} ReadsNothing(buf: string, i: nat, k: nat)
    requires i <= k < |buf| && !IsSpace(buf[k]) && !IsDigit(buf[k]) && buf[k] != '-' && buf[k] != '+'
    requires forall j :: i <= j < k ==> IsSpace(buf[j])
    ensures StrToL(buf, i) == (0, i)
  {
    SkipSpaceTo(buf, i, k);
    hide SkipSpace;
  }

  // ---- they never pass the terminating NUL ----

  lemma {:induction false} ScanNumberStops(buf: string, i: nat, v: nat, end: nat)
    requires i <= end && Terminated(buf, end)
    ensures ScanNumber(buf, i, v).1 <= end
    decreases end - i
  {
    if i >= end || !IsDigit(buf[i]) {
    } else {
      ScanNumberStops(buf, i + 1, v * 10 + DigitOf(buf[i]), end);
    }
  }

  lemma {:induction false} SkipSpaceStops(buf: string, i: nat, end: nat)
    requires i <= end && Terminated(buf, end)
    ensures SkipSpace(buf, i) <= end
    decreases end - i
  {
    if i >= end || !IsSpace(buf[i]) {
    } else {
      SkipSpaceStops(buf, i + 1, end);
    }
  }

  lemma {:induction false} StrToLStops(buf: string, i: nat, end: nat)
    requires i <= end && Terminated(buf, end)
    ensures StrToL(buf, i).1 <= end
  {
    SkipSpaceStops(buf, i, end);
    var start := DigitsFrom(buf, i).0;
    if start <= end { ScanNumberStops(buf, start, 0, end); }
  }

  lemma {:induction false} StrChrStops(buf: string, i: nat, c: char, end: nat)
    requires i <= end && Terminated(buf, end) && c != NUL
    ensures StrChr(buf, i, c).Some? ==> StrChr(buf, i, c).value < end
    decreases end - i
  {
    if i >= end {
    } else {
      StrChrStops(buf, i + 1, c, end);
    }
  }

  lemma {:induction false} StrStrStops(buf: string, i: nat, pat: string, end: nat)
    requires i <= end && Terminated(buf, end) && NUL !in pat
    ensures StrStr(buf, i, pat).Some? ==> StrStr(buf, i, pat).value + |pat| <= end
    decreases end - i
  {
    if At(buf, i, pat) {
      AtIndex(buf, i, pat);
      assert forall k {:trigger pat[k]} :: 0 <= k < |pat| ==> pat[k] != NUL && buf[i + k] == pat[k];
      assert end == i + (end - i);
    } else if i < end {
      StrStrStops(buf, i + 1, pat, end);
    }
  }
}
