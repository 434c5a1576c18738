/** The provisioned settings: what makes them valid, and the byte-exact record
    that keeps them in one flash page. */
module NetConfig {
  import opened Config
  import opened Crc32
  import opened Ipv4

  const SSID_MAX: nat := 32
  const PASS_MAX: nat := 63
  const PASS_MIN: nat := 8
  const HOST_MAX: nat := 63

  const MAGIC: bv32 := 0x434E_5249
  const VERSION: bv16 := 1
  const PAYLOAD_SIZE: bv16 := 163
  const OFF_SSID: nat := 8
  const OFF_PASS: nat := 41
  const OFF_HOST: nat := 105
  const OFF_PORT: nat := 169
  const OFF_CRC: nat := 171
  const RECORD_USED: nat := 175
  const RECORD_BYTES: nat := 256

  /** The settings struct: three char arrays and a port. */
  datatype Fields = Fields(ssid: Text, password: Text, host: Text, port: bv16)

  type NetConfig = c: Fields | |c.ssid| == SSID_MAX + 1 && |c.password| == PASS_MAX + 1 && |c.host| == HOST_MAX + 1
    witness Fields(Zeros(33), Zeros(64), Zeros(64), 0)

  datatype Invalid = Ok | BadSsid | BadPassword | BadHost | BadPort

  function Zeros(n: nat): (z: Text)
    ensures |z| == n && forall i :: 0 <= i < n ==> z[i] == 0
  {
    seq(n, _ => 0)
  }

  /** What is read of a text that ends at its first NUL, or at its end. */
  function UpToNul(t: Text): Text {
    if 0 in t then CString(t) else t
  }

  /** The all-zero struct a memset leaves. */
  const BLANK: NetConfig := Fields(Zeros(33), Zeros(64), Zeros(64), 0)

  // ---- validity ----

  /** Length up to the first NUL, and whether there is one within the field. */
  method BoundedLen(s: Text) returns (n: nat, terminated: bool)
    ensures terminated <==> 0 in s
    ensures n == if 0 in s then |CString(s)| else |s|
  {
    for i := 0 to |s|
      invariant 0 !in s[..i]
    {
      if s[i] == 0 {
        FirstNul(s, i);
        return i, true;
      }
    }
    assert s[..|s|] == s;
    return |s|, false;
  }

  lemma {:induction false} FirstNul(s: Text, i: nat)
    requires i < |s| && s[i] == 0 && 0 !in s[..i]
    ensures 0 in s && Length(s) == i && CString(s) == s[..i]
  {
    NoNulBefore(s, i);
    NoNulBefore(s, Length(s));
  }

  lemma {:induction false} NoNulBefore(s: Text, i: nat)
    requires i <= |s| && 0 !in s[..i]
    ensures forall j :: 0 <= j < i ==> s[j] != 0
  {
    forall j | 0 <= j < i ensures s[j] != 0 {
      assert s[..i][j] in s[..i];
    }
  }

  predicate SsidOk(f: Text) {
    0 in f && 1 <= |CString(f)| <= SSID_MAX
  }

  predicate PasswordOk(f: Text) {
    0 in f && |CString(f)| <= PASS_MAX && (|CString(f)| == 0 || |CString(f)| >= PASS_MIN)
  }

  predicate HostOk(f: Text) {
    0 in f && PageRule(CString(f)).Some?
  }

  /** The first field that is wrong. */
  function Validate(c: NetConfig): Invalid {
    if !SsidOk(c.ssid) then BadSsid
    else if !PasswordOk(c.password) then BadPassword
    else if !HostOk(c.host) then BadHost
    else if c.port == 0 then BadPort
    else Ok
  }

  predicate Valid(c: NetConfig) {
    Validate(c) == Ok
  }

  /** validate(), check by check. */
  method CheckFields(c: NetConfig) returns (r: Invalid)
    ensures r == Validate(c)
  {
    hide PageRule, CString;
    var n, terminated := BoundedLen(c.ssid);
    if !terminated || n == 0 || n > SSID_MAX { return BadSsid; }
    n, terminated := BoundedLen(c.password);
    if !terminated || n > PASS_MAX || (n != 0 && n < PASS_MIN) { return BadPassword; }
    n, terminated := BoundedLen(c.host);
    if !terminated { return BadHost; }
    if n == 0 {
      EmptyIsNoAddress(CString(c.host));
      return BadHost;
    }
    var ip := ParseIpv4(c.host);
    if ip == None { return BadHost; }
    if c.port == 0 { return BadPort; }
    r := Ok;
  }

  lemma {:induction false} EmptyIsNoAddress(t: Text)
    requires |t| == 0
    ensures PageRule(t) == None
  {
  }

  // ---- the record ----

  function Le16(v: bv16): (b: seq<byte>)
    ensures |b| == 2
  {
    [(v & 0xFF) as byte, (v >> 8) as byte]
  }

  function Get16(page: seq<byte>, at: nat): bv16
    requires at + 2 <= |page|
  {
    (page[at] as bv16) | ((page[at + 1] as bv16) << 8)
  }

  function Get32(page: seq<byte>, at: nat): bv32
    requires at + 4 <= |page|
  {
    Word(page[at], page[at + 1], page[at + 2], page[at + 3])
  }

  lemma {:induction false} Le16Reads(v: bv16)
    ensures ((Le16(v)[0] as bv16) | ((Le16(v)[1] as bv16) << 8)) == v
  {
  }

  /** What a field contributes: its C string, cut to the last cell, zero-filled. */
  function Canon(f: Text): (z: Text)
    requires f != []
    ensures |z| == |f|
  {
    var t := if 0 in f then CString(f) else f[..|f| - 1];
    t + Zeros(|f| - |t|)
  }

  function Canonical(c: NetConfig): NetConfig {
    Fields(Canon(c.ssid), Canon(c.password), Canon(c.host), c.port)
  }

  function Header(): (h: seq<byte>)
    ensures |h| == OFF_SSID
  {
    WordBytesOf(MAGIC) + Le16(VERSION) + Le16(PAYLOAD_SIZE)
  }

  /** The bytes the CRC covers. */
  function Body(c: NetConfig): (b: seq<byte>)
    ensures |b| == OFF_CRC
  {
    Header() + Canon(c.ssid) + Canon(c.password) + Canon(c.host) + Le16(c.port)
  }

  function Padding(): (p: seq<byte>)
    ensures |p| == RECORD_BYTES - RECORD_USED
  {
    seq(RECORD_BYTES - RECORD_USED, _ => 0xFF)
  }

  /** The page that stores c. */
  function Serialize(c: NetConfig): (page: seq<byte>)
    ensures |page| == RECORD_BYTES
  {
    Body(c) + WordBytesOf(Crc(Body(c))) + Padding()
  }

  function Unpack(page: seq<byte>): NetConfig
    requires |page| >= RECORD_USED
  {
    Fields(page[OFF_SSID..OFF_PASS], page[OFF_PASS..OFF_HOST], page[OFF_HOST..OFF_PORT], Get16(page, OFF_PORT))
  }

  /** Magic, version, size, CRC, then the fields' own rules. */
  function Parse(page: seq<byte>): Option<NetConfig> {
    if |page| < RECORD_USED then None
    else if Get32(page, 0) != MAGIC then None
    else if Get16(page, 4) != VERSION then None
    else if Get16(page, 6) != PAYLOAD_SIZE then None
    else if Get32(page, OFF_CRC) != Crc(page[..OFF_CRC]) then None
    else if Validate(Unpack(page)) != Ok then None
    else Some(Unpack(page))
  }

  // ---- writing the record in place ----

  method Fill(page: array<byte>, at: nat, n: nat, v: byte)
    requires at + n <= page.Length
    modifies page
    ensures page[..at] == old(page[..at]) && page[at + n..] == old(page[at + n..])
    ensures forall i :: at <= i < at + n ==> page[i] == v
  {
    for i := 0 to n
      invariant page[..at] == old(page[..at]) && page[at + n..] == old(page[at + n..])
      invariant forall k :: at <= k < at + i ==> page[k] == v
    {
      page[at + i] := v;
    }
  }

  method Put16(page: array<byte>, at: nat, v: bv16)
    requires at + 2 <= page.Length
    modifies page
    ensures page[..at] == old(page[..at]) && page[at + 2..] == old(page[at + 2..])
    ensures page[at..at + 2] == Le16(v)
  {
    page[at] := (v & 0xFF) as byte;
    page[at + 1] := (v >> 8) as byte;
  }

  method Put32(page: array<byte>, at: nat, v: bv32)
    requires at + 4 <= page.Length
    modifies page
    ensures page[..at] == old(page[..at]) && page[at + 4..] == old(page[at + 4..])
    ensures page[at..at + 4] == WordBytesOf(v)
  {
    var b := WordBytesOf(v);
    for i := 0 to 4
      invariant page[..at] == old(page[..at]) && page[at + 4..] == old(page[at + 4..])
      invariant page[at..at + i] == b[..i]
    {
      page[at + i] := b[i];
      assert page[at..at + i + 1] == page[at..at + i] + [b[i]];
    }
  }

  /** strncpy of a field but for its last cell, over cells that are zero. */
  method CopyField(page: array<byte>, at: nat, f: Text)
    requires f != [] && at + |f| <= page.Length && page[at + |f| - 1] == 0
    modifies page
    ensures page[..at] == old(page[..at]) && page[at + |f|..] == old(page[at + |f|..])
    ensures page[at..at + |f|] == Canon(f)
  {
    var n := |f| - 1;
    var i := CopyString(page, at, f);
    assert page[at + n] == old(page[at + n..])[0];
    ghost var start := page[at..at + i];
    assert start == page[..at + i][at..];
    Fill(page, at + i, n - i, 0);
    assert page[at + n] == page[at + n..][0];
    ghost var field := page[at..at + |f|];
    assert field[..i] == page[..at + i][at..] == start;
    forall k | 0 <= k < |f| - i ensures field[i..][k] == 0 {
      assert field[i..][k] == page[at + i + k];
    }
    AllZero(field[i..]);
    Joins(field, i);
    assert page[at + |f|..] == page[at + n..][1..];
  }

  lemma {:induction false} AllZero(s: Text)
    requires forall k :: 0 <= k < |s| ==> s[k] == 0
    ensures s == Zeros(|s|)
  {
  }

  lemma {:induction false} Joins(s: Text, i: nat)
    requires i <= |s|
    ensures s == s[..i] + s[i..]
  {
  }

  /** The copying half of strncpy: up to the NUL or the last cell but one. */
  method CopyString(page: array<byte>, at: nat, f: Text) returns (i: nat)
    requires f != [] && at + |f| <= page.Length
    modifies page
    ensures i <= |f| - 1 && f[..i] == if 0 in f then CString(f) else f[..|f| - 1]
    ensures page[..at] == old(page[..at]) && page[at + |f| - 1..] == old(page[at + |f| - 1..])
    ensures page[at..at + i] == f[..i]
  {
    var n := |f| - 1;
    i := 0;
    while i < n && f[i] != 0
      invariant i <= n && 0 !in f[..i]
      invariant page[..at] == old(page[..at]) && page[at + n..] == old(page[at + n..])
      invariant page[at..at + i] == f[..i]
    {
      page[at + i] := f[i];
      i := i + 1;
      assert page[at..at + i] == page[at..at + i - 1] + [f[i - 1]];
      assert f[..i] == f[..i - 1] + [f[i - 1]];
    }
    CStringEnds(f, i);
  }

  /** A copy that has met no NUL yet is still inside the C string. */
  lemma {:induction false} CStringReaches(f: Text, i: nat)
    requires f != [] && i <= |f| - 1 && 0 !in f[..i]
    ensures i <= if 0 in f then |CString(f)| else |f| - 1
  {
    NoNulBefore(f, i);
  }

  /** A copy that stopped, at a NUL or before the last cell, has it all. */
  lemma {:induction false} CStringEnds(f: Text, i: nat)
    requires f != [] && i <= |f| - 1 && 0 !in f[..i] && (i < |f| - 1 ==> f[i] == 0)
    ensures f[..i] == if 0 in f then CString(f) else f[..|f| - 1]
  {
    CStringReaches(f, i);
    if i < |f| - 1 {
      FirstNul(f, i);
    } else if 0 in f {
      assert Length(f) == i;
    }
  }

  /** serialize(): refuses a short buffer, else writes exactly the page. */
  method SerializeInto(c: NetConfig, page: array<byte>, len: nat) returns (written: nat)
    requires len <= page.Length
    modifies page
    ensures len < RECORD_BYTES ==> written == 0 && page[..] == old(page[..])
    ensures len >= RECORD_BYTES ==>
              written == RECORD_BYTES && page[..RECORD_BYTES] == Serialize(c) && page[RECORD_BYTES..] == old(page[RECORD_BYTES..])
  {
    if len < RECORD_BYTES { return 0; }
    hide Crc, Canon, WordBytesOf, Le16;
    Fill(page, 0, RECORD_BYTES, 0xFF);
    ghost var tail := page[RECORD_USED..];
    WriteHeader(page);
    assert page[RECORD_USED..] == page[OFF_SSID..][RECORD_USED - OFF_SSID..] == tail;
    Fill(page, OFF_SSID, OFF_PORT - OFF_SSID, 0);
    assert page[RECORD_USED..] == page[OFF_PORT..][RECORD_USED - OFF_PORT..] == tail;
    WriteFields(c, page);
    assert page[RECORD_USED..] == page[OFF_CRC..][RECORD_USED - OFF_CRC..] == tail;
    var crc := ComputeCrc32(page[..OFF_CRC]);
    Put32(page, OFF_CRC, crc);
    assert page[RECORD_USED..RECORD_BYTES] == tail[..RECORD_BYTES - RECORD_USED] == Padding();
    assert page[RECORD_BYTES..] == tail[RECORD_BYTES - RECORD_USED..];
    assert page[..RECORD_BYTES] == page[..OFF_CRC] + page[OFF_CRC..RECORD_USED] + page[RECORD_USED..RECORD_BYTES];
    written := RECORD_BYTES;
  }

  method WriteHeader(page: array<byte>)
    requires page.Length >= RECORD_BYTES
    modifies page
    ensures page[..OFF_SSID] == Header() && page[OFF_SSID..] == old(page[OFF_SSID..])
  {
    hide WordBytesOf, Le16;
    Put32(page, 0, MAGIC);
    assert page[..4] == page[0..4];
    assert page[OFF_SSID..] == page[4..][OFF_SSID - 4..];
    Put16(page, 4, VERSION);
    assert page[..6] == page[..4] + page[4..6];
    assert page[OFF_SSID..] == page[6..][OFF_SSID - 6..];
    Put16(page, 6, PAYLOAD_SIZE);
    assert page[..8] == page[..6] + page[6..8];
  }

  /** The three text fields and the port, behind a header already written. */
  method WriteFields(c: NetConfig, page: array<byte>)
    requires page.Length >= RECORD_BYTES && page[..OFF_SSID] == Header()
    requires forall i :: OFF_SSID <= i < OFF_PORT ==> page[i] == 0
    modifies page
    ensures page[..OFF_CRC] == Body(c) && page[OFF_CRC..] == old(page[OFF_CRC..])
  {
    hide Canon, Le16, Header;
    ghost var rest := page[OFF_CRC..];
    CopyField(page, OFF_SSID, c.ssid);
    assert page[OFF_HOST - 1] == page[OFF_PASS..][OFF_HOST - 1 - OFF_PASS];
    assert page[OFF_PORT - 1] == page[OFF_PASS..][OFF_PORT - 1 - OFF_PASS];
    assert page[OFF_CRC..] == page[OFF_PASS..][OFF_CRC - OFF_PASS..];
    assert page[..OFF_PASS] == Header() + Canon(c.ssid);
    CopyField(page, OFF_PASS, c.password);
    assert page[OFF_PORT - 1] == page[OFF_HOST..][OFF_PORT - 1 - OFF_HOST];
    assert page[OFF_CRC..] == page[OFF_HOST..][OFF_CRC - OFF_HOST..];
    assert page[..OFF_HOST] == Header() + Canon(c.ssid) + Canon(c.password);
    CopyField(page, OFF_HOST, c.host);
    assert page[OFF_CRC..] == page[OFF_PORT..][OFF_CRC - OFF_PORT..];
    assert page[..OFF_PORT] == Header() + Canon(c.ssid) + Canon(c.password) + Canon(c.host);
    Put16(page, OFF_PORT, c.port);
    assert page[..OFF_CRC] == page[..OFF_PORT] + page[OFF_PORT..OFF_PORT + 2];
  }

  // ---- round trips ----

  /** Reading any page that starts with a body and its CRC. */
  lemma {:induction false} ReadsBack(c: NetConfig, page: seq<byte>)
    requires |page| >= RECORD_USED && page[..OFF_CRC] == Body(c) && page[OFF_CRC..RECORD_USED] == WordBytesOf(Crc(Body(c)))
    ensures Get32(page, 0) == MAGIC && Get16(page, 4) == VERSION && Get16(page, 6) == PAYLOAD_SIZE
    ensures Get32(page, OFF_CRC) == Crc(page[..OFF_CRC])
    ensures Unpack(page) == Canonical(c)
  {
    hide Crc, Canon, WordBytesOf, Word, Body, Header;
    var b := Body(c);
    BodyParts(c);
    assert page[..OFF_CRC][..OFF_SSID] == page[..OFF_SSID];
    assert page[..OFF_CRC][OFF_SSID..OFF_PASS] == page[OFF_SSID..OFF_PASS];
    assert page[..OFF_CRC][OFF_PASS..OFF_HOST] == page[OFF_PASS..OFF_HOST];
    assert page[..OFF_CRC][OFF_HOST..OFF_PORT] == page[OFF_HOST..OFF_PORT];
    assert page[..OFF_CRC][OFF_PORT..] == page[OFF_PORT..OFF_PORT + 2];
    assert page[OFF_PORT] == page[OFF_PORT..OFF_PORT + 2][0] && page[OFF_PORT + 1] == page[OFF_PORT..OFF_PORT + 2][1];
    Le16Reads(c.port);
    HeaderReads(page);
    WordOfBytes(Crc(b));
    assert forall i :: 0 <= i < 4 ==> page[OFF_CRC + i] == page[OFF_CRC..RECORD_USED][i];
  }

  lemma {:induction false} BodyParts(c: NetConfig)
    ensures var b := Body(c);
            && b[..OFF_SSID] == Header() && b[OFF_SSID..OFF_PASS] == Canon(c.ssid) && b[OFF_PASS..OFF_HOST] == Canon(c.password)
            && b[OFF_HOST..OFF_PORT] == Canon(c.host) && b[OFF_PORT..] == Le16(c.port)
  {
    hide Canon, Le16, Header;
  }

  lemma {:induction false} HeaderReads(page: seq<byte>)
    requires |page| >= OFF_SSID && page[..OFF_SSID] == Header()
    ensures Get32(page, 0) == MAGIC && Get16(page, 4) == VERSION && Get16(page, 6) == PAYLOAD_SIZE
  {
    HeaderBytes();
    assert forall i :: 0 <= i < OFF_SSID ==> page[i] == page[..OFF_SSID][i];
    hide Header;
  }

  lemma {:induction false} SerializedParts(c: NetConfig)
    ensures Serialize(c)[..OFF_CRC] == Body(c)
    ensures Serialize(c)[OFF_CRC..RECORD_USED] == WordBytesOf(Crc(Body(c)))
  {
    hide Crc, Body, WordBytesOf;
  }

  /** Zero-filling a field keeps its C string. */
  lemma {:induction false} CanonKeepsString(f: Text)
    requires 0 in f
    ensures 0 in Canon(f) && CString(Canon(f)) == CString(f)
    ensures Canon(Canon(f)) == Canon(f)
  {
    var t := CString(f);
    assert Canon(f)[|t|] == 0;
    assert Canon(f)[..|t|] == t;
    FirstNul(Canon(f), |t|);
  }

  lemma {:induction false} CanonicalKeepsValidity(c: NetConfig)
    requires Valid(c)
    ensures Valid(Canonical(c)) && Canonical(Canonical(c)) == Canonical(c)
  {
    hide CString, PageRule, Canon;
    CanonKeepsString(c.ssid);
    CanonKeepsString(c.password);
    CanonKeepsString(c.host);
  }

  /** Every valid configuration is read back, up to its zero-filled form. */
  lemma {:induction false} RoundTrip(c: NetConfig)
    requires Valid(c)
    ensures Parse(Serialize(c)) == Some(Canonical(c))
  {
    hide Crc, Validate, Canonical, Serialize, Get16, Get32, Unpack;
    SerializedParts(c);
    ReadsBack(c, Serialize(c));
    CanonicalKeepsValidity(c);
  }

  /** What is written for any configuration is accepted exactly when its
      canonical form is valid. That is the configuration's own validity except
      where a field has no NUL: there the copy is cut to the last cell, which
      can make an invalid configuration's record acceptable. */
  lemma {:induction false} AcceptedIff(c: NetConfig)
    ensures Parse(Serialize(c)) == if Valid(Canonical(c)) then Some(Canonical(c)) else None
    ensures Valid(c) <==> Valid(Canonical(c)) && 0 in c.ssid && 0 in c.password && 0 in c.host
  {
    hide Crc, Serialize, Get16, Get32, Unpack, CString, PageRule, Canon;
    SerializedParts(c);
    ReadsBack(c, Serialize(c));
    if 0 in c.ssid { CanonKeepsString(c.ssid); }
    if 0 in c.password { CanonKeepsString(c.password); }
    if 0 in c.host { CanonKeepsString(c.host); }
  }

  /** A configuration of the second kind: valid but for an SSID field that is
      full to its last cell. */
  lemma {:induction false} CutFieldIsAccepted(d: NetConfig)
    requires Valid(d)
    ensures var c := d.(ssid := seq(SSID_MAX + 1, _ => 0x41));
            !Valid(c) && Parse(Serialize(c)).Some?
  {
    hide Crc, Serialize, Parse, CString, PageRule;
    var full := seq(SSID_MAX + 1, _ => 0x41 as byte);
    var c := d.(ssid := full);
    AcceptedIff(c);
    AcceptedIff(d);
    assert Canon(full)[SSID_MAX] == 0;
    assert Canon(full)[..SSID_MAX] == full[..SSID_MAX];
    FirstNul(Canon(full), SSID_MAX);
  }

  /** The page byte by byte: magic, version 1 and size 163 low byte first, the
      three fields in 33, 64 and 64 cells, port and checksum low byte first, and
      0xFF to the end. */
  lemma {:induction false} PageLayout(c: NetConfig)
    ensures var page := Serialize(c);
            && |page| == 256 && page[..8] == [0x49, 0x52, 0x4E, 0x43, 1, 0, 163, 0]
            && page[8..41] == Canon(c.ssid) && page[41..105] == Canon(c.password) && page[105..169] == Canon(c.host)
            && page[169] as bv16 == c.port & 0xFF && page[170] as bv16 == c.port >> 8
            && page[171..175] == WordBytesOf(Crc(page[..171]))
            && forall i :: 175 <= i < 256 ==> page[i] == 0xFF
  {
    hide Crc, Canon, WordBytesOf;
    var page, body := Serialize(c), Body(c);
    HeaderBytes();
    assert page[..171] == body;
    assert page[..8] == body[..8] == Header();
    assert page[8..41] == body[8..41] && page[41..105] == body[41..105] && page[105..169] == body[105..169];
    assert page[169..171] == body[169..171] == Le16(c.port);
    assert page[169] == page[169..171][0] && page[170] == page[169..171][1];
    PortBytes(c.port);
    assert page[171..175] == WordBytesOf(Crc(body));
    assert page[175..] == Padding();
    forall i | 175 <= i < 256 ensures page[i] == 0xFF { assert page[i] == page[175..][i - 175]; }
  }

  lemma {:induction false} HeaderBytes()
    ensures Header() == [0x49, 0x52, 0x4E, 0x43, 1, 0, 163, 0]
  {
  }

  lemma {:induction false} PortBytes(port: bv16)
    ensures Le16(port)[0] as bv16 == port & 0xFF && Le16(port)[1] as bv16 == port >> 8
  {
  }

  /** Only a page with this header is read. */
  lemma {:induction false} HeaderNeeded(page: seq<byte>)
    requires Parse(page).Some?
    ensures |page| >= 175 && page[..8] == [0x49, 0x52, 0x4E, 0x43, 1, 0, 163, 0]
  {
    hide Crc, Validate, Unpack;
    WordInjective(page[0], page[1], page[2], page[3], 0x49, 0x52, 0x4E, 0x43);
  }

  /** Bytes after a field's NUL never reach the page. */
  lemma {:induction false} SamePage(c: NetConfig, d: NetConfig)
    requires Canonical(c) == Canonical(d)
    ensures Serialize(c) == Serialize(d)
  {
    hide Crc, Canon;
  }

  lemma {:induction false} TailNeverStored(c: NetConfig, d: NetConfig)
    requires 0 in c.ssid && 0 in c.password && 0 in c.host && 0 in d.ssid && 0 in d.password && 0 in d.host
    requires CString(c.ssid) == CString(d.ssid) && CString(c.password) == CString(d.password)
    requires CString(c.host) == CString(d.host) && c.port == d.port
    ensures Serialize(c) == Serialize(d)
  {
    hide CString, Serialize;
    SamePage(c, d);
  }

  /** Writing what was read back gives the same page. */
  lemma {:induction false} SerializeIsStable(c: NetConfig)
    requires Valid(c)
    ensures Parse(Serialize(c)).Some? && Serialize(Parse(Serialize(c)).value) == Serialize(c)
  {
    RoundTrip(c);
    hide Crc, Parse, CString, Validate, Canon;
    CanonicalKeepsValidity(c);
    SamePage(c, Canonical(c));
  }

  /** Nothing invalid ever comes out of the parser. */
  lemma {:induction false} ParsedIsValid(page: seq<byte>)
    requires Parse(page).Some?
    ensures Valid(Parse(page).value)
  {
  }

  /** Two valid configurations share a page exactly when they are the same
      strings and port. */
  lemma {:induction false} PageIdentifiesSettings(c: NetConfig, d: NetConfig)
    requires Valid(c) && Valid(d)
    ensures Serialize(c) == Serialize(d) <==> Canonical(c) == Canonical(d)
  {
    RoundTrip(c);
    RoundTrip(d);
    if Canonical(c) == Canonical(d) { SamePage(c, d); }
    hide Serialize, Canonical, Parse, Validate;
  }

  /** Error detection: a page that was accepted, changed inside some 32
      consecutive bits of its 175 record bytes, is no longer accepted. */
  lemma {:induction false} DamagedRecordRejected(page: seq<byte>, page': seq<byte>, j: nat)
    requires |page| >= RECORD_USED && |page'| >= RECORD_USED && Parse(page).Some?
    requires j + 32 <= 8 * RECORD_USED && ConfinedTo(page[..RECORD_USED], page'[..RECORD_USED], j)
    requires page[..RECORD_USED] != page'[..RECORD_USED]
    ensures Parse(page') == None
  {
    hide Crc, ConfinedTo, Validate, Get16, Unpack, Word;
    var body, crc := page[..OFF_CRC], page[OFF_CRC..RECORD_USED];
    var body', crc' := page'[..OFF_CRC], page'[OFF_CRC..RECORD_USED];
    assert page[..RECORD_USED] == body + crc && page'[..RECORD_USED] == body' + crc';
    BurstIsDetected(body, crc, body', crc', j);
  }

  // ---- build-time defaults ----

  /** A C string literal: no NUL inside. */
  type Literal = t: Text | 0 !in t

  /** The four -D compile definitions. */
  datatype Build = Build(ssid: Literal, password: Literal, host: Literal, port: bv16)

  const PLACEHOLDER: Text :=
    [0x59, 0x4F, 0x55, 0x52, 0x5F, 0x57, 0x49, 0x46, 0x49, 0x5F, 0x53, 0x53, 0x49, 0x44]

  /** strcpy into a zeroed field. */
  function Stored(t: Text, size: nat): (f: Text)
    requires |t| <= size
    ensures |f| == size
  {
    t + Zeros(size - |t|)
  }

  function BuildDefaults(b: Build): (r: Option<NetConfig>)
    ensures r.Some? ==> Valid(r.value)
  {
    if b.ssid == [] || b.ssid == PLACEHOLDER then None
    else if |b.ssid| > SSID_MAX || |b.password| > PASS_MAX || |b.host| > HOST_MAX then None
    else
      var c := Fields(Stored(b.ssid, SSID_MAX + 1), Stored(b.password, PASS_MAX + 1), Stored(b.host, HOST_MAX + 1), b.port);
      if Validate(c) != Ok then None else Some(c)
  }

  lemma {:induction false} StoredReadsBack(t: Literal, size: nat)
    requires |t| < size
    ensures 0 in Stored(t, size) && CString(Stored(t, size)) == t
  {
    assert Stored(t, size)[|t|] == 0;
    assert Stored(t, size)[..|t|] == t;
    FirstNul(Stored(t, size), |t|);
  }

  /** The build settings are used exactly when they are set to something other
      than the placeholder and each obeys its field's rule, and then the hub
      runs on these texts and this port. */
  lemma {:induction false} BuildDefaultsIff(b: Build)
    ensures BuildDefaults(b).Some? <==>
              && 1 <= |b.ssid| <= 32 && b.ssid != PLACEHOLDER
              && (|b.password| == 0 || 8 <= |b.password| <= 63)
              && |b.host| <= 63 && PageRule(b.host).Some? && b.port != 0
    ensures BuildDefaults(b).Some? ==>
              var c := BuildDefaults(b).value;
              CString(c.ssid) == b.ssid && CString(c.password) == b.password && CString(c.host) == b.host && c.port == b.port
  {
    hide CString, PageRule, Stored, PLACEHOLDER;
    if |b.ssid| <= SSID_MAX { StoredReadsBack(b.ssid, SSID_MAX + 1); }
    if |b.password| <= PASS_MAX { StoredReadsBack(b.password, PASS_MAX + 1); }
    if |b.host| <= HOST_MAX { StoredReadsBack(b.host, HOST_MAX + 1); }
  }
}
