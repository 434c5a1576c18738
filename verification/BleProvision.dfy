/** The GATT side of provisioning: what a connected client stages, hands over and
    is told. Every function is one callback or one call under the lock. */
module BleProvision {
  import opened Config
  import opened Ipv4
  import opened NetConfig
  import opened NotifyQueue

  const PREP_CELLS: nat := HOST_MAX + 1
  const CMD_APPLY: byte := 1
  const CMD_FORGET: byte := 2

  // wire values of the state and source bytes
  const UNPROVISIONED: uint8 := 0
  const IDLE: uint8 := 1
  const WIFI_CONNECTING: uint8 := 2
  const WIFI_FAILED: uint8 := 3
  const MQTT_CONNECTING: uint8 := 4
  const MQTT_FAILED: uint8 := 5
  const ONLINE: uint8 := 6
  const REVERTED: uint8 := 7
  const INVALID: uint8 := 8
  const SAVE_FAILED: uint8 := 9
  const STORED: uint8 := 0
  const CANDIDATE: uint8 := 1
  const BUILD_DEFAULTS: uint8 := 2

  type int8 = x: int | -128 <= x < 128

  type Ip = a: seq<uint8> | |a| == 4 witness [0, 0, 0, 0]

  const NO_IP: Ip := [0, 0, 0, 0]

  datatype Status = Status(state: uint8, reason: int8, ip: Ip, attempt: uint8, source: uint8)

  /** The characteristics a client can write; HOther stands for the rest. */
  datatype Handle = HSsid | HPass | HHost | HPort | HCmd | HOther

  /** A prepared write in progress. */
  datatype Prep = Prep(cells: seq<byte>, handle: Option<Handle>, len: nat, bad: bool)

  datatype Ble = Ble(active: bool, connected: bool, subscribed: bool, current: NetConfig, staged: NetConfig,
                     handoff: NetConfig, handoffValid: bool, status: Packet, notify: Notify, prep: Prep)

  /** The bits signalled to the network task. */
  datatype Bit = Commit | Forget | ClientLeft

  datatype Rc = Done | InvalidLength | NotAllowed | NotSupported

  datatype Event =
    | Connect
    | Disconnect
    | WriteCcc(value: bv16)
    | Write(handle: Handle, data: seq<byte>)
    | Prepare(handle: Handle, offset: nat, data: seq<byte>)
    | CheckPrepared
    | Execute
    | Cancel
    | CanSendNow

  // ---- the status on the wire ----

  function Encode(s: Status): Packet {
    [s.state, if s.reason < 0 then s.reason + 0x100 else s.reason] + s.ip + [s.attempt, s.source]
  }

  function Decode(p: Packet): Status {
    var reason: int := p[1];
    Status(p[0], if reason < 0x80 then reason else reason - 0x100, p[2..6], p[6], p[7])
  }

  lemma {:induction false} StatusReadsBack(s: Status, p: Packet)
    ensures Decode(Encode(s)) == s
    ensures Encode(Decode(p)) == p
  {
    assert Encode(s)[2..6] == s.ip;
    assert p == [p[0], p[1]] + p[2..6] + [p[6], p[7]];
  }

  // ---- the callbacks ----

  function Cap(h: Handle): nat {
    match h
    case HSsid => SSID_MAX
    case HPass => PASS_MAX
    case HHost => HOST_MAX
    case HPort => 2
    case HCmd => 1
    case HOther => 0
  }

  predicate Preparable(h: Handle) {
    Cap(h) != 0 && h != HCmd
  }

  function Reset(): Prep {
    Prep(Zeros(PREP_CELLS), None, 0, false)
  }

  function PushStatus(b: Ble, s: Status): Ble {
    b.(status := Encode(s), notify := if b.subscribed then Push(b.notify, Encode(s)) else b.notify)
  }

  /** A text cleared, then filled. */
  function SetText(data: seq<byte>, size: nat): (t: Text)
    requires |data| < size
    ensures |t| == size && 0 in t
  {
    assert (data + Zeros(size - |data|))[size - 1] == 0;
    data + Zeros(size - |data|)
  }

  function Reason(why: Invalid): int8 {
    match why
    case Ok => 0
    case BadSsid => 1
    case BadPassword => 2
    case BadHost => 3
    case BadPort => 4
  }

  function Command(b: Ble, code: byte): (Ble, Rc, set<Bit>) {
    if code == CMD_APPLY then
      var why := Validate(b.staged);
      if why != Ok then (PushStatus(b, Status(INVALID, Reason(why), NO_IP, 0, CANDIDATE)), NotAllowed, {})
      else (b.(handoff := b.staged, handoffValid := true), Done, {Commit})
    else if code == CMD_FORGET then (b, Done, {Forget})
    else (b, NotAllowed, {})
  }

  /** The settings with one field replaced. */
  function SetField(c: NetConfig, h: Handle, data: seq<byte>): NetConfig
    requires |data| <= Cap(h) && (h == HPort ==> |data| == 2)
  {
    match h
    case HSsid => c.(ssid := SetText(data, SSID_MAX + 1))
    case HPass => c.(password := SetText(data, PASS_MAX + 1))
    case HHost => c.(host := SetText(data, HOST_MAX + 1))
    case HPort => c.(port := (data[0] as bv16) | ((data[1] as bv16) << 8))
    case _ => c
  }

  /** A complete value for one characteristic. */
  function ApplyValue(b: Ble, h: Handle, data: seq<byte>): (Ble, Rc, set<Bit>) {
    if |data| > Cap(h) then (b, InvalidLength, {})
    else if (h == HPort && |data| != 2) || (h == HCmd && |data| != 1) then (b, InvalidLength, {})
    else if h == HCmd then Command(b, data[0])
    else (b.(staged := SetField(b.staged, h, data)), Done, {})
  }

  function PrepareStep(p: Prep, h: Handle, offset: nat, data: seq<byte>): (Prep, Rc)
    requires |p.cells| == PREP_CELLS
  {
    if !Preparable(h) then (p, NotSupported)
    else
      var q := p.(bad := p.bad || (p.handle.Some? && p.handle.value != h), handle := Some(h));
      if offset + |data| > Cap(h) then (q, InvalidLength)
      else (q.(cells := q.cells[..offset] + data + q.cells[offset + |data|..],
               len := if offset + |data| > q.len then offset + |data| else q.len), Done)
  }

  function Step(b: Ble, e: Event): (Ble, Rc, set<Bit>)
    requires |b.prep.cells| == PREP_CELLS && b.prep.len <= PREP_CELLS
  {
    match e
    case Connect =>
      (b.(connected := true, staged := b.current, subscribed := false, notify := EMPTY, prep := Reset()), Done, {})
    case Disconnect =>
      if !b.connected then (b, Done, {})
      else (b.(connected := false, subscribed := false, notify := EMPTY, staged := BLANK, prep := Reset()), Done, {ClientLeft})
    case WriteCcc(value) =>
      var c := b.(subscribed := value == 1);
      (if c.subscribed then PushStatus(c, Decode(c.status)) else c, Done, {})
    case Write(h, data) => ApplyValue(b, h, data)
    case Prepare(h, offset, data) =>
      var (p, rc) := PrepareStep(b.prep, h, offset, data);
      (b.(prep := p), rc, {})
    case CheckPrepared => (b, if b.prep.bad then NotSupported else Done, {})
    case Execute =>
      if b.prep.handle == None then (b.(prep := Reset()), Done, {})
      else
        var (c, rc, bits) := ApplyValue(b, b.prep.handle.value, b.prep.cells[..b.prep.len]);
        (c.(prep := Reset()), rc, bits)
    case Cancel => (b.(prep := Reset()), Done, {})
    case CanSendNow => (if !b.connected then b else b.(notify := Send(b.notify)), Done, {})
  }

  // ---- the calls of the network task ----

  function Init(): Ble {
    Ble(false, false, false, BLANK, BLANK, BLANK, false, Encode(Status(IDLE, 0, NO_IP, 0, STORED)), EMPTY, Reset())
  }

  function Start(b: Ble, c: NetConfig): Ble {
    b.(current := c, active := true)
  }

  function Stop(b: Ble): Ble {
    if !b.active then b
    else
      b.(active := false, connected := false, subscribed := false, notify := EMPTY, prep := Reset(), staged := BLANK,
         current := BLANK)
  }

  function Take(b: Ble): (Ble, Option<NetConfig>) {
    if !b.handoffValid then (b, None) else (b.(handoff := BLANK, handoffValid := false), Some(b.handoff))
  }

  // ---- what every run keeps ----

  ghost predicate Terminated(c: NetConfig) {
    0 in c.ssid && 0 in c.password && 0 in c.host
  }

  /** The buffer is never longer than the longest field, and clear behind what
      was written; a command is never prepared. */
  ghost predicate PrepOk(p: Prep) {
    && |p.cells| == PREP_CELLS && p.len < PREP_CELLS
    && (forall i {:trigger p.cells[i]} :: p.len <= i < PREP_CELLS ==> p.cells[i] == 0)
    && (p.handle.Some? ==> Preparable(p.handle.value))
    && (p.handle == None ==> p == Reset())
  }

  ghost predicate Inv(b: Ble) {
    && Terminated(b.staged) && Terminated(b.current)
    && (if b.handoffValid then Valid(b.handoff) else b.handoff == BLANK)
    && NotifyQueue.Inv(b.notify)
    && PrepOk(b.prep)
  }

  function Run(b: Ble, es: seq<Event>): (r: Ble)
    requires Inv(b)
    ensures Inv(r)
    decreases |es|
  {
    if es == [] then b
    else
      StepKeepsInv(b, es[0]);
      Run(Step(b, es[0]).0, es[1..])
  }

  lemma {:induction false} BlankTerminated()
    ensures Terminated(BLANK)
  {
    assert BLANK.ssid[0] == 0 && BLANK.password[0] == 0 && BLANK.host[0] == 0;
  }

  lemma {:induction false} ValidTerminated(c: NetConfig)
    requires Valid(c)
    ensures Terminated(c)
  {
    hide PageRule, CString;
  }

  lemma {:induction false} ResetOk()
    ensures PrepOk(Reset())
  {
  }

  lemma {:induction false} PushKeepsInv(b: Ble, s: Status)
    requires Inv(b)
    ensures Inv(PushStatus(b, s))
  {
    ApplyKeepsInv(b.notify, DoPush(Encode(s)));
    hide NotifyQueue.Inv, PrepOk, Terminated, Valid, Push, Encode;
  }

  lemma {:induction false} ApplyValueKeepsInv(b: Ble, h: Handle, data: seq<byte>)
    requires Inv(b)
    ensures Inv(ApplyValue(b, h, data).0) && ApplyValue(b, h, data).0.prep == b.prep
  {
    hide NotifyQueue.Inv, PrepOk, Validate, PushStatus, Cap;
    if |data| <= Cap(h) && (h == HPort ==> |data| == 2) { SetFieldTerminated(b.staged, h, data); }
    hide SetField, Terminated;
    if h == HCmd && |data| == 1 {
      PushKeepsInv(b, Status(INVALID, Reason(Validate(b.staged)), NO_IP, 0, CANDIDATE));
      PushKeepsPrep(b, Status(INVALID, Reason(Validate(b.staged)), NO_IP, 0, CANDIDATE));
    }
  }

  lemma {:induction false} SetFieldTerminated(c: NetConfig, h: Handle, data: seq<byte>)
    requires |data| <= Cap(h) && (h == HPort ==> |data| == 2) && Terminated(c)
    ensures Terminated(SetField(c, h, data))
  {
    hide SetText;
  }

  lemma {:induction false} PushKeepsPrep(b: Ble, s: Status)
    ensures PushStatus(b, s) == b.(status := PushStatus(b, s).status, notify := PushStatus(b, s).notify)
  {
  }

  lemma {:induction false} PrepareKeepsOk(p: Prep, h: Handle, offset: nat, data: seq<byte>)
    requires PrepOk(p)
    ensures PrepOk(PrepareStep(p, h, offset, data).0)
  {
  }

  /** Every callback keeps it: a prepared write never leaves its buffer, staged
      texts stay terminated, and only valid settings are ever handed over. */
  lemma {:induction false} StepKeepsInv(b: Ble, e: Event)
    requires Inv(b)
    ensures Inv(Step(b, e).0)
  {
    hide NotifyQueue.Inv, PrepOk, Terminated, Validate, ApplyValue, PrepareStep, PushStatus, Send, Reset;
    BlankTerminated();
    ResetOk();
    assert |b.prep.cells| == PREP_CELLS && b.prep.len < PREP_CELLS by { PrepOkShape(b.prep); }
    match e
    case Connect => assert NotifyQueue.Inv(EMPTY) by { EmptyInv(); }
    case Disconnect => assert NotifyQueue.Inv(EMPTY) by { EmptyInv(); }
    case WriteCcc(value) => PushKeepsInv(b.(subscribed := value == 1), Decode(b.status));
    case Write(h, data) => ApplyValueKeepsInv(b, h, data);
    case Prepare(h, offset, data) => PrepareKeepsOk(b.prep, h, offset, data);
    case CheckPrepared =>
    case Execute =>
      if b.prep.handle.Some? { ApplyValueKeepsInv(b, b.prep.handle.value, b.prep.cells[..b.prep.len]); }
    case Cancel =>
    case CanSendNow => ApplyKeepsInv(b.notify, DoSend);
  }

  lemma {:induction false} PrepOkShape(p: Prep)
    requires PrepOk(p)
    ensures |p.cells| == PREP_CELLS && p.len < PREP_CELLS
  {
  }

  lemma {:induction false} EmptyInv()
    ensures NotifyQueue.Inv(EMPTY)
  {
  }

  // ---- a prepared write against a plain one ----

  /** What the buffer is after `text` was prepared for one characteristic. */
  function Held(h: Handle, text: seq<byte>): Prep
    requires |text| <= PREP_CELLS
  {
    Prep(text + Zeros(PREP_CELLS - |text|), Some(h), |text|, false)
  }

  /** The fragments of one long write, each at the offset where the last ended. */
  function PrepareAll(p: Prep, h: Handle, offset: nat, fragments: seq<seq<byte>>): (r: (Prep, bool))
    requires |p.cells| == PREP_CELLS
    decreases |fragments|
  {
    if fragments == [] then (p, true)
    else
      var (q, rc) := PrepareStep(p, h, offset, fragments[0]);
      var (r, ok) := PrepareAll(q, h, offset + |fragments[0]|, fragments[1..]);
      (r, rc == Done && ok)
  }

  lemma {:induction false} CapFits(h: Handle)
    ensures Cap(h) < PREP_CELLS
  {
  }

  lemma {:induction false} PrepareExtends(p: Prep, h: Handle, text: seq<byte>, data: seq<byte>)
    requires Preparable(h) && |text| <= Cap(h)
    requires p == Held(h, text) || (p == Reset() && text == [])
    requires |text| + |data| <= Cap(h)
    ensures PrepareStep(p, h, |text|, data) == (Held(h, text + data), Done)
  {
    CapFits(h);
    hide Cap, Preparable;
    var q := PrepareStep(p, h, |text|, data).0;
    assert p.cells == text + Zeros(PREP_CELLS - |text|);
    assert p.cells[|text| + |data|..] == Zeros(PREP_CELLS - |text + data|);
    assert q.cells == text + data + Zeros(PREP_CELLS - |text + data|);
  }

  /** The text of the fragments up to the first that does not fit any more. */
  function Fitting(h: Handle, at: nat, fragments: seq<seq<byte>>): (t: seq<byte>)
    requires at <= Cap(h)
    ensures at + |t| <= Cap(h)
    decreases |fragments|
  {
    if fragments == [] || at + |fragments[0]| > Cap(h) then []
    else fragments[0] + Fitting(h, at + |fragments[0]|, fragments[1..])
  }

  lemma {:induction false} FittingIsAll(h: Handle, at: nat, fragments: seq<seq<byte>>)
    requires at <= Cap(h) && at + |Concat(fragments)| <= Cap(h)
    ensures Fitting(h, at, fragments) == Concat(fragments)
    decreases |fragments|
  {
    hide Cap;
    if fragments == [] {
    } else {
      FittingIsAll(h, at + |fragments[0]|, fragments[1..]);
    }
  }

  /** Once a fragment did not fit, none that follows it does. */
  lemma {:induction false} NothingFits(p: Prep, h: Handle, offset: nat, fragments: seq<seq<byte>>)
    requires Preparable(h) && |p.cells| == PREP_CELLS && p.handle == Some(h) && offset > Cap(h)
    ensures PrepareAll(p, h, offset, fragments) == (p, fragments == [])
    decreases |fragments|
  {
    hide Cap, Preparable;
    if fragments == [] {
    } else {
      NothingFits(p, h, offset + |fragments[0]|, fragments[1..]);
    }
  }

  lemma {:induction false} HeldShape(h: Handle, text: seq<byte>)
    requires |text| <= PREP_CELLS
    ensures |Held(h, text).cells| == PREP_CELLS && Held(h, text).handle == Some(h)
  {
  }

  /** A fragment refused for its length leaves the ones before it in place. */
  lemma {:induction false} RefusedFragment(p: Prep, h: Handle, text: seq<byte>, data: seq<byte>)
    requires Preparable(h) && |text| <= Cap(h) < |text| + |data|
    requires p == Held(h, text) || (p == Reset() && text == [])
    ensures PrepareStep(p, h, |text|, data) == (Held(h, text), InvalidLength)
  {
    CapFits(h);
    assert [] + Zeros(PREP_CELLS) == Zeros(PREP_CELLS);
    hide Cap, Preparable, Zeros;
  }

  lemma {:induction false} PrepareAllHolds(p: Prep, h: Handle, text: seq<byte>, fragments: seq<seq<byte>>)
    requires Preparable(h) && |text| <= Cap(h)
    requires p == Held(h, text) || (p == Reset() && text == [])
    ensures PrepareAll(p, h, |text|, fragments).1 <==> |text| + |Concat(fragments)| <= Cap(h)
    ensures PrepareAll(p, h, |text|, fragments).0 ==
            if fragments == [] then p else Held(h, text + Fitting(h, |text|, fragments))
    decreases |fragments|
  {
    CapFits(h);
    hide Cap, Preparable, PrepareStep, Held, Reset;
    if fragments == [] {
    } else {
      var data := fragments[0];
      if |text| + |data| <= Cap(h) {
        PrepareExtends(p, h, text, data);
        PrepareAllHolds(Held(h, text + data), h, text + data, fragments[1..]);
        assert text + Fitting(h, |text|, fragments) == text + data + Fitting(h, |text + data|, fragments[1..]);
        assert text + data + [] == text + data;
      } else {
        RefusedFragment(p, h, text, data);
        HeldShape(h, text);
        NothingFits(Held(h, text), h, |text| + |data|, fragments[1..]);
        assert text + [] == text;
      }
    }
  }

  /** From a reset buffer, contiguous fragments of one characteristic pass the
      validation, and all of them are accepted exactly when the value fits the
      field. The execution writes the text that fitted. That is what one plain
      write of the whole value does exactly if the value fits, or if it is a port
      of which the accepted fragments are not two bytes: that is refused either
      way. */
  lemma {:induction false} PreparedEqualsPlain(b: Ble, h: Handle, fragments: seq<seq<byte>>)
    requires Inv(b) && b.prep == Reset() && Preparable(h) && fragments != []
    ensures var (p, ok) := PrepareAll(b.prep, h, 0, fragments);
            && PrepOk(p)
            && (ok <==> |Concat(fragments)| <= Cap(h))
            && Step(b.(prep := p), CheckPrepared).1 == Done
            && Step(b.(prep := p), Execute) == Step(b, Write(h, Fitting(h, 0, fragments)))
            && (Step(b.(prep := p), Execute) == Step(b, Write(h, Concat(fragments))) <==>
                  |Concat(fragments)| <= Cap(h) || (h == HPort && |Fitting(h, 0, fragments)| != 2))
  {
    hide PrepareAll, Reset, Inv, PrepOk, Step, Cap, Fitting, Held, Preparable, Concat;
    ResetOk();
    PrepareAllOk(b.prep, h, 0, fragments);
    var whole, fits := Concat(fragments), Fitting(h, 0, fragments);
    assert [] + fits == fits;
    PrepareAllHolds(b.prep, h, [], fragments);
    CapFits(h);
    InvShape(b);
    ExecuteHeld(b, h, fits);
    if |whole| <= Cap(h) { FittingIsAll(h, 0, fragments); } else { WritesDiffer(b, h, fits, whole); }
  }

  lemma {:induction false} InvShape(b: Ble)
    requires Inv(b)
    ensures |b.prep.cells| == PREP_CELLS && b.prep.len < PREP_CELLS
  {
    hide Terminated, Validate;
    PrepOkShape(b.prep);
  }

  /** A plain write of a value that fits against one of a value that does not. */
  lemma {:induction false} WritesDiffer(b: Ble, h: Handle, fits: seq<byte>, whole: seq<byte>)
    requires Preparable(h) && |fits| <= Cap(h) < |whole| && |b.prep.cells| == PREP_CELLS && b.prep.len <= PREP_CELLS
    ensures Step(b, Write(h, fits)) == Step(b, Write(h, whole)) <==> h == HPort && |fits| != 2
  {
    hide SetField, Command;
  }

  lemma {:induction false} PrepareAllOk(p: Prep, h: Handle, offset: nat, fragments: seq<seq<byte>>)
    requires PrepOk(p)
    ensures PrepOk(PrepareAll(p, h, offset, fragments).0)
    decreases |fragments|
  {
    hide PrepareStep;
    assert |p.cells| == PREP_CELLS by { PrepOkShape(p); }
    if fragments == [] {
    } else {
      PrepareKeepsOk(p, h, offset, fragments[0]);
      hide PrepOk;
      PrepareAllOk(PrepareStep(p, h, offset, fragments[0]).0, h, offset + |fragments[0]|, fragments[1..]);
    }
  }

  lemma {:induction false} CommandIgnoresPrep(b: Ble, code: byte, p: Prep)
    ensures var (c, rc, bits) := Command(b, code);
            Command(b.(prep := p), code) == (c.(prep := p), rc, bits)
    ensures Command(b, code).0.prep == b.prep
  {
    hide Validate, Encode, Push;
  }

  lemma {:induction false} ApplyValueIgnoresPrep(b: Ble, h: Handle, data: seq<byte>, p: Prep)
    ensures var (c, rc, bits) := ApplyValue(b, h, data);
            ApplyValue(b.(prep := p), h, data) == (c.(prep := p), rc, bits)
    ensures ApplyValue(b, h, data).0.prep == b.prep
  {
    hide SetField, Cap, Command;
    if h == HCmd && |data| == 1 { CommandIgnoresPrep(b, data[0], p); }
  }

  lemma {:induction false} ExecuteHeld(b: Ble, h: Handle, whole: seq<byte>)
    requires b.prep == Reset() && |whole| < PREP_CELLS
    ensures var c := b.(prep := Held(h, whole));
            |c.prep.cells| == PREP_CELLS && Step(c, Execute) == Step(b, Write(h, whole)) && Step(c, CheckPrepared).1 == Done
  {
    var p := Held(h, whole);
    assert p.cells[..p.len] == whole;
    ApplyValueIgnoresPrep(b, h, whole, p);
    hide ApplyValue, Reset, Zeros;
  }

  // ---- prepared writes that mix characteristics ----

  function Prepares(p: Prep, es: seq<Event>): (r: Prep)
    requires PrepOk(p) && forall i :: 0 <= i < |es| ==> es[i].Prepare?
    ensures PrepOk(r)
    decreases |es|
  {
    if es == [] then p
    else
      var q, e := Prepares(p, es[..|es| - 1]), es[|es| - 1];
      PrepareKeepsOk(q, e.handle, e.offset, e.data);
      PrepareStep(q, e.handle, e.offset, e.data).0
  }

  /** Two different characteristics that can be prepared appear. */
  ghost predicate Mixed(es: seq<Event>) {
    exists i, k :: 0 <= i < k < |es| && es[i].Prepare? && es[k].Prepare?
                   && Preparable(es[i].handle) && Preparable(es[k].handle) && es[i].handle != es[k].handle
  }

  ghost predicate AllFor(es: seq<Event>, h: Option<Handle>) {
    forall i :: 0 <= i < |es| && es[i].Prepare? && Preparable(es[i].handle) ==> h == Some(es[i].handle)
  }

  /** A queue of prepared writes passes the validation exactly when all of them
      were for one characteristic. */
  lemma {:induction false} MixedNeverValidates(es: seq<Event>)
    requires forall i :: 0 <= i < |es| ==> es[i].Prepare?
    ensures PrepOk(Reset()) && (Prepares(Reset(), es).bad <==> Mixed(es))
    ensures !Mixed(es) ==> AllFor(es, Prepares(Reset(), es).handle)
    ensures Prepares(Reset(), es).handle.Some? ==>
              exists i :: 0 <= i < |es| && Preparable(es[i].handle) && Prepares(Reset(), es).handle == Some(es[i].handle)
    decreases |es|
  {
    ResetOk();
    if es == [] {
    } else {
      var n := |es| - 1;
      var rest, e := es[..n], es[n];
      MixedNeverValidates(rest);
      MixedSnoc(rest, e, Prepares(Reset(), rest));
      assert rest + [e] == es;
      var p := Prepares(Reset(), es);
      assert p == PrepareStep(Prepares(Reset(), rest), e.handle, e.offset, e.data).0;
      HandleAfter(Prepares(Reset(), rest), e);
      hide PrepareStep, PrepOk, Cap, Preparable, Reset, Mixed, AllFor, Prepares;
      if Preparable(e.handle) {
        assert p.handle == Some(es[n].handle);
      } else if p.handle.Some? {
        var i :| 0 <= i < |rest| && Preparable(rest[i].handle) && p.handle == Some(rest[i].handle);
        assert es[i] == rest[i];
      }
    }
  }

  lemma {:induction false} HandleAfter(p: Prep, e: Event)
    requires PrepOk(p) && e.Prepare?
    ensures var q := PrepareStep(p, e.handle, e.offset, e.data).0;
            if Preparable(e.handle) then
              q.handle == Some(e.handle) && (q.bad <==> p.bad || (p.handle.Some? && p.handle != Some(e.handle)))
            else q == p
  {
    hide PrepOk, Cap, Preparable;
    assert |p.cells| == PREP_CELLS by { PrepOkShape(p); }
  }

  lemma {:induction false} MixedSnoc(rest: seq<Event>, e: Event, p: Prep)
    requires e.Prepare? && (forall i :: 0 <= i < |rest| ==> rest[i].Prepare?)
    requires !Mixed(rest) ==> AllFor(rest, p.handle)
    requires p.handle.Some? ==> exists i :: 0 <= i < |rest| && Preparable(rest[i].handle) && p.handle == Some(rest[i].handle)
    ensures Mixed(rest + [e]) <==> Mixed(rest) || (Preparable(e.handle) && p.handle.Some? && p.handle != Some(e.handle))
    ensures !Mixed(rest + [e]) ==> AllFor(rest + [e], if Preparable(e.handle) then Some(e.handle) else p.handle)
  {
    hide Preparable, Cap;
    var es := rest + [e];
    if Mixed(rest) {
      var i, k :| && 0 <= i < k < |rest| && Preparable(rest[i].handle) && Preparable(rest[k].handle)
                  && rest[i].handle != rest[k].handle;
      assert es[i] == rest[i] && es[k] == rest[k];
    } else if Preparable(e.handle) && p.handle.Some? && p.handle != Some(e.handle) {
      var i :| 0 <= i < |rest| && Preparable(rest[i].handle) && p.handle == Some(rest[i].handle);
      assert es[i] == rest[i] && es[|rest|] == e;
    } else {
      forall i | 0 <= i < |es| && Preparable(es[i].handle)
        ensures (if Preparable(e.handle) then Some(e.handle) else p.handle) == Some(es[i].handle)
      {
        if i < |rest| { assert rest[i] == es[i]; }
      }
    }
  }

  /** So the check before the execute refuses exactly the mixed ones. */
  lemma {:induction false} MixedIsRefused(b: Ble, es: seq<Event>)
    requires forall i :: 0 <= i < |es| ==> es[i].Prepare?
    ensures PrepOk(Reset()) && PrepOk(Prepares(Reset(), es))
    ensures InvShaped(b.(prep := Prepares(Reset(), es)))
    ensures Step(b.(prep := Prepares(Reset(), es)), CheckPrepared).1 == if Mixed(es) then NotSupported else Done
  {
    MixedNeverValidates(es);
    PrepOkShape(Prepares(Reset(), es));
    hide PrepOk, Prepares, Mixed, Reset;
  }

  predicate InvShaped(b: Ble) {
    |b.prep.cells| == PREP_CELLS && b.prep.len <= PREP_CELLS
  }

  /** A client is subscribed exactly by the value 1, and then told where things
      stand; no other value queues anything. */
  lemma {:induction false} SubscribedIff(b: Ble, value: bv16)
    requires Inv(b)
    ensures InvShaped(b)
    ensures var c := Step(b, WriteCcc(value)).0;
            && (c.subscribed <==> value == 1) && c.status == b.status
            && c.notify.pushed == if value == 1 then b.notify.pushed + [b.status] else b.notify.pushed
  {
    InvShape(b);
    StatusReadsBack(Decode(b.status), b.status);
    hide Inv, Encode, Decode;
  }

  // ---- what an apply hands over ----

  predicate IsApply(e: Event) {
    e.Write? && e.handle == HCmd && e.data == [1]
  }

  lemma {:induction false} ApplyValueHandsOver(b: Ble, h: Handle, data: seq<byte>)
    ensures var (c, rc, bits) := ApplyValue(b, h, data);
            if h == HCmd && data == [CMD_APPLY] && Valid(b.staged) then
              bits == {Commit} && rc == Done && c.handoffValid && c.handoff == b.staged
            else Commit !in bits && c.handoffValid == b.handoffValid && c.handoff == b.handoff
  {
    hide Validate, SetField, Encode, Push;
  }

  lemma {:induction false} OnlyApplyHandsOver(b: Ble, e: Event)
    requires Inv(b)
    ensures Commit in Step(b, e).2 <==> IsApply(e) && Valid(b.staged)
    ensures if Commit in Step(b, e).2 then Step(b, e).0.handoffValid && Step(b, e).0.handoff == b.staged
            else Step(b, e).0.handoffValid == b.handoffValid && Step(b, e).0.handoff == b.handoff
  {
    assert |b.prep.cells| == PREP_CELLS && b.prep.len < PREP_CELLS by { PrepOkShape(b.prep); }
    if e.Write? { ApplyValueHandsOver(b, e.handle, e.data); }
    if e.Execute? && b.prep.handle.Some? {
      NeverACommand(b.prep);
      ApplyValueHandsOver(b, b.prep.handle.value, b.prep.cells[..b.prep.len]);
    }
    hide Inv, PrepOk, Validate, PrepareStep, ApplyValue, Encode, Decode, Push, Send, Reset, Zeros;
  }

  predicate IsForget(e: Event) {
    e.Write? && e.handle == HCmd && e.data == [2]
  }

  /** Only a plain forget command asks for a wipe. */
  lemma {:induction false} OnlyForgetAsks(b: Ble, e: Event)
    requires Inv(b)
    ensures Forget in Step(b, e).2 <==> IsForget(e)
  {
    assert |b.prep.cells| == PREP_CELLS && b.prep.len < PREP_CELLS by { PrepOkShape(b.prep); }
    if e.Execute? && b.prep.handle.Some? { NeverACommand(b.prep); }
    hide Inv, PrepOk, Validate, PrepareStep, SetField, PushStatus, Encode, Decode, Push, Send, Reset, Zeros;
  }

  lemma {:induction false} NeverACommand(p: Prep)
    requires PrepOk(p) && p.handle.Some?
    ensures p.handle.value != HCmd
  {
  }

  /** Whatever the client does after an accepted apply, short of another apply,
      the network task takes exactly the settings that were staged then. */
  lemma {:induction false} TakeGetsTheSnapshot(b: Ble, es: seq<Event>)
    requires Inv(b) && Valid(b.staged)
    requires forall i :: 0 <= i < |es| ==> !IsApply(es[i])
    ensures var a := Step(b, Write(HCmd, [CMD_APPLY]));
            && a.1 == Done && a.2 == {Commit} && Inv(a.0)
            && Take(Run(a.0, es)).1 == Some(b.staged)
            && Take(Take(Run(a.0, es)).0).1 == None
  {
    var e := Write(HCmd, [CMD_APPLY]);
    OnlyApplyHandsOver(b, e);
    StepKeepsInv(b, e);
    hide Inv, Run, Validate, Zeros, Reset, ApplyValue;
    ApplyValueHandsOver(b, HCmd, [CMD_APPLY]);
    HandoffKept(Step(b, e).0, es);
  }

  lemma {:induction false} HandoffKept(b: Ble, es: seq<Event>)
    requires Inv(b) && forall i :: 0 <= i < |es| ==> !IsApply(es[i])
    ensures Run(b, es).handoffValid == b.handoffValid && Run(b, es).handoff == b.handoff
    decreases |es|
  {
    hide Step;
    if es == [] {
    } else {
      assert |b.prep.cells| == PREP_CELLS && b.prep.len < PREP_CELLS by { PrepOkShape(b.prep); }
      hide Inv;
      OnlyApplyHandsOver(b, es[0]);
      StepKeepsInv(b, es[0]);
      HandoffKept(Step(b, es[0]).0, es[1..]);
    }
  }

  /** An apply of settings that are not valid hands over nothing and tells a
      subscribed client which field is wrong. */
  lemma {:induction false} RefusedApply(b: Ble)
    requires Inv(b) && !Valid(b.staged)
    ensures var (c, rc, bits) := Step(b, Write(HCmd, [CMD_APPLY]));
            && rc == NotAllowed && bits == {} && c.handoffValid == b.handoffValid && c.staged == b.staged
            && Decode(c.status) == Status(8, if !SsidOk(b.staged.ssid) then 1 else if !PasswordOk(b.staged.password) then 2
                                             else if !HostOk(b.staged.host) then 3 else 4, [0, 0, 0, 0], 0, 1)
            && (b.subscribed ==> c.notify.pushed == b.notify.pushed + [c.status])
  {
    StatusReadsBack(Status(INVALID, Reason(Validate(b.staged)), NO_IP, 0, CANDIDATE), b.status);
    hide SsidOk, PasswordOk, HostOk, Encode, Decode;
  }
}
