/** Which characteristic stages which field, over any run of callbacks: every
    field is what was last written to it, and what an apply hands over is that. */
module BleStaging {
  import opened Config
  import opened Ipv4
  import opened NetConfig
  import NotifyQueue
  import opened BleProvision

  /** The characteristics of the four fields. */
  predicate IsField(h: Handle) {
    h == HSsid || h == HPass || h == HHost || h == HPort
  }

  /** Lengths a field takes: a text that leaves room for its NUL, two bytes for
      the port. */
  predicate Fits(h: Handle, data: seq<byte>)
    requires IsField(h)
  {
    match h
    case HSsid => |data| <= 32
    case HPass => |data| <= 63
    case HHost => |data| <= 63
    case HPort => |data| == 2
  }

  ghost predicate TextIs(t: Text, data: seq<byte>) {
    0 in t && CString(t) == UpToNul(data)
  }

  /** The field of a characteristic has this value. */
  ghost predicate Holds(c: NetConfig, h: Handle, data: seq<byte>)
    requires IsField(h) && Fits(h, data)
  {
    match h
    case HSsid => TextIs(c.ssid, data)
    case HPass => TextIs(c.password, data)
    case HHost => TextIs(c.host, data)
    case HPort => c.port as int == data[0] as int + 256 * data[1] as int
  }

  /** The field of a characteristic is the same in both. */
  predicate SameField(c: NetConfig, d: NetConfig, h: Handle)
    requires IsField(h)
  {
    match h
    case HSsid => c.ssid == d.ssid
    case HPass => c.password == d.password
    case HHost => c.host == d.host
    case HPort => c.port == d.port
  }

  lemma {:induction false} SetTextHolds(data: seq<byte>, size: nat)
    requires |data| < size
    ensures TextIs(SetText(data, size), data)
  {
    var t := SetText(data, size);
    if 0 in data {
      var n := Length(data);
      assert t[..n] == data[..n];
      NoNulBefore(data, n);
      FirstNul(t, n);
    } else {
      assert t[..|data|] == data;
      FirstNul(t, |data|);
    }
  }

  lemma {:induction false} PortHolds(low: byte, high: byte)
    ensures ((low as bv16) | ((high as bv16) << 8)) as int == low as int + 256 * high as int
  {
    var v := (low as bv16) | ((high as bv16) << 8);
    assert v == (low as bv16) + ((high as bv16) << 8);
  }

  /** A value that fits is written to its own field, and to no other. */
  lemma {:induction false} SetsItsField(c: NetConfig, h: Handle, data: seq<byte>, other: Handle)
    requires IsField(h) && Fits(h, data) && IsField(other)
    ensures |data| <= Cap(h) && (h == HPort ==> |data| == 2)
    ensures Holds(SetField(c, h, data), h, data)
    ensures other != h ==> SameField(SetField(c, h, data), c, other)
  {
    hide CString, UpToNul, TextIs, SetText;
    match h
    case HSsid => SetTextHolds(data, SSID_MAX + 1);
    case HPass => SetTextHolds(data, PASS_MAX + 1);
    case HHost => SetTextHolds(data, HOST_MAX + 1);
    case HPort => PortHolds(data[0], data[1]);
  }

  /** What one callback writes, if it writes a field: a plain value, or the text
      prepared so far. */
  function Writes(b: Ble, e: Event): Option<(Handle, seq<byte>)>
    requires |b.prep.cells| == PREP_CELLS && b.prep.len <= PREP_CELLS
  {
    if e.Write? && IsField(e.handle) && Fits(e.handle, e.data) then Some((e.handle, e.data))
    else if e.Execute? && b.prep.handle.Some? && IsField(b.prep.handle.value)
            && Fits(b.prep.handle.value, b.prep.cells[..b.prep.len]) then
      Some((b.prep.handle.value, b.prep.cells[..b.prep.len]))
    else None
  }

  lemma {:induction false} ValueStages(b: Ble, h: Handle, data: seq<byte>)
    ensures var c := ApplyValue(b, h, data).0;
            c.current == b.current
            && if IsField(h) && Fits(h, data) then
                 |data| <= Cap(h) && (h == HPort ==> |data| == 2) && c.staged == SetField(b.staged, h, data)
               else c.staged == b.staged
  {
    hide SetText, Validate, PushStatus, Command;
    if h == HCmd && |data| == 1 { CommandKeepsStaged(b, data[0]); }
  }

  lemma {:induction false} CommandKeepsStaged(b: Ble, code: byte)
    ensures Command(b, code).0.staged == b.staged && Command(b, code).0.current == b.current
  {
    hide Validate, Encode;
  }

  /** One callback: a connection starts from the current settings, its end wipes
      them, a write that fits replaces its field, and nothing else touches them. */
  lemma {:induction false} CallbackStages(b: Ble, e: Event)
    requires Inv(b)
    ensures |b.prep.cells| == PREP_CELLS && b.prep.len <= PREP_CELLS
    ensures var c, w := Step(b, e).0, Writes(b, e);
            && c.current == b.current
            && if e.Connect? then c.staged == b.current
               else if e.Disconnect? && b.connected then c.staged == BLANK
               else if w.Some? then
                 |w.value.1| <= Cap(w.value.0) && (w.value.0 == HPort ==> |w.value.1| == 2)
                 && c.staged == SetField(b.staged, w.value.0, w.value.1)
               else c.staged == b.staged
  {
    InvShape(b);
    hide Inv, SetField, ApplyValue, PrepareStep, PushStatus, Encode, Decode, NotifyQueue.Send, Reset, BLANK, Cap, IsField, Fits;
    if e.Write? { ValueStages(b, e.handle, e.data); }
    if e.Execute? && b.prep.handle.Some? { ValueStages(b, b.prep.handle.value, b.prep.cells[..b.prep.len]); }
  }

  /** Where the value of a field comes from. */
  datatype Origin = AsBefore | FromCurrent | Wiped | Written(data: seq<byte>)

  /** Its origin after a run, if it was `o` before. */
  function OriginOf(b: Ble, es: seq<Event>, h: Handle, o: Origin): Origin
    requires Inv(b) && IsField(h)
    decreases |es|
  {
    if es == [] then o
    else
      InvShape(b);
      StepKeepsInv(b, es[0]);
      OriginOf(Step(b, es[0]).0, es[1..], h, NextOrigin(b, es[0], h, o))
  }

  function NextOrigin(b: Ble, e: Event, h: Handle, o: Origin): Origin
    requires |b.prep.cells| == PREP_CELLS && b.prep.len <= PREP_CELLS && IsField(h)
  {
    if e.Connect? then FromCurrent
    else if e.Disconnect? && b.connected then Wiped
    else if Writes(b, e).Some? && Writes(b, e).value.0 == h then Written(Writes(b, e).value.1)
    else o
  }

  /** A field is what its origin says. */
  ghost predicate Comes(c: NetConfig, h: Handle, o: Origin, before: NetConfig, current: NetConfig)
    requires IsField(h)
  {
    match o
    case AsBefore => SameField(c, before, h)
    case FromCurrent => SameField(c, current, h)
    case Wiped => SameField(c, BLANK, h)
    case Written(data) => Fits(h, data) && Holds(c, h, data)
  }

  lemma {:induction false} CallbackComes(b: Ble, e: Event, h: Handle, o: Origin, before: NetConfig)
    requires Inv(b) && IsField(h) && Comes(b.staged, h, o, before, b.current)
    ensures |b.prep.cells| == PREP_CELLS && b.prep.len <= PREP_CELLS
    ensures Comes(Step(b, e).0.staged, h, NextOrigin(b, e, h, o), before, b.current) && Step(b, e).0.current == b.current
  {
    hide Inv, Step, SetField, Cap, BLANK, CString, UpToNul, TextIs;
    InvShape(b);
    CallbackStages(b, e);
    var w := Writes(b, e);
    if w.Some? { SetsItsField(b.staged, w.value.0, w.value.1, h); }
  }

  /** Over every run of callbacks, each staged field is what was last written to
      its characteristic, plainly or prepared, since the client connected, and
      before that what was current then. */
  lemma {:induction false} StagedIsLastWritten(b: Ble, es: seq<Event>, h: Handle, o: Origin, before: NetConfig)
    requires Inv(b) && IsField(h) && Comes(b.staged, h, o, before, b.current)
    ensures Comes(BleProvision.Run(b, es).staged, h, OriginOf(b, es, h, o), before, b.current)
    ensures BleProvision.Run(b, es).current == b.current
    decreases |es|
  {
    hide Inv, Step, Comes, IsField, NextOrigin;
    if es == [] {
    } else {
      InvShape(b);
      StepKeepsInv(b, es[0]);
      CallbackComes(b, es[0], h, o, before);
      StagedIsLastWritten(Step(b, es[0]).0, es[1..], h, NextOrigin(b, es[0], h, o), before);
    }
  }

  /** So an apply that is accepted after any run hands over, in each field, what
      was last written to it. */
  lemma {:induction false} AppliedAsWritten(b: Ble, es: seq<Event>, h: Handle)
    requires Inv(b) && IsField(h)
    ensures InvShaped(BleProvision.Run(b, es))
    ensures var c := Step(BleProvision.Run(b, es), Write(HCmd, [1]));
            && (c.1 == Done <==> Valid(BleProvision.Run(b, es).staged))
            && (c.1 == Done ==>
                  c.2 == {Commit} && c.0.handoffValid && Comes(c.0.handoff, h, OriginOf(b, es, h, AsBefore), b.staged, b.current))
  {
    hide Inv, Comes, Validate, OriginOf, BleProvision.Run, SetField, Encode, NotifyQueue.Push;
    SameFieldAlways(b.staged, h, b.current);
    StagedIsLastWritten(b, es, h, AsBefore, b.staged);
    InvShape(BleProvision.Run(b, es));
  }

  lemma {:induction false} SameFieldAlways(c: NetConfig, h: Handle, current: NetConfig)
    requires IsField(h)
    ensures Comes(c, h, AsBefore, c, current)
  {
  }

  /** Once each field has been written, what is handed over are these values. */
  lemma {:induction false} FourWritesApplied(
      b: Ble, es: seq<Event>, ssid: seq<byte>, password: seq<byte>, host: seq<byte>, port: seq<byte>)
    requires Inv(b)
    requires OriginOf(b, es, HSsid, AsBefore) == Written(ssid) && OriginOf(b, es, HPass, AsBefore) == Written(password)
    requires OriginOf(b, es, HHost, AsBefore) == Written(host) && OriginOf(b, es, HPort, AsBefore) == Written(port)
    ensures InvShaped(BleProvision.Run(b, es))
    ensures var c := Step(BleProvision.Run(b, es), Write(HCmd, [1]));
            c.1 == Done ==>
              && TextIs(c.0.handoff.ssid, ssid) && TextIs(c.0.handoff.password, password) && TextIs(c.0.handoff.host, host)
              && |port| == 2 && c.0.handoff.port as int == port[0] as int + 256 * port[1] as int
  {
    hide Inv, Step, OriginOf, BleProvision.Run, TextIs;
    AppliedAsWritten(b, es, HSsid);
    AppliedAsWritten(b, es, HPass);
    AppliedAsWritten(b, es, HHost);
    AppliedAsWritten(b, es, HPort);
  }

  // ---- a prepared write that is given up ----

  /** Nothing is prepared. */
  predicate NothingPrepared(b: Ble) {
    b.prep.handle == None && b.prep.len == 0 && !b.prep.bad
  }

  lemma {:induction false} ApplyKeepsPrep(b: Ble, h: Handle, data: seq<byte>)
    ensures ApplyValue(b, h, data).0.prep == b.prep
  {
    ApplyValueIgnoresPrep(b, h, data, b.prep);
    hide ApplyValue;
  }

  /** A cancel, an execute, a connection and its end each drop what was prepared;
      only a prepare adds to it. */
  lemma {:induction false} CallbackPrepares(b: Ble, e: Event)
    requires Inv(b)
    ensures InvShaped(b)
    ensures var c := Step(b, e).0;
            && (e.Cancel? || e.Execute? || e.Connect? || (e.Disconnect? && b.connected) ==> NothingPrepared(c))
            && (!(e.Cancel? || e.Execute? || e.Connect? || (e.Disconnect? && b.connected) || e.Prepare?) ==> c.prep == b.prep)
  {
    InvShape(b);
    if e.Write? { ApplyKeepsPrep(b, e.handle, e.data); }
    hide Inv, SetField, ApplyValue, PrepareStep, Encode, Decode, NotifyQueue.Push, NotifyQueue.Send, BLANK, Cap;
  }

  lemma {:induction false} StaysEmpty(b: Ble, es: seq<Event>)
    requires Inv(b) && NothingPrepared(b) && forall i :: 0 <= i < |es| ==> !es[i].Prepare?
    ensures NothingPrepared(BleProvision.Run(b, es))
    decreases |es|
  {
    hide Inv, Step, NothingPrepared;
    if es == [] {
    } else {
      CallbackPrepares(b, es[0]);
      StepKeepsInv(b, es[0]);
      StillNothing(b, Step(b, es[0]).0);
      StaysEmpty(Step(b, es[0]).0, es[1..]);
    }
  }

  lemma {:induction false} StillNothing(b: Ble, c: Ble)
    requires NothingPrepared(b)
    ensures c.prep == b.prep ==> NothingPrepared(c)
  {
  }

  /** What was prepared before a cancel never reaches a field: an execute that
      comes after it, whatever came in between short of new fragments, writes
      nothing. */
  lemma {:induction false} CancelledIsGone(b: Ble, es: seq<Event>)
    requires Inv(b) && forall i :: 0 <= i < |es| ==> !es[i].Prepare?
    ensures InvShaped(b) && Inv(Step(b, Cancel).0)
    ensures var c := BleProvision.Run(Step(b, Cancel).0, es);
            InvShaped(c) && Step(c, Execute).0.staged == c.staged && Step(c, Execute).1 == Done
  {
    hide Inv, BleProvision.Run, BLANK;
    CallbackPrepares(b, Cancel);
    StepKeepsInv(b, Cancel);
    StaysEmpty(Step(b, Cancel).0, es);
    InvShape(BleProvision.Run(Step(b, Cancel).0, es));
  }
}
