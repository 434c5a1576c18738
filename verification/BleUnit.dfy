/** The provisioning unit over its static buffers: the callbacks and calls of
    BleProvision carried out in place. */
module BleUnit {
  import opened Config
  import opened NetConfig
  import opened NotifyQueue
  import opened BleProvision

  class Provisioner {
    var active: bool
    var connected: bool
    var subscribed: bool
    var current: NetConfig
    var staged: NetConfig
    var handoff: NetConfig
    var handoffValid: bool
    var status: Packet
    const slots: array<Packet>
    var head: nat
    var count: nat
    const cells: array<byte>
    var prepHandle: Option<Handle>
    var prepLen: nat
    var prepBad: bool
    ghost var notify: Notify

    ghost function PrepView(): Prep
      reads this, cells
    {
      Prep(cells[..], prepHandle, prepLen, prepBad)
    }

    ghost function View(): Ble
      reads this, cells
    {
      Ble(active, connected, subscribed, current, staged, handoff, handoffValid, status, notify, PrepView())
    }

    /** The ring holds what waits. */
    ghost predicate RingOk()
      reads this, slots
    {
      && slots.Length == NOTIFY_QUEUE && head < NOTIFY_QUEUE && count <= NOTIFY_QUEUE
      && notify.kept + count == |notify.pushed|
      && Ring(slots[..], head, count) == Waiting(notify)
    }

    ghost predicate Valid()
      reads this, slots, cells
    {
      RingOk() && cells.Length == PREP_CELLS && prepLen < PREP_CELLS
    }

    constructor ()
      ensures Valid() && View() == Init() && fresh(slots) && fresh(cells)
    {
      active, connected, subscribed, handoffValid := false, false, false, false;
      current, staged, handoff := BLANK, BLANK, BLANK;
      status := Encode(Status(IDLE, 0, NO_IP, 0, STORED));
      slots := new Packet[NOTIFY_QUEUE](_ => [0, 0, 0, 0, 0, 0, 0, 0]);
      head, count := 0, 0;
      cells := new byte[PREP_CELLS](_ => 0);
      prepHandle, prepLen, prepBad := None, 0, false;
      notify := EMPTY;
      new;
      assert cells[..] == Zeros(PREP_CELLS);
    }

    method ResetPrepared()
      requires Valid()
      modifies this`prepHandle, this`prepLen, this`prepBad, cells
      ensures Valid() && PrepView() == Reset()
    {
      prepHandle, prepLen, prepBad := None, 0, false;
      for i := 0 to PREP_CELLS
        modifies cells
        invariant forall k :: 0 <= k < i ==> cells[k] == 0
      {
        cells[i] := 0;
      }
      assert cells[..] == Zeros(PREP_CELLS);
    }

    method DropOldest()
      requires Valid() && count > 0
      modifies this`head, this`count, this`notify
      ensures Valid() && notify == old(notify).(kept := old(notify).kept + 1)
    {
      RingDrops(slots[..], head, count);
      hide Ring;
      head := (head + 1) % NOTIFY_QUEUE;
      count := count - 1;
      notify := notify.(kept := notify.kept + 1);
      assert Waiting(notify) == old(Waiting(notify))[1..];
    }

    /** The queueing half of push_status. */
    method Enqueue(p: Packet)
      requires Valid()
      modifies this`head, this`count, this`notify, slots
      ensures Valid() && notify == Push(old(notify), p)
    {
      hide Ring;
      if count == NOTIFY_QUEUE { DropOldest(); }
      ghost var before, waiting := slots[..], Waiting(notify);
      RingTakes(before, head, count, p);
      var at := (head + count) % NOTIFY_QUEUE;
      slots[at] := p;
      assert slots[..] == before[at := p];
      count := count + 1;
      notify := notify.(pushed := notify.pushed + [p]);
      assert Waiting(notify) == waiting + [p];
    }

    method PushTheStatus(s: Status)
      requires Valid()
      modifies this`status, this`head, this`count, this`notify, slots
      ensures Valid() && View() == PushStatus(old(View()), s)
    {
      hide Encode, Ring, Push;
      status := Encode(s);
      if !subscribed { return; }
      Enqueue(status);
    }

    /** att_packet_handler on ATT_EVENT_CAN_SEND_NOW. */
    method OnCanSendNow() returns (out: Option<Packet>)
      requires Valid()
      modifies this`head, this`count, this`notify
      ensures Valid() && View() == Step(old(View()), CanSendNow).0
      ensures out == if old(connected) && old(Waiting(notify)) != [] then Some(old(Waiting(notify))[0]) else None
    {
      if count == 0 || !connected { return None; }
      RingDrops(slots[..], head, count);
      hide Ring, Zeros;
      out := Some(slots[head]);
      DropOldest();
      notify := notify.(sent := notify.sent + [old(notify).kept]);
    }

    /** What a disconnect and a power-off both forget. */
    method DropClient()
      requires Valid()
      modifies this`connected, this`subscribed, this`count, this`notify, this`prepHandle, this`prepLen, this`prepBad, cells
      ensures Valid() && notify == EMPTY && !connected && !subscribed && PrepView() == Reset()
    {
      hide Reset, Zeros;
      connected, subscribed, count, notify := false, false, 0, EMPTY;
      ResetPrepared();
    }

    method OnConnect()
      requires Valid()
      modifies this, cells
      ensures Valid() && View() == Step(old(View()), Connect).0
    {
      hide Reset, Zeros;
      connected, staged, subscribed, count, notify := true, current, false, 0, EMPTY;
      ResetPrepared();
    }

    method OnDisconnect() returns (bits: set<Bit>)
      requires Valid()
      modifies this, cells
      ensures Valid() && (View(), Done, bits) == Step(old(View()), Disconnect)
    {
      hide Reset, Zeros, Ring;
      if !connected { return {}; }
      DropClient();
      staged := BLANK;
      bits := {ClientLeft};
    }

    method OnApply() returns (rc: Rc, bits: set<Bit>)
      requires Valid()
      modifies this, slots
      ensures Valid() && (View(), rc, bits) == Command(old(View()), CMD_APPLY)
    {
      hide Validate, PushStatus, Ring, Zeros;
      var why := CheckFields(staged);
      if why != Ok {
        PushTheStatus(Status(INVALID, Reason(why), NO_IP, 0, CANDIDATE));
        return NotAllowed, {};
      }
      handoff, handoffValid := staged, true;
      rc, bits := Done, {Commit};
    }

    method ApplyTheValue(h: Handle, data: seq<byte>) returns (rc: Rc, bits: set<Bit>)
      requires Valid()
      modifies this, slots
      ensures Valid() && (View(), rc, bits) == ApplyValue(old(View()), h, data)
      ensures PrepView() == old(PrepView())
    {
      hide Validate, SetField, Ring, Zeros, Encode, Push;
      rc, bits := Done, {};
      if |data| > Cap(h) { return InvalidLength, {}; }
      if (h == HPort && |data| != 2) || (h == HCmd && |data| != 1) { return InvalidLength, {}; }
      if h == HCmd && data[0] == CMD_APPLY {
        rc, bits := OnApply();
      } else if h == HCmd && data[0] == CMD_FORGET {
        bits := {Forget};
      } else if h == HCmd {
        rc := NotAllowed;
      } else {
        staged := SetField(staged, h, data);
      }
    }

    method OnWriteCcc(value: bv16)
      requires Valid()
      modifies this, slots
      ensures Valid() && View() == Step(old(View()), WriteCcc(value)).0
    {
      hide Encode, Decode, Ring, Zeros;
      subscribed := value == 1;
      if subscribed { PushTheStatus(Decode(status)); }
    }

    /** One fragment of a prepared write, copied into the buffer. */
    method OnPrepare(h: Handle, offset: nat, data: seq<byte>) returns (rc: Rc)
      requires Valid()
      modifies this`prepHandle, this`prepLen, this`prepBad, cells
      ensures Valid() && (PrepView(), rc) == PrepareStep(old(PrepView()), h, offset, data)
    {
      var cap := Cap(h);
      CapFits(h);
      hide Cap, Ring;
      if cap == 0 || h == HCmd { return NotSupported; }
      if prepHandle.Some? && prepHandle.value != h { prepBad := true; }
      prepHandle := Some(h);
      if offset + |data| > cap { return InvalidLength; }
      ghost var before := cells[..];
      forall i | 0 <= i < |data| { cells[offset + i] := data[i]; }
      assert cells[..] == before[..offset] + data + before[offset + |data|..];
      if offset + |data| > prepLen { prepLen := offset + |data|; }
      assert slots[..] == old(slots[..]);
      rc := Done;
    }

    method OnExecute() returns (rc: Rc, bits: set<Bit>)
      requires Valid()
      modifies this, slots, cells
      ensures Valid() && (View(), rc, bits) == Step(old(View()), Execute)
    {
      hide ApplyValue, Ring, Zeros, Reset;
      rc, bits := Done, {};
      if prepHandle.Some? { rc, bits := ApplyTheValue(prepHandle.value, cells[..prepLen]); }
      ResetPrepared();
    }

    method OnCancel()
      requires Valid()
      modifies this, cells
      ensures Valid() && View() == Step(old(View()), Cancel).0
    {
      hide Reset, Zeros;
      ResetPrepared();
    }

    // ---- the calls of the network task ----

    method PowerOn(c: NetConfig)
      requires Valid()
      modifies this
      ensures Valid() && View() == Start(old(View()), c)
    {
      hide Ring;
      current := c;
      if active { return; }
      active := true;
    }

    method PowerOff()
      requires Valid()
      modifies this, cells
      ensures Valid() && View() == Stop(old(View()))
    {
      hide Reset, Zeros, Ring;
      if !active { return; }
      active := false;
      DropClient();
      staged, current := BLANK, BLANK;
    }

    method TakeCandidate() returns (c: Option<NetConfig>)
      requires Valid()
      modifies this
      ensures Valid() && (View(), c) == Take(old(View()))
    {
      hide Ring;
      if !handoffValid { return None; }
      c := Some(handoff);
      handoff, handoffValid := BLANK, false;
    }
  }
}
