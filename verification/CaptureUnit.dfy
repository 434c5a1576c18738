/** The capture module with its static storage: the two interrupt handlers and
    the task's accesses to shared memory, each proved to be one step of the ring
    machine on the values the storage holds. */
module CaptureUnit {
  import opened Config
  import opened CaptureRing

  /** How far the task has got with the buffer it fetched. */
  datatype Progress = Blocked | HasIndex | HasCount | HasFrames | InCopy

  class Capture {
    const size: nat
    const buf: array2<uint16>
    const count: array<uint16>
    const frames: array<uint16>
    const trunc: array<bool>
    const busy: array<bool>
    var active: nat
    var lastEdge: uint64
    var state: Mode
    var dropped: uint32
    var ready: seq<nat>
    // the task's local index and its static message
    var progress: Progress
    var idx: nat
    var copied: nat
    var pulseCount: uint16
    var frameCount: uint16
    var truncated: bool
    const pulses: array<uint16>

    ghost predicate Allocated() {
      && buf.Length0 == size && buf.Length1 == IR_MAX_PULSES
      && count.Length == frames.Length == trunc.Length == busy.Length == size
      && pulses.Length == IR_MAX_PULSES
      && count != frames && count != pulses && frames != pulses && trunc != busy
    }

    /** The buffers as values: what the four arrays hold, buffer by buffer. */
    ghost var slots: seq<Slot>

    ghost predicate Mirrored()
      requires Allocated()
      reads this`slots, buf, count, frames, trunc
    {
      && |slots| == size
      && (forall b :: 0 <= b < size ==>
            slots[b].count == count[b] && slots[b].frames == frames[b] && slots[b].trunc == trunc[b] &&
            |slots[b].cells| == IR_MAX_PULSES)
      && (forall b, k :: 0 <= b < size && 0 <= k < IR_MAX_PULSES ==> slots[b].cells[k] == buf[b, k])
    }

    ghost function TaskView(): TaskState
      requires Allocated() && copied <= IR_MAX_PULSES
      reads this`progress, this`idx, this`copied, this`pulseCount, this`frameCount, this`truncated, pulses
    {
      match progress
      case Blocked => Waiting
      case HasIndex => Fetched(idx)
      case HasCount => Counted(idx, pulseCount)
      case HasFrames => Framed(idx, pulseCount, frameCount)
      case InCopy => Copying(idx, pulseCount, frameCount, truncated, pulses[..copied])
    }

    /** The ring machine's state that this storage stands for. */
    ghost function View(): Ring
      requires Allocated() && copied <= IR_MAX_PULSES
      reads this, busy, pulses
    {
      Ring(slots, busy[..], active, lastEdge, state, dropped, ready, TaskView())
    }

    ghost predicate Stored()
      reads this`copied, this`slots, buf, count, frames, trunc
    {
      Allocated() && copied <= IR_MAX_PULSES && Mirrored()
    }

    ghost predicate Valid()
      reads this, buf, count, frames, trunc, busy, pulses
    {
      Stored() && View().Shaped()
    }

    constructor (n: nat, now: uint64)
      requires 1 <= n <= 0xFF
      ensures Valid() && View() == Init(n, now)
      ensures fresh(buf) && fresh(count) && fresh(frames) && fresh(trunc) && fresh(busy) && fresh(pulses)
    {
      hide Ring.Shaped;
      InitShaped(n, now);
      size := n;
      buf := new uint16[n, IR_MAX_PULSES]((_, _) => 0);
      count := new uint16[n](_ => 0);
      frames := new uint16[n](_ => 1);
      trunc := new bool[n](_ => false);
      busy := new bool[n](_ => false);
      pulses := new uint16[IR_MAX_PULSES](_ => 0);
      active, lastEdge, state, dropped, ready := 0, now, Idle, 0, [];
      progress, idx, copied, pulseCount, frameCount, truncated := Blocked, 0, 0, 0, 0, false;
      slots := Init(n, now).slots;
      new;
      assert busy[..] == Init(n, now).busy;
    }

    /** Index of a buffer the task is not holding, or `from` if there is none. */
    method FindFreeBuf(from: nat) returns (r: nat)
      requires Allocated() && from < size
      ensures r == FindFree(busy[..], from)
      ensures r < size && (busy[r] <==> forall b :: 0 <= b < size ==> busy[b])
    {
      FindFreeFinds(busy[..], from);
      if !busy[from] { return from; }
      for i := 1 to size
        invariant FindFree(busy[..], from) == SearchFree(busy[..], from, i)
      {
        var cand := (from + i) % size;
        assert cand == Around(from, i, size);
        if !busy[cand] { return cand; }
      }
      return from;
    }

    /** Edge interrupt. */
    method GpioEdgeIsr(now: uint64)
      requires Valid()
      modifies this`lastEdge, this`state, this`dropped, this`active, this`slots, buf, count, frames, trunc
      ensures Valid() && View() == EdgeStep(old(View()), now)
    {
      EdgeKeepsShape(View(), now);
      hide Begin, Extend, Mirrored, TaskView;
      if state == Dropping {
        lastEdge := now;
      } else if state == Idle {
        BeginTransmission(now);
      } else {
        ExtendCapture(now);
      }
    }

    lemma ActiveInRange()
      requires Valid()
      ensures active < size && slots[active].Shaped()
    {
      hide Mirrored, TaskView;
    }

    /** The edge interrupt's branch for the first edge of a transmission. */
    method BeginTransmission(now: uint64)
      requires Valid()
      modifies this`lastEdge, this`state, this`dropped, this`active, this`slots, count, frames, trunc
      ensures Stored() && View() == Begin(old(View()), now)
    {
      hide FindFree, Slot.Opened, Mirrored, TaskView, Ring.Shaped;
      ActiveInRange();
      lastEdge := now;
      var b := FindFreeBuf(active);
      if busy[b] {
        state := Dropping;
        dropped := Bump(dropped);
        return;
      }
      active := b;
      state := Capturing;
      ResetCounters(b);
    }

    method ResetCounters(b: nat)
      requires Allocated() && Mirrored() && b < size
      modifies this`slots, count, frames, trunc
      ensures Mirrored() && slots == old(slots)[b := old(slots)[b].Opened()]
    {
      count[b] := 0;
      frames[b] := 1;
      trunc[b] := false;
      slots := slots[b := slots[b].Opened()];
    }

    /** The edge interrupt's branch for an edge inside a capture. */
    method ExtendCapture(now: uint64)
      requires Valid()
      modifies this`lastEdge, this`slots, buf, count, frames, trunc
      ensures Stored() && View() == Extend(old(View()), now)
    {
      hide Slot.Recorded, Mirrored, TaskView, Ring.Shaped;
      ActiveInRange();
      var delta := Elapsed(now, lastEdge);
      if delta < IR_MIN_PULSE_US { return; }
      lastEdge := now;
      RecordInterval(active, delta);
    }

    method RecordInterval(b: nat, delta: uint64)
      requires Allocated() && Mirrored() && b < size && slots[b].Shaped()
      modifies this`slots, buf, count, frames, trunc
      ensures Mirrored() && slots == old(slots)[b := old(slots)[b].Recorded(delta)]
    {
      slots := slots[b := slots[b].Recorded(delta)];
      if delta >= IR_FRAME_GAP_US && frames[b] < 0xFFFF {
        frames[b] := frames[b] + 1;
      }
      if count[b] as int < IR_MAX_PULSES {
        buf[b, count[b]] := if delta > 0xFFFF then 0xFFFF else delta;
        count[b] := count[b] + 1;
      } else {
        trunc[b] := true;
      }
    }

    /** Idle alarm; true means "keep repeating". */
    method IdleTimeoutCb(now: uint64) returns (again: bool)
      requires Valid()
      modifies this`state, this`dropped, this`active, this`ready, busy
      ensures again && Valid() && View() == AlarmStep(old(View()), now)
    {
      AlarmKeepsShape(View(), now);
      hide Finish, Mirrored, TaskView;
      again := true;
      if state == Idle { return; }
      if Elapsed(now, lastEdge) < IR_MESSAGE_GAP_US { return; }
      if state == Dropping {
        state := Idle;
        return;
      }
      FinishCapture();
    }

    /** The idle alarm's branch that ends a capture. */
    method FinishCapture()
      requires Valid()
      modifies this`state, this`dropped, this`active, this`ready, busy
      ensures Stored() && View() == Finish(old(View()))
    {
      var finished := active;
      assert finished < size && slots[finished].count == count[finished];
      hide FindFree, Mirrored, TaskView, Ring.Shaped;
      state := Idle;
      if count[finished] == 0 { return; }
      busy[finished] := true;
      if |ready| == size {
        busy[finished] := false;
        dropped := Bump(dropped);
        return;
      }
      ready := ready + [finished];
      active := FindFreeBuf(finished);
    }

    /** xQueueReceive: take the oldest ready index, if there is one. */
    method TaskReceive()
      requires Valid() && progress == Blocked
      modifies this`ready, this`progress, this`idx
      ensures Valid() && View() == TaskStep(old(View()))
    {
      ghost var was := View();
      TaskKeepsShape(was);
      if |ready| > 0 {
        idx, ready, progress := ready[0], ready[1..], HasIndex;
      }
    }

    /** The three counters are read one after the other. */
    method TaskReadCounters(step: Progress)
      requires Valid() && progress == step && step in {HasIndex, HasCount, HasFrames}
      modifies this`progress, this`pulseCount, this`frameCount, this`truncated, this`copied
      ensures Valid() && View() == TaskStep(old(View()))
    {
      ghost var was := View();
      TaskKeepsShape(was);
      match step {
        case HasIndex => pulseCount, progress := count[idx], HasCount;
        case HasCount => frameCount, progress := frames[idx], HasFrames;
        case HasFrames => truncated, copied, progress := trunc[idx], 0, InCopy;
      }
    }

    /** One word of the memcpy out of the buffer. */
    method TaskCopyWord()
      requires Valid() && progress == InCopy && copied < pulseCount
      modifies this`copied, pulses
      ensures Valid() && View() == TaskStep(old(View()))
    {
      ghost var was := View();
      TaskKeepsShape(was);
      pulses[copied] := buf[idx, copied];
      copied := copied + 1;
      assert pulses[..copied] == old(pulses[..copied]) + [was.slots[idx].cells[old(copied)]];
    }

    /** Frees the buffer; what was copied out is the message. */
    method TaskRelease() returns (m: IrMessage)
      requires Valid() && progress == InCopy && copied == pulseCount as int
      modifies this`progress, busy
      ensures Valid() && View() == TaskStep(old(View())) && Some(m) == Formed(old(View()))
    {
      ghost var was := View();
      TaskKeepsShape(was);
      m := IrMessage(IR_CARRIER_HZ, frameCount, truncated, pulses[..copied]);
      busy[idx] := false;
      progress := Blocked;
    }
  }
}
