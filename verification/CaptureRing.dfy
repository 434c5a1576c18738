/** The capture ring as a small-step machine: the edge interrupt, the idle
    alarm and one step of the capture task, in any order. The two interrupts are
    atomic (neither preempts the other); the task is cut between every two
    accesses to shared memory, so an interrupt may land inside its copy loop. */
module CaptureRing {
  import opened Config
  import opened CaptureFilter

  datatype Mode = Idle | Capturing | Dropping

  /** Where the capture task is: what it has already read of buffer idx. */
  datatype TaskState =
    | Waiting
    | Fetched(idx: nat)
    | Counted(idx: nat, n: nat)
    | Framed(idx: nat, n: nat, frameCount: uint16)
    | Copying(idx: nat, n: nat, frameCount: uint16, truncated: bool, copied: seq<uint16>)
  {
    ghost predicate Shaped(size: nat) {
      && (Waiting? || idx < size)
      && (Counted? || Framed? || Copying? ==> n <= IR_MAX_PULSES)
      && (Copying? ==> |copied| <= n)
    }
  }

  /** One capture buffer: its 800 cells and the three counters kept beside it. */
  datatype Slot = Slot(cells: seq<uint16>, count: nat, frames: uint16, trunc: bool) {
    ghost predicate Shaped() {
      |cells| == IR_MAX_PULSES && count <= IR_MAX_PULSES
    }

    /** The buffer as the first edge of a transmission leaves it. */
    function Opened(): Slot {
      this.(count := 0, frames := 1, trunc := false)
    }

    /** The buffer after one more accepted interval. */
    function Recorded(delta: nat): Slot
      requires Shaped()
    {
      var f := if delta >= IR_FRAME_GAP_US && frames < 0xFFFF then frames + 1 else frames;
      if count < IR_MAX_PULSES then
        Slot(cells[count := if delta > 0xFFFF then 0xFFFF else delta], count + 1, f, trunc)
      else
        Slot(cells, count, f, true)
    }

    function Contents(): IrMessage
      requires Shaped()
    {
      IrMessage(IR_CARRIER_HZ, frames, trunc, cells[..count])
    }
  }

  datatype Ring = Ring(slots: seq<Slot>, busy: seq<bool>, active: nat, lastEdge: uint64, mode: Mode,
                       dropped: uint32, ready: seq<nat>, task: TaskState)
  {
    function Size(): nat { |busy| }

    /** Shape of the static arrays. The buffer indices are uint8 in the firmware. */
    ghost predicate Shaped() {
      && 1 <= Size() <= 0xFF
      && |slots| == Size()
      && (forall b :: 0 <= b < Size() ==> slots[b].Shaped())
      && active < Size()
      && (forall k :: 0 <= k < |ready| ==> ready[k] < Size())
      && task.Shaped(Size())
    }
  }

  /** Power-up state for a ring of `size` buffers; `now` is when init() ends. */
  function Init(size: nat, now: uint64): Ring
    requires 1 <= size <= 0xFF
  {
    Ring(seq(size, _ => Slot(seq(IR_MAX_PULSES, _ => 0), 0, 1, false)), seq(size, _ => false), 0, now, Idle, 0, [], Waiting)
  }

  /** Difference of two readings of the 64-bit microsecond timer. */
  function Elapsed(now: uint64, since: uint64): uint64 {
    if now >= since then now - since else now - since + 0x1_0000_0000_0000_0000
  }

  function Bump(x: uint32): uint32 {
    if x == 0xFFFF_FFFF then 0 else x + 1
  }

  /** The i-th buffer after `from`, going round the ring. */
  function Around(from: nat, i: nat, size: nat): (r: nat)
    requires from < size && i <= size
    ensures r == if from + i < size then from + i else from + i - size
  {
    (from + i) % size
  }

  /** The first buffer from the i-th after `from` on that is not busy; else `from`. */
  function SearchFree(busy: seq<bool>, from: nat, i: nat): nat
    requires from < |busy| && i <= |busy|
    decreases |busy| - i
  {
    if i == |busy| then from
    else if !busy[Around(from, i, |busy|)] then Around(from, i, |busy|)
    else SearchFree(busy, from, i + 1)
  }

  /** Index of a buffer the task is not holding, or `from` if there is none. */
  function FindFree(busy: seq<bool>, from: nat): (r: nat)
    requires from < |busy|
  {
    if !busy[from] then from else SearchFree(busy, from, 1)
  }

  lemma {:induction false} SearchFreeFinds(busy: seq<bool>, from: nat, i: nat)
    requires from < |busy| && i <= |busy|
    ensures SearchFree(busy, from, i) < |busy|
    ensures busy[SearchFree(busy, from, i)] ==>
              SearchFree(busy, from, i) == from && forall k :: i <= k < |busy| ==> busy[Around(from, k, |busy|)]
    decreases |busy| - i
  {
    if i >= |busy| || !busy[Around(from, i, |busy|)] {
    } else {
      SearchFreeFinds(busy, from, i + 1);
    }
  }

  /** The circular search misses no free buffer. */
  lemma {:induction false} FindFreeFinds(busy: seq<bool>, from: nat)
    requires from < |busy|
    ensures FindFree(busy, from) < |busy|
    ensures busy[FindFree(busy, from)] <==> forall b :: 0 <= b < |busy| ==> busy[b]
  {
    SearchFreeFinds(busy, from, 1);
    if busy[FindFree(busy, from)] {
      forall b | 0 <= b < |busy| ensures busy[b] {
        if b != from {
          assert Around(from, if b > from then b - from else b + |busy| - from, |busy|) == b;
        }
      }
    }
  }

  /** First edge of a transmission: claim a free buffer, or refuse it all. */
  function Begin(r: Ring, now: uint64): Ring
    requires r.Shaped()
  {
    FindFreeFinds(r.busy, r.active);
    var buf := FindFree(r.busy, r.active);
    if r.busy[buf] then
      r.(lastEdge := now, mode := Dropping, dropped := Bump(r.dropped))
    else
      r.(lastEdge := now, active := buf, mode := Capturing, slots := r.slots[buf := r.slots[buf].Opened()])
  }

  /** A further edge of a capture: a glitch, or one more interval. */
  function Extend(r: Ring, now: uint64): Ring
    requires r.Shaped()
  {
    var delta := Elapsed(now, r.lastEdge);
    if delta < IR_MIN_PULSE_US then r
    else r.(lastEdge := now, slots := r.slots[r.active := r.slots[r.active].Recorded(delta)])
  }

  /** The edge interrupt, at time `now`. */
  function EdgeStep(r: Ring, now: uint64): Ring
    requires r.Shaped()
  {
    match r.mode
    case Dropping => r.(lastEdge := now)
    case Idle => Begin(r, now)
    case Capturing => Extend(r, now)
  }

  /** End of a capture: hand its buffer over, unless it recorded nothing. */
  function Finish(r: Ring): Ring
    requires r.Shaped()
  {
    var finished := r.active;
    if r.slots[finished].count == 0 then r.(mode := Idle)
    else if |r.ready| == r.Size() then
      r.(mode := Idle, busy := r.busy[finished := false], dropped := Bump(r.dropped))
    else
      var busy := r.busy[finished := true];
      r.(mode := Idle, busy := busy, ready := r.ready + [finished], active := FindFree(busy, finished))
  }

  /** The idle alarm, at time `now`. */
  function AlarmStep(r: Ring, now: uint64): Ring
    requires r.Shaped()
  {
    if r.mode == Idle || Elapsed(now, r.lastEdge) < IR_MESSAGE_GAP_US then r
    else if r.mode == Dropping then r.(mode := Idle)
    else Finish(r)
  }

  /** The next step of the capture task; with nothing queued it stays blocked. */
  function TaskStep(r: Ring): Ring
    requires r.Shaped()
  {
    match r.task
    case Waiting => if r.ready == [] then r else r.(task := Fetched(r.ready[0]), ready := r.ready[1..])
    case Fetched(i) => r.(task := Counted(i, r.slots[i].count))
    case Counted(i, n) => r.(task := Framed(i, n, r.slots[i].frames))
    case Framed(i, n, f) => r.(task := Copying(i, n, f, r.slots[i].trunc, []))
    case Copying(i, n, f, t, c) =>
      if |c| < n then r.(task := Copying(i, n, f, t, c + [r.slots[i].cells[|c|]]))
      else r.(busy := r.busy[i := false], task := Waiting)
  }

  /** The message the task has finished forming, at the step that frees its buffer. */
  function Formed(r: Ring): Option<IrMessage> {
    match r.task
    case Copying(i, n, f, t, c) => if |c| == n then Some(IrMessage(IR_CARRIER_HZ, f, t, c)) else None
    case _ => None
  }

  lemma {:induction false} InitShaped(size: nat, now: uint64)
    requires 1 <= size <= 0xFF
    ensures Init(size, now).Shaped()
  {
  }

  lemma {:induction false} BeginKeepsShape(r: Ring, now: uint64)
    requires r.Shaped()
    ensures Begin(r, now).Shaped() && Begin(r, now).Size() == r.Size()
  {
    FindFreeFinds(r.busy, r.active);
    hide FindFree;
  }

  lemma {:induction false} ExtendKeepsShape(r: Ring, now: uint64)
    requires r.Shaped()
    ensures Extend(r, now).Shaped() && Extend(r, now).Size() == r.Size()
  {
    hide Elapsed;
  }

  lemma {:induction false} FinishKeepsShape(r: Ring)
    requires r.Shaped()
    ensures Finish(r).Shaped() && Finish(r).Size() == r.Size()
  {
    FindFreeFinds(r.busy[r.active := true], r.active);
    hide FindFree;
  }

  lemma {:induction false} EdgeKeepsShape(r: Ring, now: uint64)
    requires r.Shaped()
    ensures EdgeStep(r, now).Shaped() && EdgeStep(r, now).Size() == r.Size()
  {
    BeginKeepsShape(r, now);
    ExtendKeepsShape(r, now);
    hide Begin, Extend;
  }

  lemma {:induction false} AlarmKeepsShape(r: Ring, now: uint64)
    requires r.Shaped()
    ensures AlarmStep(r, now).Shaped() && AlarmStep(r, now).Size() == r.Size()
  {
    FinishKeepsShape(r);
    hide Finish, Elapsed;
  }

  lemma {:induction false} TaskKeepsShape(r: Ring)
    requires r.Shaped()
    ensures TaskStep(r).Shaped() && TaskStep(r).Size() == r.Size()
  {
  }

  // ---- runs, with history ----

  datatype Event = Edge(now: uint64) | Alarm(now: uint64) | Task

  /** The ring together with what happened: `edges` are the edge times of the
      capture in progress, `completed` the edge times of every capture handed to
      the task, `delivered` the messages the task has formed. */
  datatype World = World(ring: Ring, clock: uint64, edges: seq<uint64>,
                         completed: seq<seq<uint64>>, delivered: seq<IrMessage>)

  function Boot(size: nat, now: uint64): World
    requires 1 <= size <= 0xFF
  {
    World(Init(size, now), now, [], [], [])
  }

  function Step(w: World, e: Event): (w': World)
    requires w.ring.Shaped()
    ensures w'.ring.Shaped()
  {
    match e
    case Edge(now) =>
      EdgeKeepsShape(w.ring, now);
      var r := EdgeStep(w.ring, now);
      w.(ring := r, clock := now,
         edges := if r.mode != Capturing then [] else if w.ring.mode == Capturing then w.edges + [now] else [now])
    case Alarm(now) =>
      AlarmKeepsShape(w.ring, now);
      var r := AlarmStep(w.ring, now);
      w.(ring := r, clock := now,
         edges := if r.mode == Capturing then w.edges else [],
         completed := if |r.ready| > |w.ring.ready| then w.completed + [w.edges] else w.completed)
    case Task =>
      TaskKeepsShape(w.ring);
      var m := Formed(w.ring);
      w.(ring := TaskStep(w.ring), delivered := if m.Some? then w.delivered + [m.value] else w.delivered)
  }

  function Run(w: World, es: seq<Event>): (w': World)
    requires w.ring.Shaped()
    ensures w'.ring.Shaped()
    decreases |es|
  {
    if es == [] then w else Run(Step(w, es[0]), es[1..])
  }

  /** The timer never runs backwards along a run. */
  ghost predicate Timed(clock: uint64, es: seq<Event>)
    decreases |es|
  {
    es == [] || (if es[0].Task? then Timed(clock, es[1..]) else clock <= es[0].now && Timed(es[0].now, es[1..]))
  }

  // ---- what holds in every reachable state ----

  ghost predicate Distinct(s: seq<nat>) {
    forall i, j :: 0 <= i < j < |s| ==> s[i] != s[j]
  }

  /** Ownership: busy buffers are exactly those queued plus the one the task holds. */
  ghost predicate Owned(r: Ring)
    requires r.Shaped()
  {
    && Distinct(r.ready)
    && (!r.task.Waiting? ==> r.task.idx !in r.ready)
    && (forall b :: 0 <= b < r.Size() ==> (r.busy[b] <==> b in r.ready || (!r.task.Waiting? && b == r.task.idx)))
    && (r.mode == Capturing ==> !r.busy[r.active])
  }

  /** What the task has read so far is what buffer idx holds. */
  ghost predicate CopySound(r: Ring)
    requires r.Shaped() && !r.task.Waiting?
  {
    match r.task
    case Fetched(i) => true
    case Counted(i, n) => n == r.slots[i].count
    case Framed(i, n, f) => n == r.slots[i].count && f == r.slots[i].frames
    case Copying(i, n, f, t, c) =>
      n == r.slots[i].count && f == r.slots[i].frames && t == r.slots[i].trunc && c == r.slots[i].cells[..|c|]
  }

  /** The capture in progress is the greedy reading of its edges so far. */
  ghost predicate ActiveSound(w: World)
    requires w.ring.Shaped()
  {
    if w.ring.mode == Capturing then
      && w.edges != []
      && Accepted(w.edges)[|Accepted(w.edges)| - 1] == w.ring.lastEdge
      && w.ring.slots[w.ring.active].Contents() == MessageOf(w.edges)
    else
      w.edges == []
  }

  function HeldCount(r: Ring): nat {
    if r.task.Waiting? then 0 else 1
  }

  /** delivered ++ held ++ queued is the completed captures, in order, each once. */
  ghost predicate Pipeline(w: World)
    requires w.ring.Shaped()
  {
    var d, h := |w.delivered|, HeldCount(w.ring);
    && |w.completed| == d + h + |w.ring.ready|
    && (forall k :: 0 <= k < d ==> w.delivered[k] == MessageOf(w.completed[k]))
    && (!w.ring.task.Waiting? ==>
          w.ring.slots[w.ring.task.idx].Contents() == MessageOf(w.completed[d]) && CopySound(w.ring))
    && (forall k :: 0 <= k < |w.ring.ready| ==>
          w.ring.slots[w.ring.ready[k]].Contents() == MessageOf(w.completed[d + h + k]))
  }

  ghost predicate Inv(w: World) {
    && w.ring.Shaped()
    && w.ring.lastEdge <= w.clock
    && Owned(w.ring)
    && ActiveSound(w)
    && Pipeline(w)
  }

  lemma {:induction false} BootInv(size: nat, now: uint64)
    requires 1 <= size <= 0xFF
    ensures Inv(Boot(size, now))
  {
  }

  // ---- the queue can never be full when the alarm posts ----

  function Elements(s: seq<nat>): set<nat> {
    set x | x in s
  }

  function Below(n: nat): (b: set<nat>)
    ensures forall x: nat :: x in b <==> x < n
    ensures |b| == n
  {
    if n == 0 then {} else Below(n - 1) + {n - 1}
  }

  lemma {:induction false} DistinctCard(s: seq<nat>)
    requires Distinct(s)
    ensures |Elements(s)| == |s|
  {
    if s == [] {
    } else {
      var front, last := s[..|s| - 1], s[|s| - 1];
      DistinctCard(front);
      assert Elements(s) == Elements(front) + {last};
      assert last !in Elements(front);
    }
  }

  lemma {:induction false} SubsetCard(a: set<nat>, b: set<nat>)
    requires a <= b
    ensures |a| <= |b|
  {
    if a == {} {
    } else {
      var x :| x in a;
      SubsetCard(a - {x}, b - {x});
    }
  }

  /** Distinct indices below n that miss one of them number fewer than n. */
  lemma {:induction false} MissingOne(s: seq<nat>, n: nat, x: nat)
    requires Distinct(s) && x < n && x !in s && forall k :: 0 <= k < |s| ==> s[k] < n
    ensures |s| < n
  {
    DistinctCard(s);
    SubsetCard(Elements(s), Below(n) - {x});
  }

  /** While a capture is in progress its buffer is missing from the queue, so
      there is room to post it. */
  lemma {:induction false} PostNeverFails(r: Ring)
    requires r.Shaped() && Owned(r) && r.mode == Capturing
    ensures |r.ready| < r.Size()
  {
    MissingOne(r.ready, r.Size(), r.active);
  }

  /** A transmission is refused only when every buffer is queued or held. */
  lemma {:induction false} RefusedOnlyWhenFull(r: Ring, now: uint64)
    requires r.Shaped() && Owned(r) && r.mode == Idle
    ensures EdgeStep(r, now).mode == Dropping <==>
            forall b :: 0 <= b < r.Size() ==> b in r.ready || (!r.task.Waiting? && b == r.task.idx)
  {
    FindFreeFinds(r.busy, r.active);
  }

  // ---- preservation ----

  lemma {:induction false} FirstEdge(now: uint64)
    ensures Accepted([now]) == [now]
    ensures MessageOf([now]) == IrMessage(IR_CARRIER_HZ, 1, false, [])
  {
    assert Intervals([now]) == [];
  }

  /** Recording an interval is what one more interval does to the report. */
  lemma {:induction false} RecordedHolds(s: Slot, d: seq<int>, x: nat)
    requires s.Shaped() && s.Contents() == Report(d)
    ensures s.Recorded(x).Contents() == Report(d + [x])
  {
    ReportSnoc(d, x);
    hide Report;
    if s.count < IR_MAX_PULSES {
      assert s.Recorded(x).cells[..s.count + 1] == s.cells[..s.count] + [Clamp(x)];
    }
  }

  /** The refinement step: the interrupt's update of the active buffer is the
      effect of one more edge on the greedy reading. */
  lemma {:induction false} CapturedEdge(w: World, now: uint64)
    requires w.ring.Shaped() && ActiveSound(w) && w.ring.mode == Capturing && w.ring.lastEdge <= now
    ensures ActiveSound(Step(w, Edge(now)))
  {
    hide Accepted, Intervals, Report, FindFree, Slot.Recorded, Slot.Contents, TaskState.Shaped;
    AcceptedSnoc(w.edges, now);
    IntervalsSnoc(Accepted(w.edges), now);
    if now - w.ring.lastEdge >= IR_MIN_PULSE_US {
      RecordedHolds(w.ring.slots[w.ring.active], Intervals(Accepted(w.edges)), now - w.ring.lastEdge);
    }
  }

  /** An interrupt that touches only a buffer nobody owns disturbs neither the
      queue nor a copy in progress. */
  lemma {:induction false} PipelineFrame(w: World, w': World, touched: nat)
    requires w.ring.Shaped() && w'.ring.Shaped() && w'.ring.Size() == w.ring.Size()
    requires Owned(w.ring) && Pipeline(w) && touched < w.ring.Size() && !w.ring.busy[touched]
    requires w'.ring.ready == w.ring.ready && w'.ring.task == w.ring.task
    requires w'.completed == w.completed && w'.delivered == w.delivered
    requires forall b :: 0 <= b < w.ring.Size() && b != touched ==> w'.ring.slots[b] == w.ring.slots[b]
    ensures Pipeline(w')
  {
    hide MessageOf;
    forall k | 0 <= k < |w.ring.ready| ensures w'.ring.slots[w.ring.ready[k]] == w.ring.slots[w.ring.ready[k]] {
      assert w.ring.ready[k] in w.ring.ready;
    }
  }

  lemma {:induction false} EdgeKeepsOwned(r: Ring, now: uint64)
    requires r.Shaped() && Owned(r)
    ensures EdgeStep(r, now).Shaped() && Owned(EdgeStep(r, now))
  {
    EdgeKeepsShape(r, now);
    FindFreeFinds(r.busy, r.active);
    hide FindFree, Elapsed, Slot.Recorded, Slot.Opened, Slot.Shaped, TaskState.Shaped;
  }

  lemma {:induction false} AlarmKeepsOwned(r: Ring, now: uint64)
    requires r.Shaped() && Owned(r)
    ensures AlarmStep(r, now).Shaped() && Owned(AlarmStep(r, now))
  {
    var r' := AlarmStep(r, now);
    AlarmKeepsShape(r, now);
    hide FindFree, Elapsed, Slot.Shaped, TaskState.Shaped;
    if r.mode == Capturing { PostNeverFails(r); }
    if |r'.ready| > |r.ready| {
      assert r'.ready == r.ready + [r.active];
      assert forall b :: b in r'.ready <==> b in r.ready || b == r.active;
    }
  }

  lemma {:induction false} TaskKeepsOwned(r: Ring)
    requires r.Shaped() && Owned(r)
    ensures TaskStep(r).Shaped() && Owned(TaskStep(r))
  {
    TaskKeepsShape(r);
    hide Slot.Shaped, TaskState.Shaped;
    if r.task.Waiting? && r.ready != [] {
      assert r.ready == [r.ready[0]] + TaskStep(r).ready;
      assert forall b :: b in r.ready <==> b == r.ready[0] || b in TaskStep(r).ready;
    }
  }

  lemma {:induction false} OpenedEdge(w: World, now: uint64)
    requires w.ring.Shaped() && w.ring.mode == Idle
    ensures ActiveSound(Step(w, Edge(now)))
  {
    FirstEdge(now);
    hide FindFree, Accepted, MessageOf, TaskState.Shaped;
  }

  /** The buffer an edge may touch is one nobody owns. */
  lemma {:induction false} EdgeKeepsPipeline(w: World, now: uint64)
    requires w.ring.Shaped() && Owned(w.ring) && Pipeline(w)
    ensures Pipeline(Step(w, Edge(now)))
  {
    var r := w.ring;
    hide Pipeline, MessageOf, Accepted, FindFree, Elapsed, TaskState.Shaped, Slot.Recorded;
    FindFreeFinds(r.busy, r.active);
    var touched := if r.mode == Idle then FindFree(r.busy, r.active) else r.active;
    if r.mode == Dropping || r.busy[touched] {
      assert Step(w, Edge(now)).ring.slots == r.slots;
      PipelineSame(w, Step(w, Edge(now)));
    } else {
      PipelineFrame(w, Step(w, Edge(now)), touched);
    }
  }

  lemma {:induction false} PipelineSame(w: World, w': World)
    requires w.ring.Shaped() && w'.ring.Shaped() && Pipeline(w)
    requires w'.ring.slots == w.ring.slots && w'.ring.ready == w.ring.ready && w'.ring.task == w.ring.task
    requires w'.completed == w.completed && w'.delivered == w.delivered
    ensures Pipeline(w')
  {
    hide MessageOf;
  }

  lemma {:induction false} EdgeKeepsInv(w: World, now: uint64)
    requires Inv(w) && w.clock <= now
    ensures Inv(Step(w, Edge(now)))
  {
    EdgeKeepsOwned(w.ring, now);
    EdgeKeepsPipeline(w, now);
    if w.ring.mode == Idle { OpenedEdge(w, now); }
    if w.ring.mode == Capturing { CapturedEdge(w, now); }
    hide Owned, Pipeline, Accepted, MessageOf, FindFree;
  }

  lemma {:induction false} AlarmKeepsInv(w: World, now: uint64)
    requires Inv(w) && w.clock <= now
    ensures Inv(Step(w, Alarm(now)))
  {
    AlarmKeepsOwned(w.ring, now);
    AlarmKeepsPipeline(w, now);
    hide Owned, Pipeline, Accepted, MessageOf, FindFree;
  }

  lemma {:induction false} AlarmKeepsPipeline(w: World, now: uint64)
    requires w.ring.Shaped() && Owned(w.ring) && ActiveSound(w) && Pipeline(w)
    ensures Pipeline(Step(w, Alarm(now)))
  {
    var w' := Step(w, Alarm(now));
    hide Owned, Accepted, MessageOf, FindFree, Elapsed, Pipeline, Slot.Shaped, Slot.Contents, TaskState.Shaped;
    if |w'.ring.ready| > |w.ring.ready| {
      PostKeepsPipeline(w, w');
    } else {
      PipelineSame(w, w');
    }
  }

  /** Posting the finished buffer completes its capture. */
  lemma {:induction false} PostKeepsPipeline(w: World, w': World)
    requires w.ring.Shaped() && w'.ring.Shaped() && Pipeline(w)
    requires w.ring.slots[w.ring.active].Contents() == MessageOf(w.edges)
    requires w'.ring.slots == w.ring.slots && w'.ring.ready == w.ring.ready + [w.ring.active] && w'.ring.task == w.ring.task
    requires w'.completed == w.completed + [w.edges] && w'.delivered == w.delivered
    ensures Pipeline(w')
  {
    hide MessageOf, Slot.Contents, Slot.Shaped, TaskState.Shaped;
  }

  lemma {:induction false} TaskKeepsInv(w: World)
    requires Inv(w)
    ensures Inv(Step(w, Task))
  {
    hide Owned, Pipeline, Accepted, MessageOf, Slot.Shaped, Slot.Contents, TaskState.Shaped;
    TaskKeepsOwned(w.ring);
    assert ActiveSound(Step(w, Task));
    if w.ring.task.Waiting? {
      TaskFetchKeepsPipeline(w);
    } else {
      TaskCopyKeepsPipeline(w);
    }
  }

  lemma {:induction false} TaskFetchKeepsPipeline(w: World)
    requires w.ring.Shaped() && w.ring.task.Waiting? && Pipeline(w)
    ensures Pipeline(Step(w, Task))
  {
    hide MessageOf, Slot.Shaped, TaskState.Shaped;
    var w' := Step(w, Task);
    var r, r', d := w.ring, w'.ring, |w.delivered|;
    if r.ready != [] {
      forall k | 0 <= k < |r'.ready| ensures r'.slots[r'.ready[k]].Contents() == MessageOf(w'.completed[d + 1 + k]) {
        assert r.slots[r.ready[k + 1]].Contents() == MessageOf(w.completed[d + 0 + (k + 1)]);
      }
      assert r.slots[r.ready[0]].Contents() == MessageOf(w.completed[d + 0 + 0]);
    }
  }

  lemma {:induction false} TaskCopyKeepsPipeline(w: World)
    requires w.ring.Shaped() && !w.ring.task.Waiting? && Pipeline(w)
    ensures Pipeline(Step(w, Task))
  {
    var r := w.ring;
    hide MessageOf;
    if r.task.Copying? {
      var c := r.task.copied;
      if |c| < r.task.n {
        assert c + [r.slots[r.task.idx].cells[|c|]] == r.slots[r.task.idx].cells[..|c| + 1];
      }
    }
  }

  /** The invariant holds along every interleaving. */
  lemma {:induction false} RunKeepsInv(w: World, es: seq<Event>)
    requires Inv(w) && Timed(w.clock, es)
    ensures Inv(Run(w, es))
    decreases |es|
  {
    if es == [] {
    } else {
      StepKeepsInv(w, es[0]);
      hide Inv;
      RunKeepsInv(Step(w, es[0]), es[1..]);
    }
  }

  lemma {:induction false} StepKeepsInv(w: World, e: Event)
    requires Inv(w) && (e.Task? || w.clock <= e.now)
    ensures Inv(Step(w, e)) && Step(w, e).clock == if e.Task? then w.clock else e.now
  {
    hide Inv;
    match e
    case Edge(now) => EdgeKeepsInv(w, now);
    case Alarm(now) => AlarmKeepsInv(w, now);
    case Task => TaskKeepsInv(w);
  }

  /** Main result on the handoff. After any interleaving of edges, alarms and
      task steps: the messages formed are the greedy readings of the captures
      completed, in order and each once, the one being copied and those queued
      follow in order and are still intact in their buffers, and the busy flags
      mark exactly the buffers in flight. */
  lemma {:induction false} EveryInterleaving(size: nat, boot: uint64, es: seq<Event>)
    requires 1 <= size <= 0xFF && Timed(boot, es)
    ensures var w := Run(Boot(size, boot), es);
            var d, h := |w.delivered|, HeldCount(w.ring);
            && w.ring.Shaped()
            && |w.completed| == d + h + |w.ring.ready|
            && (forall k :: 0 <= k < d ==> w.delivered[k] == MessageOf(w.completed[k]))
            && (!w.ring.task.Waiting? ==> w.ring.slots[w.ring.task.idx].Contents() == MessageOf(w.completed[d]))
            && (forall k :: 0 <= k < |w.ring.ready| ==>
                  w.ring.slots[w.ring.ready[k]].Contents() == MessageOf(w.completed[d + h + k]))
            && Distinct(w.ring.ready)
            && (forall b :: 0 <= b < w.ring.Size() ==>
                  (w.ring.busy[b] <==> b in w.ring.ready || (!w.ring.task.Waiting? && b == w.ring.task.idx)))
            && (w.ring.mode == Capturing ==>
                  !w.ring.busy[w.ring.active] && w.ring.slots[w.ring.active].Contents() == MessageOf(w.edges))
  {
    hide MessageOf, Run, Accepted, CopySound, Slot.Contents;
    BootInv(size, boot);
    RunKeepsInv(Boot(size, boot), es);
  }

  // ---- every capture is delivered ----

  /** Task steps that one buffer can still take: receive, three counters, 800
      words, release. */
  const STEPS_PER_BUFFER: nat := IR_MAX_PULSES + 6

  /** At most this many task steps are left until nothing is held or queued. */
  function Debt(r: Ring): nat
    requires r.task.Shaped(r.Size())
  {
    |r.ready| * STEPS_PER_BUFFER +
    match r.task
    case Waiting => 0
    case Fetched(_) => IR_MAX_PULSES + 4
    case Counted(_, _) => IR_MAX_PULSES + 3
    case Framed(_, _, _) => IR_MAX_PULSES + 2
    case Copying(_, n, _, _, c) => 1 + n - |c|
  }

  function Tasks(n: nat): (es: seq<Event>)
    ensures |es| == n
  {
    if n == 0 then [] else [Task] + Tasks(n - 1)
  }

  lemma {:induction false} TaskPaysDebt(w: World)
    requires w.ring.Shaped()
    ensures var w' := Step(w, Task);
            && w'.completed == w.completed && w'.clock == w.clock
            && (Debt(w.ring) > 0 ==> Debt(w'.ring) < Debt(w.ring))
            && (Debt(w.ring) == 0 ==> w' == w)
  {
  }

  /** Left alone for that many steps, the task has delivered every capture that
      was completed: none is stuck in the queue or half copied. */
  lemma {:induction false} TaskDrains(w: World, n: nat)
    requires Inv(w) && n >= Debt(w.ring)
    ensures var w' := Run(w, Tasks(n));
            && w'.completed == w.completed && |w'.delivered| == |w.completed|
            && w'.ring.ready == [] && w'.ring.task.Waiting?
    decreases n
  {
    if n == 0 {
      Settled(w);
    } else {
      hide Owned, ActiveSound, Pipeline, Debt;
      TaskKeepsInv(w);
      TaskPaysDebt(w);
      assert Tasks(n)[1..] == Tasks(n - 1);
      TaskDrains(Step(w, Task), n - 1);
    }
  }

  lemma {:induction false} Settled(w: World)
    requires Inv(w) && Debt(w.ring) == 0
    ensures |w.delivered| == |w.completed| && w.ring.ready == [] && w.ring.task.Waiting?
  {
    hide Owned, ActiveSound, MessageOf;
  }
}
