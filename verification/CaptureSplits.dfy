/** Where captures begin and end on any run with dense alarms: refused
    transmissions and edges at any distance included. */
module CaptureSplits {
  import opened Config
  import opened CaptureFilter
  import opened CaptureRing
  import opened CaptureTiming

  /** One transmission as the ring saw it: its edges, and whether it was refused
      for want of a free buffer. */
  datatype Segment = Segment(edges: seq<uint64>, refused: bool) {
    /** The edge its quiet time is measured from after the first i edges. A
        refused transmission moves it at every edge, a capture at accepted ones. */
    function Mark(i: nat): uint64
      requires 0 < i <= |edges|
    {
      if refused then edges[i - 1] else LastAcceptedOf(edges[..i])
    }

    /** Handed to the task when it ends. */
    predicate Counts() {
      !refused && |Accepted(edges)| >= 2
    }
  }

  function LastAcceptedOf(edges: seq<uint64>): (e: uint64)
    requires edges != []
    ensures e == LastAccepted(edges)
  {
    AcceptedWithin(edges);
    LastAccepted(edges)
  }

  lemma {:induction false} AcceptedWithin(edges: seq<uint64>)
    requires edges != []
    ensures 0 <= LastAccepted(edges) < 0x1_0000_0000_0000_0000
    decreases |edges|
  {
    if |edges| == 1 {
    } else {
      AcceptedWithin(edges[..|edges| - 1]);
      assert edges == edges[..|edges| - 1] + [edges[|edges| - 1]];
      AcceptedSnoc(edges[..|edges| - 1], edges[|edges| - 1]);
    }
  }

  function Edges(segs: seq<Segment>): seq<uint64> {
    if segs == [] then [] else Edges(segs[..|segs| - 1]) + segs[|segs| - 1].edges
  }

  function Handed(segs: seq<Segment>): seq<seq<uint64>> {
    if segs == [] then []
    else Handed(segs[..|segs| - 1]) + if segs[|segs| - 1].Counts() then [segs[|segs| - 1].edges] else []
  }

  function Refusals(segs: seq<Segment>): nat {
    if segs == [] then 0 else Refusals(segs[..|segs| - 1]) + if segs[|segs| - 1].refused then 1 else 0
  }

  lemma {:induction false} RefusalsSnoc(segs: seq<Segment>, s: Segment)
    ensures Refusals(segs + [s]) == Refusals(segs) + if s.refused then 1 else 0
  {
    assert (segs + [s])[..|segs + [s]| - 1] == segs;
  }

  /** The hub counts what it refuses, in 32 bits. */
  ghost predicate Counted(w: World, segs: seq<Segment>) {
    w.ring.dropped == Refusals(segs) % 0x1_0000_0000
  }

  /** Inside a segment no quiet time reaches the sure gap. */
  ghost predicate Unbroken(s: Segment) {
    && s.edges != []
    && forall i {:trigger s.Mark(i)} :: 0 < i < |s.edges| ==> s.edges[i] - s.Mark(i) < 57000
  }

  /** Between two segments there is at least a message gap. */
  ghost predicate Apart(a: Segment, b: Segment) {
    a.edges != [] && b.edges != [] && b.edges[0] - a.Mark(|a.edges|) >= 55000
  }

  /** The segments are the edges, in order, cut at quiet times only: never below
      a message gap, always from the sure gap on. */
  ghost predicate Splits(segs: seq<Segment>, edges: seq<uint64>) {
    && Edges(segs) == edges
    && (forall k :: 0 <= k < |segs| ==> Unbroken(segs[k]))
    && (forall k {:trigger segs[k]} :: 1 <= k < |segs| ==> Apart(segs[k - 1], segs[k]))
  }

  /** How the ring stands after these segments. */
  ghost predicate Follows(w: World, segs: seq<Segment>)
    requires w.ring.Shaped()
  {
    match w.ring.mode
    case Capturing =>
      && segs != [] && segs[|segs| - 1] == Segment(w.edges, false)
      && w.completed == Handed(segs[..|segs| - 1])
    case Dropping =>
      && segs != [] && segs[|segs| - 1].refused && segs[|segs| - 1].edges != []
      && segs[|segs| - 1].edges[|segs[|segs| - 1].edges| - 1] == w.ring.lastEdge
      && w.completed == Handed(segs)
    case Idle =>
      && w.completed == Handed(segs)
      && (segs != [] ==>
            && segs[|segs| - 1].edges != []
            && w.clock >= segs[|segs| - 1].Mark(|segs[|segs| - 1].edges|) + IR_MESSAGE_GAP_US)
  }

  /** The latest alarm saw less than a message gap of quiet. */
  ghost predicate Alert(w: World, alarm: uint64) {
    w.ring.mode != Idle ==> alarm - w.ring.lastEdge < IR_MESSAGE_GAP_US
  }

  lemma {:induction false} StepKeepsAlert(w: World, alarm: uint64, e: Event)
    requires Inv(w) && Alert(w, alarm) && alarm <= w.clock
    requires !e.Task? ==> w.clock <= e.now <= alarm + IR_ALARM_PERIOD_US
    ensures Alert(Step(w, e), if e.Alarm? then e.now else alarm)
  {
    hide Owned, Pipeline, ActiveSound, FindFree;
  }

  // ---- one more edge ----

  lemma {:induction false} NewSegment(segs: seq<Segment>, edges: seq<uint64>, s: Segment)
    requires Splits(segs, edges) && |s.edges| == 1 && (segs != [] ==> Apart(segs[|segs| - 1], s))
    ensures Splits(segs + [s], edges + s.edges)
  {
    hide Apart;
    var t := segs + [s];
    assert t[..|t| - 1] == segs;
    forall k | 0 <= k < |t| ensures Unbroken(t[k]) {
      if k < |segs| { assert t[k] == segs[k]; }
    }
    forall k {:trigger t[k]} | 1 <= k < |t| ensures Apart(t[k - 1], t[k]) {
      if k < |segs| { assert t[k - 1] == segs[k - 1] && t[k] == segs[k]; }
    }
  }

  lemma {:induction false} LongerSegment(s: Segment, now: uint64)
    requires Unbroken(s) && now - s.Mark(|s.edges|) < SURE_GAP_US
    ensures Unbroken(s.(edges := s.edges + [now]))
  {
    hide LastAccepted;
    var t := s.(edges := s.edges + [now]);
    forall i {:trigger t.Mark(i)} | 0 < i < |t.edges| ensures t.edges[i] - t.Mark(i) < SURE_GAP_US {
      assert t.edges[..i] == s.edges[..i];
      assert t.Mark(i) == s.Mark(i);
    }
  }

  lemma {:induction false} FirstKept(a: Segment, s: Segment, now: uint64)
    requires Apart(a, s)
    ensures Apart(a, s.(edges := s.edges + [now]))
  {
  }

  lemma {:induction false} GrownSegment(segs: seq<Segment>, edges: seq<uint64>, now: uint64)
    requires segs != [] && Splits(segs, edges)
    requires Unbroken(segs[|segs| - 1]) && now - segs[|segs| - 1].Mark(|segs[|segs| - 1].edges|) < SURE_GAP_US
    ensures var s := segs[|segs| - 1];
            Splits(segs[..|segs| - 1] + [s.(edges := s.edges + [now])], edges + [now])
  {
    var n := |segs| - 1;
    var s := segs[n];
    var grown := s.(edges := s.edges + [now]);
    LongerSegment(s, now);
    if n > 0 { FirstKept(segs[n - 1], s, now); }
    hide Unbroken, Apart;
    var t := segs[..n] + [grown];
    assert t[..n] == segs[..n];
    assert Edges(segs) == Edges(segs[..n]) + s.edges;
    assert Edges(t) == Edges(segs[..n]) + (s.edges + [now]) == edges + [now];
    forall k | 0 <= k < |t| ensures Unbroken(t[k]) {
      if k < n { assert t[k] == segs[k]; }
    }
    forall k {:trigger t[k]} | 1 <= k < |t| ensures Apart(t[k - 1], t[k]) {
      assert t[k - 1] == segs[k - 1] && segs[k] == segs[k];
    }
  }

  lemma {:induction false} HandedSnoc(segs: seq<Segment>, s: Segment)
    ensures Handed(segs + [s]) == Handed(segs) + if s.Counts() then [s.edges] else []
  {
    assert (segs + [s])[..|segs + [s]| - 1] == segs;
  }

  lemma {:induction false} EdgeFollows(w: World, alarm: uint64, segs: seq<Segment>, seen: seq<uint64>, now: uint64)
    returns (segs': seq<Segment>)
    requires Inv(w) && Follows(w, segs) && Splits(segs, seen) && Alert(w, alarm) && w.clock <= now <= alarm + IR_ALARM_PERIOD_US
    ensures Follows(Step(w, Edge(now)), segs') && Splits(segs', seen + [now])
    ensures Counted(w, segs) ==> Counted(Step(w, Edge(now)), segs')
  {
    hide Owned, Pipeline, FindFree, Splits, Handed, Segment.Counts, MessageOf, Accepted, Refusals;
    var w' := Step(w, Edge(now));
    var n := |segs| - 1;
    if w.ring.mode == Idle {
      var s := Segment([now], w'.ring.mode == Dropping);
      segs' := segs + [s];
      NewSegment(segs, seen, s);
      RefusalsSnoc(segs, s);
      if s.refused { HandedSnoc(segs, s); RefusedNeverCounts(s); }
      assert segs'[..|segs'| - 1] == segs;
    } else {
      var s := segs[n];
      assert Unbroken(s) by { LastUnbroken(segs, seen); }
      assert s.Mark(|s.edges|) == w.ring.lastEdge by { assert s.edges[..|s.edges|] == s.edges; }
      var grown := s.(edges := s.edges + [now]);
      segs' := segs[..n] + [grown];
      GrownSegment(segs, seen, now);
      assert segs == segs[..n] + [s];
      RefusalsSnoc(segs[..n], s);
      RefusalsSnoc(segs[..n], grown);
      assert segs'[..n] == segs[..n];
      if s.refused {
        HandedSnoc(segs[..n], s);
        HandedSnoc(segs[..n], grown);
        RefusedNeverCounts(s);
        RefusedNeverCounts(grown);
      }
    }
  }

  lemma {:induction false} RefusedNeverCounts(s: Segment)
    requires s.refused
    ensures !s.Counts()
  {
  }

  lemma {:induction false} LastUnbroken(segs: seq<Segment>, edges: seq<uint64>)
    requires segs != [] && Splits(segs, edges)
    ensures Unbroken(segs[|segs| - 1])
  {
    hide Unbroken, Apart, Edges;
  }

  lemma {:induction false} AlarmFollows(w: World, segs: seq<Segment>, now: uint64)
    requires Inv(w) && Follows(w, segs) && w.clock <= now
    ensures Follows(Step(w, Alarm(now)), segs) && Step(w, Alarm(now)).ring.dropped == w.ring.dropped
  {
    hide Owned, Pipeline, FindFree, Handed, MessageOf, Accepted;
    var n := |segs| - 1;
    if w.ring.mode == Capturing && Elapsed(now, w.ring.lastEdge) >= IR_MESSAGE_GAP_US {
      EndedCapture(w, now);
      PostNeverFails(w.ring);
      assert segs == segs[..n] + [segs[n]];
      HandedSnoc(segs[..n], segs[n]);
      assert w.edges[..|w.edges|] == w.edges;
    }
  }

  lemma {:induction false} TaskFollows(w: World, segs: seq<Segment>)
    requires Inv(w) && Follows(w, segs)
    ensures Follows(Step(w, Task), segs) && Step(w, Task).ring.dropped == w.ring.dropped
  {
    hide Owned, Pipeline, Handed, Accepted;
  }

  lemma {:induction false} RunFollows(w: World, alarm: uint64, segs: seq<Segment>, seen: seq<uint64>, es: seq<Event>)
    returns (segs': seq<Segment>)
    requires Inv(w) && Follows(w, segs) && Splits(segs, seen) && Alert(w, alarm) && alarm <= w.clock
    requires Timed(w.clock, es) && Dense(alarm, es) && Counted(w, segs)
    ensures Counted(Run(w, es), segs')
    ensures Inv(Run(w, es)) && Follows(Run(w, es), segs') && Splits(segs', seen + EdgeTimes(es))
    decreases |es|
  {
    hide Inv, Follows, Splits, Alert, Step;
    InvShaped(w);
    if es == [] {
      assert seen + EdgeTimes(es) == seen;
      segs' := segs;
    } else {
      var e := es[0];
      StepKeepsInv(w, e);
      StepKeepsAlert(w, alarm, e);
      InvShaped(Step(w, e));
      match e
      case Edge(now) =>
        segs' := EdgeFollows(w, alarm, segs, seen, now);
        segs' := RunFollows(Step(w, e), alarm, segs', seen + [now], es[1..]);
        assert seen + EdgeTimes(es) == (seen + [now]) + EdgeTimes(es[1..]);
      case Alarm(now) =>
        AlarmFollows(w, segs, now);
        segs' := RunFollows(Step(w, e), now, segs, seen, es[1..]);
      case Task =>
        TaskFollows(w, segs);
        segs' := RunFollows(Step(w, e), alarm, segs, seen, es[1..]);
    }
  }

  /** On every run with an alarm in each 2 ms window the edges split, at quiet
      times of at least a message gap and at every quiet time from the sure gap
      on, into transmissions; those refused, and those of a single accepted edge,
      leave nothing; every other one is completed, in order, and each message
      delivered is the greedy reading of its transmission. The hub's count of
      refusals is their number. */
  lemma {:induction false} MessagesAreSegments(size: nat, boot: uint64, es: seq<Event>) returns (segs: seq<Segment>)
    requires 1 <= size <= 0xFF && Timed(boot, es) && Dense(boot, es)
    ensures Splits(segs, EdgeTimes(es))
    ensures Run(Boot(size, boot), es).ring.dropped == Refusals(segs) % 0x1_0000_0000
    ensures var w, all := Run(Boot(size, boot), es), Handed(segs);
            && |w.delivered| <= |w.completed| <= |all| <= |w.completed| + 1
            && w.completed == all[..|w.completed|]
            && forall k :: 0 <= k < |w.delivered| ==> w.delivered[k] == MessageOf(all[k])
  {
    BootInv(size, boot);
    assert [] + EdgeTimes(es) == EdgeTimes(es);
    segs := RunFollows(Boot(size, boot), boot, [], [], es);
    hide *;
    DeliveredOf(Run(Boot(size, boot), es), segs);
  }

  lemma {:induction false} DeliveredOf(w: World, segs: seq<Segment>)
    requires Inv(w) && Follows(w, segs)
    ensures var all := Handed(segs);
            && |w.delivered| <= |w.completed| <= |all| <= |w.completed| + 1
            && w.completed == all[..|w.completed|]
            && forall k :: 0 <= k < |w.delivered| ==> w.delivered[k] == MessageOf(all[k])
  {
    hide MessageOf, Accepted, Owned, Handed, ActiveSound;
    var n := |segs| - 1;
    if w.ring.mode == Capturing {
      assert segs == segs[..n] + [segs[n]];
      HandedSnoc(segs[..n], segs[n]);
    }
  }
}
