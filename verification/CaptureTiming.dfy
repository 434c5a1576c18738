/** What the capture ring makes of a stream of edges when the idle alarm really
    fires every 2 ms: the captures are a function of the edge times alone. */
module CaptureTiming {
  import opened Config
  import opened CaptureFilter
  import opened CaptureRing

  /** A quiet time of this length always ends a capture: the message gap plus
      the longest the alarm can be late in noticing it. */
  const SURE_GAP_US: nat := IR_MESSAGE_GAP_US + IR_ALARM_PERIOD_US

  /** No window of IR_ALARM_PERIOD_US passes without an alarm; `last` is the
      time of the latest one. */
  ghost predicate Dense(last: uint64, es: seq<Event>)
    decreases |es|
  {
    es == [] ||
    match es[0]
    case Edge(now) => now <= last + IR_ALARM_PERIOD_US && Dense(last, es[1..])
    case Alarm(now) => now <= last + IR_ALARM_PERIOD_US && Dense(now, es[1..])
    case Task => Dense(last, es[1..])
  }

  /** No transmission along the run finds the ring full. */
  ghost predicate NeverRefused(w: World, es: seq<Event>)
    requires w.ring.Shaped()
    decreases |es|
  {
    w.ring.mode != Dropping && (es != [] ==> NeverRefused(Step(w, es[0]), es[1..]))
  }

  function EdgeTimes(es: seq<Event>): seq<uint64> {
    if es == [] then []
    else if es[0].Edge? then [es[0].now] + EdgeTimes(es[1..])
    else EdgeTimes(es[1..])
  }

  /** The last edge a capture with these edges measured from. */
  function LastAccepted(edges: seq<uint64>): int
    requires edges != []
  {
    Accepted(edges)[|Accepted(edges)| - 1]
  }

  /** Splitting a stream of edges at its message gaps, with no alarm in sight. */
  function Segments(edges: seq<uint64>): (s: seq<seq<uint64>>)
    ensures edges != [] ==> s != []
    ensures forall k :: 0 <= k < |s| ==> s[k] != []
  {
    if edges == [] then []
    else Joined(Segments(edges[..|edges| - 1]), edges[|edges| - 1])
  }

  /** One more edge joins the last segment or starts a new one. */
  function Joined(s: seq<seq<uint64>>, e: uint64): (s': seq<seq<uint64>>)
    requires forall k :: 0 <= k < |s| ==> s[k] != []
    ensures s' != [] && forall k :: 0 <= k < |s'| ==> s'[k] != []
  {
    if s == [] || e - LastAccepted(s[|s| - 1]) >= IR_MESSAGE_GAP_US then s + [[e]]
    else s[..|s| - 1] + [s[|s| - 1] + [e]]
  }

  /** Segments with at least one interval: a lone edge is not handed over. */
  function Kept(s: seq<seq<uint64>>): seq<seq<uint64>> {
    if s == [] then []
    else Kept(s[..|s| - 1]) + if |Accepted(s[|s| - 1])| >= 2 then [s[|s| - 1]] else []
  }

  /** No edge falls in the 2 ms where the alarm's phase decides. */
  ghost predicate Unambiguous(edges: seq<uint64>) {
    edges == [] ||
    var front, e := edges[..|edges| - 1], edges[|edges| - 1];
    && Unambiguous(front)
    && (front != [] ==>
          var quiet := e - LastAccepted(Segments(front)[|Segments(front)| - 1]);
          quiet < IR_MESSAGE_GAP_US || quiet >= SURE_GAP_US)
  }

  // ---- what the alarm guarantees about a capture in progress ----

  /** The latest alarm saw less than a message gap of quiet. */
  ghost predicate Watched(w: World, alarm: uint64) {
    w.ring.mode == Capturing ==> alarm - w.ring.lastEdge < IR_MESSAGE_GAP_US
  }

  /** An edge can only extend a capture after less than SURE_GAP_US of quiet, so
      the uint16 clamp of the edge interrupt is never reached. */
  lemma {:induction false} NoClampInsideCapture(w: World, alarm: uint64, now: uint64)
    requires Inv(w) && Watched(w, alarm) && w.clock <= now <= alarm + IR_ALARM_PERIOD_US
    requires w.ring.mode == Capturing
    ensures Elapsed(now, w.ring.lastEdge) < SURE_GAP_US < 0xFFFF
  {
  }

  lemma {:induction false} StepKeepsWatch(w: World, alarm: uint64, e: Event)
    requires Inv(w) && Watched(w, alarm) && alarm <= w.clock
    requires !e.Task? ==> w.clock <= e.now <= alarm + IR_ALARM_PERIOD_US
    ensures Watched(Step(w, e), if e.Alarm? then e.now else alarm)
  {
    hide Owned, Pipeline, ActiveSound, FindFree;
  }

  /** The run's captures so far are exactly the segments of its edges. */
  ghost predicate Refines(w: World, seen: seq<uint64>)
    requires w.ring.Shaped()
  {
    var s := Segments(seen);
    if w.ring.mode == Capturing then
      s != [] && w.edges == s[|s| - 1] && w.completed == Kept(s[..|s| - 1])
    else
      w.completed == Kept(s) && (s != [] ==> w.clock >= LastAccepted(s[|s| - 1]) + IR_MESSAGE_GAP_US)
  }

  lemma {:induction false} SegmentsSnoc(seen: seq<uint64>, e: uint64)
    ensures Segments(seen + [e]) == Joined(Segments(seen), e)
  {
    assert (seen + [e])[..|seen + [e]| - 1] == seen;
  }

  lemma {:induction false} UnambiguousPrefix(a: seq<uint64>, b: seq<uint64>)
    requires Unambiguous(a + b)
    ensures Unambiguous(a)
    decreases |b|
  {
    if b == [] {
      assert a + b == a;
    } else {
      assert (a + b)[..|a + b| - 1] == a + b[..|b| - 1];
      UnambiguousPrefix(a, b[..|b| - 1]);
    }
  }

  /** What an unambiguous next edge says about the quiet before it. */
  lemma {:induction false} UnambiguousNext(seen: seq<uint64>, e: uint64)
    requires Unambiguous(seen + [e]) && seen != []
    ensures var quiet := e - LastAccepted(Segments(seen)[|Segments(seen)| - 1]);
            quiet < IR_MESSAGE_GAP_US || quiet >= SURE_GAP_US
  {
    assert (seen + [e])[..|seen + [e]| - 1] == seen;
  }

  lemma {:induction false} KeptSnoc(s: seq<seq<uint64>>, x: seq<uint64>)
    ensures Kept(s + [x]) == Kept(s) + if |Accepted(x)| >= 2 then [x] else []
  {
    assert (s + [x])[..|s + [x]| - 1] == s;
  }

  lemma {:induction false} EdgeRefines(w: World, alarm: uint64, seen: seq<uint64>, now: uint64)
    requires Inv(w) && Refines(w, seen) && Watched(w, alarm) && w.clock <= now <= alarm + IR_ALARM_PERIOD_US
    requires w.ring.mode != Dropping && Step(w, Edge(now)).ring.mode != Dropping
    requires Unambiguous(seen + [now])
    ensures Refines(Step(w, Edge(now)), seen + [now])
  {
    hide Owned, Pipeline, FindFree, Accepted, Segments, Kept, Unambiguous, MessageOf;
    var w' := Step(w, Edge(now));
    var s := Segments(seen);
    SegmentsSnoc(seen, now);
    if w.ring.mode == Capturing {
      NoClampInsideCapture(w, alarm, now);
      if seen == [] { EmptySegments(); }
      UnambiguousNext(seen, now);
      assert w.ring.lastEdge == LastAccepted(w.edges);
      assert now - LastAccepted(s[|s| - 1]) < IR_MESSAGE_GAP_US;
      assert Joined(s, now)[..|s| - 1] == s[..|s| - 1];
    } else {
      assert Joined(s, now) == s + [[now]];
      assert (s + [[now]])[..|s|] == s;
    }
  }

  lemma {:induction false} EmptySegments()
    ensures Segments([]) == []
  {
  }

  /** The alarm ends a capture with an interval in it by completing it. */
  lemma {:induction false} EndedCapture(w: World, now: uint64)
    requires Inv(w) && w.ring.mode == Capturing && w.clock <= now && Elapsed(now, w.ring.lastEdge) >= IR_MESSAGE_GAP_US
    ensures var w' := Step(w, Alarm(now));
            && w'.ring.mode == Idle && w'.edges == [] && w'.clock == now
            && w'.completed == w.completed + if |Accepted(w.edges)| >= 2 then [w.edges] else []
  {
    hide Pipeline, FindFree, Accepted;
    PostNeverFails(w.ring);
    var m := w.ring.slots[w.ring.active].Contents();
    assert m == MessageOf(w.edges);
    assert |m.pulses| == w.ring.slots[w.ring.active].count;
    assert |m.pulses| == Min(|Intervals(Accepted(w.edges))|, IR_MAX_PULSES);
  }

  lemma {:induction false} AlarmRefines(w: World, seen: seq<uint64>, now: uint64)
    requires Inv(w) && Refines(w, seen) && w.clock <= now && w.ring.mode != Dropping
    ensures Refines(Step(w, Alarm(now)), seen)
  {
    hide Owned, Pipeline, FindFree, Accepted, Segments, Kept, MessageOf;
    var s := Segments(seen);
    if w.ring.mode == Capturing && Elapsed(now, w.ring.lastEdge) >= IR_MESSAGE_GAP_US {
      EndedCapture(w, now);
      assert s == s[..|s| - 1] + [s[|s| - 1]];
      KeptSnoc(s[..|s| - 1], s[|s| - 1]);
      assert w.ring.lastEdge == LastAccepted(w.edges);
    }
  }

  /** One event of such a run. */
  lemma {:induction false} StepRefines(w: World, alarm: uint64, seen: seq<uint64>, e: Event, rest: seq<uint64>)
    requires Inv(w) && Refines(w, seen) && Watched(w, alarm) && alarm <= w.clock
    requires !e.Task? ==> w.clock <= e.now <= alarm + IR_ALARM_PERIOD_US
    requires w.ring.mode != Dropping && Step(w, e).ring.mode != Dropping
    requires Unambiguous((if e.Edge? then seen + [e.now] else seen) + rest)
    ensures Refines(Step(w, e), if e.Edge? then seen + [e.now] else seen)
  {
    hide Inv, Refines, Watched, Step, Unambiguous;
    match e
    case Edge(now) =>
      UnambiguousPrefix(seen + [now], rest);
      EdgeRefines(w, alarm, seen, now);
    case Alarm(now) => AlarmRefines(w, seen, now);
    case Task =>
      InvShaped(w);
      TaskRefines(w, seen);
  }

  /** Along a run with dense alarms the captures follow the edges alone. */
  lemma {:induction false} RunRefines(w: World, alarm: uint64, seen: seq<uint64>, es: seq<Event>)
    requires Inv(w) && Refines(w, seen) && Watched(w, alarm) && alarm <= w.clock
    requires Timed(w.clock, es) && Dense(alarm, es) && NeverRefused(w, es) && Unambiguous(seen + EdgeTimes(es))
    ensures Refines(Run(w, es), seen + EdgeTimes(es)) && Inv(Run(w, es))
    decreases |es|
  {
    hide Inv, Refines, Watched, Step, Unambiguous;
    InvShaped(w);
    if es == [] {
      assert seen + EdgeTimes(es) == seen;
    } else {
      var e := es[0];
      var seen' := if e.Edge? then seen + [e.now] else seen;
      assert seen + EdgeTimes(es) == seen' + EdgeTimes(es[1..]);
      StepKeepsInv(w, e);
      StepKeepsWatch(w, alarm, e);
      InvShaped(Step(w, e));
      StillRunning(Step(w, e), es[1..]);
      StepRefines(w, alarm, seen, e, EdgeTimes(es[1..]));
      RunRefines(Step(w, e), if e.Alarm? then e.now else alarm, seen', es[1..]);
    }
  }

  lemma {:induction false} StillRunning(w: World, es: seq<Event>)
    requires w.ring.Shaped() && NeverRefused(w, es)
    ensures w.ring.mode != Dropping
  {
  }

  lemma {:induction false} TaskRefines(w: World, seen: seq<uint64>)
    requires w.ring.Shaped() && Refines(w, seen)
    ensures Refines(Step(w, Task), seen)
  {
    hide Segments, Kept, Accepted;
  }

  /** Main result on timing. With an alarm in every 2 ms window, a free buffer
      for every transmission and no edge in the ambiguous 2 ms, every message
      the task forms is the greedy reading of the corresponding segment of the
      edge stream, wherever the alarms and the task's steps fall. */
  lemma {:induction false} MessagesFollowEdges(size: nat, boot: uint64, es: seq<Event>)
    requires 1 <= size <= 0xFF && Timed(boot, es) && Dense(boot, es)
    requires NeverRefused(Boot(size, boot), es) && Unambiguous(EdgeTimes(es))
    ensures var w := Run(Boot(size, boot), es);
            var all := Kept(Segments(EdgeTimes(es)));
            && |w.delivered| <= |w.completed| <= |all| <= |w.completed| + 1
            && w.completed == all[..|w.completed|]
            && forall k :: 0 <= k < |w.delivered| ==> w.delivered[k] == MessageOf(all[k])
  {
    BootInv(size, boot);
    assert [] + EdgeTimes(es) == EdgeTimes(es);
    RunRefines(Boot(size, boot), boot, [], es);
    hide *;
    DeliveredPrefix(Run(Boot(size, boot), es), EdgeTimes(es));
  }

  lemma {:induction false} DeliveredPrefix(w: World, seen: seq<uint64>)
    requires Inv(w) && Refines(w, seen)
    ensures var all := Kept(Segments(seen));
            && |w.delivered| <= |w.completed| <= |all| <= |w.completed| + 1
            && w.completed == all[..|w.completed|]
            && forall k :: 0 <= k < |w.delivered| ==> w.delivered[k] == MessageOf(all[k])
  {
    hide MessageOf, Accepted, Owned, Segments, Kept, ActiveSound;
    var s := Segments(seen);
    if w.ring.mode == Capturing {
      assert s == s[..|s| - 1] + [s[|s| - 1]];
      KeptSnoc(s[..|s| - 1], s[|s| - 1]);
    }
  }

  // ---- the two thresholds, for every capture ----

  /** Every interval of this capture is shorter than the sure gap. */
  ghost predicate Tight(edges: seq<uint64>) {
    forall k {:trigger Intervals(Accepted(edges))[k]} :: 0 <= k < |Intervals(Accepted(edges))| ==>
      IR_MIN_PULSE_US <= Intervals(Accepted(edges))[k] < SURE_GAP_US
  }

  ghost predicate AllTight(w: World) {
    (w.edges != [] ==> Tight(w.edges)) && forall k :: 0 <= k < |w.completed| ==> Tight(w.completed[k])
  }

  lemma {:induction false} StepKeepsTight(w: World, alarm: uint64, e: Event)
    requires Inv(w) && Watched(w, alarm) && AllTight(w)
    requires !e.Task? ==> w.clock <= e.now <= alarm + IR_ALARM_PERIOD_US
    ensures AllTight(Step(w, e))
  {
    hide Owned, Pipeline, FindFree, Accepted, MessageOf, Tight;
    if e.Edge? {
      if w.ring.mode == Capturing {
        NoClampInsideCapture(w, alarm, e.now);
        TightSnoc(w.edges, e.now);
      } else {
        TightStart(e.now);
      }
    }
  }

  lemma {:induction false} TightStart(now: uint64)
    ensures Tight([now])
  {
    FirstEdge(now);
  }

  lemma {:induction false} TightSnoc(edges: seq<uint64>, now: uint64)
    requires edges != [] && Tight(edges) && now - LastAccepted(edges) < SURE_GAP_US
    ensures Tight(edges + [now])
  {
    AcceptedSnoc(edges, now);
    IntervalsSnoc(Accepted(edges), now);
    hide Accepted;
  }

  /** Every quiet time of SURE_GAP_US or more ends the capture: no completed
      capture contains one, so none of its pulses was ever clamped. */
  lemma {:induction false} SureGapAlwaysSplits(w: World, alarm: uint64, es: seq<Event>)
    requires Inv(w) && Watched(w, alarm) && AllTight(w) && alarm <= w.clock
    requires Timed(w.clock, es) && Dense(alarm, es)
    ensures AllTight(Run(w, es))
    decreases |es|
  {
    if es == [] {
    } else {
      StepKeepsInv(w, es[0]);
      StepKeepsWatch(w, alarm, es[0]);
      StepKeepsTight(w, alarm, es[0]);
      hide Inv, Watched, AllTight;
      SureGapAlwaysSplits(Step(w, es[0]), if es[0].Alarm? then es[0].now else alarm, es[1..]);
    }
  }

  /** A capture whose intervals are tight is stored exactly, not clamped. */
  lemma {:induction false} TightIsExact(edges: seq<uint64>)
    requires Tight(edges)
    ensures var d := Intervals(Accepted(edges));
            MessageOf(edges).pulses == d[..Min(|d|, IR_MAX_PULSES)]
  {
    hide Accepted;
  }

  /** Less than a message gap of quiet never ends a capture, wherever the alarms
      fall and whatever glitches come in between: it is still in progress at
      every edge that is that close to the last one accepted. */
  lemma {:induction false} ShortGapNeverSplits(w: World, es: seq<Event>, now: uint64)
    requires Inv(w) && w.ring.mode == Capturing && Timed(w.clock, es + [Edge(now)])
    requires forall i :: 0 <= i < |es| && es[i].Edge? ==> es[i].now - w.ring.lastEdge < IR_MIN_PULSE_US
    requires now - w.ring.lastEdge < IR_MESSAGE_GAP_US
    ensures Run(w, es).ring.mode == Capturing && Run(w, es).edges == w.edges + EdgeTimes(es)
    ensures Run(w, es).ring.lastEdge == w.ring.lastEdge && Run(w, es).completed == w.completed
    ensures Inv(Run(w, es)) && Run(w, es).clock <= now
    decreases |es|
  {
    hide Inv, Step;
    if es == [] {
      InvShaped(w);
      assert (es + [Edge(now)])[0] == Edge(now);
      assert w.edges + EdgeTimes(es) == w.edges;
    } else {
      var e, rest := es[0], es[1..];
      assert es + [Edge(now)] == [e] + (rest + [Edge(now)]);
      InvShaped(w);
      QuietStep(w, e, rest, now);
      ShortGapNeverSplits(Step(w, e), rest, now);
      assert w.edges + EdgeTimes(es) == Step(w, e).edges + EdgeTimes(rest);
    }
  }

  lemma {:induction false} InvShaped(w: World)
    requires Inv(w)
    ensures w.ring.Shaped()
  {
    hide Owned, ActiveSound, Pipeline;
  }

  lemma {:induction false} QuietStep(w: World, e: Event, rest: seq<Event>, now: uint64)
    requires Inv(w) && w.ring.mode == Capturing && Timed(w.clock, [e] + (rest + [Edge(now)]))
    requires e.Edge? ==> e.now - w.ring.lastEdge < IR_MIN_PULSE_US
    requires now - w.ring.lastEdge < IR_MESSAGE_GAP_US
    ensures var w' := Step(w, e);
            && Inv(w') && w'.ring.mode == Capturing && w'.ring.lastEdge == w.ring.lastEdge
            && w'.edges == (if e.Edge? then w.edges + [e.now] else w.edges)
            && w'.completed == w.completed && Timed(w'.clock, rest + [Edge(now)])
  {
    assert ([e] + (rest + [Edge(now)]))[1..] == rest + [Edge(now)];
    if !e.Task? { TimedBound(e.now, rest, now); }
    StepKeepsInv(w, e);
    hide Pipeline, Owned, Accepted, MessageOf;
  }

  lemma {:induction false} TimedBound(clock: uint64, es: seq<Event>, now: uint64)
    requires Timed(clock, es + [Edge(now)])
    ensures clock <= now
    decreases |es|
  {
    if es == [] {
      assert (es + [Edge(now)])[0] == Edge(now);
    } else {
      assert (es + [Edge(now)])[0] == es[0] && (es + [Edge(now)])[1..] == es[1..] + [Edge(now)];
      TimedBound(if es[0].Task? then clock else es[0].now, es[1..], now);
    }
  }

  /** With dense alarms every pulse of every message is the exact distance of two
      consecutive accepted edges. */
  lemma {:induction false} PulsesAreExact(size: nat, boot: uint64, es: seq<Event>)
    requires 1 <= size <= 0xFF && Timed(boot, es) && Dense(boot, es)
    ensures var w := Run(Boot(size, boot), es);
            && |w.delivered| <= |w.completed|
            && forall k :: 0 <= k < |w.delivered| ==>
                 var d := Intervals(Accepted(w.completed[k]));
                 w.delivered[k].pulses == d[..Min(|d|, IR_MAX_PULSES)]
  {
    BootInv(size, boot);
    SureGapAlwaysSplits(Boot(size, boot), boot, es);
    RunKeepsInv(Boot(size, boot), es);
    hide *;
    AllTightExact(Run(Boot(size, boot), es));
  }

  lemma {:induction false} AllTightExact(w: World)
    requires Inv(w) && AllTight(w)
    ensures |w.delivered| <= |w.completed|
    ensures forall k :: 0 <= k < |w.delivered| ==>
              var d := Intervals(Accepted(w.completed[k]));
              w.delivered[k].pulses == d[..Min(|d|, IR_MAX_PULSES)]
  {
    hide Accepted, MessageOf, Owned, ActiveSound, Tight;
    forall k | 0 <= k < |w.delivered|
      ensures var d := Intervals(Accepted(w.completed[k]));
              w.delivered[k].pulses == d[..Min(|d|, IR_MAX_PULSES)]
    {
      TightIsExact(w.completed[k]);
    }
  }
}
