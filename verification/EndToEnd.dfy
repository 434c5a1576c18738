/** From the wire and back: a signal that was captured, stored and sent again is
    transmitted with the edge timing it was captured with. */
module EndToEnd {
  import opened Config
  import opened CText
  import opened JsonCodec
  import opened WireFormat
  import opened StrictJson
  import Filter = CaptureFilter
  import Capture = CaptureRing
  import Timing = CaptureTiming
  import Receive = MqttReceive
  import Server = LearnServer
  import Replay = IrTransmit

  /** A transmission the hub is meant to learn: no gap is a glitch, none ends a
      message, and all pulses fit a buffer. */
  ghost predicate Learnable(e: seq<uint64>) {
    && 2 <= |e| <= 801
    && forall i {:trigger e[i]} :: 1 <= i < |e| ==> 60 <= e[i] - e[i - 1] < 55000
  }

  /** What it has to be learned as. */
  function Gaps(e: seq<uint64>): (p: seq<uint16>)
    requires Learnable(e)
    ensures |p| == |e| - 1
    ensures forall i :: 0 <= i < |p| ==> p[i] == e[i + 1] - e[i]
  {
    seq(|e| - 1, i requires 0 <= i < |e| - 1 => Gap(e, i))
  }

  function Gap(e: seq<uint64>, i: nat): uint16
    requires Learnable(e) && i + 1 < |e|
  {
    var d: int := e[i + 1] - e[i];
    d
  }

  // ---- capture ----

  ghost predicate SomeFree(w: Capture.World) {
    exists b :: 0 <= b < |w.ring.busy| && !w.ring.busy[b]
  }

  /** Before the first edge, during the capture of e[..k], or after its end. */
  ghost predicate Stage(w: Capture.World, before: seq<seq<uint64>>, e: seq<uint64>, k: nat)
    requires k <= |e|
  {
    Capture.Inv(w) &&
    if k == 0 then w.ring.mode == Capture.Idle && SomeFree(w) && w.completed == before
    else if w.ring.mode == Capture.Capturing then w.edges == e[..k] && w.completed == before
    else w.ring.mode == Capture.Idle && k == |e| && w.completed == before + [e]
  }

  lemma {:induction false} PrefixKept(e: seq<uint64>, k: nat)
    requires Learnable(e) && 0 < k <= |e|
    ensures Filter.Accepted(e[..k]) == e[..k]
  {
    var p := e[..k];
    forall i | 0 <= i < |p| - 1 ensures p[i + 1] - p[i] >= IR_MIN_PULSE_US {
      assert e[i + 1] - e[i + 1 - 1] >= IR_MIN_PULSE_US;
    }
    Filter.CleanEdgesAllAccepted(p);
  }

  /** The capture in progress measures from the last edge. */
  lemma {:induction false} MeasuresFrom(w: Capture.World, e: seq<uint64>, k: nat)
    requires Learnable(e) && 0 < k <= |e| && Capture.Inv(w) && w.ring.mode == Capture.Capturing && w.edges == e[..k]
    ensures w.ring.lastEdge == e[k - 1] && w.ring.lastEdge <= w.clock
  {
    hide Filter.Accepted, Filter.MessageOf, Capture.Owned, Capture.Pipeline;
    PrefixKept(e, k);
  }

  lemma {:induction false} FirstEdge(w: Capture.World, before: seq<seq<uint64>>, e: seq<uint64>)
    requires Learnable(e) && Stage(w, before, e, 0) && w.clock <= e[0]
    ensures Stage(Capture.Step(w, Capture.Edge(e[0])), before, e, 1)
  {
    hide Capture.Owned, Capture.Pipeline, Capture.ActiveSound, Capture.FindFree;
    Capture.StepKeepsInv(w, Capture.Edge(e[0]));
    Capture.FindFreeFinds(w.ring.busy, w.ring.active);
    assert e[..1] == [e[0]];
  }

  lemma {:induction false} NextEdge(w: Capture.World, before: seq<seq<uint64>>, e: seq<uint64>, k: nat)
    requires Learnable(e) && 0 < k < |e| && Stage(w, before, e, k) && w.clock <= e[k]
    ensures Stage(Capture.Step(w, Capture.Edge(e[k])), before, e, k + 1)
  {
    hide Capture.Owned, Capture.Pipeline, Capture.ActiveSound, Capture.FindFree, Capture.Slot.Recorded;
    Capture.StepKeepsInv(w, Capture.Edge(e[k]));
    assert e[..k + 1] == e[..k] + [e[k]];
  }

  lemma {:induction false} TaskTurn(w: Capture.World, before: seq<seq<uint64>>, e: seq<uint64>, k: nat)
    requires k <= |e| && Stage(w, before, e, k)
    ensures Stage(Capture.Step(w, Capture.Task), before, e, k)
  {
    hide Capture.Owned, Capture.Pipeline, Capture.ActiveSound;
    Capture.StepKeepsInv(w, Capture.Task);
    if k == 0 {
      var b :| 0 <= b < |w.ring.busy| && !w.ring.busy[b];
      assert !Capture.Step(w, Capture.Task).ring.busy[b];
    }
  }

  /** An alarm with less than a message gap of quiet, or with no capture in
      progress, changes nothing. */
  lemma {:induction false} EarlyAlarm(w: Capture.World, before: seq<seq<uint64>>, e: seq<uint64>, k: nat, now: uint64)
    requires Learnable(e) && k <= |e| && Stage(w, before, e, k) && w.clock <= now
    requires 0 < k && w.ring.mode == Capture.Capturing ==> now - e[k - 1] < IR_MESSAGE_GAP_US
    ensures Stage(Capture.Step(w, Capture.Alarm(now)), before, e, k)
  {
    hide Capture.Owned, Capture.Pipeline, Capture.ActiveSound;
    Capture.StepKeepsInv(w, Capture.Alarm(now));
    if w.ring.mode == Capture.Capturing { MeasuresFrom(w, e, k); }
  }

  /** An alarm after a message gap of quiet hands the whole capture over. */
  lemma {:induction false} LateAlarm(w: Capture.World, before: seq<seq<uint64>>, e: seq<uint64>, now: uint64)
    requires Learnable(e) && Stage(w, before, e, |e|) && w.clock <= now && e[|e| - 1] + IR_MESSAGE_GAP_US <= now
    ensures Stage(Capture.Step(w, Capture.Alarm(now)), before, e, |e|)
    ensures Capture.Step(w, Capture.Alarm(now)).ring.mode == Capture.Idle
  {
    hide Capture.Owned, Capture.Pipeline, Capture.ActiveSound, Filter.Accepted, Capture.Finish;
    assert e[..|e|] == e;
    Capture.StepKeepsInv(w, Capture.Alarm(now));
    if w.ring.mode == Capture.Capturing {
      MeasuresFrom(w, e, |e|);
      PrefixKept(e, |e|);
      Timing.EndedCapture(w, now);
    }
  }

  /** Where the schedule puts the next edge after an alarm or a task step. */
  lemma {:induction false} NextEdgeLater(clock: uint64, es: seq<Capture.Event>, e: uint64, rest: seq<uint64>)
    requires Capture.Timed(clock, es) && Timing.EdgeTimes(es) == [e] + rest
    ensures clock <= e
    decreases |es|
  {
    if !es[0].Edge? {
      NextEdgeLater(if es[0].Task? then clock else es[0].now, es[1..], e, rest);
    } else {
      assert es[0].now == ([e] + rest)[0];
    }
  }

  lemma {:induction false} OneStep(w: Capture.World, before: seq<seq<uint64>>, e: seq<uint64>, k: nat, es: seq<Capture.Event>)
      returns (k': nat)
    requires Learnable(e) && k <= |e| && Stage(w, before, e, k) && es != []
    requires Capture.Timed(w.clock, es) && Timing.EdgeTimes(es) == e[k..]
    ensures k' <= |e| && Stage(Capture.Step(w, es[0]), before, e, k') && Timing.EdgeTimes(es[1..]) == e[k'..]
  {
    hide Stage, Capture.Step;
    k' := k;
    match es[0]
    case Edge(now) =>
      assert now == e[k..][0] == e[k];
      assert e[k..][1..] == e[k + 1..];
      k' := k + 1;
      if k == 0 { FirstEdge(w, before, e); } else { NextEdge(w, before, e, k); }
    case Task => TaskTurn(w, before, e, k);
    case Alarm(now) =>
      if 0 < k < |e| {
        assert e[k..] == [e[k]] + e[k + 1..];
        NextEdgeLater(now, es[1..], e[k], e[k + 1..]);
        assert e[k] - e[k - 1] < IR_MESSAGE_GAP_US;
        EarlyAlarm(w, before, e, k, now);
      } else if k == 0 || now - e[k - 1] < IR_MESSAGE_GAP_US {
        EarlyAlarm(w, before, e, k, now);
      } else {
        LateAlarm(w, before, e, now);
      }
  }

  lemma {:induction false} StageAlong(w: Capture.World, before: seq<seq<uint64>>, e: seq<uint64>, k: nat, es: seq<Capture.Event>)
    requires Learnable(e) && k <= |e| && Stage(w, before, e, k) && w.ring.Shaped()
    requires Capture.Timed(w.clock, es) && Timing.EdgeTimes(es) == e[k..]
    ensures Stage(Capture.Run(w, es), before, e, |e|)
    decreases |es|
  {
    if es == [] {
    } else {
      var k' := OneStep(w, before, e, k, es);
      ClockAfter(w, before, e, k, es);
      hide Stage, Capture.Step;
      StageAlong(Capture.Step(w, es[0]), before, e, k', es[1..]);
    }
  }

  lemma {:induction false} ClockAfter(w: Capture.World, before: seq<seq<uint64>>, e: seq<uint64>, k: nat, es: seq<Capture.Event>)
    requires k <= |e| && Stage(w, before, e, k) && es != [] && Capture.Timed(w.clock, es)
    ensures Capture.Timed(Capture.Step(w, es[0]).clock, es[1..])
  {
    hide Capture.Inv;
    Capture.StepKeepsInv(w, es[0]);
  }

  lemma {:induction false} CompletedGrows(w: Capture.World, es: seq<Capture.Event>)
    requires w.ring.Shaped()
    ensures w.completed <= Capture.Run(w, es).completed
    decreases |es|
  {
    if es == [] {
    } else {
      CompletedStep(w, es[0]);
      hide Capture.Step;
      CompletedGrows(Capture.Step(w, es[0]), es[1..]);
    }
  }

  lemma {:induction false} CompletedStep(w: Capture.World, e: Capture.Event)
    requires w.ring.Shaped()
    ensures w.completed <= Capture.Step(w, e).completed
  {
    hide Capture.EdgeStep, Capture.AlarmStep, Capture.TaskStep, Capture.Formed;
  }

  lemma {:induction false} LearnedAs(e: seq<uint64>)
    requires Learnable(e)
    ensures var m := Filter.MessageOf(e);
            m.carrierFreq == IR_CARRIER_HZ && !m.truncated && m.pulses == Gaps(e)
  {
    hide Filter.Accepted, Filter.FrameGaps;
    PrefixKept(e, |e|);
    assert e[..|e|] == e;
    var d := Filter.Intervals(e);
    assert d[..Min(|d|, IR_MAX_PULSES)] == d;
    forall i | 0 <= i < |d| ensures Filter.Clamp(d[i]) == Gaps(e)[i] {
      assert d[i] == e[i + 1] - e[i + 1 - 1];
    }
  }

  /** A transmission with edges e comes in on an idle ring with a free buffer,
      under any schedule of alarms and task steps; the alarm at t ends it. */
  ghost predicate Heard(w: Capture.World, e: seq<uint64>, es: seq<Capture.Event>, t: uint64) {
    && Learnable(e) && Capture.Inv(w) && w.ring.mode == Capture.Idle && SomeFree(w)
    && Capture.Timed(w.clock, es) && Timing.EdgeTimes(es) == e
    && Capture.Run(w, es).clock <= t && e[|e| - 1] + IR_MESSAGE_GAP_US <= t
  }

  /** The capture unit when the transmission is over. */
  function Over(w: Capture.World, es: seq<Capture.Event>, t: uint64): (o: Capture.World)
    requires w.ring.Shaped()
    ensures o.ring.Shaped()
  {
    Capture.Step(Capture.Run(w, es), Capture.Alarm(t))
  }

  lemma {:induction false} HeardWhole(w: Capture.World, e: seq<uint64>, es: seq<Capture.Event>, t: uint64)
    requires Heard(w, e, es, t)
    ensures w.ring.Shaped() && Capture.Inv(Over(w, es, t)) && Over(w, es, t).clock == t
    ensures Over(w, es, t).completed == w.completed + [e]
  {
    hide Capture.Inv, Capture.Run, Capture.Step, Learnable;
    assert e[0..] == e;
    IdleStage(w, e);
    StageAlong(w, w.completed, e, 0, es);
    HandedOver(Capture.Run(w, es), w.completed, e, t);
  }

  /** Whatever comes after, the message formed for this transmission holds
      exactly its gaps; and left alone the task does form it. */
  lemma {:induction false} CapturedExactly(
      w: Capture.World, e: seq<uint64>, es: seq<Capture.Event>, t: uint64, later: seq<Capture.Event>)
    requires Heard(w, e, es, t) && Capture.Timed(t, later)
    ensures w.ring.Shaped()
    ensures var done := Capture.Run(Over(w, es, t), later);
            && w.completed + [e] <= done.completed
            && (|done.delivered| > |w.completed| ==>
                  var m := done.delivered[|w.completed|];
                  m.carrierFreq == IR_CARRIER_HZ && !m.truncated && m.pulses == Gaps(e))
    ensures var n := Capture.Debt(Over(w, es, t).ring);
            |Capture.Run(Over(w, es, t), Capture.Tasks(n)).delivered| > |w.completed|
  {
    hide Capture.Inv, Capture.Run, Capture.Step, Filter.MessageOf, Gaps, Over, Capture.Debt;
    HeardWhole(w, e, es, t);
    var start := Over(w, es, t);
    CompletedGrows(start, later);
    Capture.RunKeepsInv(start, later);
    var done := Capture.Run(start, later);
    assert done.completed[|w.completed|] == (w.completed + [e])[|w.completed|] == e;
    DeliveredAs(done);
    LearnedAs(e);
    Capture.TaskDrains(start, Capture.Debt(start.ring));
  }

  lemma {:induction false} IdleStage(w: Capture.World, e: seq<uint64>)
    requires Capture.Inv(w) && w.ring.mode == Capture.Idle && SomeFree(w)
    ensures Stage(w, w.completed, e, 0) && w.ring.Shaped()
  {
    hide Capture.Owned, Capture.Pipeline, Capture.ActiveSound;
  }

  lemma {:induction false} HandedOver(w: Capture.World, before: seq<seq<uint64>>, e: seq<uint64>, t: uint64)
    requires Learnable(e) && Stage(w, before, e, |e|) && w.clock <= t && e[|e| - 1] + IR_MESSAGE_GAP_US <= t
    ensures w.ring.Shaped()
    ensures var s := Capture.Step(w, Capture.Alarm(t));
            Capture.Inv(s) && s.completed == before + [e] && s.clock == t
  {
    hide Capture.Owned, Capture.Pipeline, Capture.ActiveSound, Capture.Step;
    LateAlarm(w, before, e, t);
    Capture.StepKeepsInv(w, Capture.Alarm(t));
  }

  lemma {:induction false} DeliveredAs(w: Capture.World)
    requires Capture.Inv(w)
    ensures |w.delivered| <= |w.completed|
    ensures forall k :: 0 <= k < |w.delivered| ==> w.delivered[k] == Filter.MessageOf(w.completed[k])
  {
    hide Capture.Owned, Capture.ActiveSound, Filter.MessageOf, Capture.CopySound;
  }

  // ---- publish, store, send ----

  lemma {:induction false} SendFits(m: IrMessage)
    requires |m.pulses| <= IR_MAX_PULSES
    ensures |SendText(m.carrierFreq, m.pulses)| <= |Render(m)| < MQTT_MAX_PAYLOAD_LEN
  {
    RenderFits(m);
    RenderIsCompact(m);
    hide Render, PulseList, Decimal;
  }

  /** The command a button sends, cut into fragments in any way, is offered to
      the transmitter with the pulses that were learned for the button. */
  lemma {:induction false} SentIsOffered(m: IrMessage, fragments: seq<string>)
    requires 1 <= |m.pulses| <= IR_MAX_PULSES
    requires fragments != [] && Concat(fragments) == SendText(m.carrierFreq, m.pulses)
    ensures Receive.Deliver(Receive.PublishStep(Receive.TOPIC_SEND), fragments).1 ==
            Some(IrMessage(m.carrierFreq, 1, false, m.pulses))
    ensures Replay.CarrierFor(IrMessage(m.carrierFreq, 1, false, m.pulses)) ==
            if 20000 <= m.carrierFreq <= 60000 then m.carrierFreq else 38000
  {
    hide Render, SendText, Offered, Buffer;
    SendFits(m);
    SendReadsBack(m.carrierFreq, m.pulses);
    var rx := Receive.PublishStep(Receive.TOPIC_SEND);
    assert Receive.TOPIC_SEND[..|Receive.TOPIC_SEND|] == Receive.TOPIC_SEND;
    assert rx.held + Concat(fragments) == Concat(fragments);
    Receive.DeliverConcat(rx, fragments);
  }

  // ---- replay ----

  /** When edge i came, after the first. */
  function Since(e: seq<uint64>, i: nat): int
    requires i < |e|
  {
    var at: int := e[i];
    at - e[0]
  }

  lemma {:induction false} GapsAddUp(e: seq<uint64>, k: nat)
    requires Learnable(e) && k < |e|
    ensures Replay.Elapsed(Gaps(e), k) == Since(e, k)
    decreases k
  {
    if k == 0 {
    } else {
      GapsAddUp(e, k - 1);
    }
  }

  /** Same distances as the edges, on for the even gaps, off for the odd ones and
      at the end, and never more than `bound` late. */
  ghost predicate Replays(toggles: seq<Replay.Toggle>, e: seq<uint64>, t0: nat, bound: nat) {
    && |toggles| == |e|
    && forall i {:trigger toggles[i]} :: 0 <= i < |e| ==>
         && toggles[i].due == t0 + Since(e, i)
         && toggles[i].on == (i % 2 == 0 && i < |e| - 1)
         && toggles[i].due <= toggles[i].at <= toggles[i].due + bound
  }

  lemma {:induction false} ToggleAt(e: seq<uint64>, t0: nat, late: nat -> nat, bound: nat, i: nat)
    requires Learnable(e) && bound <= IR_MIN_PULSE_US && (forall i :: late(i) <= bound) && i < |e|
    ensures Replay.Elapsed(Gaps(e), i) == Since(e, i)
    ensures t0 + Since(e, i) <= Replay.Happens(Gaps(e), t0, late, i) <= t0 + Since(e, i) + bound
  {
    hide Replay.Elapsed, Replay.Happens, Since;
    var p := Gaps(e);
    forall k | 0 <= k < |p| ensures bound <= p[k] { assert e[k + 1] - e[k + 1 - 1] >= IR_MIN_PULSE_US; }
    GapsAddUp(e, i);
    Replay.NoDrift(p, t0, late, bound, i);
    Replay.NoShortfall(p, bound, i);
  }

  lemma {:induction false} BurstReplays(e: seq<uint64>, t0: nat, late: nat -> nat, bound: nat)
    requires Learnable(e) && bound <= IR_MIN_PULSE_US && forall i :: late(i) <= bound
    ensures Replays(Replay.Burst(Gaps(e), t0, late), e, t0, bound)
  {
    hide Replay.Elapsed, Replay.Happens, Replay.Plan, Since;
    var toggles, n := Replay.Burst(Gaps(e), t0, late), |e| - 1;
    forall i {:trigger toggles[i]} | 0 <= i < |e|
      ensures toggles[i] ==
              Replay.Toggle(i % 2 == 0 && i < n, t0 + Replay.Elapsed(Gaps(e), i), Replay.Happens(Gaps(e), t0, late, i))
      ensures toggles[i].due == t0 + Since(e, i) && toggles[i].due <= toggles[i].at <= toggles[i].due + bound
    {
      ToggleAt(e, t0, late, bound, i);
    }
  }

  /** A session is live for a button the store holds, and after its signal has
      arrived the server runs on without touching the button. */
  ghost predicate Stores(s: Server.Server, signal: Option<IrMessage>, after: seq<Server.Event>) {
    && Server.Inv(s) && s.session.Some?
    && var x := s.session.value;
    && Server.Holds(s.db, x.remoteId, x.buttonId)
    && Server.LeavesAlone(Server.Step(s, Server.Message(signal)).0, after, x.remoteId, x.buttonId)
  }

  /** What a send of the session's button comes to then. */
  function SentThen(s: Server.Server, signal: Option<IrMessage>, after: seq<Server.Event>): Server.Sent
    requires s.session.Some?
  {
    var x := s.session.value;
    Server.Send(Server.Run(Server.Step(s, Server.Message(signal)).0, after).db, x.remoteId, x.buttonId)
  }

  lemma {:induction false} SentAsLearned(s: Server.Server, m: IrMessage, after: seq<Server.Event>)
    requires Stores(s, Some(m), after)
    ensures SentThen(s, Some(m), after) ==
            if m.truncated then Server.Refused(409) else Server.Payload(SendText(m.carrierFreq, m.pulses))
  {
    hide Server.Inv, Server.Holds, Server.Step, Server.Run, Server.LeavesAlone, Server.Send, SendText;
    Server.LearnThenSend(s, m, after);
  }

  /** The whole way. The message m the task formed for a transmission is
      published, read as JSON and learned by an armed session; after any run of the
      server that leaves the button alone its command is sent, and not refused;
      cut up in any way it is decoded and transmitted: every toggle is due exactly
      as long after the start as its edge was. */
  lemma {:induction false} CapturedIsReplayed(
      w: Capture.World, e: seq<uint64>, es: seq<Capture.Event>, t: uint64, later: seq<Capture.Event>, m: IrMessage,
      s: Server.Server, after: seq<Server.Event>,
      fragments: seq<string>, t0: nat, late: nat -> nat, bound: nat)
    requires Heard(w, e, es, t) && Capture.Timed(t, later)
    requires |Capture.Run(Over(w, es, t), later).delivered| > |w.completed|
    requires m == Capture.Run(Over(w, es, t), later).delivered[|w.completed|]
    requires Stores(s, ParseSignal(Render(m)), after)
    requires fragments != [] && bound <= 60 && forall i :: late(i) <= bound
    ensures var sent := SentThen(s, ParseSignal(Render(m)), after);
            && sent.Payload?
            && (Concat(fragments) == sent.text ==>
                  var offer := Receive.Deliver(Receive.PublishStep(Receive.TOPIC_SEND), fragments).1;
                  && offer.Some? && Replay.CarrierFor(offer.value) == 38000
                  && Replays(Replay.Burst(offer.value.pulses, t0, late), e, t0, bound))
  {
    hide Heard, Over, Capture.Run, Stores, SentThen, ParseSignal, Render, SendText, Gaps, Replays,
         Replay.Burst, Receive.Deliver, Learnable, Concat;
    CapturedExactly(w, e, es, t, later);
    HeardLearnable(w, e, es, t);
    RenderIsJson(m);
    SentAsLearned(s, m, after);
    GapsCount(e);
    if Concat(fragments) == SendText(m.carrierFreq, m.pulses) { SentIsOffered(m, fragments); }
    BurstReplays(e, t0, late, bound);
  }

  lemma {:induction false} HeardLearnable(w: Capture.World, e: seq<uint64>, es: seq<Capture.Event>, t: uint64)
    requires Heard(w, e, es, t)
    ensures Learnable(e)
  {
    hide Learnable, Capture.Inv, Capture.Run;
  }

  lemma {:induction false} GapsCount(e: seq<uint64>)
    requires Learnable(e)
    ensures 1 <= |Gaps(e)| <= IR_MAX_PULSES
  {
  }

  /** And such a message is always published whole, and can always be sent. */
  lemma {:induction false} AlwaysSendable(e: seq<uint64>)
    requires Learnable(e)
    ensures var m := Filter.MessageOf(e);
            |Render(m)| < MQTT_MAX_PAYLOAD_LEN && |SendText(m.carrierFreq, m.pulses)| < MQTT_MAX_PAYLOAD_LEN
  {
    hide Filter.MessageOf, Render, SendText, Gaps;
    LearnedAs(e);
    GapsCount(e);
    SendFits(Filter.MessageOf(e));
  }
}
