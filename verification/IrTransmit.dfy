/** Replay of a pulse train: absolute deadlines, so lateness never adds up. */
module IrTransmit {
  import opened Config

  /** A change of the carrier: what it became, when it was due, when it happened. */
  datatype Toggle = Toggle(on: bool, due: nat, at: nat)

  /** Time from the start of the train to the end of its first k pulses. */
  function Elapsed(pulses: seq<uint16>, k: nat): nat
    requires k <= |pulses|
  {
    if k == 0 then 0 else Elapsed(pulses, k - 1) + pulses[k - 1]
  }

  /** The carrier the slice is configured for. */
  function CarrierFor(m: IrMessage): uint32 {
    if 20000 <= m.carrierFreq <= 60000 then m.carrierFreq else IR_CARRIER_HZ
  }

  /** The plan of a burst started at t0: on for even pulses, off for odd ones,
      off at the end, each due when the pulses before it are over. */
  ghost predicate Follows(toggles: seq<Toggle>, pulses: seq<uint16>, t0: nat) {
    && |toggles| == |pulses| + 1
    && (forall i :: 0 <= i < |pulses| ==> toggles[i].on == (i % 2 == 0) && toggles[i].due == t0 + Elapsed(pulses, i))
    && !toggles[|pulses|].on && toggles[|pulses|].due == t0 + Elapsed(pulses, |pulses|)
  }

  /** busy_wait_until: returns once the deadline has passed, a little late. */
  function WaitUntil(now: nat, deadline: nat, late: nat): nat {
    (if now < deadline then deadline else now) + late
  }

  /** When the k-th toggle happens, if the i-th wake-up is late(i) late. */
  function Happens(pulses: seq<uint16>, t0: nat, late: nat -> nat, k: nat): nat
    requires k <= |pulses|
  {
    if k == 0 then t0
    else WaitUntil(Happens(pulses, t0, late, k - 1), t0 + Elapsed(pulses, k), late(k - 1))
  }

  /** The toggles of a burst of the first k pulses, before the final off. */
  function Plan(pulses: seq<uint16>, t0: nat, late: nat -> nat, k: nat): (t: seq<Toggle>)
    requires k <= |pulses|
    ensures |t| == k
    ensures forall i :: 0 <= i < k ==>
              t[i] == Toggle(i % 2 == 0, t0 + Elapsed(pulses, i), Happens(pulses, t0, late, i))
  {
    if k == 0 then []
    else Plan(pulses, t0, late, k - 1) +
         [Toggle((k - 1) % 2 == 0, t0 + Elapsed(pulses, k - 1), Happens(pulses, t0, late, k - 1))]
  }

  /** A whole burst: the plan, then the carrier off. */
  function Burst(pulses: seq<uint16>, t0: nat, late: nat -> nat): seq<Toggle> {
    if pulses == [] then []
    else Plan(pulses, t0, late, |pulses|) +
         [Toggle(false, t0 + Elapsed(pulses, |pulses|), Happens(pulses, t0, late, |pulses|))]
  }

  lemma {:induction false} BurstFollows(pulses: seq<uint16>, t0: nat, late: nat -> nat)
    requires pulses != []
    ensures Follows(Burst(pulses, t0, late), pulses, t0)
  {
    hide Elapsed, Happens, Plan;
  }

  /** What the pulses shorter than a wake-up's lateness leave to catch up. */
  function Shortfall(pulses: seq<uint16>, bound: nat, k: nat): nat
    requires k <= |pulses|
  {
    if k == 0 then 0
    else Shortfall(pulses, bound, k - 1) + if pulses[k - 1] < bound then bound - pulses[k - 1] else 0
  }

  /** Lateness does not add up over the toggles: with no wake-up later than
      `bound`, each happens within `bound` of its due time, plus what the pulses
      shorter than that did not leave time for. */
  lemma {:induction false} NoDrift(pulses: seq<uint16>, t0: nat, late: nat -> nat, bound: nat, k: nat)
    requires k <= |pulses|
    requires forall i :: late(i) <= bound
    ensures t0 + Elapsed(pulses, k) <= Happens(pulses, t0, late, k)
    ensures Happens(pulses, t0, late, k) <= t0 + Elapsed(pulses, k) + bound + Shortfall(pulses, bound, k)
    decreases k
  {
    if k == 0 {
    } else {
      NoDrift(pulses, t0, late, bound, k - 1);
      assert late(k - 1) <= bound;
    }
  }

  /** With no pulse that short, the bound is one wake-up's lateness, however
      long the train; and one long pulse catches up with all that came before. */
  lemma {:induction false} NoShortfall(pulses: seq<uint16>, bound: nat, k: nat)
    requires k <= |pulses| && forall i :: 0 <= i < k ==> bound <= pulses[i]
    ensures Shortfall(pulses, bound, k) == 0
    decreases k
  {
    if k == 0 {
    } else {
      NoShortfall(pulses, bound, k - 1);
    }
  }

  lemma {:induction false} LongPulseCatchesUp(pulses: seq<uint16>, t0: nat, late: nat -> nat, k: nat)
    requires 0 < k <= |pulses|
    requires Happens(pulses, t0, late, k - 1) <= t0 + Elapsed(pulses, k - 1) + pulses[k - 1]
    ensures Happens(pulses, t0, late, k) == t0 + Elapsed(pulses, k) + late(k - 1)
  {
  }

  lemma {:induction false} PlanStart(pulses: seq<uint16>, t0: nat, late: nat -> nat)
    ensures Plan(pulses, t0, late, 0) == [] && Elapsed(pulses, 0) == 0 && Happens(pulses, t0, late, 0) == t0
  {
  }

  lemma {:induction false} PlanNext(pulses: seq<uint16>, t0: nat, late: nat -> nat, k: nat)
    requires k < |pulses|
    ensures Elapsed(pulses, k + 1) == Elapsed(pulses, k) + pulses[k]
    ensures Happens(pulses, t0, late, k + 1) == WaitUntil(Happens(pulses, t0, late, k), t0 + Elapsed(pulses, k + 1), late(k))
    ensures Plan(pulses, t0, late, k + 1) ==
            Plan(pulses, t0, late, k) + [Toggle(k % 2 == 0, t0 + Elapsed(pulses, k), Happens(pulses, t0, late, k))]
  {
    hide WaitUntil;
  }

  class Transmitter {
    var carrierOn: bool
    var carrierHz: uint32

    constructor ()
      ensures !carrierOn && carrierHz == IR_CARRIER_HZ
    {
      carrierOn, carrierHz := false, IR_CARRIER_HZ;
    }

    method Retune(m: IrMessage)
      modifies this`carrierHz
      ensures carrierHz == CarrierFor(m)
    {
      carrierHz := if m.carrierFreq >= 20000 && m.carrierFreq <= 60000 then m.carrierFreq else IR_CARRIER_HZ;
    }

    /** The pulses of one message, toggled and waited out in turn. */
    method PlayPulses(pulses: seq<uint16>, t0: nat, late: nat -> nat) returns (toggles: seq<Toggle>, next: nat, now: nat)
      modifies this`carrierOn
      ensures toggles == Plan(pulses, t0, late, |pulses|)
      ensures next == t0 + Elapsed(pulses, |pulses|) && now == Happens(pulses, t0, late, |pulses|)
    {
      hide Plan, Elapsed, Happens, WaitUntil;
      PlanStart(pulses, t0, late);
      toggles, next, now := [], t0, t0;
      for i := 0 to |pulses|
        invariant toggles == Plan(pulses, t0, late, i)
        invariant next == t0 + Elapsed(pulses, i) && now == Happens(pulses, t0, late, i)
      {
        PlanNext(pulses, t0, late, i);
        var isMark := i % 2 == 0;
        carrierOn := isMark;
        toggles := toggles + [Toggle(carrierOn, next, now)];
        next := next + pulses[i];
        now := WaitUntil(now, next, late(i));
      }
    }

    /** One message from the transmit queue. `t0` is the time read at the start
        and late(i) the lateness of the i-th wake-up; the toggles are recorded. */
    method Send(m: IrMessage, t0: nat, late: nat -> nat) returns (toggles: seq<Toggle>)
      modifies this
      ensures toggles == Burst(m.pulses, t0, late)
      ensures if m.pulses == [] then carrierOn == old(carrierOn) && carrierHz == old(carrierHz)
              else !carrierOn && carrierHz == CarrierFor(m)
    {
      hide CarrierFor, Plan, Elapsed, Happens;
      toggles := [];
      if |m.pulses| == 0 { return; }
      Retune(m);
      var next, now;
      toggles, next, now := PlayPulses(m.pulses, t0, late);
      carrierOn := false;
      toggles := toggles + [Toggle(carrierOn, next, now)];
    }
  }
}
