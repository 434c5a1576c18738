/** When an accepted apply gets its trial, and when the trial is dropped: over
    every run of a trial, whatever the link, the broker and the client do. */
module NetworkTrials {
  import opened Config
  import opened NetConfig
  import opened ConfigFlash
  import BleProvision
  import opened NetworkTask
  import opened NetworkSafety
  import opened NetworkStatus

  /** A further apply or a forget is signalled, collected or not. */
  predicate Pressed(n: Net) {
    BleProvision.Commit in n.events + n.pending || BleProvision.Forget in n.events + n.pending
  }

  /** The steps that collect signals during a trial: a turn of the join loop or
      of the wait for the broker that goes on, and the pause between attempts. */
  predicate WaitStep(n: Net, e: Event) {
    e.Task? &&
    match n.pc
    case Joining(_, until) => JoinStops(until, e.env) == None
    case Waiting(_, until) => e.env.broker != Accepted && AwaitFails(until, e.env) == None
    case Pause(_) => true
    case _ => false
  }

  /** A callback that signals an apply or a forget. */
  predicate Commands(n: Net, e: Event) {
    e.Client? && (BleProvision.IsForget(e.e) || (BleProvision.IsApply(e.e) && Valid(n.ble.staged)))
  }

  // ---- one step of a trial ----

  ghost predicate Held(n: Net, m: Net) {
    m.use == n.use && m.sector == n.sector && n.log <= m.log
  }

  ghost predicate Dropped(n: Net, m: Net) {
    && m.pc == Head && m.candidate == BLANK && Held(n, m)
    && (m.log == n.log + [GaveUp(true)] || m.log == n.log + [Tried(true, n.candidate, Aborted)] + [GaveUp(true)])
  }

  ghost predicate GoesOn(n: Net, m: Net) {
    && OnTrial(m.pc) && m.candidate == n.candidate && Held(n, m)
    && (m.log == n.log || exists o :: o != Aborted && m.log == n.log + [Tried(true, n.candidate, o)])
  }

  ghost predicate Ends(n: Net, m: Net) {
    && !OnTrial(m.pc) && m.candidate == BLANK
    && (|| (Held(n, m) && Exhausted(n.log) && m.log == n.log + [GaveUp(false)])
        || (m.use == Use(n.candidate, true, BleProvision.STORED) && exists ok :: m.log == n.log + [Committed(n.candidate, ok)]))
  }

  ghost predicate TrialStep(n: Net, e: Event, m: Net) {
    if WaitStep(n, e) && Pressed(n) then Dropped(n, m)
    else Ends(n, m) || (GoesOn(n, m) && (Pressed(m) <==> Pressed(n) || Commands(n, e)))
  }

  lemma {:induction false} JoinTrial(n: Net, env: Env)
    requires n.pc.Joining? && n.pc.p.Trial?
    ensures TrialStep(n, Task(env), Join(n, n.pc.p, n.pc.until, env))
  {
    hide Untouched, JoinStops, Ends, BLANK;
    var p, m := n.pc.p, Join(n, n.pc.p, n.pc.until, env);
    if JoinStops(n.pc.until, env) == None {
      if Interrupted(Merge(n)) { AbortDrops(n, Merge(n).(link := NO_LINK), p); } else { assert m == Merge(n); }
    } else if env.linkAfter != LinkUp {
      EndedGoesOn(n, n.(link := NO_LINK), p, WifiFailed, JoinStops(n.pc.until, env).value);
    }
  }

  lemma {:induction false} AbortDrops(n: Net, m: Net, p: Purpose)
    requires p.Trial? && m.use == n.use && m.sector == n.sector && m.log == n.log && m.candidate == n.candidate
    ensures Dropped(n, Ended(m, p, Aborted, 0))
  {
    hide Untouched, BLANK;
  }

  lemma {:induction false} EndedGoesOn(n: Net, m: Net, p: Purpose, o: Outcome, reason: BleProvision.int8)
    requires p.Trial? && m.use == n.use && m.sector == n.sector && m.log == n.log && m.candidate == n.candidate && o != Aborted
    requires m.events == n.events && m.pending == n.pending
    ensures GoesOn(n, Ended(m, p, o, reason)) && Pressed(Ended(m, p, o, reason)) == Pressed(n)
  {
    hide Untouched;
    assert Ended(m, p, o, reason).log == n.log + [Tried(true, n.candidate, o)];
  }

  lemma {:induction false} AwaitTrial(n: Net, env: Env)
    requires n.pc.Waiting? && n.pc.p.Trial?
    ensures TrialStep(n, Task(env), AwaitBroker(n, n.pc.p, n.pc.until, env))
  {
    hide Untouched, AwaitFails, Ends, BLANK;
    var p := n.pc.p;
    if env.broker == Accepted {
      EndedGoesOn(n, n, p, IsOnline, 0);
    } else if AwaitFails(n.pc.until, env) == None {
      if Interrupted(Merge(n)) { AbortDrops(n, Merge(n), p); } else { assert AwaitBroker(n, p, n.pc.until, env) == Merge(n); }
    } else {
      EndedGoesOn(n, n, p, MqttFailed, AwaitFails(n.pc.until, env).value);
    }
  }

  lemma {:induction false} BringUpTrial(n: Net, env: Env)
    requires InBringUp(n.pc) && PurposeOf(n.pc).value.Trial?
    ensures TrialStep(n, Task(env), BringUpStep(n, env))
  {
    hide Untouched, JoinedTo, Report, SourceOf, AttemptOf, Join, AwaitBroker, Ended, Ends, BLANK;
    if n.pc.Joining? { JoinTrial(n, env); }
    else if n.pc.Waiting? { AwaitTrial(n, env); }
    else if n.pc.TellWifi? && !env.wifiAsks {
      var b := Report(n.ble, BleProvision.WIFI_CONNECTING, 0, SourceOf(n, n.pc.p), AttemptOf(n, n.pc.p), BleProvision.NO_IP);
      var m := n.(ble := b, link := NO_LINK, air := n.air + [Asked(NetworkOf(Settings(n, n.pc.p)))]);
      EndedGoesOn(n, m, n.pc.p, WifiFailed, 3);
    } else if n.pc.Connecting? && !env.mqttAsks {
      EndedGoesOn(n, n, n.pc.p, MqttFailed, 3);
    }
  }

  lemma {:induction false} FailureTrial(n: Net, env: Env)
    requires InFailure(n.pc) && OnTrial(n.pc) && TriesOk(n.pc, n.log)
    ensures TrialStep(n, Task(env), FailureStep(n))
  {
    hide Untouched, Report, LastTry, FailState, SourceOf, AttemptOf, Exhausted, BLANK, TrialCount;
  }

  lemma {:induction false} SavingTrial(n: Net, env: Env)
    requires n.pc == Saving && n.sector.Shaped()
    ensures TrialStep(n, Task(env), ServiceStep(n, env))
  {
    hide Untouched, SaveTo, BLANK, GoesOn;
    var ok := SaveTo(n.sector, n.candidate, env.luck).0;
    assert ServiceStep(n, env).log == n.log + [Committed(n.candidate, ok)];
  }

  lemma {:induction false} CallbackTrial(n: Net, c: BleProvision.Event)
    requires Inv(n) && OnTrial(n.pc)
    ensures n.sector.Shaped() && BleProvision.Inv(n.ble) && TrialStep(n, Client(c), Step(n, Client(c)))
  {
    hide Inv, BleProvision.Inv, BleProvision.Step, Validate, Ends;
    ShapedAndSound(n);
    BleProvision.InvShape(n.ble);
    BleProvision.OnlyForgetAsks(n.ble, c);
    BleProvision.OnlyApplyHandsOver(n.ble, c);
  }

  lemma {:induction false} OneStep(n: Net, e: Event)
    requires Inv(n) && OnTrial(n.pc) && !e.Reboot?
    ensures n.sector.Shaped() && BleProvision.Inv(n.ble) && TrialStep(n, e, Step(n, e))
  {
    hide Inv, BleProvision.Inv, BleProvision.Step, TrialStep, BringUpStep, FailureStep, ServiceStep, StartUpStep;
    ShapedAndSound(n);
    match e
    case Client(c) => CallbackTrial(n, c);
    case Task(env) =>
      if InBringUp(n.pc) { BringUpTrial(n, env); }
      else if InFailure(n.pc) { TrialCounts(n); FailureTrial(n, env); }
      else { SavingTrial(n, env); }
  }

  lemma {:induction false} TrialCounts(n: Net)
    requires Inv(n)
    ensures TriesOk(n.pc, n.log)
  {
    hide BleProvision.Inv, TriesOk;
  }

  // ---- a whole trial ----

  /** A run of a trial: every step of it begins on trial, without power loss. */
  ghost predicate StaysOn(n: Net, es: seq<Event>)
    requires Inv(n)
    decreases |es|
  {
    if es == [] then true
    else
      StepKeeps(n, es[0]);
      OnTrial(n.pc) && !es[0].Reboot? && StaysOn(Step(n, es[0]), es[1..])
  }

  /** Some step of the run collects signals. */
  ghost predicate Waits(n: Net, es: seq<Event>)
    requires Inv(n)
    decreases |es|
  {
    if es == [] then false
    else
      StepKeeps(n, es[0]);
      WaitStep(n, es[0]) || Waits(Step(n, es[0]), es[1..])
  }

  /** Some step of the run collects an apply or a forget. */
  ghost predicate Collects(n: Net, es: seq<Event>)
    requires Inv(n)
    decreases |es|
  {
    if es == [] then false
    else
      StepKeeps(n, es[0]);
      (WaitStep(n, es[0]) && Pressed(n)) || Collects(Step(n, es[0]), es[1..])
  }

  /** Some step of the run is an apply or a forget the hub accepts. */
  ghost predicate Commanded(n: Net, es: seq<Event>)
    requires Inv(n)
    decreases |es|
  {
    if es == [] then false
    else
      StepKeeps(n, es[0]);
      Commands(n, es[0]) || Commanded(Step(n, es[0]), es[1..])
  }

  /** How a trial of n's candidate stands at m. */
  ghost predicate Stands(n: Net, collects: bool, m: Net) {
    if OnTrial(m.pc) then !collects && m.candidate == n.candidate && Held(n, m)
    else
      && m.candidate == BLANK && n.log <= m.log && m.log != []
      && match m.log[|m.log| - 1]
         case Committed(c, _) => !collects && c == n.candidate && m.use == Use(c, true, BleProvision.STORED)
         case GaveUp(interrupted) =>
           Held(n, m) && (interrupted <==> collects) && (!interrupted ==> Exhausted(m.log[..|m.log| - 1]))
         case _ => false
  }

  /** An attempt that was cut short. */
  ghost predicate CutShort(x: Entry) {
    x.Tried? && x.o == Aborted
  }

  /** A trial ends by a commit of its own candidate, by giving up with no attempt
      left, or by being dropped; it is dropped exactly if one of its waiting
      steps found a further apply or a forget signalled, and only then is one of
      its attempts cut short. Dropped or out of attempts, settings in use and
      flash are as before. */
  lemma {:induction false} TrialOutcome(n: Net, es: seq<Event>)
    requires Inv(n) && OnTrial(n.pc) && StaysOn(n, es)
    ensures var m := Run(n, es);
            && Stands(n, Collects(n, es), m)
            && (forall k {:trigger m.log[k]} :: |n.log| <= k < |m.log| && CutShort(m.log[k]) ==> Collects(n, es))
    decreases |es|
  {
    hide Inv, Step, Run, Stands, TrialStep, Pressed, WaitStep, CutShort;
    RunStarts(n, es);
    if es == [] {
      StillOn(n);
    } else {
      OneStep(n, es[0]);
      var m := Step(n, es[0]);
      if OnTrial(m.pc) {
        TrialOutcome(m, es[1..]);
        GoneOn(n, es[0], m);
        StandsBefore(n, m, Collects(m, es[1..]), Run(m, es[1..]));
      } else {
        assert es[1..] == [];
        RunStarts(m, []);
        StandsAfter(n, es[0], m);
      }
    }
  }

  lemma {:induction false} StillOn(n: Net)
    requires OnTrial(n.pc)
    ensures Stands(n, false, n)
  {
  }

  lemma {:induction false} GoneOn(n: Net, e: Event, m: Net)
    requires TrialStep(n, e, m) && OnTrial(m.pc)
    ensures !(WaitStep(n, e) && Pressed(n)) && m.candidate == n.candidate && Held(n, m)
    ensures forall k {:trigger m.log[k]} :: |n.log| <= k < |m.log| ==> !CutShort(m.log[k])
  {
    hide Pressed, WaitStep, Commands, BLANK;
  }

  lemma {:induction false} StandsBefore(n: Net, m: Net, collects: bool, r: Net)
    requires Stands(m, collects, r) && m.candidate == n.candidate && Held(n, m)
    ensures Stands(n, collects, r) && m.log <= r.log
  {
    hide BLANK, Exhausted;
  }

  lemma {:induction false} StandsAfter(n: Net, e: Event, m: Net)
    requires TrialStep(n, e, m) && !OnTrial(m.pc)
    ensures Stands(n, WaitStep(n, e) && Pressed(n), m)
    ensures forall k {:trigger m.log[k]} :: |n.log| <= k < |m.log| && CutShort(m.log[k]) ==> WaitStep(n, e) && Pressed(n)
  {
    hide Pressed, WaitStep, Commands, BLANK, Exhausted;
    if !(WaitStep(n, e) && Pressed(n)) { assert m.log != [] && m.log[..|m.log| - 1] == n.log; }
  }

  /** With an apply or a forget signalled when it begins, a trial is dropped at
      its first waiting step: it is carried through exactly if no step of it
      waits. */
  lemma {:induction false} PressedTrial(n: Net, es: seq<Event>)
    requires Inv(n) && OnTrial(n.pc) && StaysOn(n, es) && Pressed(n)
    ensures Collects(n, es) <==> Waits(n, es)
    decreases |es|
  {
    hide Inv, Step, TrialStep, Pressed, WaitStep;
    if es == [] {
    } else {
      OneStep(n, es[0]);
      var m := Step(n, es[0]);
      StepKeeps(n, es[0]);
      if OnTrial(m.pc) {
        StaysPressed(n, es[0], m);
        PressedTrial(m, es[1..]);
      } else {
        assert es[1..] == [];
      }
    }
  }

  lemma {:induction false} StaysPressed(n: Net, e: Event, m: Net)
    requires TrialStep(n, e, m) && OnTrial(m.pc)
    ensures Pressed(m) <==> Pressed(n) || Commands(n, e)
  {
    hide WaitStep, Commands, BLANK, Exhausted;
  }

  /** Without one when it begins and none accepted while it lasts, no trial is
      ever dropped. */
  lemma {:induction false} QuietTrial(n: Net, es: seq<Event>)
    requires Inv(n) && OnTrial(n.pc) && StaysOn(n, es) && !Pressed(n) && !Commanded(n, es)
    ensures !Collects(n, es)
    decreases |es|
  {
    hide Inv, Step, TrialStep, Pressed, WaitStep, Commands;
    if es == [] {
    } else {
      OneStep(n, es[0]);
      var m := Step(n, es[0]);
      StepKeeps(n, es[0]);
      if OnTrial(m.pc) {
        StaysPressed(n, es[0], m);
        QuietTrial(m, es[1..]);
      } else {
        assert es[1..] == [];
      }
    }
  }

  // ---- the second apply ----

  /** One of the callbacks is an apply or a forget the hub accepts. */
  ghost predicate AnyCommand(b: BleProvision.Ble, es: seq<BleProvision.Event>)
    requires BleProvision.Inv(b)
    decreases |es|
  {
    if es == [] then false
    else
      BleProvision.StepKeepsInv(b, es[0]);
      BleProvision.InvShape(b);
      || BleProvision.IsForget(es[0]) || (BleProvision.IsApply(es[0]) && Valid(b.staged))
      || AnyCommand(BleProvision.Step(b, es[0]).0, es[1..])
  }

  lemma {:induction false} CallbacksPress(n: Net, es: seq<BleProvision.Event>)
    requires Inv(n)
    ensures BleProvision.Inv(n.ble)
    ensures var m := Run(n, Callbacks(es));
            Pressed(m) <==> Pressed(n) || AnyCommand(n.ble, es)
    decreases |es|
  {
    hide Inv, TaskStep, Boot, BleProvision.Step, BleProvision.Inv, Run, Validate;
    ShapedAndSound(n);
    RunStarts(n, Callbacks(es));
    if es == [] {
    } else {
      assert Callbacks(es)[1..] == Callbacks(es[1..]);
      BleProvision.InvShape(n.ble);
      BleProvision.OnlyForgetAsks(n.ble, es[0]);
      BleProvision.OnlyApplyHandsOver(n.ble, es[0]);
      CallbacksPress(Step(n, Client(es[0])), es[1..]);
    }
  }

  /** From the loop head, where an apply is about to be taken up: with whatever
      callbacks before the candidate is taken, the trial that begins has an apply
      or a forget signalled exactly if one came after the signals were last
      collected or one of these callbacks is one. A second apply is such a one,
      though it is its own settings that are on trial. */
  lemma {:induction false} TakenPressed(n: Net, env: Env, es: seq<BleProvision.Event>, env': Env)
    requires Inv(n) && n.pc == Head && BleProvision.Commit in n.events && BleProvision.Forget !in n.events
    ensures BleProvision.Inv(n.ble)
    ensures var m := Run(n, [Task(env)] + Callbacks(es) + [Task(env')]);
            var b := BleProvision.Run(n.ble, es);
            && OnTrial(m.pc) == b.handoffValid
            && (b.handoffValid ==>
                  && m.pc == Check(Trial(1, 0, 0)) && m.candidate == b.handoff && m.log == n.log + [Took(b.handoff)]
                  && (Pressed(m) <==>
                        BleProvision.Commit in n.pending || BleProvision.Forget in n.pending || AnyCommand(n.ble, es)))
  {
    hide Inv, Run, TaskStep, BleProvision.Run, BleProvision.Inv, Callbacks, Pressed, AnyCommand;
    ShapedAndSound(n);
    RunAppend(n, [Task(env)], Callbacks(es));
    RunAppend(n, [Task(env)] + Callbacks(es), [Task(env')]);
    TaskRun(n, env);
    HeadTakesUp(n, env);
    var a := TaskStep(n, env);
    CallbacksRun(a, es);
    CallbacksPress(a, es);
    var c := Run(a, Callbacks(es));
    TaskRun(c, env');
    TakesUp(c, env');
  }

  lemma {:induction false} HeadTakesUp(n: Net, env: Env)
    requires n.sector.Shaped() && n.pc == Head && BleProvision.Commit in n.events && BleProvision.Forget !in n.events
    ensures var m := TaskStep(n, env);
            && m.pc == Taking && m.ble == n.ble && m.log == n.log
            && (Pressed(m) <==> BleProvision.Commit in n.pending || BleProvision.Forget in n.pending)
  {
    hide Untouched;
  }

  lemma {:induction false} TakesUp(n: Net, env: Env)
    requires n.sector.Shaped() && n.pc == Taking
    ensures var m := TaskStep(n, env);
            && Pressed(m) == Pressed(n) && m.log == n.log + [if n.ble.handoffValid then Took(n.ble.handoff) else NothingTaken]
            && if n.ble.handoffValid then m.pc == Check(Trial(1, 0, 0)) && m.candidate == n.ble.handoff else m.pc == Head
  {
    hide Untouched;
  }

  /** The task alone, a number of steps in the same environment. */
  function Turns(env: Env, k: nat): (es: seq<Event>)
    ensures |es| == k && (k > 0 ==> es[0] == Task(env) && es[1..] == Turns(env, k - 1))
  {
    if k == 0 then [] else [Task(env)] + Turns(env, k - 1)
  }

  lemma {:induction false} OneTurn(n: Net, env: Env, k: nat)
    requires Inv(n) && k > 0
    ensures n.sector.Shaped() && Inv(TaskStep(n, env)) && Run(n, Turns(env, k)) == Run(TaskStep(n, env), Turns(env, k - 1))
  {
    hide Inv, Run, TaskStep, BleProvision.Inv;
    RunStarts(n, Turns(env, k));
  }

  /** Nothing can be heard of the network, and the radio takes requests. */
  predicate Silent(env: Env) {
    env.link == LinkNoIp && env.wifiAsks
  }

  lemma {:induction false} SilentCheck(n: Net, p: Purpose, env: Env)
    requires n.pc == Check(p) && Silent(env)
    ensures BringUpStep(n, env) == n.(pc := TellWifi(p))
  {
    hide Untouched, SameText;
  }

  lemma {:induction false} SilentAsk(n: Net, p: Purpose, env: Env)
    requires n.pc == TellWifi(p) && Silent(env)
    ensures var m := BringUpStep(n, env);
            && m.pc == Joining(p, env.now + WIFI_JOIN_TIMEOUT_MS) && m.events == n.events && m.pending == n.pending
            && m.candidate == n.candidate && m.log == n.log && m.ble.handoffValid == n.ble.handoffValid
  {
    hide Untouched, SourceOf, AttemptOf, Ended, BleProvision.Encode;
  }

  lemma {:induction false} SilentJoin(n: Net, p: Purpose, env: Env)
    requires n.pc == Joining(p, env.now + WIFI_JOIN_TIMEOUT_MS) && p.Trial? && Silent(env)
    requires n.events == {} && n.pending == {BleProvision.Commit}
    ensures var m := BringUpStep(n, env);
            && m.pc == Head && m.log == n.log + [Tried(true, n.candidate, Aborted)] + [GaveUp(true)]
            && m.events == {BleProvision.Commit} && m.pending == {} && m.ble == n.ble
  {
    hide Untouched, BLANK;
  }

  lemma {:induction false} SilentTurn(n: Net, env: Env)
    requires Inv(n) && InBringUp(n.pc)
    ensures n.sector.Shaped() && TaskStep(n, env) == BringUpStep(n, env)
  {
    hide Inv, BringUpStep, FailureStep, ServiceStep, StartUpStep;
    ShapedAndSound(n);
  }

  lemma {:induction false} SilentTrial(n: Net, env: Env, k: nat) returns (m: Net)
    requires Inv(n) && n.pc == Check(Trial(1, 0, 0)) && Silent(env)
    requires n.events == {} && n.pending == {BleProvision.Commit} && k >= 3
    ensures Inv(m) && Run(n, Turns(env, k)) == Run(m, Turns(env, k - 3))
    ensures m.pc == Head && m.log == n.log + [Tried(true, n.candidate, Aborted)] + [GaveUp(true)]
    ensures m.events == {BleProvision.Commit} && m.pending == {} && m.ble.handoffValid == n.ble.handoffValid
  {
    hide Inv, Run, TaskStep, BringUpStep, Turns, BLANK, Silent;
    var p := Trial(1, 0, 0);
    OneTurn(n, env, k);
    SilentTurn(n, env);
    SilentCheck(n, p, env);
    var a := TaskStep(n, env);
    OneTurn(a, env, k - 1);
    SilentTurn(a, env);
    SilentAsk(a, p, env);
    var b := TaskStep(a, env);
    OneTurn(b, env, k - 2);
    SilentTurn(b, env);
    SilentJoin(b, p, env);
    m := TaskStep(b, env);
  }

  /** A second apply before the first is taken up loses both: the task takes the
      second one's settings, drops them at the first turn of the join loop for the
      second one's event, and then finds nothing handed over. */
  lemma {:induction false} SecondApplyIsLost(n: Net, env: Env)
    requires Inv(n) && n.pc == Head && n.ble.handoffValid && Silent(env)
    requires n.events == {BleProvision.Commit} && n.pending == {BleProvision.Commit}
    ensures var m := Run(n, Turns(env, 7));
            && m.pc == Head && m.candidate == BLANK && !m.ble.handoffValid && !Pressed(m)
            && m.log == n.log + [Took(n.ble.handoff)] + [Tried(true, n.ble.handoff, Aborted)] + [GaveUp(true)] + [NothingTaken]
  {
    hide Inv, Run, Turns, BLANK, Silent, Pressed;
    var a := TakeUp(n, env, 7);
    var b := SilentTrial(a, env, 5);
    var c := TakeUp(b, env, 2);
    RunStarts(c, Turns(env, 0));
    NoCandidateLeft(c);
    NothingPressed(c);
  }

  lemma {:induction false} NothingPressed(n: Net)
    ensures n.events == {} && n.pending == {} ==> !Pressed(n)
  {
  }

  lemma {:induction false} TakeUp(n: Net, env: Env, k: nat) returns (m: Net)
    requires Inv(n) && n.pc == Head && n.events == {BleProvision.Commit} && k >= 2
    ensures Inv(m) && Run(n, Turns(env, k)) == Run(m, Turns(env, k - 2))
    ensures m.events == {} && m.pending == n.pending && !m.ble.handoffValid
    ensures if n.ble.handoffValid then
              m.pc == Check(Trial(1, 0, 0)) && m.candidate == n.ble.handoff && m.log == n.log + [Took(n.ble.handoff)]
            else m.pc == Head && m.log == n.log + [NothingTaken]
  {
    hide Inv, Run, TaskStep, Turns;
    OneTurn(n, env, k);
    TwoTurns(n, env);
    OneTurn(TaskStep(n, env), env, k - 1);
    m := TaskStep(TaskStep(n, env), env);
  }

  lemma {:induction false} NoCandidateLeft(n: Net)
    requires Inv(n) && n.pc == Head
    ensures n.candidate == BLANK
  {
    hide BleProvision.Inv, LogOk, UseOk, FlashOk, TriesOk, Reachable, HandoffOk, BLANK;
  }

  /** From the head to taking, and on. */
  lemma {:induction false} TwoTurns(n: Net, env: Env)
    requires n.sector.Shaped() && n.pc == Head && n.events == {BleProvision.Commit}
    ensures TaskStep(n, env).sector.Shaped()
    ensures var m := TaskStep(TaskStep(n, env), env);
            && m.events == {} && m.pending == n.pending && !m.ble.handoffValid
            && if n.ble.handoffValid then
                 m.pc == Check(Trial(1, 0, 0)) && m.candidate == n.ble.handoff && m.log == n.log + [Took(n.ble.handoff)]
               else m.pc == Head && m.log == n.log + [NothingTaken]
  {
    hide Untouched;
  }
}
