/** What the hub gets round to: a command is taken up after a bounded number of
    steps, and BLE goes off only when it may. */
module NetworkProgress {
  import opened Config
  import opened NetConfig
  import opened ConfigFlash
  import NotifyQueue
  import BleProvision
  import opened NetworkTask
  import opened NetworkSafety
  import opened NetworkTrials

  // ---- commands are heard ----

  /** An apply is being taken up, or a forget carried out. */
  predicate TakesUp(pc: Pc) {
    pc.Taking? || pc.Forgetting?
  }

  /** How many steps the task may still make before it takes up what is signalled:
      a stretch with the settings in use ends at the loop head with the signal
      collected, any other may come back to the head without. */
  function StepsLeft(n: Net): nat {
    match n.pc
    case Head => if Interrupted(n) then 1 else 11
    case Sleep => 2
    case Load(_) => 15
    case Advertise(_) => 14
    case Announce(_) => 13
    case Refresh => 12
    case Check(p) => if p.Steady? then 10 else 21
    case TellWifi(p) => if p.Steady? then 9 else 20
    case Joining(p, _) => if p.Steady? then 8 else 19
    case TellMqtt(p) => if p.Steady? then 7 else 18
    case Connecting(p) => if p.Steady? then 6 else 17
    case Waiting(p, _) => if p.Steady? then 5 else 16
    case TellFailed(p, _, _) => if p.Steady? then 4 else 14
    case Fallback => 3
    case Pause(_) => 2
    case Reverting => 13
    case TellBlank => 12
    case Saving => 15
    case TellSaved(_) => 14
    case TellOnline => 4
    case Online(s) => if s.trial then 13 else 3
    case Serving(s) => if s.trial then 16 else 6
    case Stopping(s) => if s.trial then 15 else 5
    case Linking(s) => if s.trial then 14 else 4
    case Leaving(s) => if s.trial then 12 else 2
    case _ => 0
  }

  ghost predicate Closer(n: Net, m: Net) {
    TakesUp(m.pc) || (Pressed(m) && StepsLeft(m) < StepsLeft(n))
  }

  lemma {:induction false} JoinCloser(n: Net, p: Purpose, until: nat, env: Env)
    requires Pressed(n) && n.pc == Joining(p, until)
    ensures Closer(n, Join(n, p, until, env))
  {
    hide Untouched, Kept, JoinStops, Settings, NetworkOf, BLANK;
  }

  lemma {:induction false} AwaitCloser(n: Net, p: Purpose, until: nat, env: Env)
    requires Pressed(n) && n.pc == Waiting(p, until)
    ensures Closer(n, AwaitBroker(n, p, until, env))
  {
    hide Untouched, Kept, AwaitFails, Settings, BLANK;
  }

  lemma {:induction false} BringUpCloser(n: Net, env: Env)
    requires Pressed(n) && InBringUp(n.pc)
    ensures Closer(n, BringUpStep(n, env))
  {
    hide Untouched, Kept, Join, AwaitBroker, JoinedTo, Report, Settings, NetworkOf, SourceOf, AttemptOf, BLANK, Closer;
    match n.pc
    case Joining(p, until) => JoinCloser(n, p, until, env);
    case Waiting(p, until) => AwaitCloser(n, p, until, env);
    case TellWifi(p) => AskCloser(n, p, env);
    case _ => ShortCloser(n, env);
  }

  lemma {:induction false} AskCloser(n: Net, p: Purpose, env: Env)
    requires Pressed(n) && n.pc == TellWifi(p)
    ensures Closer(n, BringUpStep(n, env))
  {
    hide Untouched, Kept, Report, Settings, NetworkOf, SourceOf, AttemptOf, BLANK;
  }

  lemma {:induction false} ShortCloser(n: Net, env: Env)
    requires Pressed(n) && (n.pc.Check? || n.pc.TellMqtt? || n.pc.Connecting?)
    ensures Closer(n, BringUpStep(n, env))
  {
    hide Untouched, Kept, Join, AwaitBroker, JoinedTo, Report, Settings, NetworkOf, SourceOf, AttemptOf, BLANK;
  }

  lemma {:induction false} FailureCloser(n: Net)
    requires Pressed(n) && InFailure(n.pc) && (n.pc.TellFailed? ==> n.pc.o != IsOnline)
    ensures Closer(n, FailureStep(n))
  {
    hide Untouched, Kept, Report, StartBle, LastTry, MoreFails, TooMany, FailState, SourceOf, AttemptOf, BLANK;
  }

  lemma {:induction false} ServiceCloser(n: Net, env: Env)
    requires Pressed(n) && InService(n.pc) && n.sector.Shaped()
    ensures Closer(n, ServiceStep(n, env))
  {
    hide Untouched, Kept, Report, SaveTo, RadioDone, BleProvision.Stop, BLANK;
  }

  lemma {:induction false} StartUpCloser(n: Net, luck: Luck)
    requires Pressed(n) && !InBringUp(n.pc) && !InFailure(n.pc) && !InService(n.pc) && n.sector.Shaped() && !TakesUp(n.pc)
    ensures Closer(n, StartUpStep(n, luck))
  {
    hide Untouched, Kept, Report, StartBle, LoadFrom, Found, BLANK;
  }

  lemma {:induction false} TaskCloser(n: Net, env: Env)
    requires Inv(n) && Pressed(n) && !TakesUp(n.pc)
    ensures n.sector.Shaped() && Closer(n, TaskStep(n, env))
  {
    hide Inv, Pressed, Closer, BringUpStep, FailureStep, ServiceStep, StartUpStep;
    ShapedAndSound(n);
    if InBringUp(n.pc) { BringUpCloser(n, env); }
    else if InFailure(n.pc) { TrialCounts(n); FailureCloser(n); }
    else if InService(n.pc) { ServiceCloser(n, env); }
    else { StartUpCloser(n, env.luck); }
  }

  lemma {:induction false} StaysSignalled(n: Net, m: Net)
    requires Pressed(n) && m.pc == n.pc && m.events == n.events && n.pending <= m.pending
    ensures Pressed(m) && StepsLeft(m) == StepsLeft(n)
  {
  }

  function Turns(es: seq<Event>): nat {
    if es == [] then 0 else Turns(es[1..]) + if es[0].Task? then 1 else 0
  }

  /** Along this run the task comes to take up an apply or a forget. */
  ghost predicate ComesUp(n: Net, es: seq<Event>)
    requires Inv(n)
    decreases |es|
  {
    TakesUp(n.pc) ||
    (es != [] &&
     (StepKeeps(n, es[0]);
      ComesUp(Step(n, es[0]), es[1..])))
  }

  lemma {:induction false} SoonerOrLater(n: Net, es: seq<Event>)
    requires Inv(n) && Pressed(n) && (forall i :: 0 <= i < |es| ==> !es[i].Reboot?) && Turns(es) >= StepsLeft(n)
    ensures ComesUp(n, es)
    decreases |es|
  {
    hide Inv, Pressed, StepsLeft, TakesUp, Step;
    if TakesUp(n.pc) {
    } else if es == [] {
      NothingLeft(n);
    } else {
      StepKeeps(n, es[0]);
      OneCloser(n, es[0]);
      if TakesUp(Step(n, es[0]).pc) {
      } else {
        SoonerOrLater(Step(n, es[0]), es[1..]);
      }
    }
  }

  lemma {:induction false} NothingLeft(n: Net)
    requires StepsLeft(n) == 0
    ensures TakesUp(n.pc)
  {
  }

  lemma {:induction false} OneCloser(n: Net, e: Event)
    requires Inv(n) && Pressed(n) && !TakesUp(n.pc) && !e.Reboot?
    ensures n.sector.Shaped() && BleProvision.Inv(n.ble)
    ensures TakesUp(Step(n, e).pc) ||
            (Pressed(Step(n, e)) && StepsLeft(Step(n, e)) <= StepsLeft(n) - if e.Task? then 1 else 0)
  {
    hide Inv, Pressed, StepsLeft, TakesUp, TaskStep, BleProvision.Step, BleProvision.Inv;
    ShapedAndSound(n);
    match e
    case Task(env) => TaskCloser(n, env);
    case Client(c) => StaysSignalled(n, Step(n, e));
  }

  lemma {:induction false} AtMost(n: Net)
    ensures StepsLeft(n) <= 21
  {
  }

  /** Whatever the link, the broker and the client do, an apply or a forget that
      is signalled is taken up within 21 steps of the task: every wait gives way to
      it, an online session ends for it, and no signal is lost. */
  lemma {:induction false} CommandsAreHeard(n: Net, es: seq<Event>)
    requires Inv(n) && Pressed(n) && (forall i :: 0 <= i < |es| ==> !es[i].Reboot?) && Turns(es) >= 21
    ensures ComesUp(n, es)
  {
    AtMost(n);
    SoonerOrLater(n, es);
    hide ComesUp, Inv, Pressed;
  }

  /** At the loop head a forget goes before an apply, which stays signalled for
      afterwards. */
  lemma {:induction false} ForgetGoesFirst(n: Net, env: Env)
    requires n.sector.Shaped() && n.pc == Head
    ensures var m := TaskStep(n, env);
            && (m.pc == Forgetting <==> BleProvision.Forget in n.events)
            && (m.pc == Taking <==> BleProvision.Forget !in n.events && BleProvision.Commit in n.events)
            && (m.pc == Forgetting ==> (BleProvision.Commit in m.events <==> BleProvision.Commit in n.events))
  {
    hide Untouched, Kept;
  }

  // ---- BLE goes off only when it may ----

  /** What one round of a session decides: BLE goes off if its client has left, if
      there has been none for 20 seconds online, or after five minutes. */
  lemma {:induction false} BleGoesOff(n: Net, s: Session, env: Env)
    requires n.sector.Shaped() && n.pc == Serving(s) && n.ble.active
    ensures TaskStep(n, env).pc == Stopping(s) <==>
              || BleProvision.ClientLeft in n.events
              || (env.now - s.since >= 20000 && !n.ble.connected)
              || env.now - s.since >= 300000
  {
    hide Untouched, Kept;
  }

  /** BLE is on, nobody has left, and a session that runs began no earlier. */
  ghost predicate StaysOn(n: Net, start: nat, client: bool) {
    && n.ble.active && (client ==> n.ble.connected)
    && BleProvision.ClientLeft !in n.events && BleProvision.ClientLeft !in n.pending
    && !n.pc.Stopping? && (SessionOf(n.pc).Some? ==> SessionOf(n.pc).value.since >= start)
  }

  /** Nobody leaves, power stays, and the clock stays within a limit: five minutes
      with a client, 20 seconds in any case. */
  ghost predicate Within(e: Event, start: nat, client: bool) {
    match e
    case Task(env) => start <= env.now < start + if client then 300000 else 20000
    case Client(c) => !c.Disconnect?
    case Reboot => false
  }

  lemma {:induction false} ReportOn(
      b: BleProvision.Ble, state: uint8, reason: BleProvision.int8, source: uint8, attempt: nat, ip: BleProvision.Ip)
    ensures Report(b, state, reason, source, attempt, ip).active == b.active
    ensures Report(b, state, reason, source, attempt, ip).connected == b.connected
  {
    hide NotifyQueue.Push, BleProvision.Encode;
  }

  lemma {:induction false} BringUpOn(n: Net, env: Env, start: nat, client: bool)
    requires StaysOn(n, start, client) && InBringUp(n.pc)
    ensures StaysOn(BringUpStep(n, env), start, client)
  {
    hide Untouched, Kept, JoinedTo, JoinStops, AwaitFails, Settings, NetworkOf, SourceOf, AttemptOf, BLANK, Report;
    if n.pc.TellWifi? || n.pc.TellMqtt? {
      ReportOn(n.ble, BleProvision.WIFI_CONNECTING, 0, SourceOf(n, n.pc.p), AttemptOf(n, n.pc.p), BleProvision.NO_IP);
      ReportOn(n.ble, BleProvision.MQTT_CONNECTING, 0, SourceOf(n, n.pc.p), AttemptOf(n, n.pc.p), BleProvision.NO_IP);
    }
  }

  lemma {:induction false} FailureOn(n: Net, start: nat, client: bool)
    requires StaysOn(n, start, client) && InFailure(n.pc)
    ensures StaysOn(FailureStep(n), start, client)
  {
    hide Untouched, Kept, LastTry, Counted, MoreFails, TooMany, FailState, SourceOf, AttemptOf, BLANK, Report;
    if n.pc.TellFailed? {
      ReportOn(n.ble, FailState(n.pc.o), n.pc.reason, SourceOf(n, n.pc.p), AttemptOf(n, n.pc.p), BleProvision.NO_IP);
    }
    ReportOn(n.ble, BleProvision.REVERTED, 0, n.use.source, 0, BleProvision.NO_IP);
    ReportOn(n.ble, BleProvision.UNPROVISIONED, 0, BleProvision.STORED, 0, BleProvision.NO_IP);
  }

  lemma {:induction false} ServiceOn(n: Net, env: Env, start: nat, client: bool)
    requires StaysOn(n, start, client) && InService(n.pc) && n.sector.Shaped() && Within(Task(env), start, client)
    ensures StaysOn(ServiceStep(n, env), start, client)
  {
    hide Untouched, Kept, SaveTo, BLANK, Report;
    ReportOn(n.ble, BleProvision.ONLINE, 0, BleProvision.STORED, 0, env.ip);
    ReportOn(n.ble, BleProvision.ONLINE, 0, n.use.source, 0, env.ip);
    ReportOn(n.ble, BleProvision.SAVE_FAILED, 0, BleProvision.CANDIDATE, 0, BleProvision.NO_IP);
  }

  lemma {:induction false} StartUpOn(n: Net, luck: Luck, start: nat, client: bool)
    requires StaysOn(n, start, client) && n.sector.Shaped()
    requires !InBringUp(n.pc) && !InFailure(n.pc) && !InService(n.pc)
    ensures StaysOn(StartUpStep(n, luck), start, client)
  {
    hide Untouched, Kept, LoadFrom, EraseAll, Found, BLANK, Report;
    ReportOn(n.ble, BleProvision.UNPROVISIONED, 0, BleProvision.STORED, 0, BleProvision.NO_IP);
  }

  lemma {:induction false} CallbackOn(b: BleProvision.Ble, c: BleProvision.Event)
    requires BleProvision.Inv(b) && !c.Disconnect?
    ensures |b.prep.cells| == BleProvision.PREP_CELLS && b.prep.len <= BleProvision.PREP_CELLS
    ensures var (d, _, bits) := BleProvision.Step(b, c);
            d.active == b.active && (b.connected ==> d.connected) && BleProvision.ClientLeft !in bits
  {
    hide BleProvision.Inv, Validate, BleProvision.SetField, BleProvision.PrepareStep, BleProvision.Encode,
         BleProvision.Decode, NotifyQueue.Push, NotifyQueue.Send, BleProvision.Reset;
    BleProvision.InvShape(b);
  }

  lemma {:induction false} StepOn(n: Net, e: Event, start: nat, client: bool)
    requires Inv(n) && StaysOn(n, start, client) && Within(e, start, client)
    ensures n.sector.Shaped() && BleProvision.Inv(n.ble) && StaysOn(Step(n, e), start, client)
  {
    hide Inv, BleProvision.Inv, BleProvision.Step, BringUpStep, FailureStep, ServiceStep, StartUpStep;
    ShapedAndSound(n);
    match e
    case Task(env) =>
      if InBringUp(n.pc) { BringUpOn(n, env, start, client); }
      else if InFailure(n.pc) { FailureOn(n, start, client); }
      else if InService(n.pc) { ServiceOn(n, env, start, client); }
      else { StartUpOn(n, env.luck, start, client); }
    case Client(c) => CallbackOn(n.ble, c);
  }

  /** BLE once on stays on: for five minutes with a client that stays connected,
      and for 20 seconds in any case, through trials and sessions alike. */
  lemma {:induction false} ClientKeepsBle(n: Net, es: seq<Event>, start: nat, client: bool)
    requires Inv(n) && StaysOn(n, start, client) && forall i :: 0 <= i < |es| ==> Within(es[i], start, client)
    ensures StaysOn(Run(n, es), start, client)
    decreases |es|
  {
    hide Inv, StaysOn, Within, Step, Run;
    RunStarts(n, es);
    if es == [] {
    } else {
      StepOn(n, es[0], start, client);
      ClientKeepsBle(Step(n, es[0]), es[1..], start, client);
    }
  }
}
