/** What a client that connects starts from: the settings in use, unless a commit
    came since they were loaded and BLE has not been started again. */
module NetworkCurrent {
  import opened Config
  import opened NetConfig
  import opened ConfigFlash
  import NotifyQueue
  import BleProvision
  import BleStaging
  import opened NetworkTask
  import opened NetworkSafety

  function InUse(use: Use): NetConfig {
    if use.have then use.settings else BLANK
  }

  /** A commit came after the last load. */
  predicate CommitSinceLoad(log: seq<Entry>) {
    log != [] &&
    match log[|log| - 1]
    case Committed(_, _) => true
    case Loaded(_, _) => false
    case _ => CommitSinceLoad(log[..|log| - 1])
  }

  lemma {:induction false} CommitGrows(log: seq<Entry>, x: Entry)
    ensures CommitSinceLoad(log + [x]) == if x.Committed? then true else if x.Loaded? then false else CommitSinceLoad(log)
  {
    assert (log + [x])[..|log|] == log;
  }

  /** Settings were loaded and BLE is about to be told. */
  predicate ToBeTold(pc: Pc) {
    pc.Advertise? || pc.Refresh?
  }

  ghost predicate CurrentOk(n: Net) {
    && ((n.pc.Load? || n.pc.Advertise?) && n.pc.boot ==> !n.ble.active)
    && (n.ble.active ==> ToBeTold(n.pc) || CommitSinceLoad(n.log) || n.ble.current == InUse(n.use))
  }

  lemma {:induction false} ReportCurrent(
      b: BleProvision.Ble, state: uint8, reason: BleProvision.int8, source: uint8, attempt: nat, ip: BleProvision.Ip)
    ensures Report(b, state, reason, source, attempt, ip).active == b.active
    ensures Report(b, state, reason, source, attempt, ip).current == b.current
  {
    hide NotifyQueue.Push, BleProvision.Encode;
  }

  lemma {:induction false} EndedCurrent(n: Net, p: Purpose, o: Outcome, reason: BleProvision.int8)
    requires n.ble.active ==> CommitSinceLoad(n.log) || n.ble.current == InUse(n.use)
    ensures CurrentOk(Ended(n, p, o, reason))
  {
    hide Untouched, Kept, Settings, CommitSinceLoad, BLANK;
    var x := Tried(p.Trial?, Settings(n, p), o);
    CommitGrows(n.log, x);
    CommitGrows(n.log + [x], GaveUp(true));
  }

  lemma {:induction false} BringUpCurrent(n: Net, env: Env)
    requires CurrentOk(n) && InBringUp(n.pc)
    ensures CurrentOk(BringUpStep(n, env))
  {
    hide Untouched, Kept, Ended, CommitSinceLoad, JoinedTo, Report, JoinStops, AwaitFails, SourceOf, AttemptOf, NetworkOf,
         BLANK, Settings, InUse;
    var p := PurposeOf(n.pc).value;
    match n.pc
    case Check(_) =>
    case TellWifi(_) =>
      var b := Report(n.ble, BleProvision.WIFI_CONNECTING, 0, SourceOf(n, p), AttemptOf(n, p), BleProvision.NO_IP);
      ReportCurrent(n.ble, BleProvision.WIFI_CONNECTING, 0, SourceOf(n, p), AttemptOf(n, p), BleProvision.NO_IP);
      if !env.wifiAsks {
        EndedCurrent(n.(ble := b, link := NO_LINK, air := n.air + [Asked(NetworkOf(Settings(n, p)))]), p, WifiFailed, 3);
      }
    case Joining(_, until) =>
      match JoinStops(until, env) {
        case Some(reason) => if env.linkAfter != LinkUp { EndedCurrent(n.(link := NO_LINK), p, WifiFailed, reason); }
        case None => EndedCurrent(Merge(n).(link := NO_LINK), p, Aborted, 0);
      }
    case TellMqtt(_) =>
      ReportCurrent(n.ble, BleProvision.MQTT_CONNECTING, 0, SourceOf(n, p), AttemptOf(n, p), BleProvision.NO_IP);
    case Connecting(_) => if !env.mqttAsks { EndedCurrent(n, p, MqttFailed, 3); }
    case Waiting(_, until) => AwaitCurrent(n, p, until, env);
  }

  lemma {:induction false} AwaitCurrent(n: Net, p: Purpose, until: nat, env: Env)
    requires CurrentOk(n) && n.pc == Waiting(p, until)
    ensures CurrentOk(AwaitBroker(n, p, until, env))
  {
    hide Untouched, Kept, Ended, CommitSinceLoad, AwaitFails, InUse;
    if env.broker == Accepted { EndedCurrent(n, p, IsOnline, 0); }
    else {
      match AwaitFails(until, env)
      case Some(reason) => EndedCurrent(n, p, MqttFailed, reason);
      case None => EndedCurrent(Merge(n), p, Aborted, 0);
    }
  }

  lemma {:induction false} FailureCurrent(n: Net)
    requires CurrentOk(n) && InFailure(n.pc)
    ensures CurrentOk(FailureStep(n))
  {
    hide Untouched, Kept, CommitSinceLoad, Report, LastTry, TooMany, FailState, SourceOf, AttemptOf, BLANK, MoreFails, Counted;
    CommitGrows(n.log, GaveUp(true));
    CommitGrows(n.log, GaveUp(false));
    if n.pc.TellFailed? {
      ReportCurrent(n.ble, FailState(n.pc.o), n.pc.reason, SourceOf(n, n.pc.p), AttemptOf(n, n.pc.p), BleProvision.NO_IP);
    }
    ReportCurrent(n.ble, BleProvision.REVERTED, 0, n.use.source, 0, BleProvision.NO_IP);
    ReportCurrent(n.ble, BleProvision.UNPROVISIONED, 0, BleProvision.STORED, 0, BleProvision.NO_IP);
  }

  lemma {:induction false} ServiceCurrent(n: Net, env: Env)
    requires CurrentOk(n) && InService(n.pc) && n.sector.Shaped()
    ensures CurrentOk(ServiceStep(n, env))
  {
    hide Untouched, Kept, CommitSinceLoad, Report, SaveTo, RadioDone, BLANK, InUse;
    CommitGrows(n.log, Committed(n.candidate, SaveTo(n.sector, n.candidate, env.luck).0));
    ReportCurrent(n.ble, BleProvision.ONLINE, 0, BleProvision.STORED, 0, env.ip);
    ReportCurrent(n.ble, BleProvision.ONLINE, 0, n.use.source, 0, env.ip);
    ReportCurrent(n.ble, BleProvision.SAVE_FAILED, 0, BleProvision.CANDIDATE, 0, BleProvision.NO_IP);
  }

  lemma {:induction false} StartUpCurrent(n: Net, luck: Luck)
    requires CurrentOk(n) && !InBringUp(n.pc) && !InFailure(n.pc) && !InService(n.pc) && n.sector.Shaped()
    ensures CurrentOk(StartUpStep(n, luck))
  {
    hide Untouched, Kept, CommitSinceLoad, Report, LoadFrom, EraseAll, BLANK, Found;
    var (src, c) := LoadFrom(n.sector, n.build);
    CommitGrows(n.log, Loaded(src, c));
    CommitGrows(n.log, Wiped(EraseAll(n.sector, luck).0));
    CommitGrows(n.log, NothingTaken);
    if n.ble.handoffValid { CommitGrows(n.log, Took(n.ble.handoff)); }
    ReportCurrent(n.ble, BleProvision.UNPROVISIONED, 0, BleProvision.STORED, 0, BleProvision.NO_IP);
  }

  lemma {:induction false} CallbackCurrent(n: Net, c: BleProvision.Event)
    requires Inv(n) && CurrentOk(n)
    ensures n.sector.Shaped() && BleProvision.Inv(n.ble) && CurrentOk(Step(n, Client(c)))
  {
    hide Inv, BleProvision.Inv, BleProvision.Step, InUse, CommitSinceLoad;
    ShapedAndSound(n);
    BleProvision.InvShape(n.ble);
    RadioStays(n.ble, c);
    BleStaging.CallbackStages(n.ble, c);
  }

  lemma {:induction false} BootCurrent(s: Sector, build: Build, log: seq<Entry>)
    ensures CurrentOk(Boot(s, build, log))
  {
  }

  lemma {:induction false} StepCurrent(n: Net, e: Event)
    requires Inv(n) && CurrentOk(n)
    ensures n.sector.Shaped() && BleProvision.Inv(n.ble) && CurrentOk(Step(n, e))
  {
    hide Inv, CurrentOk, BleProvision.Inv, BleProvision.Step, BringUpStep, FailureStep, ServiceStep, StartUpStep, Boot;
    ShapedAndSound(n);
    match e
    case Task(env) =>
      if InBringUp(n.pc) { BringUpCurrent(n, env); }
      else if InFailure(n.pc) { FailureCurrent(n); }
      else if InService(n.pc) { ServiceCurrent(n, env); }
      else { StartUpCurrent(n, env.luck); }
    case Client(c) => CallbackCurrent(n, c);
    case Reboot => BootCurrent(n.sector, n.build, n.log + [Rebooted]);
  }

  lemma {:induction false} RunCurrent(n: Net, es: seq<Event>)
    requires Inv(n) && CurrentOk(n)
    ensures CurrentOk(Run(n, es))
    decreases |es|
  {
    hide Inv, CurrentOk, Step, Run;
    RunStarts(n, es);
    if es == [] {
    } else {
      StepCurrent(n, es[0]);
      RunCurrent(Step(n, es[0]), es[1..]);
    }
  }

  lemma {:induction false} CurrentAlways(s: Sector, build: Build, es: seq<Event>)
    requires s.Shaped()
    ensures CurrentOk(Run(PowerOn(s, build), es))
  {
    BootCurrent(s, build, []);
    RunCurrent(PowerOn(s, build), es);
    hide Run, CurrentOk;
  }

  /** Over every run, a client that connects to a hub which has committed nothing
      since its last load starts from the settings in use: what it leaves unwritten
      stays as it is. */
  lemma {:induction false} ClientStartsFromUse(s: Sector, build: Build, es: seq<Event>, n: Net)
    requires s.Shaped() && n == Run(PowerOn(s, build), es)
    requires n.ble.active && !ToBeTold(n.pc) && !CommitSinceLoad(n.log)
    ensures BleProvision.Inv(n.ble) && BleProvision.InvShaped(n.ble)
    ensures BleProvision.Step(n.ble, BleProvision.Connect).0.staged == if n.use.have then n.use.settings else BLANK
  {
    hide Run, PowerOn, Inv, BleProvision.Inv, BleProvision.Step, CommitSinceLoad, BLANK;
    CurrentAlways(s, build, es);
    ShapedAndSound(n);
    BleProvision.InvShape(n.ble);
    BleStaging.CallbackStages(n.ble, BleProvision.Connect);
  }

  /** The case that fails: a commit does not tell BLE, so a client that connects
      after it starts from the settings before it, and what it leaves unwritten
      goes back to them. */
  lemma {:induction false} StaleAfterCommit(s: Sector, build: Build, es: seq<Event>, n: Net, env: Env)
    requires s.Shaped() && n == Run(PowerOn(s, build), es)
    requires n.pc == Saving && n.ble.active && !CommitSinceLoad(n.log)
    ensures n.sector.Shaped() && Inv(TaskStep(n, env)) && BleProvision.Inv(TaskStep(n, env).ble)
    ensures BleProvision.InvShaped(TaskStep(n, env).ble)
    ensures var m := TaskStep(n, env);
            && m.use == Use(n.candidate, true, BleProvision.STORED)
            && BleProvision.Step(m.ble, BleProvision.Connect).0.staged == if n.use.have then n.use.settings else BLANK
  {
    hide Run, PowerOn, Inv, BleProvision.Inv, BleProvision.Step, CommitSinceLoad, BLANK, TaskStep;
    CurrentAlways(s, build, es);
    TaskKeeps(n, env);
    ShapedAndSound(TaskStep(n, env));
    SavingKeepsBle(n, env);
    BleProvision.InvShape(TaskStep(n, env).ble);
    BleStaging.CallbackStages(TaskStep(n, env).ble, BleProvision.Connect);
  }

  lemma {:induction false} SavingKeepsBle(n: Net, env: Env)
    requires n.sector.Shaped() && n.pc == Saving
    ensures TaskStep(n, env).ble == n.ble && TaskStep(n, env).use == Use(n.candidate, true, BleProvision.STORED)
  {
    hide Untouched, SaveTo, BLANK;
  }

  /** When BLE goes off, what a client staged and what it could read are gone. */
  lemma {:induction false} OffIsWiped(n: Net, session: Session, env: Env)
    requires n.sector.Shaped() && n.pc == Stopping(session) && n.ble.active
    ensures var b := TaskStep(n, env).ble;
            !b.active && !b.connected && b.staged == BLANK && b.current == BLANK && b.notify.pushed == []
            && forall i :: 0 <= i < |b.prep.cells| ==> b.prep.cells[i] == 0
  {
    hide Untouched, BLANK;
  }
}
