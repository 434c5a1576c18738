/** The way back over BLE, counted in attempts that happened: the hub's counters
    are the failures its history tells of, so three on Wi-Fi or five on the broker
    always bring BLE up. */
module NetworkFallback {
  import opened Config
  import opened NetConfig
  import opened ConfigFlash
  import BleProvision
  import opened NetworkTask
  import opened NetworkSafety

  /** Failed attempts with the settings in use that came to this outcome, since
      they last came online, a trial, a forget or a boot. */
  function SteadyFails(log: seq<Entry>, o: Outcome): nat {
    if log == [] then 0
    else match log[|log| - 1]
      case Tried(trial, _, out) =>
        if trial || out == IsOnline then 0 else SteadyFails(log[..|log| - 1], o) + if out == o then 1 else 0
      case _ => 0
  }

  lemma {:induction false} FailsGrow(log: seq<Entry>, x: Entry, o: Outcome)
    ensures SteadyFails(log + [x], o) ==
            if x.Tried? && !x.trial && x.o != IsOnline then SteadyFails(log, o) + if x.o == o then 1 else 0 else 0
  {
    assert (log + [x])[..|log|] == log;
  }

  /** Control points that are only reached when the count starts over. */
  predicate StartsOver(pc: Pc) {
    pc.Load? || pc.Advertise? || pc.Announce? || pc.Refresh? || pc.TellBlank? || pc.TellSaved? || IsServing(pc, true)
  }

  predicate Booting(pc: Pc) {
    (pc.Load? || pc.Advertise? || pc.Announce?) && pc.boot
  }

  ghost predicate CountsAre(fails: Fails, wifi: int, mqtt: int) {
    fails.wifi == wifi && fails.mqtt == mqtt
  }

  /** The counters are what the history counts, but for the failure about to be
      counted and for stretches after which the count starts over. */
  ghost predicate CountsOk(n: Net) {
    var wifi, mqtt := SteadyFails(n.log, WifiFailed), SteadyFails(n.log, MqttFailed);
    if StartsOver(n.pc) then wifi == 0 && mqtt == 0 && (Booting(n.pc) ==> n.fails == Fails(0, 0))
    else if OnTrial(n.pc) || n.pc.Taking? || n.pc.Forgetting? then true
    else if n.pc.TellFailed? then
      && (n.pc.o == WifiFailed || n.pc.o == MqttFailed)
      && CountsAre(n.fails, if n.pc.o == WifiFailed then wifi - 1 else wifi, if n.pc.o == MqttFailed then mqtt - 1 else mqtt)
    else CountsAre(n.fails, wifi, mqtt)
  }

  // ---- every step keeps it ----

  lemma {:induction false} EndedCounts(n: Net, p: Purpose, o: Outcome, reason: BleProvision.int8)
    requires InBringUp(n.pc) && PurposeOf(n.pc) == Some(p) && CountsOk(n)
    ensures CountsOk(Ended(n, p, o, reason))
  {
    hide Untouched, Kept, Settings, SteadyFails, BLANK;
    var x := Tried(p.Trial?, Settings(n, p), o);
    FailsGrow(n.log, x, WifiFailed);
    FailsGrow(n.log, x, MqttFailed);
    FailsGrow(n.log + [x], GaveUp(true), WifiFailed);
    FailsGrow(n.log + [x], GaveUp(true), MqttFailed);
  }

  lemma {:induction false} BringUpCounts(n: Net, env: Env)
    requires CountsOk(n) && InBringUp(n.pc)
    ensures CountsOk(BringUpStep(n, env))
  {
    hide Untouched, Kept, Ended, SteadyFails, JoinedTo, Report, JoinStops, AwaitFails, SourceOf, AttemptOf, NetworkOf, BLANK,
         Settings;
    var p := PurposeOf(n.pc).value;
    match n.pc
    case Check(_) =>
    case TellWifi(_) =>
      if !env.wifiAsks {
        var b := Report(n.ble, BleProvision.WIFI_CONNECTING, 0, SourceOf(n, p), AttemptOf(n, p), BleProvision.NO_IP);
        EndedCounts(n.(ble := b, link := NO_LINK, air := n.air + [Asked(NetworkOf(Settings(n, p)))]), p, WifiFailed, 3);
      }
    case Joining(_, until) =>
      match JoinStops(until, env) {
        case Some(reason) => if env.linkAfter != LinkUp { EndedCounts(n.(link := NO_LINK), p, WifiFailed, reason); }
        case None => EndedCounts(Merge(n).(link := NO_LINK), p, Aborted, 0);
      }
    case TellMqtt(_) =>
    case Connecting(_) => if !env.mqttAsks { EndedCounts(n, p, MqttFailed, 3); }
    case Waiting(_, until) => AwaitCounts(n, p, until, env);
  }

  lemma {:induction false} AwaitCounts(n: Net, p: Purpose, until: nat, env: Env)
    requires CountsOk(n) && n.pc == Waiting(p, until)
    ensures CountsOk(AwaitBroker(n, p, until, env))
  {
    hide Untouched, Kept, Ended, SteadyFails, AwaitFails;
    if env.broker == Accepted { EndedCounts(n, p, IsOnline, 0); }
    else {
      match AwaitFails(until, env)
      case Some(reason) => EndedCounts(n, p, MqttFailed, reason);
      case None => EndedCounts(Merge(n), p, Aborted, 0);
    }
  }

  lemma {:induction false} FailureCounts(n: Net)
    requires CountsOk(n) && InFailure(n.pc)
    ensures CountsOk(FailureStep(n))
  {
    hide Untouched, Kept, SteadyFails, Report, StartBle, LastTry, TooMany, FailState, SourceOf, AttemptOf, BLANK;
    FailsGrow(n.log, GaveUp(true), WifiFailed);
    FailsGrow(n.log, GaveUp(true), MqttFailed);
    FailsGrow(n.log, GaveUp(false), WifiFailed);
    FailsGrow(n.log, GaveUp(false), MqttFailed);
  }

  lemma {:induction false} ServiceCounts(n: Net, env: Env)
    requires CountsOk(n) && InService(n.pc) && n.sector.Shaped()
    ensures CountsOk(ServiceStep(n, env))
  {
    hide Untouched, Kept, SteadyFails, Report, SaveTo, RadioDone, BleProvision.Stop, BLANK;
    var x := Committed(n.candidate, SaveTo(n.sector, n.candidate, env.luck).0);
    FailsGrow(n.log, x, WifiFailed);
    FailsGrow(n.log, x, MqttFailed);
  }

  lemma {:induction false} StartUpCounts(n: Net, luck: Luck)
    requires CountsOk(n) && !InBringUp(n.pc) && !InFailure(n.pc) && !InService(n.pc) && n.sector.Shaped()
    ensures CountsOk(StartUpStep(n, luck))
  {
    hide Untouched, Kept, SteadyFails, Report, StartBle, LoadFrom, EraseAll, BleProvision.Take, BLANK, Found;
    var (src, c) := LoadFrom(n.sector, n.build);
    NoFailsAfter(n.log, Loaded(src, c));
    NoFailsAfter(n.log, Wiped(EraseAll(n.sector, luck).0));
    NoFailsAfter(n.log, NothingTaken);
  }

  lemma {:induction false} NoFailsAfter(log: seq<Entry>, x: Entry)
    requires !x.Tried?
    ensures SteadyFails(log + [x], WifiFailed) == 0 && SteadyFails(log + [x], MqttFailed) == 0
  {
    FailsGrow(log, x, WifiFailed);
    FailsGrow(log, x, MqttFailed);
  }

  lemma {:induction false} BootCounts(s: Sector, build: Build, log: seq<Entry>)
    requires log == [] || log[|log| - 1].Rebooted?
    ensures CountsOk(Boot(s, build, log))
  {
  }

  lemma {:induction false} SameCounts(n: Net, m: Net)
    requires CountsOk(n) && m.pc == n.pc && m.log == n.log && m.fails == n.fails
    ensures CountsOk(m)
  {
    hide SteadyFails;
  }

  lemma {:induction false} StepCounts(n: Net, e: Event)
    requires Inv(n) && CountsOk(n)
    ensures n.sector.Shaped() && BleProvision.Inv(n.ble) && CountsOk(Step(n, e))
  {
    hide Inv, CountsOk, BleProvision.Inv, BleProvision.Step, BringUpStep, FailureStep, ServiceStep, StartUpStep, Boot;
    ShapedAndSound(n);
    match e
    case Task(env) =>
      if InBringUp(n.pc) { BringUpCounts(n, env); }
      else if InFailure(n.pc) { FailureCounts(n); }
      else if InService(n.pc) { ServiceCounts(n, env); }
      else { StartUpCounts(n, env.luck); }
    case Client(_) => SameCounts(n, Step(n, e));
    case Reboot => BootCounts(n.sector, n.build, n.log + [Rebooted]);
  }

  lemma {:induction false} RunCounts(n: Net, es: seq<Event>)
    requires Inv(n) && CountsOk(n)
    ensures CountsOk(Run(n, es))
    decreases |es|
  {
    hide Inv, CountsOk, Step, Run;
    RunStarts(n, es);
    if es == [] {
    } else {
      StepCounts(n, es[0]);
      RunCounts(Step(n, es[0]), es[1..]);
    }
  }

  lemma {:induction false} CountsAlways(s: Sector, build: Build, es: seq<Event>)
    requires s.Shaped()
    ensures CountsOk(Run(PowerOn(s, build), es))
  {
    BootCounts(s, build, []);
    RunCounts(PowerOn(s, build), es);
    hide Run, CountsOk;
  }

  /** Over every run: at a loop head with BLE off, fewer than three attempts with
      the settings in use have failed on Wi-Fi and fewer than five on the broker
      since they last came online, a trial, a forget or a boot. The third, or the
      fifth, brings BLE up before the loop comes round again. */
  lemma {:induction false} FailuresBringBle(s: Sector, build: Build, es: seq<Event>)
    requires s.Shaped()
    ensures var n := Run(PowerOn(s, build), es);
            && (n.pc.Head? ==> n.fails == Fails(SteadyFails(n.log, WifiFailed), SteadyFails(n.log, MqttFailed)))
            && (n.pc.Head? && !n.ble.active ==> SteadyFails(n.log, WifiFailed) < 3 && SteadyFails(n.log, MqttFailed) < 5)
  {
    hide Run, PowerOn, SteadyFails, Inv;
    CountsAlways(s, build, es);
    HubStaysReachable(s, build, es);
  }
}
