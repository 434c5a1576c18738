/** What a client is told, in the numbers it sees, against what happened: attempt
    numbers that count attempts, reasons that name their cause, Online after a
    commit only for settings a reboot would load, and BLE that stays while it is
    needed. */
module NetworkReports {
  import opened Config
  import opened NetConfig
  import opened ConfigFlash
  import NotifyQueue
  import opened BleProvision
  import opened NetworkTask
  import opened NetworkSafety
  import opened NetworkFallback

  const NOWHERE: Ip := [0, 0, 0, 0]

  // ---- what holds along every run ----

  /** A trial's attempt number is one more than its counted failures, and a commit
      is reported as the history tells it. */
  ghost predicate ToldOk(n: Net) {
    && (PurposeOf(n.pc).Some? && PurposeOf(n.pc).value.Trial? ==>
          var p := PurposeOf(n.pc).value;
          p.attempt == p.wifiTries + p.mqttTries + if n.pc.Pause? then 0 else 1)
    && (n.pc.TellSaved? ==> n.log != [] && n.log[|n.log| - 1] == Committed(n.use.settings, n.pc.saved))
  }

  lemma {:induction false} BringUpTold(n: Net, env: Env)
    requires ToldOk(n) && InBringUp(n.pc)
    ensures ToldOk(BringUpStep(n, env))
  {
    hide Untouched, Kept, JoinedTo, Report, JoinStops, AwaitFails, SourceOf, AttemptOf, NetworkOf, BLANK, Settings;
  }

  lemma {:induction false} FailureTold(n: Net)
    requires ToldOk(n) && InFailure(n.pc)
    ensures ToldOk(FailureStep(n))
  {
    hide Untouched, Kept, Report, StartBle, LastTry, MoreFails, TooMany, FailState, SourceOf, AttemptOf, BLANK;
  }

  lemma {:induction false} ServiceTold(n: Net, env: Env)
    requires ToldOk(n) && InService(n.pc) && n.sector.Shaped()
    ensures ToldOk(ServiceStep(n, env))
  {
    hide Untouched, Kept, Report, SaveTo, RadioDone, BleProvision.Stop, BLANK;
  }

  lemma {:induction false} StartUpTold(n: Net, luck: Luck)
    requires ToldOk(n) && !InBringUp(n.pc) && !InFailure(n.pc) && !InService(n.pc) && n.sector.Shaped()
    ensures ToldOk(StartUpStep(n, luck))
  {
    hide Untouched, Kept, Report, StartBle, LoadFrom, EraseAll, BleProvision.Take, BLANK, Found;
  }

  lemma {:induction false} SameTold(n: Net, m: Net)
    requires ToldOk(n) && m.pc == n.pc && m.log == n.log && m.use == n.use
    ensures ToldOk(m)
  {
  }

  lemma {:induction false} BootTold(s: Sector, build: Build, log: seq<Entry>)
    ensures ToldOk(Boot(s, build, log))
  {
  }

  lemma {:induction false} StepTold(n: Net, e: NetworkTask.Event)
    requires NetworkTask.Inv(n) && ToldOk(n)
    ensures n.sector.Shaped() && BleProvision.Inv(n.ble) && ToldOk(NetworkTask.Step(n, e))
  {
    hide NetworkTask.Inv, ToldOk, BleProvision.Inv, BleProvision.Step, BringUpStep, FailureStep, ServiceStep, StartUpStep, Boot;
    ShapedAndSound(n);
    match e
    case Task(env) =>
      if InBringUp(n.pc) { BringUpTold(n, env); }
      else if InFailure(n.pc) { FailureTold(n); }
      else if InService(n.pc) { ServiceTold(n, env); }
      else { StartUpTold(n, env.luck); }
    case Client(_) => SameTold(n, NetworkTask.Step(n, e));
    case Reboot => BootTold(n.sector, n.build, n.log + [Rebooted]);
  }

  lemma {:induction false} RunTold(n: Net, es: seq<NetworkTask.Event>)
    requires NetworkTask.Inv(n) && ToldOk(n)
    ensures ToldOk(NetworkTask.Run(n, es))
    decreases |es|
  {
    hide NetworkTask.Inv, ToldOk, NetworkTask.Step, NetworkTask.Run;
    RunStarts(n, es);
    if es == [] {
    } else {
      StepTold(n, es[0]);
      RunTold(NetworkTask.Step(n, es[0]), es[1..]);
    }
  }

  lemma {:induction false} ToldAlways(s: Sector, build: Build, es: seq<NetworkTask.Event>)
    requires s.Shaped()
    ensures ToldOk(NetworkTask.Run(PowerOn(s, build), es))
  {
    BootTold(s, build, []);
    RunTold(PowerOn(s, build), es);
    hide NetworkTask.Run, ToldOk;
  }

  // ---- the report of a status ----

  lemma {:induction false} ReportReads(b: Ble, state: uint8, reason: int8, source: uint8, attempt: nat, ip: Ip)
    requires b.active
    ensures Decode(Report(b, state, reason, source, attempt, ip).status) == Status(state, reason, ip, attempt % 256, source)
  {
    StatusReadsBack(Status(state, reason, ip, attempt % 256, source), b.status);
    hide Encode, Decode, NotifyQueue.Push;
  }

  // ---- a bring-up ----

  /** Failed attempts so far: of this trial, or of the settings in use. */
  function Made(log: seq<Entry>, p: Purpose): nat {
    if p.Trial? then TrialCount(log, WifiFailed) + TrialCount(log, MqttFailed)
    else SteadyFails(log, WifiFailed) + SteadyFails(log, MqttFailed)
  }

  lemma {:induction false} AttemptIs(n: Net, p: Purpose)
    requires NetworkTask.Inv(n) && ToldOk(n) && CountsOk(n) && PurposeOf(n.pc) == Some(p) && !n.pc.Pause?
    ensures AttemptOf(n, p) == Made(n.log, p) + if n.pc.TellFailed? then 0 else 1
  {
    hide Validate, BleProvision.Inv, UseOk, CandidateOk, FlashOk, LogOk, LastTook, TrialCount, LastUse, LastSaved, Reachable,
         HandoffOk, SteadyFails;
  }

  function SourceByte(n: Net, p: Purpose): uint8 {
    if p.Trial? then 1 else n.use.source
  }

  /** What a client that is told of attempt number `attempt` reads. */
  ghost predicate ReadsAs(n: Net, p: Purpose, attempt: nat, told: Status) {
    match n.pc
    case TellWifi(_) => told == Status(2, 0, NOWHERE, attempt % 256, SourceByte(n, p))
    case TellMqtt(_) => told == Status(4, 0, NOWHERE, attempt % 256, SourceByte(n, p))
    case TellFailed(_, o, reason) =>
      told == Status(if o == WifiFailed then 3 else 5, reason, NOWHERE, attempt % 256, SourceByte(n, p))
    case _ => true
  }

  /** Over every run, while BLE is on: joining is told as 2, connecting as 4, a
      failure as 3 or 5 with its reason, each with the number of the attempt, which
      counts the attempts that failed, and with whose settings they are. */
  lemma {:induction false} AttemptsTold(s: Sector, build: Build, es: seq<NetworkTask.Event>, n: Net, env: Env, p: Purpose)
    requires s.Shaped() && n == NetworkTask.Run(PowerOn(s, build), es) && n.ble.active && PurposeOf(n.pc) == Some(p)
    ensures n.sector.Shaped()
    ensures ReadsAs(n, p, Made(n.log, p) + if n.pc.TellFailed? then 0 else 1, Decode(TaskStep(n, env).ble.status))
  {
    hide NetworkTask.Run, PowerOn, NetworkTask.Inv, ToldOk, CountsOk, TaskStep, Decode, Made, AttemptOf;
    ShapedAndSound(n);
    ToldAlways(s, build, es);
    CountsAlways(s, build, es);
    if !n.pc.Pause? { AttemptIs(n, p); }
    AttemptReported(n, p, env);
  }

  lemma {:induction false} AttemptReported(n: Net, p: Purpose, env: Env)
    requires n.sector.Shaped() && n.ble.active && PurposeOf(n.pc) == Some(p)
    ensures ReadsAs(n, p, AttemptOf(n, p), Decode(TaskStep(n, env).ble.status))
  {
    hide Untouched, Kept, Report, Decode, AttemptOf, NetworkOf, Settings, Counted, MoreFails, TooMany, LastTry, BLANK;
    ReportReads(n.ble, WIFI_CONNECTING, 0, SourceOf(n, p), AttemptOf(n, p), NO_IP);
    ReportReads(n.ble, MQTT_CONNECTING, 0, SourceOf(n, p), AttemptOf(n, p), NO_IP);
    if n.pc.TellFailed? { ReportReads(n.ble, FailState(n.pc.o), n.pc.reason, SourceOf(n, p), AttemptOf(n, p), NO_IP); }
  }

  // ---- reasons ----

  /** The join loop waits 15 seconds from the request. */
  lemma {:induction false} JoinDeadline(n: Net, p: Purpose, env: Env)
    requires n.sector.Shaped() && n.pc == TellWifi(p)
    ensures TaskStep(n, env).pc == if env.wifiAsks then Joining(p, env.now + 15000) else TellFailed(p, WifiFailed, 3)
  {
    hide Untouched, Kept, Report, NetworkOf, Settings;
  }

  /** One turn of it, while no apply and no forget comes: reason 2 is a refused
      password, 1 is that nothing was found in time, 3 is everything else. A link
      that is up when it is looked at again counts as joined. */
  lemma {:induction false} JoinReasons(n: Net, p: Purpose, until: nat, env: Env)
    requires n.sector.Shaped() && n.pc == Joining(p, until) && !Interrupted(Merge(n))
    ensures var m := TaskStep(n, env);
            var lost := env.link == LinkFail || (env.link == LinkNoNet && !env.wifiAsks);
            var ends := env.link == LinkUp || env.link == LinkBadAuth || lost || env.now >= until;
            m.pc ==
            if !ends then n.pc
            else if env.linkAfter == LinkUp then TellMqtt(p)
            else TellFailed(p, WifiFailed,
                            if env.link == LinkUp then 0 else if env.link == LinkBadAuth then 2 else if lost then 3 else 1)
  {
    hide Untouched, Kept, NetworkOf, Settings, BLANK;
  }

  /** The broker is given 10 seconds. */
  lemma {:induction false} BrokerDeadline(n: Net, p: Purpose, env: Env)
    requires n.sector.Shaped() && n.pc == Connecting(p)
    ensures TaskStep(n, env).pc == if env.mqttAsks then Waiting(p, env.now + 10000) else TellFailed(p, MqttFailed, 3)
  {
    hide Untouched, Kept, Settings;
  }

  /** One turn of that wait: reason 1 is a timeout, 2 a refusal, 3 a lost
      connection. */
  lemma {:induction false} BrokerReasons(n: Net, p: Purpose, until: nat, env: Env)
    requires n.sector.Shaped() && n.pc == Waiting(p, until) && !Interrupted(Merge(n))
    ensures var m := TaskStep(n, env);
            m.pc == match env.broker
              case Accepted => if p.Steady? then TellOnline else Saving
              case BrokerTimeout => TellFailed(p, MqttFailed, 1)
              case Refused => TellFailed(p, MqttFailed, 2)
              case BrokerGone => TellFailed(p, MqttFailed, 3)
              case Pending => if env.now >= until then TellFailed(p, MqttFailed, 1) else n.pc
  {
    hide Untouched, Kept, Settings, BLANK;
  }

  // ---- the end of a trial, and online ----

  /** After a commit a client is told Online, from the stored settings and with
      the address, exactly if the save succeeded, and then a reboot at this moment
      would load these very settings; else that they are on trial still and were
      not saved. */
  lemma {:induction false} CommitTold(s: Sector, build: Build, es: seq<NetworkTask.Event>, n: Net, env: Env)
    requires s.Shaped() && n == NetworkTask.Run(PowerOn(s, build), es) && n.ble.active && n.pc.TellSaved?
    ensures n.sector.Shaped() && n.log != []
    ensures var told, last := Decode(TaskStep(n, env).ble.status), n.log[|n.log| - 1];
            && last.Committed? && last.c == n.use.settings
            && told == (if last.saved then Status(6, 0, env.ip, 0, 0) else Status(9, 0, NOWHERE, 0, 1))
            && (last.saved ==> LoadFrom(n.sector, n.build) == (FromFlash, Canonical(n.use.settings)))
  {
    hide NetworkTask.Run, PowerOn, NetworkTask.Inv, Decode, TaskStep, LoadFrom, Canonical;
    ShapedAndSound(n);
    ToldAlways(s, build, es);
    CommitReported(n, env);
    if n.pc.saved { SavedLoads(n); }
  }

  lemma {:induction false} SavedLoads(n: Net)
    requires NetworkTask.Inv(n) && n.log != [] && n.log[|n.log| - 1].Committed? && n.log[|n.log| - 1].saved
    ensures LoadFrom(n.sector, n.build) == (FromFlash, Canonical(n.log[|n.log| - 1].c))
  {
    hide Validate, BleProvision.Inv, UseOk, CandidateOk, LogOk, LastTook, TrialCount, LastUse, Reachable, HandoffOk, TriesOk,
         LoadFrom, Canonical;
  }

  lemma {:induction false} CommitReported(n: Net, env: Env)
    requires n.sector.Shaped() && n.ble.active && n.pc.TellSaved?
    ensures Decode(TaskStep(n, env).ble.status) ==
            if n.pc.saved then Status(6, 0, env.ip, 0, 0) else Status(9, 0, NOWHERE, 0, 1)
  {
    hide Untouched, Kept, Report, Decode;
    ReportReads(n.ble, ONLINE, 0, STORED, 0, env.ip);
    ReportReads(n.ble, SAVE_FAILED, 0, CANDIDATE, 0, NO_IP);
  }

  /** The other reports: online with the settings in use, a trial reverted, and
      no settings. */
  lemma {:induction false} OthersTold(n: Net, env: Env)
    requires n.sector.Shaped() && n.ble.active
    ensures var told := Decode(TaskStep(n, env).ble.status);
            && (n.pc.TellOnline? ==> told == Status(6, 0, env.ip, 0, n.use.source))
            && (n.pc.Reverting? ==> told == Status(7, 0, NOWHERE, 0, n.use.source))
            && (n.pc.TellBlank? || n.pc.Announce? ==> told == Status(0, 0, NOWHERE, 0, 0))
  {
    hide Untouched, Kept, Report, Decode, BLANK;
    ReportReads(n.ble, ONLINE, 0, n.use.source, 0, env.ip);
    ReportReads(n.ble, REVERTED, 0, n.use.source, 0, NO_IP);
    ReportReads(n.ble, UNPROVISIONED, 0, STORED, 0, NO_IP);
  }
}
