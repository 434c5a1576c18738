/** What "online" rests on: over every run, settings that came online were
    reached over a Wi-Fi network asked for with their own name and password. */
module NetworkLink {
  import opened Config
  import Ipv4
  import opened NetConfig
  import opened ConfigFlash
  import BleProvision
  import opened NetworkTask
  import opened NetworkSafety

  // ---- what is up, by what happened on the air ----

  /** The network asked for last. */
  function LastAsked(air: seq<Air>): Option<Network> {
    if air == [] then None
    else match air[|air| - 1]
      case Asked(network) => Some(network)
      case _ => LastAsked(air[..|air| - 1])
  }

  /** The network that is up: the last one asked for, if it came up and nothing
      has been asked for or dropped since. */
  function Associated(air: seq<Air>): Option<Network> {
    if air != [] && air[|air| - 1].CameUp? then LastAsked(air) else None
  }

  lemma {:induction false} AirGrows(air: seq<Air>, x: Air)
    ensures LastAsked(air + [x]) == if x.Asked? then Some(x.network) else LastAsked(air)
    ensures Associated(air + [x]) == if x.CameUp? then LastAsked(air) else None
  {
    assert (air + [x])[..|air|] == air;
  }

  /** The hub's own record of the link is what happened on the air. */
  ghost predicate LinkOk(link: Link, air: seq<Air>) {
    if link.up then
      0 in link.joined.ssid && 0 in link.joined.password && Associated(air) == Some(NetworkOf(link.joined))
    else Associated(air) == None
  }

  /** From the join on the air carries the settings that are tried. */
  ghost predicate RouteOk(n: Net) {
    match n.pc
    case Joining(p, _) => n.air != [] && n.air[|n.air| - 1] == Asked(NetworkOf(Settings(n, p)))
    case TellMqtt(p) => Associated(n.air) == Some(NetworkOf(Settings(n, p)))
    case Connecting(p) => Associated(n.air) == Some(NetworkOf(Settings(n, p)))
    case Waiting(p, _) => Associated(n.air) == Some(NetworkOf(Settings(n, p)))
    case Saving => Associated(n.air) == Some(NetworkOf(n.candidate))
    case TellOnline => Associated(n.air) == Some(NetworkOf(n.use.settings))
    case _ => true
  }

  ghost predicate AirOk(n: Net) {
    LinkOk(n.link, n.air) && RouteOk(n)
  }

  // ---- the settings being tried end in a NUL ----

  lemma {:induction false} SettingsTerminated(n: Net, p: Purpose)
    requires Inv(n) && PurposeOf(n.pc) == Some(p)
    ensures 0 in Settings(n, p).ssid && 0 in Settings(n, p).password
  {
    hide Validate, BleProvision.Inv, FlashOk, LogOk, LastTook, TrialCount, LastUse, LastSaved, Reachable, HandoffOk, TriesOk;
    BleProvision.ValidTerminated(Settings(n, p));
  }

  // ---- every step keeps it ----

  lemma {:induction false} EndedAir(n: Net, p: Purpose, o: Outcome, reason: BleProvision.int8)
    requires LinkOk(n.link, n.air)
    requires o == IsOnline ==> Associated(n.air) == Some(NetworkOf(Settings(n, p)))
    ensures AirOk(Ended(n, p, o, reason))
  {
    hide Untouched, Kept, LinkOk, Associated, LastAsked, NetworkOf, BLANK;
  }

  lemma {:induction false} AskAir(n: Net, p: Purpose, env: Env)
    requires LinkOk(n.link, n.air)
    ensures AirOk(DoTellWifi(n, p, env))
  {
    hide Untouched, Kept, Report, SourceOf, AttemptOf, Ended, Associated, LastAsked, NetworkOf, BLANK;
    var b := Report(n.ble, BleProvision.WIFI_CONNECTING, 0, SourceOf(n, p), AttemptOf(n, p), BleProvision.NO_IP);
    var m := n.(ble := b, link := NO_LINK, air := n.air + [Asked(NetworkOf(Settings(n, p)))]);
    AirGrows(n.air, Asked(NetworkOf(Settings(n, p))));
    if !env.wifiAsks { EndedAir(m, p, WifiFailed, 3); }
  }

  lemma {:induction false} JoiningIsDown(n: Net, p: Purpose, until: nat)
    requires AirOk(n) && n.pc == Joining(p, until)
    ensures Associated(n.air) == None && !n.link.up && LastAsked(n.air) == Some(NetworkOf(Settings(n, p)))
    ensures LinkOk(NO_LINK, n.air)
  {
    hide NetworkOf;
  }

  lemma {:induction false} JoinAir(n: Net, p: Purpose, until: nat, env: Env)
    requires Inv(n) && AirOk(n) && n.pc == Joining(p, until)
    ensures AirOk(Join(n, p, until, env))
  {
    hide Inv, Untouched, Kept, Ended, Associated, LastAsked, NetworkOf, JoinStops, BLANK;
    SettingsTerminated(n, p);
    JoiningIsDown(n, p, until);
    match JoinStops(until, env)
    case Some(reason) =>
      AirGrows(n.air, CameUp);
      if env.linkAfter != LinkUp { EndedAir(n.(link := NO_LINK), p, WifiFailed, reason); }
    case None => EndedAir(Merge(n).(link := NO_LINK), p, Aborted, 0);
  }

  /** A network that is up is the one wanted exactly if name and password are. */
  lemma {:induction false} JoinedToIff(n: Net, p: Purpose, status: LinkStatus)
    requires Inv(n) && LinkOk(n.link, n.air) && PurposeOf(n.pc) == Some(p)
    ensures JoinedTo(n.link, Settings(n, p), status) <==>
              status == LinkUp && Associated(n.air) == Some(NetworkOf(Settings(n, p)))
  {
    hide Inv, Associated, Ipv4.CString, Settings;
    SettingsTerminated(n, p);
  }

  lemma {:induction false} AwaitAir(n: Net, p: Purpose, until: nat, env: Env)
    requires AirOk(n) && n.pc == Waiting(p, until)
    ensures AirOk(AwaitBroker(n, p, until, env))
  {
    hide Untouched, Kept, Ended, LinkOk, Associated, NetworkOf, AwaitFails;
    if env.broker == Accepted { EndedAir(n, p, IsOnline, 0); }
    else {
      match AwaitFails(until, env)
      case Some(reason) => EndedAir(n, p, MqttFailed, reason);
      case None => EndedAir(Merge(n), p, Aborted, 0);
    }
  }

  lemma {:induction false} BringUpAir(n: Net, env: Env)
    requires Inv(n) && AirOk(n) && InBringUp(n.pc)
    ensures AirOk(BringUpStep(n, env))
  {
    hide Inv, Untouched, Kept, Ended, LinkOk, Associated, NetworkOf, DoTellWifi, Join, AwaitBroker, JoinedTo, Report, BLANK;
    match n.pc
    case Check(p) => JoinedToIff(n, p, env.link);
    case TellWifi(p) => AskAir(n, p, env);
    case Joining(p, until) => JoinAir(n, p, until, env);
    case TellMqtt(_) =>
    case Connecting(p) => if !env.mqttAsks { EndedAir(n, p, MqttFailed, 3); }
    case Waiting(p, until) => AwaitAir(n, p, until, env);
  }

  lemma {:induction false} FailureAir(n: Net)
    requires AirOk(n) && InFailure(n.pc)
    ensures AirOk(FailureStep(n))
  {
    hide Untouched, Kept, LinkOk, Associated, NetworkOf, Report, StartBle, Counted, LastTry, MoreFails, TooMany, BLANK;
  }

  lemma {:induction false} ServiceAir(n: Net, env: Env)
    requires AirOk(n) && InService(n.pc) && n.sector.Shaped()
    ensures AirOk(ServiceStep(n, env))
  {
    hide Untouched, Kept, Associated, NetworkOf, Report, SaveTo, RadioDone, BleProvision.Stop, BLANK;
    AirGrows(n.air, Dropped);
  }

  lemma {:induction false} StartUpAir(n: Net, luck: Luck)
    requires AirOk(n) && !InBringUp(n.pc) && !InFailure(n.pc) && !InService(n.pc) && n.sector.Shaped()
    ensures AirOk(StartUpStep(n, luck))
  {
    hide Untouched, Kept, Associated, NetworkOf, Report, StartBle, LoadFrom, EraseAll, BleProvision.Take, BLANK;
    AirGrows(n.air, Dropped);
  }

  lemma {:induction false} StepAir(n: Net, e: Event)
    requires Inv(n) && AirOk(n)
    ensures n.sector.Shaped() && BleProvision.Inv(n.ble) && AirOk(Step(n, e))
  {
    hide Inv, AirOk, BleProvision.Inv, BleProvision.Step, BringUpStep, FailureStep, ServiceStep, StartUpStep, Boot;
    ShapedAndSound(n);
    match e
    case Task(env) =>
      if InBringUp(n.pc) { BringUpAir(n, env); }
      else if InFailure(n.pc) { FailureAir(n); }
      else if InService(n.pc) { ServiceAir(n, env); }
      else { StartUpAir(n, env.luck); }
    case Client(c) => SameAir(n, Step(n, e));
    case Reboot => FreshAir(n.sector, n.build, n.log + [Rebooted]);
  }

  lemma {:induction false} SameAir(n: Net, m: Net)
    requires AirOk(n) && m.pc == n.pc && m.link == n.link && m.air == n.air && m.use == n.use && m.candidate == n.candidate
    ensures AirOk(m)
  {
    hide Associated, NetworkOf, LinkOk;
  }

  lemma {:induction false} FreshAir(s: Sector, build: Build, log: seq<Entry>)
    ensures AirOk(Boot(s, build, log))
  {
  }

  lemma {:induction false} RunAir(n: Net, es: seq<Event>)
    requires Inv(n) && AirOk(n)
    ensures AirOk(Run(n, es))
    decreases |es|
  {
    hide Inv, AirOk, Step, Run;
    RunStarts(n, es);
    if es == [] {
    } else {
      StepAir(n, es[0]);
      RunAir(Step(n, es[0]), es[1..]);
    }
  }

  lemma {:induction false} AirAlways(s: Sector, build: Build, es: seq<Event>)
    requires s.Shaped()
    ensures AirOk(Run(PowerOn(s, build), es))
  {
    FreshAir(s, build, []);
    RunAir(PowerOn(s, build), es);
    hide Run, AirOk;
  }

  // ---- what came online ----

  /** Over every run, a bring-up skips the join exactly if the network that is up
      was asked for with this name and this password, and the link is up. */
  lemma {:induction false} SkipsJoinIff(s: Sector, build: Build, es: seq<Event>, env: Env, p: Purpose)
    requires s.Shaped() && Run(PowerOn(s, build), es).pc == Check(p)
    ensures Run(PowerOn(s, build), es).sector.Shaped()
    ensures var n := Run(PowerOn(s, build), es);
            var c := if p.Steady? then n.use.settings else n.candidate;
            var skips := env.link == LinkUp && Associated(n.air) == Some(Network(UpToNul(c.ssid), UpToNul(c.password)));
            TaskStep(n, env).pc == if skips then TellMqtt(p) else TellWifi(p)
  {
    hide Run, PowerOn, Inv, Associated, JoinedTo, UpToNul;
    var n := Run(PowerOn(s, build), es);
    ShapedAndSound(n);
    AirAlways(s, build, es);
    JoinedToIff(n, p, env.link);
    ChecksLink(n, p, env);
  }

  lemma {:induction false} ChecksLink(n: Net, p: Purpose, env: Env)
    requires n.sector.Shaped() && n.pc == Check(p)
    ensures TaskStep(n, env).pc == if JoinedTo(n.link, Settings(n, p), env.link) then TellMqtt(p) else TellWifi(p)
  {
    hide JoinedTo;
  }

  lemma {:induction false} NewOnline(n: Net, env: Env, k: nat)
    requires n.sector.Shaped() && |n.log| <= k < |TaskStep(n, env).log|
    ensures var x := TaskStep(n, env).log[k];
            && (x.Tried? && x.o == IsOnline ==> n.pc.Waiting? && x.c == Settings(n, n.pc.p))
            && (x.Committed? ==> n.pc == Saving && x.c == n.candidate)
  {
    hide BringUpStep, FailureStep, ServiceStep, StartUpStep;
    if InBringUp(n.pc) { BringUpOnline(n, env, k); }
    else if InFailure(n.pc) { FailureOnline(n, k); }
    else if InService(n.pc) { ServiceOnline(n, env, k); }
    else { StartUpOnline(n, env.luck, k); }
  }

  lemma {:induction false} BringUpOnline(n: Net, env: Env, k: nat)
    requires InBringUp(n.pc) && |n.log| <= k < |BringUpStep(n, env).log|
    ensures var x := BringUpStep(n, env).log[k];
            !x.Committed? && (x.Tried? && x.o == IsOnline ==> n.pc.Waiting? && x.c == Settings(n, n.pc.p))
  {
    hide Untouched, Kept, JoinedTo, Report, JoinStops, AwaitFails, SourceOf, AttemptOf, NetworkOf, BLANK;
  }

  lemma {:induction false} FailureOnline(n: Net, k: nat)
    requires InFailure(n.pc) && |n.log| <= k < |FailureStep(n).log|
    ensures FailureStep(n).log[k].GaveUp?
  {
    hide Untouched, Kept, Report, StartBle, Counted, LastTry, MoreFails, TooMany, BLANK;
  }

  lemma {:induction false} ServiceOnline(n: Net, env: Env, k: nat)
    requires InService(n.pc) && n.sector.Shaped() && |n.log| <= k < |ServiceStep(n, env).log|
    ensures var x := ServiceStep(n, env).log[k]; x.Committed? && n.pc == Saving && x.c == n.candidate
  {
    hide Untouched, Kept, Report, SaveTo, RadioDone, BleProvision.Stop, BLANK;
  }

  lemma {:induction false} StartUpOnline(n: Net, luck: Luck, k: nat)
    requires !InBringUp(n.pc) && !InFailure(n.pc) && !InService(n.pc) && n.sector.Shaped()
    requires |n.log| <= k < |StartUpStep(n, luck).log|
    ensures var x := StartUpStep(n, luck).log[k]; !x.Tried? && !x.Committed?
  {
    hide Untouched, Kept, Report, StartBle, LoadFrom, EraseAll, BleProvision.Take, BLANK;
  }

  /** Over every run, settings that come online, and settings that are committed,
      do so while the network that is up is one that was asked for with exactly
      their name and their password: a mistyped password is never committed over
      an older association. */
  lemma {:induction false} OnlineOnOwnNetwork(s: Sector, build: Build, es: seq<Event>, env: Env, k: nat)
    requires s.Shaped()
    ensures Run(PowerOn(s, build), es).sector.Shaped()
    ensures var n := Run(PowerOn(s, build), es);
            var m := TaskStep(n, env);
            |n.log| <= k < |m.log| ==>
              && (m.log[k].Tried? && m.log[k].o == IsOnline ==>
                    Associated(n.air) == Some(Network(UpToNul(m.log[k].c.ssid), UpToNul(m.log[k].c.password))))
              && (m.log[k].Committed? ==>
                    Associated(n.air) == Some(Network(UpToNul(m.log[k].c.ssid), UpToNul(m.log[k].c.password))))
  {
    hide Inv, Run, PowerOn, TaskStep, Associated, UpToNul, Settings, LinkOk;
    var n := Run(PowerOn(s, build), es);
    ShapedAndSound(n);
    AirAlways(s, build, es);
    if |n.log| <= k < |TaskStep(n, env).log| { NewOnline(n, env, k); }
  }

  // ---- how a session ends ----

  /** Link readings in a row that were not "joined", since the session began. */
  function BadReadings(n: Net, es: seq<Event>): nat
    requires Inv(n)
    decreases |es|
  {
    if es == [] then 0
    else
      var before, e := Run(n, es[..|es| - 1]), es[|es| - 1];
      if e.Task? && before.pc.Linking? then
        if e.env.link == LinkJoin then 0 else BadReadings(n, es[..|es| - 1]) + 1
      else if e.Task? && (before.pc.TellSaved? || before.pc.TellOnline?) then 0
      else BadReadings(n, es[..|es| - 1])
  }

  /** What one step does to the session. */
  lemma {:induction false} SessionStep(n: Net, env: Env)
    requires n.sector.Shaped()
    ensures var m := TaskStep(n, env);
            SessionOf(m.pc).Some? ==>
              if n.pc.TellSaved? || n.pc.TellOnline? then SessionOf(m.pc).value.bad == 0
              else SessionOf(n.pc).Some? && SessionOf(m.pc).value.bad ==
                   if !n.pc.Linking? then SessionOf(n.pc).value.bad
                   else if env.link == LinkJoin then 0 else SessionOf(n.pc).value.bad + 1
  {
    hide BringUpStep, FailureStep, ServiceStep, StartUpStep;
    if InBringUp(n.pc) { BringUpNoSession(n, env); }
    else if InFailure(n.pc) { FailureNoSession(n); }
    else if InService(n.pc) { ServiceSession(n, env); }
    else { StartUpNoSession(n, env.luck); }
  }

  lemma {:induction false} BringUpNoSession(n: Net, env: Env)
    requires InBringUp(n.pc)
    ensures SessionOf(BringUpStep(n, env).pc) == None
  {
    hide Untouched, Kept, JoinedTo, Report, JoinStops, AwaitFails, SourceOf, AttemptOf, NetworkOf, BLANK, Settings;
  }

  lemma {:induction false} FailureNoSession(n: Net)
    requires InFailure(n.pc)
    ensures SessionOf(FailureStep(n).pc) == None
  {
    hide Untouched, Kept, Report, StartBle, Counted, LastTry, MoreFails, TooMany, BLANK;
  }

  lemma {:induction false} StartUpNoSession(n: Net, luck: Luck)
    requires !InBringUp(n.pc) && !InFailure(n.pc) && !InService(n.pc) && n.sector.Shaped()
    ensures SessionOf(StartUpStep(n, luck).pc) == None
  {
    hide Untouched, Kept, Report, StartBle, LoadFrom, EraseAll, BleProvision.Take, BLANK, Found;
  }

  lemma {:induction false} ServiceSession(n: Net, env: Env)
    requires InService(n.pc) && n.sector.Shaped()
    ensures var m := ServiceStep(n, env);
            SessionOf(m.pc).Some? ==>
              if n.pc.TellSaved? || n.pc.TellOnline? then SessionOf(m.pc).value.bad == 0
              else SessionOf(n.pc).Some? && SessionOf(m.pc).value.bad ==
                   if !n.pc.Linking? then SessionOf(n.pc).value.bad
                   else if env.link == LinkJoin then 0 else SessionOf(n.pc).value.bad + 1
  {
    hide Untouched, Kept, Report, SaveTo, RadioDone, BleProvision.Stop, BLANK;
  }

  lemma {:induction false} BadIsCounted(s: Sector, build: Build, es: seq<Event>)
    requires s.Shaped()
    ensures var n := Run(PowerOn(s, build), es);
            SessionOf(n.pc).Some? ==> SessionOf(n.pc).value.bad == BadReadings(PowerOn(s, build), es)
    decreases |es|
  {
    hide Inv, Step, Run, PowerOn, TaskStep;
    var n := PowerOn(s, build);
    if es == [] {
      RunStarts(n, es);
      NoSessionAtStart(s, build);
    } else {
      var rest, e := es[..|es| - 1], es[|es| - 1];
      assert es == rest + [e];
      RunSnoc(n, rest, e);
      BadIsCounted(s, build, rest);
      SessionAfter(Run(n, rest), e);
    }
  }

  lemma {:induction false} NoSessionAtStart(s: Sector, build: Build)
    requires s.Shaped()
    ensures SessionOf(PowerOn(s, build).pc) == None
  {
  }

  lemma {:induction false} SessionAfter(n: Net, e: Event)
    requires Inv(n)
    ensures n.sector.Shaped() && BleProvision.Inv(n.ble)
    ensures var m := Step(n, e);
            SessionOf(m.pc).Some? ==>
              && !e.Reboot?
              && if e.Task? && (n.pc.TellSaved? || n.pc.TellOnline?) then SessionOf(m.pc).value.bad == 0
                 else SessionOf(n.pc).Some? && SessionOf(m.pc).value.bad ==
                      if !e.Task? || !n.pc.Linking? then SessionOf(n.pc).value.bad
                      else if e.env.link == LinkJoin then 0 else SessionOf(n.pc).value.bad + 1
  {
    hide Inv, TaskStep, BleProvision.Step, BleProvision.Inv;
    ShapedAndSound(n);
    if e.Task? { SessionStep(n, e.env); }
  }

  /** Over every run, a round online that looks at the link ends the session
      exactly if this was the fifth reading in a row that was not "joined", or the
      client is no longer connected; and exactly in the first case the network is
      taken to be lost, so that the next bring-up joins again. */
  lemma {:induction false} SessionEndsIff(s: Sector, build: Build, es: seq<Event>, n: Net, env: Env)
    requires s.Shaped() && n == Run(PowerOn(s, build), es) && n.pc.Linking?
    ensures n.sector.Shaped()
    ensures var bad := if env.link == LinkJoin then 0 else BadReadings(PowerOn(s, build), es) + 1;
            var m := TaskStep(n, env);
            && (m.pc.Leaving? <==> bad >= 5 || !env.clientUp) && (m.pc.Online? <==> bad < 5 && env.clientUp)
            && m.air == (if bad >= 5 then n.air + [Dropped] else n.air)
            && (bad >= 5 ==> !m.link.up) && (bad < 5 ==> m.link == n.link)
  {
    hide Run, PowerOn, Inv, BadReadings, TaskStep;
    ShapedAndSound(n);
    BadIsCounted(s, build, es);
    LinkRead(n, env);
  }

  lemma {:induction false} LinkRead(n: Net, env: Env)
    requires n.sector.Shaped() && n.pc.Linking?
    ensures var bad := if env.link == LinkJoin then 0 else n.pc.s.bad + 1;
            var m := TaskStep(n, env);
            && (m.pc.Leaving? <==> bad >= 5 || !env.clientUp) && (m.pc.Online? <==> bad < 5 && env.clientUp)
            && m.air == (if bad >= 5 then n.air + [Dropped] else n.air)
            && (bad >= 5 ==> !m.link.up) && (bad < 5 ==> m.link == n.link)
  {
    hide Untouched, Kept;
  }
}
