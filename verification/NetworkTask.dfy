/** The network task: bring-up, trial of new settings, fallback to BLE, as a
    machine whose steps each touch the shared state at most once, so that the
    callbacks of the radio may come between any two of them. */
module NetworkTask {
  import opened Config
  import opened Ipv4
  import opened NetConfig
  import opened ConfigFlash
  import opened NotifyQueue
  import opened BleProvision

  /** Who a bring-up is for: the settings in use, or a candidate on trial. */
  datatype Purpose = Steady | Trial(attempt: nat, wifiTries: nat, mqttTries: nat)

  datatype Outcome = IsOnline | WifiFailed | MqttFailed | Aborted

  /** A stretch online: on a commit or not, since when, and how many bad link
      readings in a row. */
  datatype Session = Session(trial: bool, since: nat, bad: nat)

  /** Where the task is; a wait carries the time it gives up. */
  datatype Pc =
    | Load(boot: bool) | Advertise(boot: bool) | Announce(boot: bool) | Refresh
    | Head | Sleep | Forgetting | Taking
    | Check(p: Purpose) | TellWifi(p: Purpose) | Joining(p: Purpose, until: nat)
    | TellMqtt(p: Purpose) | Connecting(p: Purpose) | Waiting(p: Purpose, until: nat)
    | TellFailed(p: Purpose, o: Outcome, reason: int8) | Fallback | Pause(p: Purpose)
    | Saving | TellSaved(saved: bool) | TellOnline
    | Online(s: Session) | Serving(s: Session) | Stopping(s: Session) | Linking(s: Session) | Leaving(s: Session)
    | Reverting | TellBlank

  /** What the task did, as far as settings are concerned. */
  datatype Entry =
    | Loaded(source: Source, c: NetConfig)
    | Took(c: NetConfig)
    | Tried(trial: bool, c: NetConfig, o: Outcome)
    | Committed(c: NetConfig, saved: bool)
    | GaveUp(interrupted: bool)
    | Wiped(done: bool)
    | NothingTaken
    | Rebooted

  /** The settings the hub runs on, and where they came from. */
  datatype Use = Use(settings: NetConfig, have: bool, source: uint8)

  /** The network Wi-Fi was last joined to. */
  datatype Link = Link(joined: NetConfig, up: bool)

  /** A Wi-Fi network as the radio is asked for it: name and password as C strings. */
  datatype Network = Network(ssid: seq<byte>, password: seq<byte>)

  /** What happened on the air since power came on: a network was left and this
      one asked for, what was asked for came up, or what was up was given up. */
  datatype Air = Asked(network: Network) | CameUp | Dropped

  /** Failures of the settings in use since they last worked. */
  datatype Fails = Fails(wifi: nat, mqtt: nat)

  datatype Net = Net(pc: Pc, use: Use, candidate: NetConfig, link: Link, events: set<Bit>, pending: set<Bit>,
                     fails: Fails, sector: Sector, build: Build, ble: Ble, log: seq<Entry>, air: seq<Air>)

  /** A reading of the Wi-Fi link status. */
  datatype LinkStatus = LinkDown | LinkJoin | LinkNoIp | LinkUp | LinkFail | LinkNoNet | LinkBadAuth

  /** What the connection callback last said, Pending while it has said nothing. */
  datatype BrokerStatus = Pending | Accepted | Refused | BrokerTimeout | BrokerGone

  /** The environment's part of one step: the time in milliseconds, the link as
      read first and again, whether the Wi-Fi and broker requests are taken, the
      broker's answer, whether the client still counts as connected, our address
      and the luck of the flash. */
  datatype Env = Env(now: nat, link: LinkStatus, linkAfter: LinkStatus, wifiAsks: bool, mqttAsks: bool,
                     broker: BrokerStatus, clientUp: bool, ip: Ip, luck: Luck)

  const NO_LINK: Link := Link(BLANK, false)
  const WIFI_JOIN_TIMEOUT_MS: nat := 15000
  const MQTT_CONNECT_TIMEOUT_MS: nat := 10000
  const BLE_OFF_GRACE_MS: nat := 20000
  const BLE_ONLINE_MAX_MS: nat := 300000
  const BAD_LINK_READINGS: nat := 5

  function NetworkOf(c: NetConfig): Network {
    Network(UpToNul(c.ssid), UpToNul(c.password))
  }

  // ---- pieces of a step ----

  function Report(b: Ble, state: uint8, reason: int8, source: uint8, attempt: nat, ip: Ip): Ble {
    if b.active then PushStatus(b, Status(state, reason, ip, attempt % 0x100, source)) else b
  }

  function StartBle(b: Ble, use: Use): Ble {
    Start(b, if use.have then use.settings else BLANK)
  }

  /** The settings in use and the flash stay as they are; the history only grows. */
  ghost predicate Kept(n: Net, m: Net) {
    m.use == n.use && m.sector == n.sector && m.build == n.build && n.log <= m.log
  }

  /** So they do, and what is added tells of attempts and trials that ended. */
  ghost predicate Untouched(n: Net, m: Net) {
    && Kept(n, m)
    && forall k {:trigger m.log[k]} :: |n.log| <= k < |m.log| ==> m.log[k].Tried? || m.log[k].GaveUp?
  }

  /** wait_events: collect what was signalled. */
  function Merge(n: Net): (m: Net)
    ensures Untouched(n, m)
  {
    n.(events := n.events + n.pending, pending := {})
  }

  predicate Interrupted(n: Net) {
    Commit in n.events || Forget in n.events
  }

  function BackToHead(n: Net): (m: Net)
    ensures Untouched(n, m)
  {
    n.(pc := Head, fails := Fails(0, 0))
  }

  /** A trial that ends without a commit: the candidate is wiped. */
  function DropCandidate(n: Net, interrupted: bool): (m: Net)
    ensures Untouched(n, m)
  {
    n.(pc := Head, fails := Fails(0, 0), candidate := BLANK, log := n.log + [GaveUp(interrupted)])
  }

  function Settings(n: Net, p: Purpose): NetConfig {
    if p.Steady? then n.use.settings else n.candidate
  }

  function SourceOf(n: Net, p: Purpose): uint8 {
    if p.Steady? then n.use.source else CANDIDATE
  }

  function AttemptOf(n: Net, p: Purpose): nat {
    if p.Steady? then n.fails.wifi + n.fails.mqtt + 1 else p.attempt
  }

  predicate SameText(a: Text, b: Text) {
    0 in a && 0 in b && CString(a) == CString(b)
  }

  predicate JoinedTo(link: Link, c: NetConfig, status: LinkStatus) {
    link.up && status == LinkUp && SameText(link.joined.ssid, c.ssid) && SameText(link.joined.password, c.password)
  }

  // ---- start-up and forget ----

  function Found(use: Use, src: Source, c: NetConfig): Use {
    match src
    case FromFlash => Use(c, true, STORED)
    case FromBuild => Use(c, true, BUILD_DEFAULTS)
    case FromNone => Use(BLANK, false, use.source)
  }

  function DoLoad(n: Net, boot: bool): Net
    requires |n.sector.bytes| == SECTOR
  {
    var (src, c) := LoadFrom(n.sector, n.build);
    n.(use := Found(n.use, src, c), log := n.log + [Loaded(src, c)],
       pc := if src == FromNone then Advertise(boot) else if boot then Head else Refresh)
  }

  function DoAdvertise(n: Net, boot: bool): (m: Net)
    ensures Untouched(n, m)
  {
    n.(ble := StartBle(n.ble, n.use), pc := Announce(boot))
  }

  function DoAnnounce(n: Net, boot: bool): (m: Net)
    ensures Untouched(n, m)
  {
    n.(ble := Report(n.ble, UNPROVISIONED, 0, STORED, 0, NO_IP), pc := if boot then Head else Refresh)
  }

  function DoRefresh(n: Net): (m: Net)
    ensures Untouched(n, m)
  {
    BackToHead(if n.ble.active then n.(ble := StartBle(n.ble, n.use)) else n)
  }

  function DoForget(n: Net, luck: Luck): Net {
    var (ok, s) := EraseAll(n.sector, luck);
    n.(sector := s, link := NO_LINK, log := n.log + [Wiped(ok)], air := n.air + [Dropped], pc := Load(false))
  }

  // ---- the loop head ----

  function AtHead(n: Net): (m: Net)
    ensures Untouched(n, m)
  {
    if Forget in n.events then n.(events := n.events - {Forget}, pc := Forgetting)
    else if Commit in n.events then n.(events := n.events - {Commit}, pc := Taking)
    else n.(events := n.events - {ClientLeft}, pc := if n.use.have then Check(Steady) else Sleep)
  }

  function DoSleep(n: Net): (m: Net)
    ensures Untouched(n, m)
  {
    Merge(n).(pc := Head)
  }

  function DoTake(n: Net): (m: Net)
    ensures Kept(n, m)
  {
    var (b, c) := Take(n.ble);
    if c == None then BackToHead(n).(log := n.log + [NothingTaken])
    else n.(ble := b, candidate := c.value, log := n.log + [Took(c.value)], pc := Check(Trial(1, 0, 0)))
  }

  // ---- bring-up ----

  /** A bring-up that is over, and where the task goes from there. */
  function Ended(n: Net, p: Purpose, o: Outcome, reason: int8): (m: Net)
    ensures Untouched(n, m)
  {
    var m := n.(log := n.log + [Tried(p.Trial?, Settings(n, p), o)]);
    match o
    case IsOnline => if p.Steady? then m.(fails := Fails(0, 0), pc := TellOnline) else m.(pc := Saving)
    case Aborted => if p.Steady? then m.(pc := Head) else DropCandidate(m, true)
    case _ => m.(pc := TellFailed(p, o, reason))
  }

  function DoCheck(n: Net, p: Purpose, status: LinkStatus): (m: Net)
    ensures Untouched(n, m)
  {
    n.(pc := if JoinedTo(n.link, Settings(n, p), status) then TellMqtt(p) else TellWifi(p))
  }

  /** Report, leave the old network and ask for the new one. */
  function DoTellWifi(n: Net, p: Purpose, env: Env): (m: Net)
    ensures Untouched(n, m)
  {
    var b := Report(n.ble, WIFI_CONNECTING, 0, SourceOf(n, p), AttemptOf(n, p), NO_IP);
    var m := n.(ble := b, link := NO_LINK, air := n.air + [Asked(NetworkOf(Settings(n, p)))]);
    if env.wifiAsks then m.(pc := Joining(p, env.now + WIFI_JOIN_TIMEOUT_MS)) else Ended(m, p, WifiFailed, 3)
  }

  /** Why the join loop stops at this turn, if it does: the link is up (0), no
      network or timeout (1), bad password (2), other (3). */
  function JoinStops(until: nat, env: Env): Option<int8> {
    if env.link == LinkUp then Some(0)
    else if env.link == LinkBadAuth then Some(2)
    else if env.link == LinkFail || (env.link == LinkNoNet && !env.wifiAsks) then Some(3)
    else if env.now >= until then Some(1)
    else None
  }

  /** One turn of the join loop; once it has stopped the link is read again. */
  function Join(n: Net, p: Purpose, until: nat, env: Env): (m: Net)
    ensures Untouched(n, m)
  {
    match JoinStops(until, env)
    case Some(reason) =>
      if env.linkAfter == LinkUp then n.(link := Link(Settings(n, p), true), air := n.air + [CameUp], pc := TellMqtt(p))
      else Ended(n.(link := NO_LINK), p, WifiFailed, reason)
    case None =>
      var m := Merge(n);
      if Interrupted(m) then Ended(m.(link := NO_LINK), p, Aborted, 0) else m
  }

  function DoTellMqtt(n: Net, p: Purpose): (m: Net)
    ensures Untouched(n, m)
  {
    n.(ble := Report(n.ble, MQTT_CONNECTING, 0, SourceOf(n, p), AttemptOf(n, p), NO_IP), pc := Connecting(p))
  }

  function StartMqtt(n: Net, p: Purpose, env: Env): (m: Net)
    ensures Untouched(n, m)
  {
    if env.mqttAsks then n.(pc := Waiting(p, env.now + MQTT_CONNECT_TIMEOUT_MS)) else Ended(n, p, MqttFailed, 3)
  }

  /** Why the wait for the broker fails at this turn, if it does: timeout (1),
      refused (2), connection lost (3). */
  function AwaitFails(until: nat, env: Env): Option<int8> {
    match env.broker
    case BrokerTimeout => Some(1)
    case Refused => Some(2)
    case BrokerGone => Some(3)
    case _ => if env.now >= until then Some(1) else None
  }

  function AwaitBroker(n: Net, p: Purpose, until: nat, env: Env): (m: Net)
    ensures Untouched(n, m)
  {
    if env.broker == Accepted then Ended(n, p, IsOnline, 0)
    else
      match AwaitFails(until, env)
      case Some(reason) => Ended(n, p, MqttFailed, reason)
      case None =>
        var m := Merge(n);
        if Interrupted(m) then Ended(m, p, Aborted, 0) else m
  }

  // ---- a failed attempt ----

  function Counted(p: Purpose, o: Outcome): Purpose
    requires p.Trial?
  {
    if o == WifiFailed then p.(wifiTries := p.wifiTries + 1) else p.(mqttTries := p.mqttTries + 1)
  }

  function MoreFails(f: Fails, o: Outcome): Fails {
    if o == WifiFailed then f.(wifi := f.wifi + 1) else f.(mqtt := f.mqtt + 1)
  }

  predicate TooMany(f: Fails) {
    f.wifi >= NET_WIFI_FAILS_BEFORE_BLE || f.mqtt >= NET_MQTT_FAILS_BEFORE_BLE
  }

  predicate LastTry(p: Purpose)
    requires p.Trial?
  {
    p.wifiTries >= NET_CANDIDATE_WIFI_TRIES || p.mqttTries >= NET_CANDIDATE_MQTT_TRIES
  }

  function FailState(o: Outcome): uint8 {
    if o == WifiFailed then WIFI_FAILED else MQTT_FAILED
  }

  /** Report a failed attempt, count it, and decide what comes next. */
  function Failed(n: Net, p: Purpose, o: Outcome, reason: int8): (m: Net)
    ensures Untouched(n, m)
  {
    var b := Report(n.ble, FailState(o), reason, SourceOf(n, p), AttemptOf(n, p), NO_IP);
    if p.Steady? then
      var f := MoreFails(n.fails, o);
      n.(ble := b, fails := f, pc := if !b.active && TooMany(f) then Fallback else Pause(Steady))
    else
      var q := Counted(p, o);
      n.(ble := b, pc := if LastTry(q) then Reverting else Pause(q))
  }

  function DoFallback(n: Net): (m: Net)
    ensures Untouched(n, m)
  {
    n.(ble := StartBle(n.ble, n.use), pc := Pause(Steady))
  }

  function AfterPause(n: Net, p: Purpose): (m: Net)
    ensures Untouched(n, m)
  {
    var m := Merge(n);
    if p.Steady? then m.(pc := Head)
    else if Interrupted(m) then DropCandidate(m, true)
    else m.(pc := Check(p.(attempt := p.attempt + 1)))
  }

  // ---- the end of a trial ----

  function Revert(n: Net): (m: Net)
    ensures Untouched(n, m)
  {
    var b := Report(n.ble, REVERTED, 0, n.use.source, 0, NO_IP);
    var m := DropCandidate(n.(ble := b), false);
    if n.use.have then m else m.(pc := TellBlank)
  }

  function DoTellBlank(n: Net): (m: Net)
    ensures Untouched(n, m)
  {
    BackToHead(n.(ble := Report(n.ble, UNPROVISIONED, 0, STORED, 0, NO_IP)))
  }

  function DoSave(n: Net, luck: Luck): Net
    requires n.sector.Shaped()
  {
    var (ok, s) := SaveTo(n.sector, n.candidate, luck);
    n.(sector := s, use := Use(n.candidate, true, STORED), candidate := BLANK, log := n.log + [Committed(n.candidate, ok)],
       pc := TellSaved(ok))
  }

  // ---- online ----

  function DoTellSaved(n: Net, saved: bool, env: Env): (m: Net)
    ensures Untouched(n, m)
  {
    var b := if saved then Report(n.ble, ONLINE, 0, STORED, 0, env.ip) else Report(n.ble, SAVE_FAILED, 0, CANDIDATE, 0, NO_IP);
    n.(ble := b, events := n.events - {ClientLeft}, pc := Online(Session(true, env.now, 0)))
  }

  function DoTellOnline(n: Net, env: Env): (m: Net)
    ensures Untouched(n, m)
  {
    n.(ble := Report(n.ble, ONLINE, 0, n.use.source, 0, env.ip), events := n.events - {ClientLeft},
       pc := Online(Session(false, env.now, 0)))
  }

  function Poll(n: Net, s: Session, broker: BrokerStatus): (m: Net)
    ensures Untouched(n, m)
  {
    if broker != Accepted then n.(pc := Leaving(s))
    else
      var m := Merge(n);
      m.(pc := if Interrupted(m) then Leaving(s) else Serving(s))
  }

  /** BLE goes off when its client left, after a grace period without one, and
      at last in any case. */
  predicate RadioDone(b: Ble, events: set<Bit>, online: int) {
    b.active && (ClientLeft in events || (online >= BLE_OFF_GRACE_MS && !b.connected) || online >= BLE_ONLINE_MAX_MS)
  }

  function Serve(n: Net, s: Session, now: nat): (m: Net)
    ensures Untouched(n, m)
  {
    n.(pc := if RadioDone(n.ble, n.events, now - s.since) then Stopping(s) else Linking(s))
  }

  function DoStop(n: Net, s: Session): (m: Net)
    ensures Untouched(n, m)
  {
    n.(ble := Stop(n.ble), pc := Linking(s))
  }

  /** Five bad link readings in a row mean Wi-Fi is gone; a client that is not
      connected any more, only the broker. */
  function WatchLink(n: Net, s: Session, env: Env): (m: Net)
    ensures Untouched(n, m)
  {
    var bad := if env.link == LinkJoin then 0 else s.bad + 1;
    var t := s.(bad := bad);
    n.(events := n.events - {ClientLeft},
       link := if bad >= BAD_LINK_READINGS then n.link.(up := false) else n.link,
       air := if bad >= BAD_LINK_READINGS then n.air + [Dropped] else n.air,
       pc := if bad >= BAD_LINK_READINGS || !env.clientUp then Leaving(t) else Online(t))
  }

  function Leave(n: Net, s: Session): (m: Net)
    ensures Untouched(n, m)
  {
    if s.trial then BackToHead(n)
    else if Interrupted(n) then n.(pc := Head)
    else Merge(n).(pc := Head)
  }

  // ---- the whole machine ----

  predicate InBringUp(pc: Pc) {
    pc.Check? || pc.TellWifi? || pc.Joining? || pc.TellMqtt? || pc.Connecting? || pc.Waiting?
  }

  predicate InFailure(pc: Pc) {
    pc.TellFailed? || pc.Fallback? || pc.Pause? || pc.Reverting? || pc.TellBlank?
  }

  predicate InService(pc: Pc) {
    pc.Saving? || pc.TellSaved? || pc.TellOnline? || pc.Online? || pc.Serving? || pc.Stopping? || pc.Linking? || pc.Leaving?
  }

  function BringUpStep(n: Net, env: Env): Net
    requires InBringUp(n.pc)
  {
    match n.pc
    case Check(p) => DoCheck(n, p, env.link)
    case TellWifi(p) => DoTellWifi(n, p, env)
    case Joining(p, until) => Join(n, p, until, env)
    case TellMqtt(p) => DoTellMqtt(n, p)
    case Connecting(p) => StartMqtt(n, p, env)
    case Waiting(p, until) => AwaitBroker(n, p, until, env)
  }

  function FailureStep(n: Net): Net
    requires InFailure(n.pc)
  {
    match n.pc
    case TellFailed(p, o, reason) => Failed(n, p, o, reason)
    case Fallback => DoFallback(n)
    case Pause(p) => AfterPause(n, p)
    case Reverting => Revert(n)
    case TellBlank => DoTellBlank(n)
  }

  function ServiceStep(n: Net, env: Env): Net
    requires InService(n.pc) && n.sector.Shaped()
  {
    match n.pc
    case Saving => DoSave(n, env.luck)
    case TellSaved(saved) => DoTellSaved(n, saved, env)
    case TellOnline => DoTellOnline(n, env)
    case Online(s) => Poll(n, s, env.broker)
    case Serving(s) => Serve(n, s, env.now)
    case Stopping(s) => DoStop(n, s)
    case Linking(s) => WatchLink(n, s, env)
    case Leaving(s) => Leave(n, s)
  }

  function StartUpStep(n: Net, luck: Luck): Net
    requires !InBringUp(n.pc) && !InFailure(n.pc) && !InService(n.pc) && n.sector.Shaped()
  {
    match n.pc
    case Load(boot) => DoLoad(n, boot)
    case Advertise(boot) => DoAdvertise(n, boot)
    case Announce(boot) => DoAnnounce(n, boot)
    case Refresh => DoRefresh(n)
    case Head => AtHead(n)
    case Sleep => DoSleep(n)
    case Forgetting => DoForget(n, luck)
    case Taking => DoTake(n)
  }

  function TaskStep(n: Net, env: Env): Net
    requires n.sector.Shaped()
  {
    if InBringUp(n.pc) then BringUpStep(n, env)
    else if InFailure(n.pc) then FailureStep(n)
    else if InService(n.pc) then ServiceStep(n, env)
    else StartUpStep(n, env.luck)
  }

  /** A start with nothing in memory. */
  function Boot(sector: Sector, build: Build, log: seq<Entry>): Net {
    Net(Load(true), Use(BLANK, false, STORED), BLANK, NO_LINK, {}, {}, Fails(0, 0), sector, build, Init(), log, [])
  }

  /** A step of the task, a callback of the radio, or a loss of power. */
  datatype Event = Task(env: Env) | Client(e: BleProvision.Event) | Reboot

  function Step(n: Net, e: Event): Net
    requires n.sector.Shaped() && BleProvision.Inv(n.ble)
  {
    match e
    case Task(env) => TaskStep(n, env)
    case Client(c) =>
      PrepOkShape(n.ble.prep);
      var (b, _, bits) := BleProvision.Step(n.ble, c);
      n.(ble := b, pending := n.pending + bits)
    case Reboot => Boot(n.sector, n.build, n.log + [Rebooted])
  }

  // ---- what the history says ----

  /** The candidate on trial. */
  function LastTook(log: seq<Entry>): Option<NetConfig> {
    if log == [] then None
    else match log[|log| - 1]
      case Took(c) => Some(c)
      case Tried(_, _, _) => LastTook(log[..|log| - 1])
      case _ => None
  }

  /** How many attempts of the trial in progress came to this outcome. */
  function TrialCount(log: seq<Entry>, o: Outcome): nat {
    if log == [] || !log[|log| - 1].Tried? then 0
    else TrialCount(log[..|log| - 1], o) + if log[|log| - 1].trial && log[|log| - 1].o == o then 1 else 0
  }

  /** The trial in progress has no attempt left. */
  predicate Exhausted(log: seq<Entry>) {
    TrialCount(log, WifiFailed) >= 2 || TrialCount(log, MqttFailed) >= 3
  }

  /** The settings last loaded or committed since power came on. */
  function LastUse(log: seq<Entry>): Option<NetConfig> {
    if log == [] then None
    else match log[|log| - 1]
      case Committed(c, _) => Some(c)
      case Loaded(src, c) => if src == FromNone then None else Some(c)
      case Rebooted => None
      case _ => LastUse(log[..|log| - 1])
  }

  /** The settings the flash was last told to keep, if it said it did. */
  function LastSaved(log: seq<Entry>): Option<NetConfig> {
    if log == [] then None
    else match log[|log| - 1]
      case Committed(c, saved) => if saved then Some(c) else None
      case Wiped(done) => if done then None else LastSaved(log[..|log| - 1])
      case _ => LastSaved(log[..|log| - 1])
  }

  /** What may follow a history: a load only first of all or right after a
      reboot or a wipe; a commit only right after this very candidate came
      online; a trial only of the candidate taken last and only while it has
      attempts left, any other attempt only with the settings in use; giving up
      only on a trial, and uninterrupted only when it has no attempt left. */
  ghost predicate EntryOk(before: seq<Entry>, x: Entry) {
    match x
    case Loaded(_, _) => before == [] || before[|before| - 1].Rebooted? || before[|before| - 1].Wiped?
    case Committed(c, _) => before != [] && before[|before| - 1] == Tried(true, c, IsOnline)
    case Tried(trial, c, o) =>
      if trial then LastTook(before) == Some(c) && !Exhausted(before)
      else LastTook(before) == None && LastUse(before) == Some(c)
    case GaveUp(interrupted) => LastTook(before).Some? && (!interrupted <==> Exhausted(before))
    case Took(c) => LastTook(before) == None && Valid(c)
    case _ => true
  }

  ghost predicate LogOk(log: seq<Entry>) {
    forall k {:trigger log[k]} :: 0 <= k < |log| ==> EntryOk(log[..k], log[k])
  }

  lemma {:induction false} LogGrows(log: seq<Entry>, x: Entry)
    requires LogOk(log) && EntryOk(log, x)
    ensures LogOk(log + [x])
  {
    hide EntryOk;
    var l := log + [x];
    forall k {:trigger l[k]} | 0 <= k < |l| ensures EntryOk(l[..k], l[k]) {
      if k < |log| { assert l[..k] == log[..k]; } else { assert l[..k] == log; }
    }
  }

  lemma {:induction false} Grown(log: seq<Entry>, x: Entry)
    ensures LastTook(log + [x]) == match x case Took(c) => Some(c) case Tried(_, _, _) => LastTook(log) case _ => None
    ensures forall o {:trigger TrialCount(log + [x], o)} :: TrialCount(log + [x], o) ==
              if x.Tried? then TrialCount(log, o) + (if x.trial && x.o == o then 1 else 0) else 0
    ensures LastUse(log + [x]) == match x
              case Committed(c, _) => Some(c)
              case Loaded(src, c) => if src == FromNone then None else Some(c)
              case Rebooted => None
              case _ => LastUse(log)
    ensures LastSaved(log + [x]) == match x
              case Committed(c, saved) => if saved then Some(c) else None
              case Wiped(done) => if done then None else LastSaved(log)
              case _ => LastSaved(log)
  {
    assert (log + [x])[..|log|] == log;
  }

  // ---- the invariant ----

  function PurposeOf(pc: Pc): Option<Purpose> {
    match pc
    case Check(p) => Some(p)
    case TellWifi(p) => Some(p)
    case Joining(p, _) => Some(p)
    case TellMqtt(p) => Some(p)
    case Connecting(p) => Some(p)
    case Waiting(p, _) => Some(p)
    case TellFailed(p, _, _) => Some(p)
    case Pause(p) => Some(p)
    case _ => None
  }

  function SessionOf(pc: Pc): Option<Session> {
    match pc
    case Online(s) => Some(s)
    case Serving(s) => Some(s)
    case Stopping(s) => Some(s)
    case Linking(s) => Some(s)
    case Leaving(s) => Some(s)
    case _ => None
  }

  predicate OnTrial(pc: Pc) {
    pc.Saving? || pc.Reverting? || (PurposeOf(pc).Some? && PurposeOf(pc).value.Trial?)
  }

  predicate IsServing(pc: Pc, trial: bool) {
    SessionOf(pc).Some? && SessionOf(pc).value.trial == trial
  }

  predicate NeedsSettings(pc: Pc) {
    PurposeOf(pc) == Some(Steady) || pc.Fallback? || pc.TellSaved? || pc.TellOnline? || SessionOf(pc).Some?
  }

  /** The settings in use are valid, and the ones last loaded or committed. */
  ghost predicate UseOk(use: Use, log: seq<Entry>) {
    if use.have then Valid(use.settings) && LastUse(log) == Some(use.settings)
    else use.settings == BLANK && LastUse(log) == None
  }

  /** A candidate is kept only while it is on trial. */
  ghost predicate CandidateOk(onTrial: bool, c: NetConfig, log: seq<Entry>) {
    if onTrial then Valid(c) && LastTook(log) == Some(c) else c == BLANK && LastTook(log) == None
  }

  /** What the flash said it keeps is what the next boot will find. */
  ghost predicate FlashOk(s: Sector, build: Build, log: seq<Entry>) {
    s.Shaped() && (LastSaved(log).Some? ==> LoadFrom(s, build) == (FromFlash, Canonical(LastSaved(log).value)))
  }

  /** Without settings the radio is on; with the radio off the settings in use
      have not failed often enough; the exceptions are the steps that are about
      to turn it on and a commit being served. */
  ghost predicate Reachable(pc: Pc, have: bool, radio: bool, fails: Fails) {
    && (!have && !radio ==> pc.Load? || pc.Advertise?)
    && (!radio && TooMany(fails) ==> pc.Fallback? || IsServing(pc, true))
    && (pc.TellOnline? || IsServing(pc, false) ==> fails == Fails(0, 0))
  }

  /** The counters of a trial. */
  ghost predicate CountersOk(p: Purpose, wifi: int, mqtt: int) {
    p.Trial? ==> !LastTry(p) && p.wifiTries == wifi && p.mqttTries == mqtt
  }

  /** They are what the history says, and so is the reason to load, to save and
      to revert. */
  ghost predicate TriesOk(pc: Pc, log: seq<Entry>) {
    var wifi, mqtt := TrialCount(log, WifiFailed), TrialCount(log, MqttFailed);
    match pc
    case Load(_) => log == [] || log[|log| - 1].Rebooted? || log[|log| - 1].Wiped?
    case Saving => log != [] && log[|log| - 1].Tried? && log[|log| - 1].trial && log[|log| - 1].o == IsOnline
                   && LastTook(log) == Some(log[|log| - 1].c)
    case Reverting => Exhausted(log)
    case TellFailed(p, o, _) =>
      && (o == WifiFailed || o == MqttFailed)
      && CountersOk(p, if o == WifiFailed then wifi - 1 else wifi, if o == MqttFailed then mqtt - 1 else mqtt)
    case _ => PurposeOf(pc).Some? ==> CountersOk(PurposeOf(pc).value, wifi, mqtt)
  }

  /** Settings handed over and not taken yet still have their event. */
  ghost predicate HandoffOk(pc: Pc, handoffValid: bool, events: set<Bit>, pending: set<Bit>) {
    handoffValid ==> pc.Taking? || Commit in events || Commit in pending
  }

  ghost predicate Inv(n: Net) {
    && UseOk(n.use, n.log)
    && (NeedsSettings(n.pc) ==> n.use.have)
    && CandidateOk(OnTrial(n.pc), n.candidate, n.log)
    && BleProvision.Inv(n.ble)
    && FlashOk(n.sector, n.build, n.log)
    && Reachable(n.pc, n.use.have, n.ble.active, n.fails)
    && TriesOk(n.pc, n.log)
    && HandoffOk(n.pc, n.ble.handoffValid, n.events, n.pending)
    && LogOk(n.log)
  }

  // ---- the shared calls keep the radio's invariant ----

  lemma {:induction false} ReportKeeps(b: Ble, state: uint8, reason: int8, source: uint8, attempt: nat, ip: Ip)
    requires BleProvision.Inv(b)
    ensures var c := Report(b, state, reason, source, attempt, ip);
            && BleProvision.Inv(c) && c.active == b.active && c.handoffValid == b.handoffValid
  {
    PushKeepsInv(b, Status(state, reason, ip, attempt % 0x100, source));
    hide BleProvision.Inv, Encode, Push;
  }

  lemma {:induction false} StartKeeps(b: Ble, use: Use, log: seq<Entry>)
    requires BleProvision.Inv(b) && UseOk(use, log)
    ensures var c := StartBle(b, use);
            BleProvision.Inv(c) && c.active && c.handoffValid == b.handoffValid
  {
    BlankTerminated();
    if use.have { ValidTerminated(use.settings); }
    hide Validate, Terminated, PrepOk;
  }

  lemma {:induction false} StopKeeps(b: Ble)
    requires BleProvision.Inv(b)
    ensures BleProvision.Inv(Stop(b)) && !Stop(b).active && Stop(b).handoffValid == b.handoffValid
  {
    BlankTerminated();
    ResetOk();
    hide Validate, Terminated, PrepOk;
  }

  lemma {:induction false} TakeKeeps(b: Ble)
    requires BleProvision.Inv(b)
    ensures var (c, out) := Take(b);
            && BleProvision.Inv(c) && c.active == b.active && !c.handoffValid && (out.Some? ==> Valid(out.value))
            && (out == None ==> c == b)
  {
    hide Validate, Terminated, PrepOk;
  }

  // ---- every step of the task keeps it ----

  lemma {:induction false} LoadedIsValid(s: Sector, build: Build)
    requires s.Shaped()
    ensures LoadFrom(s, build).0 != FromNone ==> Valid(LoadFrom(s, build).1)
  {
    if Parse(s.Record()).Some? { ParsedIsValid(s.Record()); }
    hide Parse, Validate;
  }

  lemma {:induction false} FlashShaped(s: Sector, build: Build, log: seq<Entry>)
    requires FlashOk(s, build, log)
    ensures s.Shaped()
  {
  }

  /** An attempt changes neither the settings nor the trial nor the flash. */
  lemma {:induction false} TriedHistory(
      log: seq<Entry>, x: Entry, use: Use, candidate: NetConfig, onTrial: bool, s: Sector, build: Build)
    requires x.Tried? && EntryOk(log, x) && LogOk(log)
    ensures UseOk(use, log) == UseOk(use, log + [x])
    ensures CandidateOk(onTrial, candidate, log) == CandidateOk(onTrial, candidate, log + [x])
    ensures FlashOk(s, build, log) == FlashOk(s, build, log + [x])
    ensures LogOk(log + [x])
    ensures forall o {:trigger TrialCount(log + [x], o)} ::
              TrialCount(log + [x], o) == TrialCount(log, o) + if x.trial && x.o == o then 1 else 0
    ensures LastTook(log + [x]) == LastTook(log)
  {
    Grown(log, x);
    LogGrows(log, x);
    hide Validate, LoadFrom, EntryOk, LogOk;
  }

  lemma {:induction false} LoadedHistory(
      log: seq<Entry>, src: Source, c: NetConfig, use: Use, candidate: NetConfig, s: Sector, build: Build)
    requires LogOk(log) && FlashOk(s, build, log) && CandidateOk(false, candidate, log)
    requires LoadFrom(s, build) == (src, c) && EntryOk(log, Loaded(src, c))
    ensures UseOk(Found(use, src, c), log + [Loaded(src, c)])
    ensures CandidateOk(false, candidate, log + [Loaded(src, c)])
    ensures FlashOk(s, build, log + [Loaded(src, c)])
    ensures LogOk(log + [Loaded(src, c)])
  {
    LoadedIsValid(s, build);
    Grown(log, Loaded(src, c));
    LogGrows(log, Loaded(src, c));
    hide Validate, LoadFrom, LogOk;
  }

  lemma {:induction false} WipedHistory(log: seq<Entry>, luck: Luck, use: Use, candidate: NetConfig, s: Sector, build: Build)
    requires LogOk(log) && FlashOk(s, build, log) && CandidateOk(false, candidate, log) && UseOk(use, log)
    ensures var (ok, s') := EraseAll(s, luck);
            && UseOk(use, log + [Wiped(ok)])
            && CandidateOk(false, candidate, log + [Wiped(ok)])
            && FlashOk(s', build, log + [Wiped(ok)])
            && LogOk(log + [Wiped(ok)])
  {
    var x := Wiped(EraseAll(s, luck).0);
    Grown(log, x);
    LogGrows(log, x);
    hide Validate, LoadFrom, LogOk;
  }

  lemma {:induction false} TookHistory(log: seq<Entry>, c: NetConfig, use: Use, candidate: NetConfig, s: Sector, build: Build)
    requires LogOk(log) && FlashOk(s, build, log) && CandidateOk(false, candidate, log) && UseOk(use, log) && Valid(c)
    ensures UseOk(use, log + [Took(c)])
    ensures CandidateOk(true, c, log + [Took(c)])
    ensures FlashOk(s, build, log + [Took(c)])
    ensures LogOk(log + [Took(c)]) && TrialCount(log + [Took(c)], WifiFailed) == TrialCount(log + [Took(c)], MqttFailed) == 0
  {
    Grown(log, Took(c));
    LogGrows(log, Took(c));
    hide Validate, LoadFrom, LogOk;
  }

  lemma {:induction false} NothingHistory(log: seq<Entry>, use: Use, candidate: NetConfig, s: Sector, build: Build)
    requires LogOk(log) && FlashOk(s, build, log) && CandidateOk(false, candidate, log) && UseOk(use, log)
    ensures UseOk(use, log + [NothingTaken])
    ensures CandidateOk(false, candidate, log + [NothingTaken])
    ensures FlashOk(s, build, log + [NothingTaken])
    ensures LogOk(log + [NothingTaken])
  {
    Grown(log, NothingTaken);
    LogGrows(log, NothingTaken);
    hide Validate, LoadFrom, LogOk;
  }

  lemma {:induction false} GaveUpHistory(
      log: seq<Entry>, interrupted: bool, use: Use, candidate: NetConfig, s: Sector, build: Build)
    requires LogOk(log) && FlashOk(s, build, log) && CandidateOk(true, candidate, log) && UseOk(use, log)
    requires !interrupted <==> Exhausted(log)
    ensures UseOk(use, log + [GaveUp(interrupted)])
    ensures CandidateOk(false, BLANK, log + [GaveUp(interrupted)])
    ensures FlashOk(s, build, log + [GaveUp(interrupted)])
    ensures LogOk(log + [GaveUp(interrupted)])
  {
    Grown(log, GaveUp(interrupted));
    LogGrows(log, GaveUp(interrupted));
    hide Validate, LoadFrom, LogOk;
  }

  lemma {:induction false} CommittedHistory(log: seq<Entry>, candidate: NetConfig, s: Sector, build: Build, luck: Luck)
    requires LogOk(log) && CandidateOk(true, candidate, log) && s.Shaped()
    requires log != [] && log[|log| - 1] == Tried(true, candidate, IsOnline)
    ensures var (ok, s') := SaveTo(s, candidate, luck);
            && UseOk(Use(candidate, true, STORED), log + [Committed(candidate, ok)])
            && CandidateOk(false, BLANK, log + [Committed(candidate, ok)])
            && FlashOk(s', build, log + [Committed(candidate, ok)])
            && LogOk(log + [Committed(candidate, ok)])
  {
    var ok := SaveTo(s, candidate, luck).0;
    SaveShape(s, candidate, luck);
    if ok { SavedSurvivesReboot(s, candidate, luck, build); }
    Grown(log, Committed(candidate, ok));
    LogGrows(log, Committed(candidate, ok));
    hide Validate, LoadFrom, LogOk, SaveTo, Canonical;
  }

  lemma {:induction false} SaveShape(s: Sector, c: NetConfig, luck: Luck)
    requires s.Shaped()
    ensures SaveTo(s, c, luck).1.Shaped()
  {
    hide Validate, Parse, Serialize;
  }

  lemma {:induction false} LoadKeeps(n: Net, boot: bool)
    requires Inv(n) && n.pc == Load(boot)
    ensures n.sector.Shaped() && Inv(DoLoad(n, boot))
  {
    hide Validate, BleProvision.Inv, UseOk, CandidateOk, FlashOk, LogOk, LastTook, TrialCount, LastUse, LastSaved,
         Untouched, LoadFrom;
    FlashShaped(n.sector, n.build, n.log);
    var (src, c) := LoadFrom(n.sector, n.build);
    LoadedHistory(n.log, src, c, n.use, n.candidate, n.sector, n.build);
  }

  lemma {:induction false} AdvertiseKeeps(n: Net, boot: bool)
    requires Inv(n) && n.pc == Advertise(boot)
    ensures Inv(DoAdvertise(n, boot))
  {
    hide Validate, BleProvision.Inv, UseOk, CandidateOk, FlashOk, LogOk, LastTook, TrialCount, LastUse, LastSaved,
         EntryOk, Untouched, StartBle;
    StartKeeps(n.ble, n.use, n.log);
  }

  lemma {:induction false} AnnounceKeeps(n: Net, boot: bool)
    requires Inv(n) && n.pc == Announce(boot)
    ensures Inv(DoAnnounce(n, boot))
  {
    hide Validate, BleProvision.Inv, UseOk, CandidateOk, FlashOk, LogOk, LastTook, TrialCount, LastUse, LastSaved,
         EntryOk, Untouched, Report;
    ReportKeeps(n.ble, UNPROVISIONED, 0, STORED, 0, NO_IP);
  }

  lemma {:induction false} RefreshKeeps(n: Net)
    requires Inv(n) && n.pc == Refresh
    ensures Inv(DoRefresh(n))
  {
    hide Validate, BleProvision.Inv, UseOk, CandidateOk, FlashOk, LogOk, LastTook, TrialCount, LastUse, LastSaved,
         EntryOk, Untouched, StartBle;
    StartKeeps(n.ble, n.use, n.log);
  }

  lemma {:induction false} HeadKeeps(n: Net)
    requires Inv(n) && n.pc == Head
    ensures Inv(AtHead(n))
  {
    hide Validate, BleProvision.Inv, UseOk, CandidateOk, FlashOk, LogOk, LastTook, TrialCount, LastUse, LastSaved,
         EntryOk, Untouched;
  }

  lemma {:induction false} SleepKeeps(n: Net)
    requires Inv(n) && n.pc == Sleep
    ensures Inv(DoSleep(n))
  {
    hide Validate, BleProvision.Inv, UseOk, CandidateOk, FlashOk, LogOk, LastTook, TrialCount, LastUse, LastSaved,
         EntryOk, Untouched;
  }

  lemma {:induction false} ForgetKeeps(n: Net, luck: Luck)
    requires Inv(n) && n.pc == Forgetting
    ensures Inv(DoForget(n, luck))
  {
    hide Validate, BleProvision.Inv, UseOk, CandidateOk, FlashOk, LogOk, LastTook, TrialCount, LastUse, LastSaved,
         EntryOk, Untouched, EraseAll;
    WipedHistory(n.log, luck, n.use, n.candidate, n.sector, n.build);
  }

  lemma {:induction false} DoTakeKeeps(n: Net)
    requires Inv(n) && n.pc == Taking
    ensures Inv(DoTake(n))
  {
    hide Validate, BleProvision.Inv, UseOk, CandidateOk, FlashOk, LogOk, LastTook, TrialCount, LastUse, LastSaved,
         EntryOk, Untouched, Take;
    TakeKeeps(n.ble);
    var c := Take(n.ble).1;
    if c.Some? { TookHistory(n.log, c.value, n.use, n.candidate, n.sector, n.build); }
    else { NothingHistory(n.log, n.use, n.candidate, n.sector, n.build); }
  }

  lemma {:induction false} DropCandidateKeeps(n: Net, interrupted: bool)
    requires Inv(n) && OnTrial(n.pc)
    requires !interrupted <==> Exhausted(n.log)
    ensures Inv(DropCandidate(n, interrupted))
  {
    hide Validate, BleProvision.Inv, UseOk, CandidateOk, FlashOk, LogOk, LastTook, TrialCount, LastUse, LastSaved,
         EntryOk, Untouched, Exhausted;
    GaveUpHistory(n.log, interrupted, n.use, n.candidate, n.sector, n.build);
  }

  lemma {:induction false} CheckKeeps(n: Net, p: Purpose, status: LinkStatus)
    requires Inv(n) && n.pc == Check(p)
    ensures Inv(DoCheck(n, p, status))
  {
    hide Validate, BleProvision.Inv, UseOk, CandidateOk, FlashOk, LogOk, LastTook, TrialCount, LastUse, LastSaved,
         EntryOk, Untouched, JoinedTo;
  }

  lemma {:induction false} CandidateIs(c: NetConfig, log: seq<Entry>)
    requires CandidateOk(true, c, log)
    ensures LastTook(log) == Some(c)
  {
  }

  /** The attempt that just ended is one the history allows. */
  lemma {:induction false} AttemptAllowed(n: Net, p: Purpose, o: Outcome)
    requires Inv(n) && InBringUp(n.pc) && PurposeOf(n.pc) == Some(p)
    ensures EntryOk(n.log, Tried(p.Trial?, Settings(n, p), o))
  {
    hide Validate, BleProvision.Inv, FlashOk, LogOk, LastTook, TrialCount, LastUse, LastSaved, Reachable, HandoffOk;
  }

  /** A bring-up may end, in any way, where one was in progress. */
  lemma {:induction false} EndedKeeps(n: Net, p: Purpose, o: Outcome, reason: int8)
    requires Inv(n) && InBringUp(n.pc) && PurposeOf(n.pc) == Some(p)
    ensures Inv(Ended(n, p, o, reason))
  {
    hide Validate, BleProvision.Inv, UseOk, CandidateOk, FlashOk, LogOk, LastTook, TrialCount, LastUse, LastSaved,
         EntryOk, Untouched;
    AttemptAllowed(n, p, o);
    var x := Tried(p.Trial?, Settings(n, p), o);
    TriedHistory(n.log, x, n.use, n.candidate, p.Trial?, n.sector, n.build);
    if p.Trial? {
      CandidateIs(n.candidate, n.log);
      if o == Aborted { GaveUpHistory(n.log + [x], true, n.use, n.candidate, n.sector, n.build); }
    }
  }

  lemma {:induction false} TellWifiKeeps(n: Net, p: Purpose, env: Env)
    requires Inv(n) && n.pc == TellWifi(p)
    ensures Inv(DoTellWifi(n, p, env))
  {
    hide Validate, BleProvision.Inv, UseOk, CandidateOk, FlashOk, LogOk, LastTook, TrialCount, LastUse, LastSaved,
         EntryOk, Untouched, Report, SourceOf, AttemptOf, Ended;
    var b := Report(n.ble, WIFI_CONNECTING, 0, SourceOf(n, p), AttemptOf(n, p), NO_IP);
    ReportKeeps(n.ble, WIFI_CONNECTING, 0, SourceOf(n, p), AttemptOf(n, p), NO_IP);
    if !env.wifiAsks {
      EndedKeeps(n.(ble := b, link := NO_LINK, air := n.air + [Asked(NetworkOf(Settings(n, p)))]), p, WifiFailed, 3);
    }
  }

  lemma {:induction false} JoinKeeps(n: Net, p: Purpose, until: nat, env: Env)
    requires Inv(n) && n.pc == Joining(p, until)
    ensures Inv(Join(n, p, until, env))
  {
    hide Validate, BleProvision.Inv, UseOk, CandidateOk, FlashOk, LogOk, LastTook, TrialCount, LastUse, LastSaved,
         EntryOk, Untouched, Ended, JoinStops;
    match JoinStops(until, env)
    case Some(reason) => if env.linkAfter != LinkUp { EndedKeeps(n.(link := NO_LINK), p, WifiFailed, reason); }
    case None => EndedKeeps(Merge(n).(link := NO_LINK), p, Aborted, 0);
  }

  lemma {:induction false} TellMqttKeeps(n: Net, p: Purpose)
    requires Inv(n) && n.pc == TellMqtt(p)
    ensures Inv(DoTellMqtt(n, p))
  {
    hide Validate, BleProvision.Inv, UseOk, CandidateOk, FlashOk, LogOk, LastTook, TrialCount, LastUse, LastSaved,
         EntryOk, Untouched, Report, SourceOf, AttemptOf;
    ReportKeeps(n.ble, MQTT_CONNECTING, 0, SourceOf(n, p), AttemptOf(n, p), NO_IP);
  }

  lemma {:induction false} ConnectingKeeps(n: Net, p: Purpose, env: Env)
    requires Inv(n) && n.pc == Connecting(p)
    ensures Inv(StartMqtt(n, p, env))
  {
    hide Validate, BleProvision.Inv, UseOk, CandidateOk, FlashOk, LogOk, LastTook, TrialCount, LastUse, LastSaved,
         EntryOk, Untouched, Ended;
    if !env.mqttAsks { EndedKeeps(n, p, MqttFailed, 3); }
  }

  lemma {:induction false} AwaitKeeps(n: Net, p: Purpose, until: nat, env: Env)
    requires Inv(n) && n.pc == Waiting(p, until)
    ensures Inv(AwaitBroker(n, p, until, env))
  {
    hide Validate, BleProvision.Inv, UseOk, CandidateOk, FlashOk, LogOk, LastTook, TrialCount, LastUse, LastSaved,
         EntryOk, Untouched, Ended, AwaitFails;
    if env.broker == Accepted {
      EndedKeeps(n, p, IsOnline, 0);
    } else {
      match AwaitFails(until, env)
      case Some(reason) => EndedKeeps(n, p, MqttFailed, reason);
      case None => EndedKeeps(Merge(n), p, Aborted, 0);
    }
  }

  lemma {:induction false} FailedKeeps(n: Net, p: Purpose, o: Outcome, reason: int8)
    requires Inv(n) && n.pc == TellFailed(p, o, reason)
    ensures Inv(Failed(n, p, o, reason))
  {
    hide Validate, BleProvision.Inv, UseOk, CandidateOk, FlashOk, LogOk, LastTook, TrialCount, LastUse, LastSaved,
         EntryOk, Untouched, Report, FailState, SourceOf, AttemptOf;
    ReportKeeps(n.ble, FailState(o), reason, SourceOf(n, p), AttemptOf(n, p), NO_IP);
  }

  lemma {:induction false} FallbackKeeps(n: Net)
    requires Inv(n) && n.pc == Fallback
    ensures Inv(DoFallback(n))
  {
    hide Validate, BleProvision.Inv, UseOk, CandidateOk, FlashOk, LogOk, LastTook, TrialCount, LastUse, LastSaved,
         EntryOk, Untouched, StartBle;
    StartKeeps(n.ble, n.use, n.log);
  }

  lemma {:induction false} PauseKeeps(n: Net, p: Purpose)
    requires Inv(n) && n.pc == Pause(p)
    ensures Inv(AfterPause(n, p))
  {
    hide Validate, BleProvision.Inv, UseOk, CandidateOk, FlashOk, LogOk, LastTook, TrialCount, LastUse, LastSaved,
         EntryOk, Untouched, DropCandidate;
    if p.Trial? { DropCandidateKeeps(Merge(n), true); }
  }

  lemma {:induction false} RevertKeeps(n: Net)
    requires Inv(n) && n.pc == Reverting
    ensures Inv(Revert(n))
  {
    hide Validate, BleProvision.Inv, UseOk, CandidateOk, FlashOk, LogOk, LastTook, TrialCount, LastUse, LastSaved,
         EntryOk, Untouched, Report, Exhausted;
    ReportKeeps(n.ble, REVERTED, 0, n.use.source, 0, NO_IP);
    DropCandidateKeeps(n.(ble := Report(n.ble, REVERTED, 0, n.use.source, 0, NO_IP)), false);
  }

  lemma {:induction false} TellBlankKeeps(n: Net)
    requires Inv(n) && n.pc == TellBlank
    ensures Inv(DoTellBlank(n))
  {
    hide Validate, BleProvision.Inv, UseOk, CandidateOk, FlashOk, LogOk, LastTook, TrialCount, LastUse, LastSaved,
         EntryOk, Untouched, Report;
    ReportKeeps(n.ble, UNPROVISIONED, 0, STORED, 0, NO_IP);
  }

  lemma {:induction false} SaveKeeps(n: Net, luck: Luck)
    requires Inv(n) && n.pc == Saving
    ensures n.sector.Shaped() && Inv(DoSave(n, luck))
  {
    hide Validate, BleProvision.Inv, UseOk, CandidateOk, FlashOk, LogOk, LastTook, TrialCount, LastUse, LastSaved,
         EntryOk, Untouched, SaveTo;
    FlashShaped(n.sector, n.build, n.log);
    CandidateIs(n.candidate, n.log);
    CommittedHistory(n.log, n.candidate, n.sector, n.build, luck);
  }

  lemma {:induction false} TellSavedKeeps(n: Net, saved: bool, env: Env)
    requires Inv(n) && n.pc == TellSaved(saved)
    ensures Inv(DoTellSaved(n, saved, env))
  {
    hide Validate, BleProvision.Inv, UseOk, CandidateOk, FlashOk, LogOk, LastTook, TrialCount, LastUse, LastSaved,
         EntryOk, Untouched, Report;
    ReportKeeps(n.ble, ONLINE, 0, STORED, 0, env.ip);
    ReportKeeps(n.ble, SAVE_FAILED, 0, CANDIDATE, 0, NO_IP);
  }

  lemma {:induction false} TellOnlineKeeps(n: Net, env: Env)
    requires Inv(n) && n.pc == TellOnline
    ensures Inv(DoTellOnline(n, env))
  {
    hide Validate, BleProvision.Inv, UseOk, CandidateOk, FlashOk, LogOk, LastTook, TrialCount, LastUse, LastSaved,
         EntryOk, Untouched, Report;
    ReportKeeps(n.ble, ONLINE, 0, n.use.source, 0, env.ip);
  }

  lemma {:induction false} PollKeeps(n: Net, s: Session, broker: BrokerStatus)
    requires Inv(n) && n.pc == Online(s)
    ensures Inv(Poll(n, s, broker))
  {
    hide Validate, BleProvision.Inv, UseOk, CandidateOk, FlashOk, LogOk, LastTook, TrialCount, LastUse, LastSaved,
         EntryOk, Untouched;
  }

  lemma {:induction false} ServeKeeps(n: Net, s: Session, now: nat)
    requires Inv(n) && n.pc == Serving(s)
    ensures Inv(Serve(n, s, now))
  {
    hide Validate, BleProvision.Inv, UseOk, CandidateOk, FlashOk, LogOk, LastTook, TrialCount, LastUse, LastSaved,
         EntryOk, Untouched, RadioDone;
  }

  lemma {:induction false} DoStopKeeps(n: Net, s: Session)
    requires Inv(n) && n.pc == Stopping(s)
    ensures Inv(DoStop(n, s))
  {
    hide Validate, BleProvision.Inv, UseOk, CandidateOk, FlashOk, LogOk, LastTook, TrialCount, LastUse, LastSaved,
         EntryOk, Untouched, Stop;
    StopKeeps(n.ble);
  }

  lemma {:induction false} WatchLinkKeeps(n: Net, s: Session, env: Env)
    requires Inv(n) && n.pc == Linking(s)
    ensures Inv(WatchLink(n, s, env))
  {
    hide Validate, BleProvision.Inv, UseOk, CandidateOk, FlashOk, LogOk, LastTook, TrialCount, LastUse, LastSaved,
         EntryOk, Untouched;
  }

  lemma {:induction false} LeaveKeeps(n: Net, s: Session)
    requires Inv(n) && n.pc == Leaving(s)
    ensures Inv(Leave(n, s))
  {
    hide Validate, BleProvision.Inv, UseOk, CandidateOk, FlashOk, LogOk, LastTook, TrialCount, LastUse, LastSaved,
         EntryOk, Untouched;
  }

  lemma {:induction false} StartUpStepKeeps(n: Net, env: Env)
    requires Inv(n) && !InBringUp(n.pc) && !InFailure(n.pc) && !InService(n.pc)
    ensures n.sector.Shaped() && Inv(StartUpStep(n, env.luck))
  {
    hide Inv, Untouched, DoLoad, DoAdvertise, DoAnnounce, DoRefresh, AtHead, DoSleep, DoForget, DoTake;
    ShapedAndSound(n);
    match n.pc
    case Load(boot) => LoadKeeps(n, boot);
    case Advertise(boot) => AdvertiseKeeps(n, boot);
    case Announce(boot) => AnnounceKeeps(n, boot);
    case Refresh => RefreshKeeps(n);
    case Head => HeadKeeps(n);
    case Sleep => SleepKeeps(n);
    case Forgetting => ForgetKeeps(n, env.luck);
    case Taking => DoTakeKeeps(n);
  }

  lemma {:induction false} BringUpStepKeeps(n: Net, env: Env)
    requires Inv(n) && InBringUp(n.pc)
    ensures Inv(BringUpStep(n, env))
  {
    hide Inv, Untouched, DoCheck, DoTellWifi, Join, DoTellMqtt, StartMqtt, AwaitBroker;
    match n.pc
    case Check(p) => CheckKeeps(n, p, env.link);
    case TellWifi(p) => TellWifiKeeps(n, p, env);
    case Joining(p, until) => JoinKeeps(n, p, until, env);
    case TellMqtt(p) => TellMqttKeeps(n, p);
    case Connecting(p) => ConnectingKeeps(n, p, env);
    case Waiting(p, until) => AwaitKeeps(n, p, until, env);
  }

  lemma {:induction false} FailureStepKeeps(n: Net)
    requires Inv(n) && InFailure(n.pc)
    ensures Inv(FailureStep(n))
  {
    hide Inv, Untouched, Failed, DoFallback, AfterPause, Revert, DoTellBlank;
    match n.pc
    case TellFailed(p, o, reason) => FailedKeeps(n, p, o, reason);
    case Fallback => FallbackKeeps(n);
    case Pause(p) => PauseKeeps(n, p);
    case Reverting => RevertKeeps(n);
    case TellBlank => TellBlankKeeps(n);
  }

  lemma {:induction false} ServiceStepKeeps(n: Net, env: Env)
    requires Inv(n) && InService(n.pc)
    ensures n.sector.Shaped() && Inv(ServiceStep(n, env))
  {
    hide Inv, Untouched, DoSave, DoTellSaved, DoTellOnline, Poll, Serve, DoStop, WatchLink, Leave;
    ShapedAndSound(n);
    match n.pc
    case Saving => SaveKeeps(n, env.luck);
    case TellSaved(saved) => TellSavedKeeps(n, saved, env);
    case TellOnline => TellOnlineKeeps(n, env);
    case Online(s) => PollKeeps(n, s, env.broker);
    case Serving(s) => ServeKeeps(n, s, env.now);
    case Stopping(s) => DoStopKeeps(n, s);
    case Linking(s) => WatchLinkKeeps(n, s, env);
    case Leaving(s) => LeaveKeeps(n, s);
  }

  lemma {:induction false} TaskKeeps(n: Net, env: Env)
    requires Inv(n)
    ensures n.sector.Shaped() && Inv(TaskStep(n, env))
  {
    hide Inv, StartUpStep, BringUpStep, FailureStep, ServiceStep;
    ShapedAndSound(n);
    if InBringUp(n.pc) { BringUpStepKeeps(n, env); }
    else if InFailure(n.pc) { FailureStepKeeps(n); }
    else if InService(n.pc) { ServiceStepKeeps(n, env); }
    else { StartUpStepKeeps(n, env); }
  }

  lemma {:induction false} ShapedAndSound(n: Net)
    requires Inv(n)
    ensures n.sector.Shaped() && BleProvision.Inv(n.ble)
  {
    hide BleProvision.Inv;
  }

  // ---- so does everything that can come in between ----

  lemma {:induction false} ClientKeeps(n: Net, c: BleProvision.Event)
    requires Inv(n)
    ensures n.sector.Shaped() && BleProvision.Inv(n.ble) && Inv(Step(n, Client(c)))
  {
    hide Validate, BleProvision.Inv, UseOk, CandidateOk, FlashOk, LogOk, LastTook, TrialCount, LastUse, LastSaved,
         EntryOk, Untouched, BleProvision.Step, Reachable, TriesOk, OnTrial, NeedsSettings;
    ShapedAndSound(n);
    CallbackKeeps(n.ble, c);
  }

  /** What a callback does not do: switch the radio, or hand settings over
      without its event. */
  lemma {:induction false} CallbackKeeps(b: Ble, c: BleProvision.Event)
    requires BleProvision.Inv(b)
    ensures |b.prep.cells| == PREP_CELLS && b.prep.len <= PREP_CELLS
    ensures var (d, _, bits) := BleProvision.Step(b, c);
            && BleProvision.Inv(d) && d.active == b.active && (d.handoffValid && !b.handoffValid ==> Commit in bits)
  {
    hide Validate, SetField, PrepareStep, Encode, Decode, Push, Send, Reset, Zeros, BleProvision.Step;
    StepKeepsInv(b, c);
    PrepOkShape(b.prep);
    RadioStays(b, c);
    OnlyApplyHandsOver(b, c);
  }

  /** No callback switches the radio. */
  lemma {:induction false} RadioStays(b: Ble, c: BleProvision.Event)
    requires |b.prep.cells| == PREP_CELLS && b.prep.len <= PREP_CELLS
    ensures BleProvision.Step(b, c).0.active == b.active
  {
    hide Validate, SetField, PrepareStep, Encode, Decode, Push, Send, Reset, Zeros;
  }

  lemma {:induction false} RebootKeeps(n: Net)
    requires Inv(n)
    ensures Inv(Boot(n.sector, n.build, n.log + [Rebooted]))
  {
    hide Validate, BleProvision.Inv, UseOk, CandidateOk, FlashOk, LogOk, LastTook, TrialCount, LastUse, LastSaved,
         EntryOk, Untouched, Init;
    InitSound();
    RebootedHistory(n.log, n.sector, n.build);
  }

  lemma {:induction false} InitSound()
    ensures BleProvision.Inv(Init()) && !Init().active && !Init().handoffValid
  {
    BlankTerminated();
    ResetOk();
    hide Encode, Terminated, PrepOk;
  }

  lemma {:induction false} RebootedHistory(log: seq<Entry>, s: Sector, build: Build)
    requires LogOk(log) && FlashOk(s, build, log)
    ensures UseOk(Use(BLANK, false, STORED), log + [Rebooted])
    ensures CandidateOk(false, BLANK, log + [Rebooted])
    ensures FlashOk(s, build, log + [Rebooted])
    ensures LogOk(log + [Rebooted])
  {
    Grown(log, Rebooted);
    LogGrows(log, Rebooted);
    hide Validate, LoadFrom, LogOk;
  }

  lemma {:induction false} StepKeeps(n: Net, e: Event)
    requires Inv(n)
    ensures n.sector.Shaped() && BleProvision.Inv(n.ble) && Inv(Step(n, e))
  {
    hide Inv, TaskStep, Boot, BleProvision.Step, BleProvision.Inv;
    ShapedAndSound(n);
    match e
    case Task(env) => TaskKeeps(n, env);
    case Client(c) => ClientKeeps(n, c);
    case Reboot => RebootKeeps(n);
  }

  /** Any interleaving of task steps, callbacks and power losses. */
  function Run(n: Net, es: seq<Event>): (r: Net)
    requires Inv(n)
    ensures Inv(r)
    decreases |es|
  {
    if es == [] then n
    else
      StepKeeps(n, es[0]);
      Run(Step(n, es[0]), es[1..])
  }
}
