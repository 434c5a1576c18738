/** The network task as it runs: its static variables changed in place, its loops,
    counters and early returns. What happens around it (callbacks, link, broker,
    clock, flash) is read from a script, one turn a step. A ghost copy of the
    machine in NetworkTask takes the same steps; the variables always agree with
    it, and the methods say what they leave behind and what they add to its
    history. */
module NetworkUnit {
  import opened Config
  import opened NetConfig
  import opened ConfigFlash
  import opened BleProvision
  import opened NetworkTask
  import opened NetworkSafety
  import opened NetworkLink
  import opened NetworkFallback

  /** The callbacks that come before a step, and what the step meets. */
  datatype Turn = Turn(callbacks: seq<BleProvision.Event>, env: Env)

  /** What a turn of a wait, or a whole wait, came to. */
  datatype Attempt = Again | AttemptOk | AttemptFailed(reason: int8) | AttemptAborted

  /** What the task meets when the script is over: nothing works any more. */
  const OVER: Env :=
    Env(0, LinkFail, LinkFail, false, false, BrokerGone, false, NO_IP, Luck(true, true, true))

  // ---- what the methods leave behind ----

  /** Nothing that outlives a round has changed. */
  ghost predicate Same(n: Net, m: Net) {
    m.use == n.use && m.sector == n.sector && m.log == n.log && m.candidate == n.candidate && m.fails == n.fails
  }

  /** Callbacks came: only the radio and what it signals have changed. */
  ghost predicate Between(n: Net, m: Net) {
    && m.pc == n.pc && m.use == n.use && m.candidate == n.candidate && m.link == n.link && m.events == n.events
    && m.fails == n.fails && m.sector == n.sector && m.log == n.log && m.air == n.air
  }

  /** Where a bring-up that is over leaves the task. */
  function EndPc(p: Purpose, o: Outcome, reason: int8): Pc {
    match o
    case IsOnline => if p.Steady? then TellOnline else Saving
    case Aborted => Head
    case _ => TellFailed(p, o, reason)
  }

  /** What it adds to the history. */
  function EndLog(p: Purpose, c: NetConfig, o: Outcome): (log: seq<Entry>)
    ensures |log| > 0 && log[0] == Tried(p.Trial?, c, o)
  {
    [Tried(p.Trial?, c, o)] + if p.Trial? && o == Aborted then [GaveUp(true)] else []
  }

  /** A bring-up for p is over: settings in use and flash are as they were, and so
      is the candidate unless it was dropped. */
  ghost predicate Over(n: Net, m: Net, p: Purpose, o: Outcome, reason: int8) {
    && m.use == n.use && m.sector == n.sector && m.pc == EndPc(p, o, reason)
    && m.log == n.log + EndLog(p, Settings(n, p), o)
    && m.candidate == (if p.Trial? && o == Aborted then BLANK else n.candidate)
    && m.fails == (if (p.Steady? && o == IsOnline) || (p.Trial? && o == Aborted) then Fails(0, 0) else n.fails)
  }

  /** The network that is up was asked for with this name and this password. */
  ghost predicate OnAir(n: Net, c: NetConfig) {
    Associated(n.air) == Some(Network(UpToNul(c.ssid), UpToNul(c.password)))
  }

  ghost predicate Joined(n: Net, m: Net, p: Purpose, until: nat, a: Attempt) {
    match a
    case Again => m.pc == Joining(p, until) && Same(n, m)
    case AttemptOk => m.pc == TellMqtt(p) && Same(n, m)
    case AttemptFailed(reason) => Over(n, m, p, WifiFailed, reason)
    case AttemptAborted => Over(n, m, p, Aborted, 0)
  }

  ghost predicate Answered(n: Net, m: Net, p: Purpose, until: nat, a: Attempt) {
    match a
    case Again => m.pc == Waiting(p, until) && Same(n, m)
    case AttemptOk => Over(n, m, p, IsOnline, 0)
    case AttemptFailed(reason) => Over(n, m, p, MqttFailed, reason)
    case AttemptAborted => Over(n, m, p, Aborted, 0)
  }

  /** What handle_commit comes to: nothing, if nothing was handed over; else the
      candidate that was taken was committed and is in use, or it was given up and
      settings in use and flash are as they were. */
  ghost predicate Handled(n: Net, m: Net, committed: bool) {
    if m.log == n.log + [NothingTaken] then !committed && m.use == n.use && m.sector == n.sector
    else
      && n.log <= m.log && |n.log| < |m.log| && m.log[|n.log|].Took?
      && var c, last := m.log[|n.log|].c, m.log[|m.log| - 1];
         if committed then last.Committed? && last.c == c && m.use == Use(c, true, STORED)
         else last.GaveUp? && m.use == n.use && m.sector == n.sector
  }

  lemma {:induction false} RouteOnline(n: Net, m: Net, p: Purpose, reason: int8)
    requires Over(n, m, p, IsOnline, reason) && AirOk(m)
    ensures OnAir(m, Settings(n, p))
  {
    hide Associated, LinkOk, UpToNul, EndLog, BLANK;
  }

  /** A bring-up with the settings in use, in plain terms. */
  lemma {:induction false} SteadyOver(n: Net, m: Net, o: Outcome, reason: int8)
    requires Over(n, m, Steady, o, reason)
    ensures m.use == n.use && m.sector == n.sector && m.candidate == n.candidate
    ensures m.log == n.log + [Tried(false, n.use.settings, o)]
    ensures m.fails == if o == IsOnline then Fails(0, 0) else n.fails
    ensures m.pc == match o case IsOnline => TellOnline case Aborted => Head case _ => TellFailed(Steady, o, reason)
  {
    hide BLANK;
    assert [Tried(false, n.use.settings, o)] + [] == [Tried(false, n.use.settings, o)];
  }

  lemma {:induction false} SameThenOver(n: Net, k: Net, m: Net, p: Purpose, o: Outcome, reason: int8)
    requires Same(n, k) && Over(k, m, p, o, reason)
    ensures Over(n, m, p, o, reason)
  {
    hide EndLog, EndPc, BLANK;
  }

  lemma {:induction false} SameThenSame(n: Net, k: Net, m: Net)
    requires Same(n, k) && Same(k, m)
    ensures Same(n, m)
  {
  }

  lemma {:induction false} JoinedAfter(n: Net, k: Net, m: Net, p: Purpose, until: nat, a: Attempt)
    requires Same(n, k) && Joined(k, m, p, until, a)
    ensures Joined(n, m, p, until, a)
  {
    hide EndLog, EndPc, BLANK;
  }

  lemma {:induction false} AnsweredAfter(n: Net, k: Net, m: Net, p: Purpose, until: nat, a: Attempt)
    requires Same(n, k) && Answered(k, m, p, until, a)
    ensures Answered(n, m, p, until, a)
  {
    hide EndLog, EndPc, BLANK;
  }

  // ---- a trial, attempt by attempt ----

  /** A trial given up: the candidate is gone, settings in use and flash stay. */
  ghost predicate GivenUp(n: Net, m: Net) {
    && m.candidate == BLANK && m.fails == Fails(0, 0) && m.use == n.use && m.sector == n.sector
    && |m.log| == |n.log| + 1 && n.log <= m.log && m.log[|n.log|].GaveUp?
  }

  lemma {:induction false} SameThenGivenUp(n: Net, k: Net, m: Net)
    requires Same(n, k) && GivenUp(k, m)
    ensures GivenUp(n, m)
  {
    hide BLANK;
  }

  /** One more failed attempt, and some left. */
  ghost predicate CountedOnce(p: Purpose, o: Outcome, q: Purpose) {
    && p.Trial? && q.Trial? && q.attempt == p.attempt + 1 && !LastTry(q)
    && q.wifiTries == p.wifiTries + (if o == WifiFailed then 1 else 0)
    && q.mqttTries == p.mqttTries + (if o == WifiFailed then 0 else 1)
  }

  /** Attempts were made since the candidate was taken, and nothing else. */
  ghost predicate Tries(took: Net, m: Net) {
    m.use == took.use && m.sector == took.sector && m.candidate == took.candidate && took.log <= m.log
  }

  /** The trial is over. */
  ghost predicate Settled(took: Net, m: Net, committed: bool) {
    && m.pc == Head && m.candidate == BLANK && m.fails == Fails(0, 0) && took.log <= m.log && |took.log| < |m.log|
    && var last := m.log[|m.log| - 1];
       if committed then last.Committed? && last.c == took.candidate && m.use == Use(took.candidate, true, STORED)
       else last.GaveUp? && m.use == took.use && m.sector == took.sector
  }

  lemma {:induction false} TriedOnce(took: Net, n: Net, m: Net, p: Purpose, o: Outcome, reason: int8)
    requires Tries(took, n) && Over(n, m, p, o, reason) && p.Trial?
    ensures o == Aborted ==> Settled(took, m, false)
    ensures o != Aborted ==> Tries(took, m) && m.pc == if o == IsOnline then Saving else TellFailed(p, o, reason)
  {
    hide BLANK;
    assert o == Aborted ==> m.log[|m.log| - 1] == GaveUp(true);
  }

  lemma {:induction false} TriedAgain(took: Net, n: Net, m: Net, again: bool)
    requires Tries(took, n) && if again then Same(n, m) else m.pc == Head && GivenUp(n, m)
    ensures if again then Tries(took, m) else Settled(took, m, false)
  {
    hide BLANK;
  }

  lemma {:induction false} DoneByCommit(took: Net, n: Net, m: Net, saved: bool)
    requires Tries(took, n) && m.log == n.log + [Committed(n.candidate, saved)] && m.use == Use(n.candidate, true, STORED)
    requires m.pc == Head && m.candidate == BLANK && m.fails == Fails(0, 0)
    ensures Settled(took, m, true)
  {
    hide BLANK;
  }

  lemma {:induction false} DoneIsHandled(n: Net, took: Net, m: Net, committed: bool)
    requires took.log == n.log + [Took(took.candidate)] && took.use == n.use && took.sector == n.sector
    requires Settled(took, m, committed)
    ensures Handled(n, m, committed)
  {
    hide BLANK;
    assert m.log[|n.log|] == took.log[|n.log|];
  }

  lemma {:induction false} EndedOver(n: Net, p: Purpose, o: Outcome, reason: int8)
    ensures Over(n, Ended(n, p, o, reason), p, o, reason)
  {
    hide BLANK, Untouched, Kept;
    var x := [Tried(p.Trial?, Settings(n, p), o)];
    assert n.log + x + [] == n.log + x;
    assert n.log + x + [GaveUp(true)] == n.log + (x + [GaveUp(true)]);
  }

  lemma {:induction false} EndedIsOver(n: Net, p: Purpose, o: Outcome, reason: int8)
    ensures var m := Ended(n, p, o, reason);
            && Over(n, m, p, o, reason)
            && m == n.(pc := m.pc, log := m.log, candidate := m.candidate, fails := m.fails)
            && (o == WifiFailed || o == MqttFailed ==> m.candidate == n.candidate && m.fails == n.fails)
  {
    hide BLANK, Untouched, Kept, Over, Settings;
    EndedOver(n, p, o, reason);
  }

  // ---- which step the machine takes ----

  lemma {:induction false} StartUpIs(n: Net, env: Env)
    requires n.sector.Shaped() && !InBringUp(n.pc) && !InFailure(n.pc) && !InService(n.pc)
    ensures TaskStep(n, env) ==
            match n.pc
            case Load(boot) => DoLoad(n, boot)
            case Advertise(boot) => DoAdvertise(n, boot)
            case Announce(boot) => DoAnnounce(n, boot)
            case Refresh => DoRefresh(n)
            case Head => AtHead(n)
            case Sleep => DoSleep(n)
            case Forgetting => DoForget(n, env.luck)
            case Taking => DoTake(n)
  {
    hide Untouched, Kept, DoLoad, DoAdvertise, DoAnnounce, DoRefresh, AtHead, DoSleep, DoForget, DoTake;
  }

  lemma {:induction false} BringUpIs(n: Net, env: Env)
    requires n.sector.Shaped() && InBringUp(n.pc)
    ensures TaskStep(n, env) ==
            match n.pc
            case Check(p) => DoCheck(n, p, env.link)
            case TellWifi(p) => DoTellWifi(n, p, env)
            case Joining(p, until) => Join(n, p, until, env)
            case TellMqtt(p) => DoTellMqtt(n, p)
            case Connecting(p) => StartMqtt(n, p, env)
            case Waiting(p, until) => AwaitBroker(n, p, until, env)
  {
    hide Untouched, Kept, DoCheck, DoTellWifi, Join, DoTellMqtt, StartMqtt, AwaitBroker;
  }

  lemma {:induction false} FailureIs(n: Net, env: Env)
    requires n.sector.Shaped() && InFailure(n.pc)
    ensures TaskStep(n, env) ==
            match n.pc
            case TellFailed(p, o, reason) => Failed(n, p, o, reason)
            case Fallback => DoFallback(n)
            case Pause(p) => AfterPause(n, p)
            case Reverting => Revert(n)
            case TellBlank => DoTellBlank(n)
  {
    hide Untouched, Kept, Failed, DoFallback, AfterPause, Revert, DoTellBlank;
  }

  lemma {:induction false} ServiceIs(n: Net, env: Env)
    requires n.sector.Shaped() && InService(n.pc)
    ensures TaskStep(n, env) ==
            match n.pc
            case Saving => DoSave(n, env.luck)
            case TellSaved(saved) => DoTellSaved(n, saved, env)
            case TellOnline => DoTellOnline(n, env)
            case Online(s) => Poll(n, s, env.broker)
            case Serving(s) => Serve(n, s, env.now)
            case Stopping(s) => DoStop(n, s)
            case Linking(s) => WatchLink(n, s, env)
            case Leaving(s) => Leave(n, s)
  {
    hide Untouched, Kept, DoSave, DoTellSaved, DoTellOnline, Poll, Serve, DoStop, WatchLink, Leave;
  }

  lemma {:induction false} LinkIs(n: Net, s: Session, env: Env)
    requires n.sector.Shaped() && n.pc == Linking(s)
    ensures var m := TaskStep(n, env);
            var bad := if env.link == LinkJoin then 0 else s.bad + 1;
            && Same(n, m) && m.events == n.events - {ClientLeft}
            && m.link == (if bad >= 5 then n.link.(up := false) else n.link)
            && m.pc == (if bad >= 5 || !env.clientUp then Leaving(s.(bad := bad)) else Online(s.(bad := bad)))
            && m.pending == n.pending && m.ble == n.ble && m.build == n.build
  {
    hide Untouched, Kept, TaskStep, DoSave, DoTellSaved, DoTellOnline, Poll, Serve, DoStop, Leave;
    ServiceIs(n, env);
  }

  lemma {:induction false} PauseIs(n: Net, p: Purpose, env: Env)
    requires n.sector.Shaped() && n.pc == Pause(p) && p.Trial?
    ensures var m := TaskStep(n, env);
            && (if Interrupted(Merge(n)) then m.pc == Head && GivenUp(n, m)
                else m.pc == Check(p.(attempt := p.attempt + 1)) && Same(n, m))
            && m.events == n.events + n.pending && m.pending == {}
            && m.link == n.link && m.ble == n.ble && m.build == n.build
  {
    hide Untouched, Kept, BLANK;
  }

  class Hub {
    var use: Use
    var candidate: NetConfig
    var link: Link
    var events: set<Bit>
    var pending: set<Bit>
    var fails: Fails
    var sector: Sector
    var ble: Ble
    const build: Build
    var script: seq<Turn>
    ghost var at: Net
    ghost var trace: seq<NetworkTask.Event>
    ghost const start: Sector

    /** The machine is where the events so far take it from power-on. */
    ghost predicate Tracked()
      reads this`at, this`trace
    {
      start.Shaped() && at == NetworkTask.Run(PowerOn(start, build), trace)
    }

    /** The variables are what the machine says. */
    ghost predicate Agrees(n: Net)
      reads this
    {
      && use == n.use && candidate == n.candidate && link == n.link && events == n.events && pending == n.pending
      && fails == n.fails && sector == n.sector && ble == n.ble && build == n.build
    }

    ghost predicate Valid()
      reads this
    {
      Tracked() && Agrees(at)
    }

    constructor (sector: Sector, build: Build, script: seq<Turn>)
      requires sector.Shaped()
      ensures Valid() && at == PowerOn(sector, build) && trace == [] && start == sector && this.script == script
    {
      use, candidate, link := Use(BLANK, false, STORED), BLANK, NO_LINK;
      events, pending, fails := {}, {}, Fails(0, 0);
      this.sector, this.build, this.script, ble := sector, build, script, Init();
      at, trace, start := PowerOn(sector, build), [], sector;
    }

    lemma Sound()
      requires Tracked()
      ensures NetworkTask.Inv(at) && at.sector.Shaped() && BleProvision.Inv(at.ble)
      ensures |at.sector.bytes| == |at.sector.worn| == SECTOR
    {
      hide NetworkTask.Run, PowerOn;
      ShapedAndSound(at);
    }

    /** The machine takes the step the task has just carried out. */
    ghost method Advance(env: Env)
      requires Tracked()
      modifies this`at, this`trace
      ensures old(at).sector.Shaped() && at == TaskStep(old(at), env) && trace == old(trace) + [Task(env)]
      ensures Tracked()
    {
      hide NetworkTask.Run, PowerOn, TaskStep, NetworkTask.Inv, Boot, BleProvision.Step, BleProvision.Inv, Sector.Shaped;
      Sound();
      RunSnoc(PowerOn(start, build), trace, Task(env));
      at := TaskStep(at, env);
      trace := trace + [Task(env)];
    }

    method OnCallback(e: BleProvision.Event)
      requires Valid()
      modifies this`ble, this`pending, this`at, this`trace
      ensures Valid() && trace == old(trace) + [Client(e)] && Between(old(at), at)
    {
      hide NetworkTask.Run, PowerOn, BleProvision.Step, NetworkTask.Inv, BleProvision.Inv;
      Sound();
      RunSnoc(PowerOn(start, build), trace, Client(e));
      InvShape(ble);
      var (b, rc, bits) := BleProvision.Step(ble, e);
      ble, pending := b, pending + bits;
      at, trace := NetworkTask.Step(at, Client(e)), trace + [Client(e)];
    }

    /** The callbacks before the next step, and what that step will meet. */
    method NextTurn() returns (env: Env)
      requires Valid()
      modifies this`script, this`ble, this`pending, this`at, this`trace
      ensures Valid() && Between(old(at), at) && at.sector.Shaped() && |sector.bytes| == |sector.worn| == SECTOR
      ensures if old(script) == [] then script == [] && env == OVER && at == old(at) else |script| < |old(script)|
    {
      hide Tracked, OVER, Sector.Shaped, NetworkTask.Inv, BleProvision.Inv;
      Sound();
      if script == [] { return OVER; }
      var turn := script[0];
      script := script[1..];
      env := turn.env;
      for i := 0 to |turn.callbacks|
        invariant Valid() && Between(old(at), at) && script == old(script)[1..]
      {
        OnCallback(turn.callbacks[i]);
      }
    }

    // ---- settings at rest ----

    /** load_active, with the radio turned on when there is nothing to load. */
    method LoadActive(boot: bool)
      requires Valid() && at.pc == Load(boot)
      modifies this
      ensures Valid() && |script| <= |old(script)| && at.pc == (if boot then Head else Refresh)
      ensures sector == old(sector) && |sector.bytes| == SECTOR
      ensures var (src, c) := LoadFrom(sector, build);
              use == Found(old(use), src, c) && at.log == old(at.log) + [Loaded(src, c)]
    {
      hide TaskStep, Tracked, Untouched, Kept, NetworkTask.Inv, BleProvision.Inv, Sector.Shaped, OVER, DoAdvertise,
           DoAnnounce, DoRefresh, AtHead, DoSleep, DoForget, DoTake, LoadFrom, BLANK, Found;
      var env := NextTurn();
      var (src, c) := LoadFrom(sector, build);
      Adopt(src, c);
      StartUpIs(at, env);
      Advance(env);
      if src == FromNone {
        StartRadio(boot);
        TellUnprovisioned(boot);
      }
    }

    method Adopt(src: Source, c: NetConfig)
      modifies this`use
      ensures use == Found(old(use), src, c)
    {
      match src {
        case FromFlash => use := Use(c, true, STORED);
        case FromBuild => use := Use(c, true, BUILD_DEFAULTS);
        case FromNone => use := Use(BLANK, false, use.source);
      }
    }

    method StartRadio(boot: bool)
      requires Valid() && at.pc == Advertise(boot)
      modifies this
      ensures Valid() && |script| <= |old(script)| && at.pc == Announce(boot) && Same(old(at), at)
    {
      hide TaskStep, Tracked, Untouched, Kept, NetworkTask.Inv, BleProvision.Inv, Sector.Shaped, OVER, DoLoad,
           DoAnnounce, DoRefresh, AtHead, DoSleep, DoForget, DoTake, StartBle, BLANK;
      var env := NextTurn();
      ble := StartBle(ble, use);
      StartUpIs(at, env);
      Advance(env);
    }

    method TellUnprovisioned(boot: bool)
      requires Valid() && at.pc == Announce(boot)
      modifies this
      ensures Valid() && |script| <= |old(script)| && at.pc == (if boot then Head else Refresh) && Same(old(at), at)
    {
      hide TaskStep, Tracked, Untouched, Kept, NetworkTask.Inv, BleProvision.Inv, Sector.Shaped, OVER, DoLoad,
           DoAdvertise, DoRefresh, AtHead, DoSleep, DoForget, DoTake, Report, NO_IP, BLANK;
      var env := NextTurn();
      ble := Report(ble, UNPROVISIONED, 0, STORED, 0, NO_IP);
      StartUpIs(at, env);
      Advance(env);
    }

    /** handle_forget: erase, leave the network, and load again. */
    method HandleForget() returns (ghost luck: Luck)
      requires Valid() && at.pc == Forgetting
      modifies this
      ensures Valid() && |script| <= |old(script)| && at.pc == Head && fails == Fails(0, 0)
      ensures sector == EraseAll(old(sector), luck).1 && |sector.bytes| == SECTOR
      ensures var (src, c) := LoadFrom(sector, build);
              && use == Found(old(use), src, c)
              && at.log == old(at.log) + [Wiped(EraseAll(old(sector), luck).0)] + [Loaded(src, c)]
    {
      hide TaskStep, Tracked, Untouched, Kept, NetworkTask.Inv, BleProvision.Inv, Sector.Shaped, OVER, DoLoad,
           DoAdvertise, DoAnnounce, DoRefresh, AtHead, DoSleep, DoTake, EraseAll, LoadFrom, NO_LINK, Found;
      var env := NextTurn();
      luck := env.luck;
      var (ok, erased) := EraseAll(sector, env.luck);
      sector, link := erased, NO_LINK;
      StartUpIs(at, env);
      Advance(env);
      LoadActive(false);
      RefreshRadio();
    }

    method RefreshRadio()
      requires Valid() && at.pc == Refresh
      modifies this
      ensures Valid() && |script| <= |old(script)| && at.pc == Head && Same(old(at).(fails := Fails(0, 0)), at)
    {
      hide TaskStep, Tracked, Untouched, Kept, NetworkTask.Inv, BleProvision.Inv, Sector.Shaped, OVER, DoLoad,
           DoAdvertise, DoAnnounce, AtHead, DoSleep, DoForget, DoTake, StartBle, NO_IP, BLANK;
      var env := NextTurn();
      StartUpIs(at, env);
      if ble.active { ble := StartBle(ble, use); }
      fails := Fails(0, 0);
      Advance(env);
    }

    // ---- bring-up ----

    /** wifi_join up to its loop. */
    method AskToJoin(p: Purpose) returns (asked: bool, until: nat)
      requires Valid() && at.pc == TellWifi(p)
      modifies this
      ensures Valid() && |script| <= |old(script)|
      ensures if asked then at.pc == Joining(p, until) && Same(old(at), at) else Over(old(at), at, p, WifiFailed, 3)
    {
      hide TaskStep, Tracked, Untouched, Kept, NetworkTask.Inv, BleProvision.Inv, Sector.Shaped, OVER, DoCheck, Join,
           DoTellMqtt, StartMqtt, AwaitBroker, Report, NO_IP, NO_LINK, BLANK, Ended, Over;
      var env := NextTurn();
      BringUpIs(at, env);
      ghost var n := at;
      ble := Report(ble, WIFI_CONNECTING, 0, if p.Steady? then use.source else CANDIDATE,
                    if p.Steady? then fails.wifi + fails.mqtt + 1 else p.attempt, NO_IP);
      link := NO_LINK;
      asked, until := env.wifiAsks, env.now + WIFI_JOIN_TIMEOUT_MS;
      ghost var m := n.(ble := ble, link := NO_LINK, air := n.air + [Asked(NetworkOf(Settings(n, p)))]);
      if !asked {
        EndedIsOver(m, p, WifiFailed, 3);
        SameThenOver(old(at), m, Ended(m, p, WifiFailed, 3), p, WifiFailed, 3);
      }
      Advance(env);
    }

    /** The join loop has stopped: the link decides. */
    method StopJoining(p: Purpose, until: nat, env: Env, reason: int8) returns (a: Attempt)
      requires Valid() && at.pc == Joining(p, until) && JoinStops(until, env) == Some(reason)
      modifies this
      ensures Valid() && script == old(script) && a != Again && Joined(old(at), at, p, until, a)
    {
      hide TaskStep, Tracked, Untouched, Kept, NetworkTask.Inv, BleProvision.Inv, Sector.Shaped, OVER, DoCheck,
           DoTellWifi, DoTellMqtt, StartMqtt, AwaitBroker, NO_LINK, BLANK, Ended, EndLog, EndPc, JoinStops, Merge,
           Interrupted;
      Sound();
      BringUpIs(at, env);
      a := if env.linkAfter == LinkUp then AttemptOk else AttemptFailed(reason);
      if a == AttemptOk {
        link := Link(if p.Steady? then use.settings else candidate, true);
      } else {
        link := NO_LINK;
        EndedIsOver(at.(link := NO_LINK), p, WifiFailed, reason);
      }
      Advance(env);
    }

    /** It has not: signals are collected, and an apply or a forget ends it. */
    method KeepJoining(p: Purpose, until: nat, env: Env) returns (a: Attempt)
      requires Valid() && at.pc == Joining(p, until) && JoinStops(until, env) == None
      modifies this
      ensures Valid() && script == old(script) && Joined(old(at), at, p, until, a)
    {
      hide TaskStep, Tracked, Untouched, Kept, NetworkTask.Inv, BleProvision.Inv, Sector.Shaped, OVER, DoCheck,
           DoTellWifi, DoTellMqtt, StartMqtt, AwaitBroker, NO_LINK, BLANK, Ended, EndLog, EndPc, JoinStops;
      events, pending := events + pending, {};
      if Commit in events || Forget in events {
        AbortJoin(p, until, env);
        return AttemptAborted;
      }
      Sound();
      BringUpIs(at, env);
      Advance(env);
      a := Again;
    }

    /** wait_events has returned an apply or a forget. */
    method AbortJoin(p: Purpose, until: nat, env: Env)
      requires Tracked() && at.pc == Joining(p, until) && JoinStops(until, env) == None && Interrupted(Merge(at))
      requires Agrees(Merge(at))
      modifies this
      ensures Valid() && script == old(script) && Over(old(at), at, p, Aborted, 0)
    {
      hide TaskStep, Tracked, Untouched, Kept, NetworkTask.Inv, BleProvision.Inv, Sector.Shaped, OVER, DoCheck,
           DoTellWifi, DoTellMqtt, StartMqtt, AwaitBroker, NO_LINK, BLANK, Ended, EndLog, EndPc, JoinStops, Interrupted;
      Sound();
      BringUpIs(at, env);
      link := NO_LINK;
      if p.Trial? { candidate, fails := BLANK, Fails(0, 0); }
      EndedIsOver(Merge(at).(link := NO_LINK), p, Aborted, 0);
      Advance(env);
    }

    method JoinTurn(p: Purpose, until: nat) returns (a: Attempt)
      requires Valid() && at.pc == Joining(p, until)
      modifies this
      ensures Valid() && Joined(old(at), at, p, until, a)
      ensures if old(script) == [] then script == [] && a != Again else |script| < |old(script)|
    {
      hide TaskStep, Tracked, Untouched, Kept, NetworkTask.Inv, BleProvision.Inv, Sector.Shaped, Agrees, Over, Joined;
      var env := NextTurn();
      ghost var n := at;
      var stop := JoinStops(until, env);
      if stop.Some? { a := StopJoining(p, until, env, stop.value); } else { a := KeepJoining(p, until, env); }
      JoinedAfter(old(at), n, at, p, until, a);
    }

    /** wifi_join: it ends, because every turn of its loop takes one of the script. */
    method WifiJoin(p: Purpose) returns (a: Attempt)
      requires Valid() && at.pc == TellWifi(p)
      modifies this
      ensures Valid() && |script| <= |old(script)| && a != Again && Joined(old(at), at, p, 0, a)
    {
      hide TaskStep, Tracked, Untouched, Kept, NetworkTask.Inv, BleProvision.Inv, Sector.Shaped, OVER, Agrees, Same,
           Over;
      var asked, until := AskToJoin(p);
      if !asked { return AttemptFailed(3); }
      a := Again;
      while a == Again
        invariant Valid() && |script| <= |old(script)| && Joined(old(at), at, p, until, a)
        decreases |script|, a == Again
      {
        ghost var n := at;
        a := JoinTurn(p, until);
        JoinedAfter(old(at), n, at, p, until, a);
      }
    }

    /** mqtt_start. */
    method MqttStart(p: Purpose) returns (started: bool, until: nat)
      requires Valid() && at.pc == Connecting(p)
      modifies this
      ensures Valid() && |script| <= |old(script)|
      ensures if started then at.pc == Waiting(p, until) && Same(old(at), at) else Over(old(at), at, p, MqttFailed, 3)
    {
      hide TaskStep, Tracked, Untouched, Kept, NetworkTask.Inv, BleProvision.Inv, Sector.Shaped, OVER, DoCheck,
           DoTellWifi, Join, DoTellMqtt, AwaitBroker, BLANK, Ended, EndLog, EndPc;
      var env := NextTurn();
      BringUpIs(at, env);
      started, until := env.mqttAsks, env.now + MQTT_CONNECT_TIMEOUT_MS;
      if !started { EndedIsOver(at, p, MqttFailed, 3); }
      Advance(env);
    }

    method TellConnecting(p: Purpose)
      requires Valid() && at.pc == TellMqtt(p)
      modifies this
      ensures Valid() && |script| <= |old(script)| && at.pc == Connecting(p) && Same(old(at), at)
    {
      hide TaskStep, Tracked, Untouched, Kept, NetworkTask.Inv, BleProvision.Inv, Sector.Shaped, OVER, DoCheck,
           DoTellWifi, Join, StartMqtt, AwaitBroker, Report, NO_IP, BLANK;
      var env := NextTurn();
      BringUpIs(at, env);
      ble := Report(ble, MQTT_CONNECTING, 0, if p.Steady? then use.source else CANDIDATE,
                    if p.Steady? then fails.wifi + fails.mqtt + 1 else p.attempt, NO_IP);
      Advance(env);
    }

    /** The broker has answered, or the wait has failed. */
    method StopAwaiting(p: Purpose, until: nat, env: Env) returns (a: Attempt)
      requires Valid() && at.pc == Waiting(p, until) && (env.broker == Accepted || AwaitFails(until, env).Some?)
      modifies this
      ensures Valid() && script == old(script) && a != Again && Answered(old(at), at, p, until, a)
    {
      hide TaskStep, Tracked, Untouched, Kept, NetworkTask.Inv, BleProvision.Inv, Sector.Shaped, OVER, DoCheck,
           DoTellWifi, Join, DoTellMqtt, StartMqtt, BLANK, Ended, EndLog, EndPc, AwaitFails, Merge, Interrupted;
      Sound();
      BringUpIs(at, env);
      a := if env.broker == Accepted then AttemptOk else AttemptFailed(AwaitFails(until, env).value);
      if a == AttemptOk {
        if p.Steady? { fails := Fails(0, 0); }
        EndedIsOver(at, p, IsOnline, 0);
      } else {
        EndedIsOver(at, p, MqttFailed, a.reason);
      }
      Advance(env);
    }

    method KeepAwaiting(p: Purpose, until: nat, env: Env) returns (a: Attempt)
      requires Valid() && at.pc == Waiting(p, until) && env.broker != Accepted && AwaitFails(until, env) == None
      modifies this
      ensures Valid() && script == old(script) && Answered(old(at), at, p, until, a)
    {
      hide TaskStep, Tracked, Untouched, Kept, NetworkTask.Inv, BleProvision.Inv, Sector.Shaped, OVER, DoCheck,
           DoTellWifi, Join, DoTellMqtt, StartMqtt, BLANK, Ended, EndLog, EndPc, AwaitFails;
      events, pending := events + pending, {};
      if Commit in events || Forget in events {
        AbortAwait(p, until, env);
        return AttemptAborted;
      }
      Sound();
      BringUpIs(at, env);
      Advance(env);
      a := Again;
    }

    method AbortAwait(p: Purpose, until: nat, env: Env)
      requires Tracked() && at.pc == Waiting(p, until) && env.broker != Accepted && AwaitFails(until, env) == None
      requires Interrupted(Merge(at)) && Agrees(Merge(at))
      modifies this
      ensures Valid() && script == old(script) && Over(old(at), at, p, Aborted, 0)
    {
      hide TaskStep, Tracked, Untouched, Kept, NetworkTask.Inv, BleProvision.Inv, Sector.Shaped, OVER, DoCheck,
           DoTellWifi, Join, DoTellMqtt, StartMqtt, BLANK, Ended, EndLog, EndPc, AwaitFails, Interrupted;
      Sound();
      BringUpIs(at, env);
      if p.Trial? { candidate, fails := BLANK, Fails(0, 0); }
      EndedIsOver(Merge(at), p, Aborted, 0);
      Advance(env);
    }

    method AwaitTurn(p: Purpose, until: nat) returns (a: Attempt)
      requires Valid() && at.pc == Waiting(p, until)
      modifies this
      ensures Valid() && Answered(old(at), at, p, until, a)
      ensures if old(script) == [] then script == [] && a != Again else |script| < |old(script)|
    {
      hide TaskStep, Tracked, Untouched, Kept, NetworkTask.Inv, BleProvision.Inv, Sector.Shaped, Agrees, Over,
           Answered;
      var env := NextTurn();
      ghost var n := at;
      if env.broker == Accepted || AwaitFails(until, env).Some? { a := StopAwaiting(p, until, env); }
      else { a := KeepAwaiting(p, until, env); }
      AnsweredAfter(old(at), n, at, p, until, a);
    }

    /** mqtt_wait. */
    method MqttWait(p: Purpose, until: nat) returns (a: Attempt)
      requires Valid() && at.pc == Waiting(p, until)
      modifies this
      ensures Valid() && |script| <= |old(script)| && a != Again && Answered(old(at), at, p, until, a)
    {
      hide TaskStep, Tracked, Untouched, Kept, NetworkTask.Inv, BleProvision.Inv, Sector.Shaped, OVER, Agrees, Over;
      a := Again;
      while a == Again
        invariant Valid() && |script| <= |old(script)| && Answered(old(at), at, p, until, a)
        decreases |script|, a == Again
      {
        ghost var n := at;
        a := AwaitTurn(p, until);
        AnsweredAfter(old(at), n, at, p, until, a);
      }
    }

    /** bring_up: joins unless joined already, connects, and says how it ended;
        online, the network that is up is the one these settings name. */
    method BringUp(p: Purpose) returns (o: Outcome, reason: int8)
      requires Valid() && at.pc == Check(p)
      modifies this
      ensures Valid() && |script| <= |old(script)| && Over(old(at), at, p, o, reason)
      ensures o == IsOnline ==> OnAir(at, if p.Steady? then old(use).settings else old(candidate))
    {
      hide TaskStep, Tracked, Untouched, Kept, NetworkTask.Inv, BleProvision.Inv, Sector.Shaped, OVER, Agrees, Over,
           OnAir;
      SettingsAre(p);
      var joined, _ := CheckJoined(p);
      ghost var n := at;
      if !joined {
        var a := WifiJoin(p);
        if a == AttemptAborted {
          SameThenOver(old(at), n, at, p, Aborted, 0);
          return Aborted, 0;
        }
        if a.AttemptFailed? {
          SameThenOver(old(at), n, at, p, WifiFailed, a.reason);
          return WifiFailed, a.reason;
        }
        SameThenSame(old(at), n, at);
      }
      n := at;
      o, reason := ConnectMqtt(p);
      SameThenOver(old(at), n, at, p, o, reason);
      if o == IsOnline { OnlineMeans(old(at), p, reason); }
    }

    lemma SettingsAre(p: Purpose)
      requires Valid()
      ensures Settings(at, p) == if p.Steady? then use.settings else candidate
    {
      hide Tracked;
    }

    /** Online, the air carries the settings that were tried. */
    lemma OnlineMeans(before: Net, p: Purpose, reason: int8)
      requires Tracked() && Over(before, at, p, IsOnline, reason)
      ensures OnAir(at, Settings(before, p))
    {
      hide NetworkTask.Run, PowerOn, AirOk, Associated, UpToNul, Over, NetworkTask.Inv;
      AirAlways(start, build, trace);
      RouteOnline(before, at, p, reason);
    }

    /** joined_to: whether the network that is up was asked for with the name and
        the password of these settings, and the link is up. */
    method CheckJoined(p: Purpose) returns (joined: bool, ghost up: bool)
      requires Valid() && at.pc == Check(p)
      modifies this
      ensures Valid() && |script| <= |old(script)| && Same(old(at), at)
      ensures joined <==> up && OnAir(old(at), if p.Steady? then use.settings else candidate)
      ensures at.pc == if joined then TellMqtt(p) else TellWifi(p)
    {
      hide TaskStep, Tracked, Untouched, Kept, NetworkTask.Inv, BleProvision.Inv, Sector.Shaped, OVER, DoTellWifi,
           Join, DoTellMqtt, StartMqtt, AwaitBroker, JoinedTo, BLANK, Associated, UpToNul;
      var env := NextTurn();
      BringUpIs(at, env);
      up := env.link == LinkUp;
      JoinedMeans(p, env.link);
      joined := JoinedTo(link, if p.Steady? then use.settings else candidate, env.link);
      Advance(env);
    }

    lemma JoinedMeans(p: Purpose, status: LinkStatus)
      requires Valid() && at.pc == Check(p)
      ensures JoinedTo(link, if p.Steady? then use.settings else candidate, status) <==>
                status == LinkUp && OnAir(at, if p.Steady? then use.settings else candidate)
    {
      hide NetworkTask.Run, PowerOn, NetworkTask.Inv, Associated, UpToNul, LinkOk, JoinedTo;
      Sound();
      AirAlways(start, build, trace);
      JoinedToIff(at, p, status);
    }

    method ConnectMqtt(p: Purpose) returns (o: Outcome, reason: int8)
      requires Valid() && at.pc == TellMqtt(p)
      modifies this
      ensures Valid() && |script| <= |old(script)| && Over(old(at), at, p, o, reason)
    {
      hide TaskStep, Tracked, Untouched, Kept, NetworkTask.Inv, BleProvision.Inv, Sector.Shaped, OVER, Agrees, Over;
      TellConnecting(p);
      ghost var n := at;
      var started, until := MqttStart(p);
      if !started {
        SameThenOver(old(at), n, at, p, MqttFailed, 3);
        return MqttFailed, 3;
      }
      SameThenSame(old(at), n, at);
      n := at;
      var a := MqttWait(p, until);
      o, reason := IsOnline, 0;
      if a == AttemptAborted {
        o := Aborted;
      } else if a.AttemptFailed? {
        o, reason := MqttFailed, a.reason;
      }
      SameThenOver(old(at), n, at, p, o, reason);
    }

    // ---- online ----

    /** One round of the loop of run_online. */
    method OnlineTurn(s: Session) returns (on: bool, t: Session)
      requires Valid() && at.pc == Online(s)
      modifies this
      ensures Valid() && Same(old(at), at) && t.trial == s.trial && at.pc == if on then Online(t) else Leaving(t)
      ensures if old(script) == [] then script == [] && !on else |script| < |old(script)|
    {
      hide TaskStep, Tracked, Untouched, Kept, NetworkTask.Inv, BleProvision.Inv, Sector.Shaped, DoSave, DoTellSaved,
           DoTellOnline, Serve, DoStop, WatchLink, Leave, BLANK;
      var env := NextTurn();
      ServiceIs(at, env);
      on, t := env.broker == Accepted, s;
      if on {
        events, pending := events + pending, {};
        on := Commit !in events && Forget !in events;
      }
      Advance(env);
      if on {
        SwitchRadio(s);
        on, t := CheckLink(s);
      }
    }

    /** The link, and whether the client still counts as connected. */
    method CheckLink(s: Session) returns (on: bool, t: Session)
      requires Valid() && at.pc == Linking(s)
      modifies this
      ensures Valid() && |script| <= |old(script)| && Same(old(at), at)
      ensures t.trial == s.trial && at.pc == if on then Online(t) else Leaving(t)
    {
      hide TaskStep, Tracked, Untouched, Kept, NetworkTask.Inv, BleProvision.Inv, Sector.Shaped, OVER, BLANK;
      var env := NextTurn();
      LinkIs(at, s, env);
      events := events - {ClientLeft};
      t := s.(bad := if env.link == LinkJoin then 0 else s.bad + 1);
      on := t.bad < BAD_LINK_READINGS && env.clientUp;
      link := if t.bad >= BAD_LINK_READINGS then link.(up := false) else link;
      Advance(env);
    }

    /** Whether BLE is to go off now. */
    method SwitchRadio(s: Session)
      requires Valid() && at.pc == Serving(s)
      modifies this
      ensures Valid() && |script| <= |old(script)| && Same(old(at), at) && at.pc == Linking(s)
    {
      hide TaskStep, Tracked, Untouched, Kept, NetworkTask.Inv, BleProvision.Inv, Sector.Shaped, OVER, DoSave,
           DoTellSaved, DoTellOnline, Poll, WatchLink, Leave, BLANK, RadioDone, Stop;
      var env := NextTurn();
      ServiceIs(at, env);
      var stop := RadioDone(ble, events, env.now - s.since);
      Advance(env);
      if stop {
        env := NextTurn();
        Sound();
        ServiceIs(at, env);
        ble := Stop(ble);
        Advance(env);
      }
    }

    /** run_online, and what the task does when it returns. */
    method RunOnline(s: Session)
      requires Valid() && at.pc == Online(s)
      modifies this
      ensures Valid() && |script| <= |old(script)| && at.pc == Head
      ensures Same(old(at).(fails := at.fails), at) && fails == if s.trial then Fails(0, 0) else old(fails)
    {
      hide TaskStep, Tracked, Untouched, Kept, NetworkTask.Inv, BleProvision.Inv, Sector.Shaped, OVER, BLANK;
      var on, t := true, s;
      while on
        invariant Valid() && |script| <= |old(script)| && Same(old(at), at)
        invariant t.trial == s.trial && at.pc == if on then Online(t) else Leaving(t)
        decreases |script|, on
      {
        on, t := OnlineTurn(t);
      }
      LeaveOnline(t);
    }

    method LeaveOnline(s: Session)
      requires Valid() && at.pc == Leaving(s)
      modifies this
      ensures Valid() && |script| <= |old(script)| && at.pc == Head
      ensures Same(old(at).(fails := at.fails), at) && fails == if s.trial then Fails(0, 0) else old(fails)
    {
      hide TaskStep, Tracked, Untouched, Kept, NetworkTask.Inv, BleProvision.Inv, Sector.Shaped, OVER, DoSave,
           DoTellSaved, DoTellOnline, Poll, Serve, DoStop, WatchLink, BLANK;
      var env := NextTurn();
      ServiceIs(at, env);
      if s.trial { fails := Fails(0, 0); }
      else if Commit !in events && Forget !in events { events, pending := events + pending, {}; }
      Advance(env);
    }

    // ---- trials ----

    /** The bring-up came online: save, use, report, serve. */
    method CommitAndServe() returns (saved: bool)
      requires Valid() && at.pc == Saving
      modifies this
      ensures Valid() && |script| <= |old(script)| && at.pc == Head && candidate == BLANK && fails == Fails(0, 0)
      ensures at.log == old(at.log) + [Committed(old(candidate), saved)] && use == Use(old(candidate), true, STORED)
    {
      hide TaskStep, Tracked, Untouched, Kept, NetworkTask.Inv, BleProvision.Inv, Sector.Shaped, OVER, DoTellOnline,
           Poll, Serve, DoStop, WatchLink, Leave, SaveTo, Report, BLANK, NO_IP;
      var env := NextTurn();
      ServiceIs(at, env);
      var (done, flash) := SaveTo(sector, candidate, env.luck);
      saved, sector, use, candidate := done, flash, Use(candidate, true, STORED), BLANK;
      Advance(env);
      TellCommit(saved);
    }

    method TellCommit(saved: bool)
      requires Valid() && at.pc == TellSaved(saved)
      modifies this
      ensures Valid() && |script| <= |old(script)| && at.pc == Head
      ensures Same(old(at).(fails := Fails(0, 0)), at)
    {
      hide TaskStep, Tracked, Untouched, Kept, NetworkTask.Inv, BleProvision.Inv, Sector.Shaped, OVER, DoSave,
           DoTellOnline, Poll, Serve, DoStop, WatchLink, Leave, Report, BLANK, NO_IP;
      var env := NextTurn();
      ServiceIs(at, env);
      ble := if saved then Report(ble, ONLINE, 0, STORED, 0, env.ip) else Report(ble, SAVE_FAILED, 0, CANDIDATE, 0, NO_IP);
      events := events - {ClientLeft};
      Advance(env);
      RunOnline(Session(true, env.now, 0));
    }

    /** A failed attempt of a trial: report it, count it, and wait, or give up. */
    method FailTrial(p: Purpose, o: Outcome, reason: int8) returns (again: bool, q: Purpose)
      requires Valid() && at.pc == TellFailed(p, o, reason) && p.Trial?
      modifies this
      ensures Valid() && |script| <= |old(script)|
      ensures if again then at.pc == Check(q) && Same(old(at), at) && CountedOnce(p, o, q)
              else at.pc == Head && GivenUp(old(at), at)
    {
      hide TaskStep, Tracked, Untouched, Kept, NetworkTask.Inv, BleProvision.Inv, Sector.Shaped, OVER, Agrees, BLANK,
           Same;
      q := TellFailure(p, o, reason);
      ghost var n := at;
      if q.wifiTries >= NET_CANDIDATE_WIFI_TRIES || q.mqttTries >= NET_CANDIDATE_MQTT_TRIES {
        GiveUpTrial();
        again := false;
      } else {
        again := PauseTrial(q);
        q := q.(attempt := q.attempt + 1);
        if again { SameThenSame(old(at), n, at); }
      }
      if !again { SameThenGivenUp(old(at), n, at); }
    }

    method TellFailure(p: Purpose, o: Outcome, reason: int8) returns (q: Purpose)
      requires Valid() && at.pc == TellFailed(p, o, reason) && p.Trial?
      modifies this
      ensures Valid() && |script| <= |old(script)| && Same(old(at), at)
      ensures q == Counted(p, o) && at.pc == if LastTry(q) then Reverting else Pause(q)
    {
      hide TaskStep, Tracked, Untouched, Kept, NetworkTask.Inv, BleProvision.Inv, Sector.Shaped, OVER, DoFallback,
           AfterPause, Revert, DoTellBlank, Report, BLANK, NO_IP, LastTry, FailState;
      var env := NextTurn();
      FailureIs(at, env);
      ble := Report(ble, FailState(o), reason, CANDIDATE, p.attempt, NO_IP);
      q := if o == WifiFailed then p.(wifiTries := p.wifiTries + 1) else p.(mqttTries := p.mqttTries + 1);
      Advance(env);
    }

    method PauseTrial(p: Purpose) returns (again: bool)
      requires Valid() && at.pc == Pause(p) && p.Trial?
      modifies this
      ensures Valid() && |script| <= |old(script)|
      ensures if again then at.pc == Check(p.(attempt := p.attempt + 1)) && Same(old(at), at)
              else at.pc == Head && GivenUp(old(at), at)
    {
      hide TaskStep, Tracked, Untouched, Kept, NetworkTask.Inv, BleProvision.Inv, Sector.Shaped, OVER, BLANK;
      var env := NextTurn();
      PauseIs(at, p, env);
      events, pending := events + pending, {};
      again := Commit !in events && Forget !in events;
      if again { Advance(env); } else { DropTrial(p, env); }
    }

    method DropTrial(p: Purpose, env: Env)
      requires Tracked() && at.pc == Pause(p) && p.Trial? && Interrupted(Merge(at)) && Agrees(Merge(at))
      modifies this
      ensures Valid() && script == old(script) && at.pc == Head && GivenUp(old(at), at)
    {
      hide TaskStep, Tracked, Untouched, Kept, NetworkTask.Inv, BleProvision.Inv, Sector.Shaped, OVER, BLANK,
           Interrupted;
      Sound();
      PauseIs(at, p, env);
      candidate, fails := BLANK, Fails(0, 0);
      Advance(env);
    }

    method GiveUpTrial()
      requires Valid() && at.pc == Reverting
      modifies this
      ensures Valid() && |script| <= |old(script)| && at.pc == Head && GivenUp(old(at), at)
    {
      hide TaskStep, Tracked, Untouched, Kept, NetworkTask.Inv, BleProvision.Inv, Sector.Shaped, OVER, BLANK;
      TellReverted();
      if !use.have { TellBlankSettings(); }
    }

    method TellReverted()
      requires Valid() && at.pc == Reverting
      modifies this
      ensures Valid() && |script| <= |old(script)|
      ensures GivenUp(old(at), at) && at.pc == if use.have then Head else TellBlank
    {
      hide TaskStep, Tracked, Untouched, Kept, NetworkTask.Inv, BleProvision.Inv, Sector.Shaped, OVER, Failed,
           DoFallback, AfterPause, DoTellBlank, Report, BLANK, NO_IP;
      var env := NextTurn();
      FailureIs(at, env);
      candidate, fails := BLANK, Fails(0, 0);
      ble := Report(ble, REVERTED, 0, use.source, 0, NO_IP);
      Advance(env);
    }

    method TellBlankSettings()
      requires Valid() && at.pc == TellBlank
      modifies this
      ensures Valid() && |script| <= |old(script)| && at.pc == Head && Same(old(at).(fails := Fails(0, 0)), at)
    {
      hide TaskStep, Tracked, Untouched, Kept, NetworkTask.Inv, BleProvision.Inv, Sector.Shaped, OVER, Failed,
           DoFallback, AfterPause, Revert, Report, BLANK, NO_IP;
      var env := NextTurn();
      FailureIs(at, env);
      ble, fails := Report(ble, UNPROVISIONED, 0, STORED, 0, NO_IP), Fails(0, 0);
      Advance(env);
    }

    /** take_candidate. */
    method TakeUp() returns (taken: bool)
      requires Valid() && at.pc == Taking
      modifies this
      ensures Valid() && |script| <= |old(script)| && use == old(use) && sector == old(sector)
      ensures if taken then at.pc == Check(Trial(1, 0, 0)) && at.log == old(at.log) + [Took(candidate)]
              else at.pc == Head && at.log == old(at.log) + [NothingTaken] && fails == Fails(0, 0)
    {
      hide TaskStep, Tracked, Untouched, Kept, NetworkTask.Inv, BleProvision.Inv, Sector.Shaped, OVER, DoLoad,
           DoAdvertise, DoAnnounce, DoRefresh, AtHead, DoSleep, DoForget, BLANK;
      var env := NextTurn();
      StartUpIs(at, env);
      var (b, c) := Take(ble);
      taken := c.Some?;
      if taken { ble, candidate := b, c.value; } else { fails := Fails(0, 0); }
      Advance(env);
    }

    /** handle_commit: every failed attempt uses up one of those a trial has, so
        the loop ends, at the loop head and with nothing staged. Either the very
        candidate it took was committed, as the last entry of the history says, or
        settings in use and flash are as they were. */
    method HandleCommit() returns (committed: bool)
      requires Valid() && at.pc == Taking
      modifies this
      ensures Valid() && |script| <= |old(script)| && at.pc == Head && candidate == BLANK && fails == Fails(0, 0)
      ensures Handled(old(at), at, committed)
    {
      hide TaskStep, Tracked, Untouched, Kept, NetworkTask.Inv, BleProvision.Inv, Sector.Shaped, OVER, BLANK, EndLog,
           GivenUp;
      committed := false;
      var trying := TakeUp();
      if !trying {
        NothingStaged();
        return;
      }
      ghost var took := at;
      var p := Trial(1, 0, 0);
      while trying
        invariant Valid() && |script| <= |old(script)|
        invariant if trying then p.Trial? && at.pc == Check(p) && !LastTry(p) && Tries(took, at) && !committed
                  else Settled(took, at, committed)
        decreases if trying then NET_CANDIDATE_WIFI_TRIES + NET_CANDIDATE_MQTT_TRIES - p.wifiTries - p.mqttTries else 0
      {
        ghost var n := at;
        var o, reason := BringUp(p);
        TriedOnce(took, n, at, p, o, reason);
        match o {
          case Aborted => trying := false;
          case IsOnline =>
            n := at;
            var saved := CommitAndServe();
            DoneByCommit(took, n, at, saved);
            trying, committed := false, true;
          case _ =>
            n := at;
            trying, p := FailTrial(p, o, reason);
            TriedAgain(took, n, at, trying);
        }
      }
      DoneIsHandled(old(at), took, at, committed);
    }

    lemma NothingStaged()
      requires Tracked() && at.pc == Head
      ensures at.candidate == BLANK
    {
      hide NetworkTask.Run, PowerOn, Validate, BleProvision.Inv, FlashOk, LogOk, LastTook, LastUse, Sector.Shaped, BLANK;
      assert NetworkTask.Inv(at);
    }

    // ---- the settings in use ----

    /** One round with the settings in use. */
    method UseSettings() returns (o: Outcome)
      requires Valid() && at.pc == Check(Steady)
      modifies this
      ensures Valid() && |script| <= |old(script)| && at.pc == Head && use == old(use) && sector == old(sector)
      ensures at.log == old(at.log) + [Tried(false, old(use).settings, o)] && candidate == old(candidate)
      ensures fails == match o
              case IsOnline => Fails(0, 0)
              case Aborted => old(fails)
              case WifiFailed => Fails(old(fails).wifi + 1, old(fails).mqtt)
              case MqttFailed => Fails(old(fails).wifi, old(fails).mqtt + 1)
    {
      hide TaskStep, Tracked, Untouched, Kept, NetworkTask.Inv, BleProvision.Inv, Sector.Shaped, OVER, BLANK, OnAir,
           Over;
      var reason;
      o, reason := BringUp(Steady);
      SteadyOver(old(at), at, o, reason);
      match o {
        case Aborted =>
        case IsOnline => ServeSteady();
        case _ => FailSteady(o, reason);
      }
    }

    method ServeSteady()
      requires Valid() && at.pc == TellOnline
      modifies this
      ensures Valid() && |script| <= |old(script)| && at.pc == Head && Same(old(at), at)
    {
      hide TaskStep, Tracked, Untouched, Kept, NetworkTask.Inv, BleProvision.Inv, Sector.Shaped, OVER, DoSave,
           DoTellSaved, Poll, Serve, DoStop, WatchLink, Leave, BLANK, Report, NO_IP;
      var env := NextTurn();
      ServiceIs(at, env);
      ble := Report(ble, ONLINE, 0, use.source, 0, env.ip);
      events := events - {ClientLeft};
      Advance(env);
      RunOnline(Session(false, env.now, 0));
    }

    method FailSteady(o: Outcome, reason: int8)
      requires Valid() && at.pc == TellFailed(Steady, o, reason)
      modifies this
      ensures Valid() && |script| <= |old(script)| && at.pc == Head
      ensures Same(old(at).(fails := MoreFails(old(fails), o)), at)
    {
      hide TaskStep, Tracked, Untouched, Kept, NetworkTask.Inv, BleProvision.Inv, Sector.Shaped, OVER, BLANK,
           MoreFails;
      TellSteadyFailure(o, reason);
      var fallback := !ble.active && (fails.wifi >= NET_WIFI_FAILS_BEFORE_BLE || fails.mqtt >= NET_MQTT_FAILS_BEFORE_BLE);
      PauseSteady(fallback);
    }

    method TellSteadyFailure(o: Outcome, reason: int8)
      requires Valid() && at.pc == TellFailed(Steady, o, reason)
      modifies this
      ensures Valid() && |script| <= |old(script)| && Same(old(at).(fails := MoreFails(old(fails), o)), at)
      ensures at.pc == if !ble.active && TooMany(fails) then Fallback else Pause(Steady)
    {
      hide TaskStep, Tracked, Untouched, Kept, NetworkTask.Inv, BleProvision.Inv, Sector.Shaped, OVER, DoFallback,
           AfterPause, Revert, DoTellBlank, BLANK, Report, NO_IP, TooMany, FailState;
      var env := NextTurn();
      FailureIs(at, env);
      ble := Report(ble, FailState(o), reason, use.source, fails.wifi + fails.mqtt + 1, NO_IP);
      fails := if o == WifiFailed then fails.(wifi := fails.wifi + 1) else fails.(mqtt := fails.mqtt + 1);
      Advance(env);
    }

    method PauseSteady(fallback: bool)
      requires Valid() && at.pc == if fallback then Fallback else Pause(Steady)
      modifies this
      ensures Valid() && |script| <= |old(script)| && at.pc == Head && Same(old(at), at)
    {
      hide TaskStep, Tracked, Untouched, Kept, NetworkTask.Inv, BleProvision.Inv, Sector.Shaped, OVER, Failed,
           DoFallback, Revert, DoTellBlank, BLANK, StartBle;
      if fallback { FallBackToBle(); }
      var env := NextTurn();
      FailureIs(at, env);
      events, pending := events + pending, {};
      Advance(env);
    }

    method FallBackToBle()
      requires Valid() && at.pc == Fallback
      modifies this
      ensures Valid() && |script| <= |old(script)| && at.pc == Pause(Steady) && Same(old(at), at)
    {
      hide TaskStep, Tracked, Untouched, Kept, NetworkTask.Inv, BleProvision.Inv, Sector.Shaped, OVER, Failed,
           AfterPause, Revert, DoTellBlank, BLANK, StartBle;
      var env := NextTurn();
      FailureIs(at, env);
      ble := StartBle(ble, use);
      Advance(env);
    }

    // ---- the loop ----

    /** What the loop head decides. */
    method LookForWork() returns (forget: bool, commit: bool)
      requires Valid() && at.pc == Head && script != []
      modifies this
      ensures Valid() && |script| < |old(script)| && Same(old(at), at)
      ensures at.pc == if forget then Forgetting else if commit then Taking else if use.have then Check(Steady) else Sleep
    {
      hide TaskStep, Tracked, Untouched, Kept, NetworkTask.Inv, BleProvision.Inv, Sector.Shaped, OVER, DoLoad,
           DoAdvertise, DoAnnounce, DoRefresh, DoSleep, DoForget, DoTake, BLANK;
      var env := NextTurn();
      StartUpIs(at, env);
      forget, commit := Forget in events, Commit in events;
      if forget { events := events - {Forget}; }
      else if commit { events := events - {Commit}; }
      else { events := events - {ClientLeft}; }
      Advance(env);
    }

    method AwaitSettings()
      requires Valid() && at.pc == Sleep
      modifies this
      ensures Valid() && |script| <= |old(script)| && at.pc == Head && Same(old(at), at)
    {
      hide TaskStep, Tracked, Untouched, Kept, NetworkTask.Inv, BleProvision.Inv, Sector.Shaped, OVER, DoLoad,
           DoAdvertise, DoAnnounce, DoRefresh, AtHead, DoForget, DoTake, BLANK;
      var env := NextTurn();
      StartUpIs(at, env);
      events, pending := events + pending, {};
      Advance(env);
    }

    /** task(), for as long as the script lasts: it is back at the loop head, with
        settings in use that are valid and the ones the history says were loaded
        or committed last, or with the radio on. */
    method RunTask()
      requires Valid() && at.pc == Load(true)
      modifies this
      ensures Valid() && at.pc == Head && candidate == BLANK
      ensures if use.have then Validate(use.settings) == Ok && LastUse(at.log) == Some(use.settings)
              else ble.active && LastUse(at.log) == None
      ensures !ble.active ==> SteadyFails(at.log, WifiFailed) < 3 && SteadyFails(at.log, MqttFailed) < 5
    {
      hide TaskStep, Tracked, Untouched, Kept, NetworkTask.Inv, BleProvision.Inv, Sector.Shaped, OVER, BLANK,
           LoadFrom, EraseAll, Validate, LastUse, Same, Handled, Found, SteadyFails;
      LoadActive(true);
      while script != []
        invariant Valid() && at.pc == Head
        decreases |script|
      {
        var forget, commit := LookForWork();
        if forget { var _ := HandleForget(); }
        else if commit { var _ := HandleCommit(); }
        else if use.have { var _ := UseSettings(); }
        else { AwaitSettings(); }
      }
      AtRest();
    }

    lemma AtRest()
      requires Tracked() && at.pc == Head
      ensures at.candidate == BLANK
      ensures if at.use.have then Validate(at.use.settings) == Ok && LastUse(at.log) == Some(at.use.settings)
              else at.ble.active && LastUse(at.log) == None
      ensures !at.ble.active ==> SteadyFails(at.log, WifiFailed) < 3 && SteadyFails(at.log, MqttFailed) < 5
    {
      hide NetworkTask.Run, PowerOn, Validate, BleProvision.Inv, FlashOk, LogOk, LastTook, LastUse, Sector.Shaped, BLANK,
           SteadyFails;
      assert NetworkTask.Inv(at);
      FailuresBringBle(start, build, trace);
    }
  }
}
