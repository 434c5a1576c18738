/** What the network task guarantees over every run: any interleaving of its
    steps with the radio's callbacks, any outcome of link, broker and flash, and
    a loss of power at any point. */
module NetworkSafety {
  import opened Config
  import opened NetConfig
  import opened ConfigFlash
  import NotifyQueue
  import BleProvision
  import opened NetworkTask

  lemma {:induction false} StartSound(s: Sector, build: Build)
    requires s.Shaped()
    ensures Inv(Boot(s, build, []))
  {
    InitSound();
    hide BleProvision.Inv, BleProvision.Init, Validate, Sector.Shaped;
  }

  /** A hub that is switched on for the first time. */
  function PowerOn(s: Sector, build: Build): (n: Net)
    requires s.Shaped()
    ensures Inv(n)
  {
    StartSound(s, build);
    Boot(s, build, [])
  }

  lemma {:induction false} RunStarts(n: Net, es: seq<Event>)
    requires Inv(n)
    ensures es == [] ==> Run(n, es) == n
    ensures es != [] ==>
              && n.sector.Shaped() && BleProvision.Inv(n.ble) && Inv(Step(n, es[0]))
              && Run(n, es) == Run(Step(n, es[0]), es[1..])
  {
    hide Inv, Step, BleProvision.Inv;
    if es != [] { StepKeeps(n, es[0]); }
  }

  lemma {:induction false} RunAppend(n: Net, es: seq<Event>, fs: seq<Event>)
    requires Inv(n)
    ensures Run(n, es + fs) == Run(Run(n, es), fs)
    decreases |es|
  {
    hide Inv, Step, Run;
    RunStarts(n, es);
    RunStarts(n, es + fs);
    if es == [] {
      assert es + fs == fs;
    } else {
      assert (es + fs)[1..] == es[1..] + fs;
      RunAppend(Step(n, es[0]), es[1..], fs);
    }
  }

  lemma {:induction false} RunSnoc(n: Net, es: seq<Event>, e: Event)
    requires Inv(n)
    ensures Run(n, es).sector.Shaped() && BleProvision.Inv(Run(n, es).ble)
    ensures Run(n, es + [e]) == Step(Run(n, es), e)
  {
    hide Inv, Step, Run;
    RunAppend(n, es, [e]);
    var m := Run(n, es);
    RunStarts(m, [e]);
    assert [e][1..] == [];
    RunStarts(Step(m, e), []);
  }

  /** The hub can always be reached: at every loop head, settings in use are
      valid and are the ones last loaded or committed; without settings BLE is
      on; with BLE off the settings have not failed three times on Wi-Fi or five
      times on the broker; no candidate is kept outside a trial; and settings
      handed over still have the event that makes the task take them. */
  lemma {:induction false} HubStaysReachable(s: Sector, build: Build, es: seq<Event>)
    requires s.Shaped()
    ensures var n := Run(PowerOn(s, build), es);
            && (!OnTrial(n.pc) ==> n.candidate == BLANK)
            && (n.use.have ==> Valid(n.use.settings) && LastUse(n.log) == Some(n.use.settings))
            && (n.pc.Head? && !n.use.have ==> n.ble.active)
            && (n.pc.Head? && !n.ble.active ==>
                  n.fails.wifi < 3 && n.fails.mqtt < 5)
            && (n.pc.Head? && n.ble.handoffValid ==> BleProvision.Commit in n.events + n.pending)
  {
    hide Run, PowerOn, Validate, BleProvision.Inv, FlashOk, LogOk, LastTook, LastUse, Sector.Shaped;
    var n := Run(PowerOn(s, build), es);
    assert Inv(n);
  }

  // ---- no lockout ----

  /** The entries that stand for a commit, a forget or a boot. */
  predicate Changes(x: Entry) {
    x.Committed? || x.Wiped? || x.Rebooted?
  }

  ghost predicate Quiet(before: seq<Entry>, after: seq<Entry>) {
    before <= after && forall k {:trigger after[k]} :: |before| <= k < |after| ==> !Changes(after[k])
  }

  lemma {:induction false} Appended(log: seq<Entry>, x: Entry)
    requires Changes(x)
    ensures log <= log + [x] && !Quiet(log, log + [x])
  {
    assert (log + [x])[|log|] == x;
  }

  lemma {:induction false} LoudSteps(n: Net, env: Env)
    requires n.sector.Shaped() && (n.pc.Forgetting? || n.pc.Saving?)
    ensures n.log <= TaskStep(n, env).log && !Quiet(n.log, TaskStep(n, env).log)
  {
    hide Quiet, LoadFrom, SaveTo, EraseAll;
    match n.pc
    case Forgetting => Appended(n.log, Wiped(EraseAll(n.sector, env.luck).0));
    case Saving => Appended(n.log, Committed(n.candidate, SaveTo(n.sector, n.candidate, env.luck).0));
  }

  lemma {:induction false} QuietSteps(n: Net, env: Env)
    requires n.sector.Shaped() && !n.pc.Load? && !n.pc.Forgetting? && !n.pc.Saving?
    ensures Kept(n, TaskStep(n, env)) && !TaskStep(n, env).pc.Load?
    ensures !n.pc.Taking? ==> Untouched(n, TaskStep(n, env))
  {
    hide Untouched, BringUpStep, FailureStep, ServiceStep, StartUpStep;
    if InBringUp(n.pc) { BringUpQuiet(n, env); }
    else if InFailure(n.pc) { FailureQuiet(n); }
    else if InService(n.pc) { ServiceQuiet(n, env); }
    else { StartUpQuiet(n, env.luck); }
    if !n.pc.Taking? { UntouchedIsKept(n, TaskStep(n, env)); }
  }

  lemma {:induction false} BringUpQuiet(n: Net, env: Env)
    requires InBringUp(n.pc)
    ensures Untouched(n, BringUpStep(n, env)) && !BringUpStep(n, env).pc.Load?
  {
    hide Untouched, JoinedTo, Report;
  }

  lemma {:induction false} FailureQuiet(n: Net)
    requires InFailure(n.pc)
    ensures Untouched(n, FailureStep(n)) && !FailureStep(n).pc.Load?
  {
    hide Untouched, Report, StartBle;
  }

  lemma {:induction false} ServiceQuiet(n: Net, env: Env)
    requires InService(n.pc) && !n.pc.Saving? && n.sector.Shaped()
    ensures Untouched(n, ServiceStep(n, env)) && !ServiceStep(n, env).pc.Load?
  {
    hide Untouched, Report, DoSave, RadioDone, BleProvision.Stop;
  }

  lemma {:induction false} StartUpQuiet(n: Net, luck: Luck)
    requires !InBringUp(n.pc) && !InFailure(n.pc) && !InService(n.pc) && n.sector.Shaped()
    requires !n.pc.Load? && !n.pc.Forgetting?
    ensures Kept(n, StartUpStep(n, luck)) && !StartUpStep(n, luck).pc.Load?
    ensures !n.pc.Taking? ==> Untouched(n, StartUpStep(n, luck))
  {
    hide Untouched, Report, StartBle, DoLoad, DoForget, BleProvision.Take;
  }

  lemma {:induction false} UntouchedIsKept(n: Net, m: Net)
    requires Untouched(n, m)
    ensures Kept(n, m)
  {
  }

  lemma {:induction false} LoadedAgain(n: Net, env: Env)
    requires n.sector.Shaped() && n.pc.Load?
    ensures n.log <= TaskStep(n, env).log && TaskStep(n, env).sector == n.sector && !TaskStep(n, env).pc.Load?
  {
    hide LoadFrom;
  }

  lemma {:induction false} StepUntouched(n: Net, e: Event)
    requires Inv(n)
    ensures n.sector.Shaped() && BleProvision.Inv(n.ble)
    ensures n.log <= Step(n, e).log
    ensures Quiet(n.log, Step(n, e).log) ==> Step(n, e).sector == n.sector
    ensures Quiet(n.log, Step(n, e).log) && !n.pc.Load? ==> Step(n, e).use == n.use && !Step(n, e).pc.Load?
  {
    hide Inv, TaskStep, BleProvision.Step, BleProvision.Inv, Quiet, Boot, Untouched;
    ShapedAndSound(n);
    match e
    case Task(env) =>
      if n.pc.Load? { LoadedAgain(n, env); }
      else if n.pc.Forgetting? || n.pc.Saving? { LoudSteps(n, env); }
      else { QuietSteps(n, env); }
    case Client(_) =>
    case Reboot =>
      Appended(n.log, Rebooted);
      BootKeeps(n);
  }

  lemma {:induction false} BootKeeps(n: Net)
    ensures Boot(n.sector, n.build, n.log + [Rebooted]).log == n.log + [Rebooted]
  {
  }

  /** No lockout: over any stretch of any run without a commit, a forget or a
      reboot, whatever trials failed or were aborted in it, the flash sector
      stays exactly as it was, and so do the settings in use unless the stretch
      begins in the middle of loading them. */
  lemma {:induction false} NoLockout(n: Net, es: seq<Event>)
    requires Inv(n)
    ensures n.log <= Run(n, es).log
    ensures Quiet(n.log, Run(n, es).log) ==> Run(n, es).sector == n.sector
    ensures Quiet(n.log, Run(n, es).log) && !n.pc.Load? ==> Run(n, es).use == n.use
    decreases |es|
  {
    hide Inv, Step, Run, Quiet;
    RunStarts(n, es);
    if es == [] {
    } else {
      StepUntouched(n, es[0]);
      var m := Step(n, es[0]);
      NoLockout(m, es[1..]);
      assert n.log <= m.log <= Run(n, es).log;
      if Quiet(n.log, Run(n, es).log) { QuietParts(n.log, m.log, Run(n, es).log); }
    }
  }

  lemma {:induction false} QuietParts(a: seq<Entry>, b: seq<Entry>, c: seq<Entry>)
    requires a <= b <= c && Quiet(a, c)
    ensures Quiet(a, b) && Quiet(b, c)
  {
    forall k {:trigger b[k]} | |a| <= k < |b| ensures !Changes(b[k]) { assert b[k] == c[k]; }
  }

  lemma {:induction false} EntryAllowed(s: Sector, build: Build, es: seq<Event>, k: nat)
    requires s.Shaped() && k < |Run(PowerOn(s, build), es).log|
    ensures LogOk(Run(PowerOn(s, build), es).log)
    ensures var log := Run(PowerOn(s, build), es).log; EntryOk(log[..k], log[k])
  {
    hide Run, PowerOn, BleProvision.Inv, UseOk, CandidateOk, FlashOk, EntryOk, Sector.Shaped, Reachable, TriesOk, HandoffOk;
    var log := Run(PowerOn(s, build), es).log;
    assert LogOk(log);
    assert EntryOk(log[..k], log[k]);
  }

  /** Settings are loaded only as the first thing after power comes on or right
      after a forget; they change otherwise only by a commit, and a commit comes
      only right after a bring-up with this very candidate, the one taken last,
      came online. */
  lemma {:induction false} SettingsChangeOnlyThen(s: Sector, build: Build, es: seq<Event>, k: nat)
    requires s.Shaped() && k < |Run(PowerOn(s, build), es).log|
    ensures var log := Run(PowerOn(s, build), es).log;
            && (log[k].Loaded? ==> k == 0 || log[k - 1].Rebooted? || log[k - 1].Wiped?)
            && (log[k].Committed? ==>
                  k > 0 && log[k - 1] == Tried(true, log[k].c, IsOnline) && LastTook(log[..k - 1]) == Some(log[k].c))
  {
    hide Inv, Run, PowerOn, LastTook, EntryOk, LogOk, Sector.Shaped;
    var log := Run(PowerOn(s, build), es).log;
    EntryAllowed(s, build, es, k);
    if k > 0 { EntryAllowed(s, build, es, k - 1); }
    ChangeMeans(log, k);
  }

  lemma {:induction false} ChangeMeans(log: seq<Entry>, k: nat)
    requires k < |log| && EntryOk(log[..k], log[k]) && (k > 0 ==> EntryOk(log[..k - 1], log[k - 1]))
    ensures log[k].Loaded? ==> k == 0 || log[k - 1].Rebooted? || log[k - 1].Wiped?
    ensures log[k].Committed? ==>
              k > 0 && log[k - 1] == Tried(true, log[k].c, IsOnline) && LastTook(log[..k - 1]) == Some(log[k].c)
  {
    hide LastTook, LastUse, TrialCount;
    if k > 0 { assert log[..k][k - 1] == log[k - 1]; }
  }

  // ---- where a candidate and a wipe come from ----

  /** The settings of the last apply the hub accepted since power came on. */
  function LastApply(n: Net, es: seq<Event>): Option<NetConfig>
    requires Inv(n)
    decreases |es|
  {
    if es == [] then None
    else
      var before, e := Run(n, es[..|es| - 1]), es[|es| - 1];
      if e.Reboot? then None
      else if e.Client? && BleProvision.IsApply(e.e) && Valid(before.ble.staged) then Some(before.ble.staged)
      else LastApply(n, es[..|es| - 1])
  }

  /** Forget commands received since power came on, less the wipes done. */
  function Owed(n: Net, es: seq<Event>): int
    requires Inv(n)
    decreases |es|
  {
    if es == [] then 0
    else
      var before, e := Run(n, es[..|es| - 1]), es[|es| - 1];
      if e.Reboot? then 0
      else Owed(n, es[..|es| - 1]) +
           if e.Client? && BleProvision.IsForget(e.e) then 1 else if e.Task? && before.pc.Forgetting? then -1 else 0
  }

  function Count(b: bool): nat {
    if b then 1 else 0
  }

  /** Forget events on their way, and the one being carried out. */
  function Asked(n: Net): nat {
    Count(n.pc.Forgetting?) + Count(BleProvision.Forget in n.events) + Count(BleProvision.Forget in n.pending)
  }

  lemma {:induction false} TaskAsked(n: Net, env: Env)
    requires n.sector.Shaped()
    ensures Asked(TaskStep(n, env)) + Count(n.pc.Forgetting?) <= Asked(n)
  {
    hide BringUpStep, FailureStep, ServiceStep, StartUpStep;
    if InBringUp(n.pc) { BringUpAsked(n, env); }
    else if InFailure(n.pc) { FailureAsked(n); }
    else if InService(n.pc) { ServiceAsked(n, env); }
    else { StartUpAsked(n, env.luck); }
  }

  lemma {:induction false} BringUpAsked(n: Net, env: Env)
    requires InBringUp(n.pc)
    ensures Asked(BringUpStep(n, env)) <= Asked(n)
  {
    hide Untouched, JoinedTo, Report, JoinStops, AwaitFails, Settings, SourceOf, AttemptOf;
  }

  lemma {:induction false} FailureAsked(n: Net)
    requires InFailure(n.pc)
    ensures Asked(FailureStep(n)) <= Asked(n)
  {
    hide Untouched, Report, StartBle, Counted, MoreFails, TooMany, LastTry;
  }

  lemma {:induction false} ServiceAsked(n: Net, env: Env)
    requires InService(n.pc) && n.sector.Shaped()
    ensures Asked(ServiceStep(n, env)) <= Asked(n)
  {
    hide Untouched, Report, SaveTo, RadioDone, BleProvision.Stop;
  }

  lemma {:induction false} StartUpAsked(n: Net, luck: Luck)
    requires !InBringUp(n.pc) && !InFailure(n.pc) && !InService(n.pc) && n.sector.Shaped()
    ensures Asked(StartUpStep(n, luck)) + Count(n.pc.Forgetting?) <= Asked(n)
  {
    hide Untouched, Report, StartBle, LoadFrom, EraseAll, BleProvision.Take;
  }

  lemma {:induction false} CallbackAsked(n: Net, c: BleProvision.Event)
    requires Inv(n)
    ensures n.sector.Shaped() && BleProvision.Inv(n.ble)
    ensures Asked(Step(n, Client(c))) <= Asked(n) + Count(BleProvision.IsForget(c))
  {
    hide Inv, BleProvision.Inv, BleProvision.Step;
    ShapedAndSound(n);
    BleProvision.InvShape(n.ble);
    BleProvision.OnlyForgetAsks(n.ble, c);
  }

  lemma {:induction false} BootAsked(s: Sector, build: Build, log: seq<Entry>)
    ensures Asked(Boot(s, build, log)) == 0 && !Boot(s, build, log).ble.handoffValid
  {
  }

  /** Every wipe answers a forget command of its own. */
  lemma {:induction false} WipesAreOwed(s: Sector, build: Build, es: seq<Event>)
    requires s.Shaped()
    ensures Asked(Run(PowerOn(s, build), es)) <= Owed(PowerOn(s, build), es)
    ensures Run(PowerOn(s, build), es).pc.Forgetting? ==> Owed(PowerOn(s, build), es) > 0
    decreases |es|
  {
    hide Inv, Step, Run, PowerOn, TaskStep;
    var n := PowerOn(s, build);
    if es == [] {
      RunStarts(n, es);
      FirstBoot(s, build);
    } else {
      var rest, e := es[..|es| - 1], es[|es| - 1];
      assert es == rest + [e];
      RunSnoc(n, rest, e);
      WipesAreOwed(s, build, rest);
      AskedAfter(Run(n, rest), e);
    }
  }

  lemma {:induction false} FirstBoot(s: Sector, build: Build)
    requires s.Shaped()
    ensures Asked(PowerOn(s, build)) == 0 && !PowerOn(s, build).ble.handoffValid
  {
    BootAsked(s, build, []);
    hide Boot;
  }

  lemma {:induction false} AskedAfter(n: Net, e: Event)
    requires Inv(n)
    ensures n.sector.Shaped() && BleProvision.Inv(n.ble)
    ensures var m := Step(n, e);
            match e
            case Task(_) => Asked(m) + Count(n.pc.Forgetting?) <= Asked(n)
            case Client(c) => Asked(m) <= Asked(n) + Count(BleProvision.IsForget(c))
            case Reboot => Asked(m) == 0
  {
    hide Inv, TaskStep, Boot, Asked, Count, BleProvision.Step, BleProvision.Inv;
    ShapedAndSound(n);
    match e
    case Task(env) => TaskAsked(n, env);
    case Client(c) => CallbackAsked(n, c);
    case Reboot => BootAsked(n.sector, n.build, n.log + [Rebooted]);
  }

  lemma {:induction false} TaskHandoff(n: Net, env: Env)
    requires Inv(n)
    ensures n.sector.Shaped()
    ensures var m := TaskStep(n, env).ble;
            m.handoffValid ==> n.ble.handoffValid && m.handoff == n.ble.handoff
  {
    hide Inv, BringUpStep, FailureStep, ServiceStep, StartUpStep;
    ShapedAndSound(n);
    if InBringUp(n.pc) { BringUpHandoff(n, env); }
    else if InFailure(n.pc) { FailureHandoff(n); }
    else if InService(n.pc) { ServiceHandoff(n, env); }
    else { StartUpHandoff(n, env.luck); }
  }

  lemma {:induction false} BringUpHandoff(n: Net, env: Env)
    requires InBringUp(n.pc)
    ensures BringUpStep(n, env).ble.handoffValid == n.ble.handoffValid && BringUpStep(n, env).ble.handoff == n.ble.handoff
  {
    hide Untouched, JoinedTo, JoinStops, AwaitFails, NotifyQueue.Push, BleProvision.Encode;
  }

  lemma {:induction false} FailureHandoff(n: Net)
    requires InFailure(n.pc)
    ensures FailureStep(n).ble.handoffValid == n.ble.handoffValid && FailureStep(n).ble.handoff == n.ble.handoff
  {
    hide Untouched, Counted, MoreFails, TooMany, LastTry, Report, StartBle, FailState, SourceOf, AttemptOf;
    match n.pc
    case TellFailed(p, o, reason) =>
      ReportHandoff(n.ble, FailState(o), reason, SourceOf(n, p), AttemptOf(n, p), BleProvision.NO_IP);
    case Fallback => StartHandoff(n.ble, n.use);
    case Pause(_) =>
    case Reverting => ReportHandoff(n.ble, BleProvision.REVERTED, 0, n.use.source, 0, BleProvision.NO_IP);
    case TellBlank => ReportHandoff(n.ble, BleProvision.UNPROVISIONED, 0, BleProvision.STORED, 0, BleProvision.NO_IP);
  }

  lemma {:induction false} ReportHandoff(
      b: BleProvision.Ble, state: uint8, reason: BleProvision.int8, source: uint8, attempt: nat, ip: BleProvision.Ip)
    ensures Report(b, state, reason, source, attempt, ip).handoffValid == b.handoffValid
    ensures Report(b, state, reason, source, attempt, ip).handoff == b.handoff
  {
    hide NotifyQueue.Push, BleProvision.Encode;
  }

  lemma {:induction false} StartHandoff(b: BleProvision.Ble, use: Use)
    ensures StartBle(b, use).handoffValid == b.handoffValid && StartBle(b, use).handoff == b.handoff
  {
  }

  lemma {:induction false} ServiceHandoff(n: Net, env: Env)
    requires InService(n.pc) && n.sector.Shaped()
    ensures ServiceStep(n, env).ble.handoffValid == n.ble.handoffValid && ServiceStep(n, env).ble.handoff == n.ble.handoff
  {
    hide Untouched, SaveTo, RadioDone, NotifyQueue.Push, BleProvision.Encode, BleProvision.Reset;
  }

  lemma {:induction false} StartUpHandoff(n: Net, luck: Luck)
    requires !InBringUp(n.pc) && !InFailure(n.pc) && !InService(n.pc) && n.sector.Shaped()
    ensures var m := StartUpStep(n, luck).ble;
            m.handoffValid ==> n.ble.handoffValid && m.handoff == n.ble.handoff
  {
    hide Untouched, LoadFrom, EraseAll, NotifyQueue.Push, BleProvision.Encode;
  }

  /** What is handed over is always what the last accepted apply had staged. */
  lemma {:induction false} HandoffIsLastApply(s: Sector, build: Build, es: seq<Event>)
    requires s.Shaped()
    ensures var n := Run(PowerOn(s, build), es);
            n.ble.handoffValid ==> LastApply(PowerOn(s, build), es) == Some(n.ble.handoff)
    decreases |es|
  {
    hide Inv, Step, Run, PowerOn, TaskStep, Validate;
    var n := PowerOn(s, build);
    if es == [] {
      RunStarts(n, es);
      FirstBoot(s, build);
    } else {
      var rest, e := es[..|es| - 1], es[|es| - 1];
      assert es == rest + [e];
      RunSnoc(n, rest, e);
      HandoffIsLastApply(s, build, rest);
      HandoffAfter(Run(n, rest), e);
    }
  }

  lemma {:induction false} HandoffAfter(n: Net, e: Event)
    requires Inv(n)
    ensures n.sector.Shaped() && BleProvision.Inv(n.ble)
    ensures var m := Step(n, e).ble;
            m.handoffValid ==>
              && !e.Reboot?
              && (if e.Client? && BleProvision.IsApply(e.e) && Valid(n.ble.staged) then m.handoff == n.ble.staged
                  else n.ble.handoffValid && m.handoff == n.ble.handoff)
  {
    hide Inv, TaskStep, Boot, BleProvision.Step, BleProvision.Inv, Validate;
    ShapedAndSound(n);
    match e
    case Task(env) => TaskHandoff(n, env);
    case Client(c) =>
      BleProvision.InvShape(n.ble);
      BleProvision.OnlyApplyHandsOver(n.ble, c);
    case Reboot => BootAsked(n.sector, n.build, n.log + [Rebooted]);
  }

  /** Over every run: a task step that takes a candidate takes the settings of
      the last accepted apply, and a task step that wipes the flash answers a
      forget command no earlier wipe has answered. */
  lemma {:induction false} TakenAndWipedOnCommand(s: Sector, build: Build, es: seq<Event>, env: Env, k: nat)
    requires s.Shaped()
    ensures Run(PowerOn(s, build), es).sector.Shaped()
    ensures var n := Run(PowerOn(s, build), es);
            var m := TaskStep(n, env);
            |n.log| <= k < |m.log| ==>
              && (m.log[k].Took? ==> LastApply(PowerOn(s, build), es) == Some(m.log[k].c))
              && (m.log[k].Wiped? ==> Owed(PowerOn(s, build), es) > 0)
  {
    hide Inv, Run, PowerOn, TaskStep, Owed, LastApply, Untouched;
    var n := Run(PowerOn(s, build), es);
    ShapedAndSound(n);
    HandoffIsLastApply(s, build, es);
    WipesAreOwed(s, build, es);
    if |n.log| <= k < |TaskStep(n, env).log| { NewEntries(n, env, k); }
  }

  lemma {:induction false} NewEntries(n: Net, env: Env, k: nat)
    requires n.sector.Shaped() && |n.log| <= k < |TaskStep(n, env).log|
    ensures TaskStep(n, env).log[k].Took? ==> n.ble.handoffValid && TaskStep(n, env).log[k].c == n.ble.handoff
    ensures TaskStep(n, env).log[k].Wiped? ==> n.pc.Forgetting?
  {
    hide LoadFrom, SaveTo, EraseAll;
    if n.pc.Taking? {
      TakenEntry(n, env);
    } else if n.pc.Load? || n.pc.Forgetting? || n.pc.Saving? {
      LoudEntry(n, env);
    } else {
      hide TaskStep;
      QuietSteps(n, env);
    }
  }

  lemma {:induction false} TakenEntry(n: Net, env: Env)
    requires n.sector.Shaped() && n.pc.Taking?
    ensures TaskStep(n, env).log == n.log + [if n.ble.handoffValid then Took(n.ble.handoff) else NothingTaken]
  {
  }

  lemma {:induction false} LoudEntry(n: Net, env: Env)
    requires n.sector.Shaped() && (n.pc.Load? || n.pc.Forgetting? || n.pc.Saving?)
    ensures exists x :: TaskStep(n, env).log == n.log + [x] && !x.Took? && (x.Wiped? ==> n.pc.Forgetting?)
  {
    hide LoadFrom, SaveTo, EraseAll;
    match n.pc
    case Load(_) =>
      var x := Loaded(LoadFrom(n.sector, n.build).0, LoadFrom(n.sector, n.build).1);
      assert TaskStep(n, env).log == n.log + [x];
    case Forgetting =>
      var x := Wiped(EraseAll(n.sector, env.luck).0);
      assert TaskStep(n, env).log == n.log + [x];
    case Saving =>
      var x := Committed(n.candidate, SaveTo(n.sector, n.candidate, env.luck).0);
      assert TaskStep(n, env).log == n.log + [x];
  }

  // ---- bounded trials, lasting commits ----

  const MAX_TRIAL_FAILURES: nat := NET_CANDIDATE_WIFI_TRIES + NET_CANDIDATE_MQTT_TRIES - 1

  lemma {:induction false} TrialsAreBounded(log: seq<Entry>)
    requires LogOk(log)
    ensures TrialCount(log, WifiFailed) + TrialCount(log, MqttFailed) <= MAX_TRIAL_FAILURES
    decreases |log|
  {
    hide LastTook, LastUse;
    if log == [] {
    } else {
      var n := |log| - 1;
      assert EntryOk(log[..n], log[n]);
      LogOkPrefix(log, n);
      TrialsAreBounded(log[..n]);
    }
  }

  lemma {:induction false} LogOkPrefix(log: seq<Entry>, n: nat)
    requires LogOk(log) && n <= |log|
    ensures LogOk(log[..n])
  {
    hide EntryOk;
    var p := log[..n];
    forall k {:trigger p[k]} | 0 <= k < |p| ensures EntryOk(p[..k], p[k]) {
      assert p[..k] == log[..k] && p[k] == log[k];
    }
  }

  /** A trial never makes more than W + M - 1 failed attempts, in any run. */
  lemma {:induction false} TrialsBoundedInRuns(s: Sector, build: Build, es: seq<Event>, k: nat)
    requires s.Shaped() && k <= |Run(PowerOn(s, build), es).log|
    ensures var log := Run(PowerOn(s, build), es).log[..k];
            TrialCount(log, WifiFailed) + TrialCount(log, MqttFailed) <= 4
  {
    hide Run, PowerOn, BleProvision.Inv, UseOk, CandidateOk, FlashOk, TrialCount, Sector.Shaped, Reachable, TriesOk,
         LogOk, HandoffOk;
    LogOkPrefix(Run(PowerOn(s, build), es).log, k);
    TrialsAreBounded(Run(PowerOn(s, build), es).log[..k]);
  }

  /** A commit that reported it was saved survives: until the next commit or
      forget, a boot after a power loss at any point of any run loads it. */
  lemma {:induction false} SavedIsLoadedAgain(s: Sector, build: Build, es: seq<Event>, env: Env)
    requires s.Shaped() && LastSaved(Run(PowerOn(s, build), es).log).Some?
    ensures var n := Run(PowerOn(s, build), es);
            var boot := Boot(n.sector, n.build, n.log + [Rebooted]);
            Inv(boot) && TaskStep(boot, env).use == Use(Canonical(LastSaved(n.log).value), true, BleProvision.STORED)
  {
    hide Run, PowerOn, BleProvision.Inv, BleProvision.Init, UseOk, CandidateOk, LastSaved, Sector.Shaped, Reachable, TriesOk,
         LogOk, LoadFrom, Canonical, HandoffOk;
    var n := Run(PowerOn(s, build), es);
    assert Inv(n);
    RebootKeeps(n);
  }

  /** A forget on a sector that erases leaves the build defaults, or nothing. */
  lemma {:induction false} ForgetStartsOver(n: Net, env: Env)
    requires Inv(n) && n.pc == Forgetting && n.sector.Healthy() && env.luck.imageClear && env.luck.eraseRuns
    ensures n.sector.Shaped() && TaskStep(n, env).sector.Shaped()
    ensures var m := TaskStep(TaskStep(n, env), env);
            var d := BuildDefaults(n.build);
            if d.Some? then m.use == Use(d.value, true, BleProvision.BUILD_DEFAULTS) else !m.use.have && m.pc == Advertise(false)
  {
    hide Inv, BleProvision.Inv, Validate, Parse, Sector.Healthy, Untouched, BringUpStep, FailureStep, ServiceStep,
         DoAdvertise, DoAnnounce, DoRefresh, AtHead, DoSleep, DoTake;
    ShapedAndSound(n);
    ErasedHoldsNothing(n.sector, n.build);
  }
}
