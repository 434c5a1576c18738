/** What a client that stays subscribed is told when a trial fails for good: the
    reason, then Reverted, and without settings in use Unprovisioned as well. */
module NetworkStatus {
  import opened Config
  import opened NetConfig
  import NotifyQueue
  import BleProvision
  import opened NetworkTask
  import opened NetworkSafety

  // ---- callbacks and the queue ----

  /** A client that stays connected and subscribed. */
  predicate Stays(e: BleProvision.Event) {
    !e.Connect? && !e.Disconnect? && (e.WriteCcc? ==> e.value == 1)
  }

  ghost predicate AllStay(es: seq<BleProvision.Event>) {
    forall i :: 0 <= i < |es| ==> Stays(es[i])
  }

  function Refusal(c: NetConfig): BleProvision.Status {
    BleProvision.Status(BleProvision.INVALID, BleProvision.Reason(Validate(c)), BleProvision.NO_IP, 0, BleProvision.CANDIDATE)
  }

  /** What one callback does to the queue: subscribing again and an apply that is
      refused push a status, and the radio sends one when it can. */
  function OpsOf(b: BleProvision.Ble, e: BleProvision.Event): (ops: seq<NotifyQueue.Op>)
    ensures |ops| <= 1
  {
    if e.WriteCcc? then [NotifyQueue.DoPush(BleProvision.Encode(BleProvision.Decode(b.status)))]
    else if BleProvision.IsApply(e) && !Valid(b.staged) then [NotifyQueue.DoPush(BleProvision.Encode(Refusal(b.staged)))]
    else if e.CanSendNow? && b.connected then [NotifyQueue.DoSend]
    else []
  }

  lemma {:induction false} RunOne(n: NotifyQueue.Notify, ops: seq<NotifyQueue.Op>)
    requires |ops| <= 1
    ensures NotifyQueue.Run(n, ops) == if ops == [] then n else NotifyQueue.Apply(n, ops[0])
  {
  }

  lemma {:induction false} ValueQueues(b: BleProvision.Ble, h: BleProvision.Handle, data: seq<byte>)
    requires b.subscribed
    ensures var c := BleProvision.ApplyValue(b, h, data).0;
            && c.subscribed && c.active == b.active
            && c.notify == if h == BleProvision.HCmd && data == [BleProvision.CMD_APPLY] && !Valid(b.staged)
                           then NotifyQueue.Push(b.notify, BleProvision.Encode(Refusal(b.staged))) else b.notify
  {
    hide Validate, BleProvision.SetField, BleProvision.Encode, NotifyQueue.Push;
  }

  lemma {:induction false} CallbackQueues(b: BleProvision.Ble, e: BleProvision.Event)
    requires BleProvision.Inv(b) && b.subscribed && Stays(e)
    ensures |b.prep.cells| == BleProvision.PREP_CELLS && b.prep.len < BleProvision.PREP_CELLS
    ensures var c := BleProvision.Step(b, e).0;
            c.subscribed && c.active == b.active && c.notify == NotifyQueue.Run(b.notify, OpsOf(b, e))
  {
    hide BleProvision.Inv, Validate, BleProvision.ApplyValue, BleProvision.PrepareStep, BleProvision.Encode,
         BleProvision.Decode, NotifyQueue.Push, NotifyQueue.Send, NotifyQueue.Run, BleProvision.Reset, Refusal;
    BleProvision.InvShape(b);
    RunOne(b.notify, OpsOf(b, e));
    if e.Write? { ValueQueues(b, e.handle, e.data); }
    if e.Execute? && b.prep.handle.Some? {
      PreparedIsNoCommand(b);
      ValueQueues(b, b.prep.handle.value, b.prep.cells[..b.prep.len]);
    }
  }

  lemma {:induction false} PreparedIsNoCommand(b: BleProvision.Ble)
    requires BleProvision.Inv(b) && b.prep.handle.Some?
    ensures b.prep.handle.value != BleProvision.HCmd
  {
    hide BleProvision.Terminated, Validate;
    BleProvision.NeverACommand(b.prep);
  }

  function AllOps(b: BleProvision.Ble, es: seq<BleProvision.Event>): seq<NotifyQueue.Op>
    requires BleProvision.Inv(b)
    decreases |es|
  {
    if es == [] then []
    else
      BleProvision.StepKeepsInv(b, es[0]);
      OpsOf(b, es[0]) + AllOps(BleProvision.Step(b, es[0]).0, es[1..])
  }

  lemma {:induction false} CallbacksQueue(b: BleProvision.Ble, es: seq<BleProvision.Event>)
    requires BleProvision.Inv(b) && b.subscribed && AllStay(es)
    ensures var c := BleProvision.Run(b, es);
            c.subscribed && c.active == b.active && c.notify == NotifyQueue.Run(b.notify, AllOps(b, es))
    decreases |es|
  {
    hide OpsOf, BleProvision.Step, BleProvision.Inv, Stays;
    if es == [] {
    } else {
      CallbackQueues(b, es[0]);
      BleProvision.StepKeepsInv(b, es[0]);
      var c := BleProvision.Step(b, es[0]).0;
      CallbacksQueue(c, es[1..]);
      NotifyQueue.RunConcat(b.notify, OpsOf(b, es[0]), AllOps(c, es[1..]));
    }
  }

  /** Callbacks between two steps of the task, as steps of the machine. */
  function Callbacks(es: seq<BleProvision.Event>): (r: seq<Event>)
    ensures |r| == |es|
  {
    seq(|es|, i requires 0 <= i < |es| => Client(es[i]))
  }

  lemma {:induction false} CallbacksRun(n: Net, es: seq<BleProvision.Event>)
    requires Inv(n)
    ensures BleProvision.Inv(n.ble)
    ensures var m := Run(n, Callbacks(es));
            && m.ble == BleProvision.Run(n.ble, es) && m.pc == n.pc && m.use == n.use && m.log == n.log
            && m.candidate == n.candidate
    decreases |es|
  {
    hide Inv, TaskStep, Boot, BleProvision.Step, BleProvision.Inv, Run;
    ShapedAndSound(n);
    RunStarts(n, Callbacks(es));
    if es == [] {
      assert BleProvision.Run(n.ble, es) == n.ble;
    } else {
      assert Callbacks(es)[1..] == Callbacks(es[1..]);
      CallbacksRun(Step(n, Client(es[0])), es[1..]);
    }
  }

  /** Callbacks of a client that stays, seen from the machine. */
  lemma {:induction false} StayingTold(n: Net, es: seq<BleProvision.Event>)
    requires Inv(n) && n.ble.active && n.ble.subscribed && AllStay(es)
    ensures BleProvision.Inv(n.ble)
    ensures var m := Run(n, Callbacks(es));
            && m.pc == n.pc && m.use == n.use && m.candidate == n.candidate && m.ble.active && m.ble.subscribed
            && m.ble.notify == NotifyQueue.Run(n.ble.notify, AllOps(n.ble, es))
  {
    hide Inv, Run, BleProvision.Run, BleProvision.Inv, AllStay, AllOps, NotifyQueue.Run;
    CallbacksRun(n, es);
    CallbacksQueue(n.ble, es);
  }

  // ---- the end of a trial ----

  function FailureStatus(n: Net): BleProvision.Status
    requires n.pc.TellFailed? && n.pc.p.Trial?
  {
    BleProvision.Status(FailState(n.pc.o), n.pc.reason, BleProvision.NO_IP, n.pc.p.attempt % 0x100, BleProvision.CANDIDATE)
  }

  function RevertedStatus(n: Net): BleProvision.Status {
    BleProvision.Status(BleProvision.REVERTED, 0, BleProvision.NO_IP, 0, n.use.source)
  }

  const BLANK_STATUS: BleProvision.Status :=
    BleProvision.Status(BleProvision.UNPROVISIONED, 0, BleProvision.NO_IP, 0, BleProvision.STORED)

  lemma {:induction false} FailureTold(n: Net)
    requires n.pc.TellFailed? && n.pc.p.Trial? && LastTry(Counted(n.pc.p, n.pc.o))
    requires n.ble.active && n.ble.subscribed
    ensures var m := FailureStep(n);
            && m.pc == Reverting && m.ble.active && m.ble.subscribed && m.use == n.use
            && m.ble.notify == NotifyQueue.Push(n.ble.notify, BleProvision.Encode(FailureStatus(n)))
            && m.ble.staged == n.ble.staged
  {
    hide LastTry, Counted, FailState, NotifyQueue.Push, BleProvision.Encode, Untouched;
  }

  lemma {:induction false} RevertTold(n: Net)
    requires n.pc == Reverting && n.ble.active && n.ble.subscribed
    ensures var m := FailureStep(n);
            && m.use == n.use && m.candidate == BLANK && m.pc == (if n.use.have then Head else TellBlank)
            && m.ble.active && m.ble.subscribed
            && m.ble.notify == NotifyQueue.Push(n.ble.notify, BleProvision.Encode(RevertedStatus(n)))
  {
    hide NotifyQueue.Push, BleProvision.Encode, Untouched, BLANK;
  }

  lemma {:induction false} BlankTold(n: Net)
    requires n.pc == TellBlank && n.ble.active && n.ble.subscribed
    ensures var m := FailureStep(n);
            && m.use == n.use && m.candidate == n.candidate && m.pc == Head
            && m.ble.notify == NotifyQueue.Push(n.ble.notify, BleProvision.Encode(BLANK_STATUS))
  {
    hide NotifyQueue.Push, BleProvision.Encode, Untouched, BLANK;
  }

  /** One step of the task, as a run. */
  lemma {:induction false} TaskRun(n: Net, env: Env)
    requires Inv(n)
    ensures Inv(Run(n, [Task(env)])) && n.sector.Shaped() && Run(n, [Task(env)]) == TaskStep(n, env)
  {
    hide Inv, Run, TaskStep, BleProvision.Inv;
    RunStarts(n, [Task(env)]);
    assert [Task(env)][1..] == [];
    RunStarts(Step(n, Task(env)), []);
  }

  lemma {:induction false} FailureRun(n: Net, env: Env)
    requires Inv(n) && InFailure(n.pc)
    ensures Inv(FailureStep(n)) && Run(n, [Task(env)]) == FailureStep(n)
  {
    hide Inv, Run, FailureStep, BringUpStep, ServiceStep, StartUpStep;
    TaskRun(n, env);
  }

  /** The reason is told, callbacks come, and Reverted is told. */
  function ToReverted(env: Env, es: seq<BleProvision.Event>, env': Env): seq<Event> {
    [Task(env)] + Callbacks(es) + [Task(env')]
  }

  /** All of it up to the loop head: without settings in use, callbacks may come
      again before Unprovisioned is told. */
  function ToHead(
      have: bool, env: Env, es: seq<BleProvision.Event>, env': Env, fs: seq<BleProvision.Event>, env'': Env): seq<Event>
  {
    if have then ToReverted(env, es, env') else ToReverted(env, es, env') + Callbacks(fs) + [Task(env'')]
  }

  lemma {:induction false} UpToReverted(n: Net, env: Env, es: seq<BleProvision.Event>, env': Env)
    requires Inv(n) && n.pc.TellFailed? && n.pc.p.Trial? && LastTry(Counted(n.pc.p, n.pc.o))
    requires n.ble.active && n.ble.subscribed && AllStay(es)
    ensures BleProvision.Inv(FailureStep(n).ble)
    ensures var m := Run(n, ToReverted(env, es, env'));
            && m.pc == (if n.use.have then Head else TellBlank)
            && m.use == n.use && m.candidate == BLANK && m.ble.active && m.ble.subscribed
            && m.ble.notify == NotifyQueue.Run(
                 NotifyQueue.Push(n.ble.notify, BleProvision.Encode(FailureStatus(n))),
                 AllOps(FailureStep(n).ble, es) + [NotifyQueue.DoPush(BleProvision.Encode(RevertedStatus(n)))])
  {
    hide Inv, Run, FailureStep, AllStay, AllOps, LastTry, Counted, FailureStatus, BleProvision.Inv, BleProvision.Encode,
         NotifyQueue.Run, NotifyQueue.Push, BLANK, Callbacks;
    FailureRun(n, env);
    FailureTold(n);
    RunAppend(n, [Task(env)], Callbacks(es));
    RunAppend(n, [Task(env)] + Callbacks(es), [Task(env')]);
    var a := FailureStep(n);
    StayingTold(a, es);
    var b := Run(a, Callbacks(es));
    FailureRun(b, env');
    RevertTold(b);
    var last := [NotifyQueue.DoPush(BleProvision.Encode(RevertedStatus(n)))];
    NotifyQueue.RunConcat(a.ble.notify, AllOps(a.ble, es), last);
    RunOne(b.ble.notify, last);
  }

  /** Pushes that come after the reason: the client's own before Reverted,
      Reverted, and without settings in use the client's own before Unprovisioned,
      and Unprovisioned. */
  function After(n: Net, env: Env, es: seq<BleProvision.Event>, env': Env, fs: seq<BleProvision.Event>): seq<NotifyQueue.Op>
    requires Inv(n) && InFailure(n.pc) && BleProvision.Inv(FailureStep(n).ble)
    requires BleProvision.Inv(Run(n, ToReverted(env, es, env')).ble)
  {
    AllOps(FailureStep(n).ble, es) + [NotifyQueue.DoPush(BleProvision.Encode(RevertedStatus(n)))] +
    if n.use.have then []
    else AllOps(Run(n, ToReverted(env, es, env')).ble, fs) + [NotifyQueue.DoPush(BleProvision.Encode(BLANK_STATUS))]
  }

  lemma {:induction false} UpToHead(
      n: Net, env: Env, es: seq<BleProvision.Event>, env': Env, fs: seq<BleProvision.Event>, env'': Env)
    requires Inv(n) && n.pc.TellFailed? && n.pc.p.Trial? && LastTry(Counted(n.pc.p, n.pc.o))
    requires n.ble.active && n.ble.subscribed && AllStay(es) && AllStay(fs)
    ensures BleProvision.Inv(FailureStep(n).ble) && BleProvision.Inv(Run(n, ToReverted(env, es, env')).ble)
    ensures var m := Run(n, ToHead(n.use.have, env, es, env', fs, env''));
            && m.pc == Head && m.use == n.use && m.candidate == BLANK
            && m.ble.notify == NotifyQueue.Run(NotifyQueue.Push(n.ble.notify, BleProvision.Encode(FailureStatus(n))),
                                               After(n, env, es, env', fs))
  {
    hide Inv, Run, FailureStep, AllStay, AllOps, LastTry, Counted, FailureStatus, RevertedStatus, BleProvision.Inv,
         BleProvision.Encode, NotifyQueue.Run, NotifyQueue.Push, BLANK, BLANK_STATUS, Callbacks, ToReverted;
    UpToReverted(n, env, es, env');
    var c := Run(n, ToReverted(env, es, env'));
    ShapedAndSound(c);
    var ops := AllOps(FailureStep(n).ble, es) + [NotifyQueue.DoPush(BleProvision.Encode(RevertedStatus(n)))];
    if n.use.have {
      assert ops + [] == ops;
    } else {
      RunAppend(n, ToReverted(env, es, env'), Callbacks(fs));
      RunAppend(n, ToReverted(env, es, env') + Callbacks(fs), [Task(env'')]);
      StayingTold(c, fs);
      var d := Run(c, Callbacks(fs));
      FailureRun(d, env'');
      BlankTold(d);
      var q := NotifyQueue.Push(n.ble.notify, BleProvision.Encode(FailureStatus(n)));
      var more, last := AllOps(c.ble, fs), [NotifyQueue.DoPush(BleProvision.Encode(BLANK_STATUS))];
      NotifyQueue.RunConcat(q, ops, more + last);
      NotifyQueue.RunConcat(c.ble.notify, more, last);
      RunOne(d.ble.notify, last);
    }
  }

  lemma {:induction false} NotifySound(b: BleProvision.Ble)
    requires BleProvision.Inv(b)
    ensures NotifyQueue.Inv(b.notify)
  {
    hide NotifyQueue.Inv, Validate;
  }

  lemma {:induction false} PushesAfter(n: Net, env: Env, es: seq<BleProvision.Event>, env': Env, fs: seq<BleProvision.Event>)
    requires Inv(n) && InFailure(n.pc) && BleProvision.Inv(FailureStep(n).ble)
    requires BleProvision.Inv(Run(n, ToReverted(env, es, env')).ble)
    ensures NotifyQueue.Pushes(After(n, env, es, env', fs)) ==
            NotifyQueue.Pushes(AllOps(FailureStep(n).ble, es)) + 1 +
            if n.use.have then 0 else NotifyQueue.Pushes(AllOps(Run(n, ToReverted(env, es, env')).ble, fs)) + 1
  {
    hide Inv, Run, FailureStep, AllOps, RevertedStatus, BleProvision.Inv, BleProvision.Encode, BLANK_STATUS, ToReverted;
    var own, told := AllOps(FailureStep(n).ble, es), [NotifyQueue.DoPush(BleProvision.Encode(RevertedStatus(n)))];
    NotifyQueue.RunConcat(NotifyQueue.EMPTY, own, told);
    assert told[1..] == [];
    if n.use.have {
      assert own + told + [] == own + told;
    } else {
      var more := AllOps(Run(n, ToReverted(env, es, env')).ble, fs);
      var last := [NotifyQueue.DoPush(BleProvision.Encode(BLANK_STATUS))];
      NotifyQueue.RunConcat(NotifyQueue.EMPTY, own + told, more + last);
      NotifyQueue.RunConcat(NotifyQueue.EMPTY, more, last);
      assert last[1..] == [];
    }
  }

  /** A trial fails for the last time: the task tells why, then Reverted, and if
      no settings are in use Unprovisioned, with any callbacks of a client that
      stays subscribed before each. At the loop head, unless the reason has been
      sent, it is still in the queue exactly if the client's own pushes, and
      Unprovisioned where it is told, are at most two. */
  lemma {:induction false} ReasonReachesClient(
      n: Net, env: Env, es: seq<BleProvision.Event>, env': Env, fs: seq<BleProvision.Event>, env'': Env)
    requires Inv(n) && n.pc.TellFailed? && n.pc.p.Trial? && LastTry(Counted(n.pc.p, n.pc.o))
    requires n.ble.active && n.ble.subscribed && AllStay(es) && AllStay(fs)
    ensures BleProvision.Inv(FailureStep(n).ble) && BleProvision.Inv(Run(n, ToReverted(env, es, env')).ble)
    ensures var m := Run(n, ToHead(n.use.have, env, es, env', fs, env''));
            var q, at := m.ble.notify, |n.ble.notify.pushed|;
            && m.pc == Head && m.use == n.use && m.candidate == BLANK
            && at < |q.pushed| && BleProvision.Decode(q.pushed[at]) == FailureStatus(n)
            && (at in q.sent || (q.kept <= at <==>
                  NotifyQueue.Pushes(AllOps(FailureStep(n).ble, es)) +
                  (if n.use.have then 0 else NotifyQueue.Pushes(AllOps(Run(n, ToReverted(env, es, env')).ble, fs)) + 1) <= 2))
  {
    hide Inv, Run, FailureStep, AllStay, AllOps, LastTry, Counted, FailureStatus, RevertedStatus, BleProvision.Inv,
         BleProvision.Encode, BleProvision.Decode, NotifyQueue.Run, NotifyQueue.Push, NotifyQueue.Inv, NotifyQueue.Pushes,
         BLANK, ToReverted, ToHead, After;
    UpToHead(n, env, es, env', fs, env'');
    PushesAfter(n, env, es, env', fs);
    ShapedAndSound(n);
    NotifySound(n.ble);
    NotifyQueue.StillWaits(n.ble.notify, BleProvision.Encode(FailureStatus(n)), After(n, env, es, env', fs));
    BleProvision.StatusReadsBack(FailureStatus(n), n.ble.status);
  }

  // ---- the case that fails ----

  /** Applies while what is staged is not valid. */
  function Refused(k: nat): (es: seq<BleProvision.Event>)
    ensures |es| == k && forall i :: 0 <= i < k ==> es[i] == BleProvision.Write(BleProvision.HCmd, [BleProvision.CMD_APPLY])
  {
    seq(k, i => BleProvision.Write(BleProvision.HCmd, [BleProvision.CMD_APPLY]))
  }

  lemma {:induction false} RefusedStay(k: nat)
    ensures AllStay(Refused(k))
  {
  }

  lemma {:induction false} RefusedOps(b: BleProvision.Ble, k: nat)
    requires BleProvision.Inv(b) && !Valid(b.staged)
    ensures |AllOps(b, Refused(k))| == k && forall i :: 0 <= i < k ==> AllOps(b, Refused(k))[i].DoPush?
    decreases k
  {
    hide BleProvision.Inv, BleProvision.Step, Validate, BleProvision.Encode, Refusal;
    if k == 0 {
    } else {
      var es := Refused(k);
      assert es[1..] == Refused(k - 1);
      BleProvision.StepKeepsInv(b, es[0]);
      BleProvision.InvShape(b);
      BleProvision.RefusedApply(b);
      RefusedOps(BleProvision.Step(b, es[0]).0, k - 1);
    }
  }

  lemma {:induction false} NothingWaitsOut(n: Net, ops: seq<NotifyQueue.Op>, p: NotifyQueue.Packet)
    requires NotifyQueue.Inv(n.ble.notify) && forall i :: 0 <= i < |ops| ==> ops[i].DoPush?
    ensures |n.ble.notify.pushed| !in NotifyQueue.Run(NotifyQueue.Push(n.ble.notify, p), ops).sent
  {
    NotifyQueue.NothingSent(NotifyQueue.Push(n.ble.notify, p), ops);
    hide NotifyQueue.Run;
  }

  /** The reason can be lost: if what the client has staged is not valid and it
      applies k times before Reverted while the radio cannot send, the reason is
      dropped unsent exactly from three applies on, or from two on if no settings
      are in use. */
  lemma {:induction false} RefusalsLoseTheReason(n: Net, env: Env, k: nat, env': Env, env'': Env)
    requires Inv(n) && n.pc.TellFailed? && n.pc.p.Trial? && LastTry(Counted(n.pc.p, n.pc.o))
    requires n.ble.active && n.ble.subscribed && !Valid(n.ble.staged)
    ensures var q := Run(n, ToHead(n.use.have, env, Refused(k), env', [], env'')).ble.notify;
            var at := |n.ble.notify.pushed|;
            at !in q.sent && (at < q.kept <==> k >= if n.use.have then 3 else 2)
  {
    hide Inv, Run, FailureStep, AllStay, AllOps, LastTry, Counted, FailureStatus, RevertedStatus, BleProvision.Inv,
         BleProvision.Encode, BleProvision.Decode, NotifyQueue.Run, NotifyQueue.Push, NotifyQueue.Inv, NotifyQueue.Pushes,
         BLANK, ToReverted, ToHead, Refused, BLANK_STATUS, Validate;
    RefusedStay(k);
    NothingStays();
    ReasonReachesClient(n, env, Refused(k), env', [], env'');
    UpToHead(n, env, Refused(k), env', [], env'');
    FailureTold(n);
    var a := FailureStep(n).ble;
    RefusedOps(a, k);
    var ops := After(n, env, Refused(k), env', []);
    NothingQueued(Run(n, ToReverted(env, Refused(k), env')).ble);
    NotifyQueue.NothingSent(NotifyQueue.EMPTY, AllOps(a, Refused(k)));
    ShapedAndSound(n);
    NotifySound(n.ble);
    NothingWaitsOut(n, ops, BleProvision.Encode(FailureStatus(n)));
  }

  lemma {:induction false} NothingStays()
    ensures AllStay([])
  {
  }

  lemma {:induction false} NothingQueued(b: BleProvision.Ble)
    requires BleProvision.Inv(b)
    ensures AllOps(b, []) == [] && NotifyQueue.Pushes(AllOps(b, [])) == 0
  {
  }
}
