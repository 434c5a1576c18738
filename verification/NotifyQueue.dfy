/** Status notifications waiting for the radio: four slots that keep the newest. */
module NotifyQueue {
  import opened Config

  const NOTIFY_QUEUE: nat := 4
  const STATUS_LEN: nat := 8

  /** The eight bytes of the status characteristic. */
  type Packet = p: seq<uint8> | |p| == STATUS_LEN witness [0, 0, 0, 0, 0, 0, 0, 0]

  /** Everything pushed since the client came; the first `kept` have left the
      queue, and `sent` lists the ones among them that went out. */
  datatype Notify = Notify(pushed: seq<Packet>, kept: nat, sent: seq<nat>)

  const EMPTY: Notify := Notify([], 0, [])

  function Waiting(n: Notify): seq<Packet>
    requires n.kept <= |n.pushed|
  {
    n.pushed[n.kept..]
  }

  /** A full queue drops its oldest. */
  function Push(n: Notify, p: Packet): Notify {
    n.(pushed := n.pushed + [p], kept := if |n.pushed| - n.kept == NOTIFY_QUEUE then n.kept + 1 else n.kept)
  }

  function Send(n: Notify): Notify {
    if n.kept == |n.pushed| then n else n.(kept := n.kept + 1, sent := n.sent + [n.kept])
  }

  datatype Op = DoPush(p: Packet) | DoSend

  function Apply(n: Notify, op: Op): Notify {
    match op
    case DoPush(p) => Push(n, p)
    case DoSend => Send(n)
  }

  function Run(n: Notify, ops: seq<Op>): Notify
    decreases |ops|
  {
    if ops == [] then n else Run(Apply(n, ops[0]), ops[1..])
  }

  function Pushes(ops: seq<Op>): nat {
    if ops == [] then 0 else (if ops[0].DoPush? then 1 else 0) + Pushes(ops[1..])
  }

  /** At most four wait; what went out is in order and without repeats; what left
      without going out had four newer ones behind it. */
  ghost predicate Inv(n: Notify) {
    && n.kept <= |n.pushed| <= n.kept + NOTIFY_QUEUE
    && (forall i, k :: 0 <= i < k < |n.sent| ==> n.sent[i] < n.sent[k])
    && (forall i :: 0 <= i < |n.sent| ==> n.sent[i] < n.kept)
    && (forall i {:trigger i in n.sent} :: 0 <= i < n.kept ==> i in n.sent || |n.pushed| - i > NOTIFY_QUEUE)
  }

  lemma {:induction false} ApplyKeepsInv(n: Notify, op: Op)
    requires Inv(n)
    ensures Inv(Apply(n, op)) && |Apply(n, op).pushed| == |n.pushed| + if op.DoPush? then 1 else 0
    ensures n.pushed <= Apply(n, op).pushed && n.sent <= Apply(n, op).sent && n.kept <= Apply(n, op).kept
  {
    var m := Apply(n, op);
    assert forall i :: i in n.sent ==> i in m.sent;
    if m.sent != n.sent {
      assert m.sent[|n.sent|] == n.kept;
    }
  }

  lemma {:induction false} RunKeepsInv(n: Notify, ops: seq<Op>)
    requires Inv(n)
    ensures Inv(Run(n, ops)) && |Run(n, ops).pushed| == |n.pushed| + Pushes(ops)
    ensures n.pushed <= Run(n, ops).pushed && n.sent <= Run(n, ops).sent && n.kept <= Run(n, ops).kept
    decreases |ops|
  {
    hide Inv, Apply;
    if ops == [] {
    } else {
      ApplyKeepsInv(n, ops[0]);
      RunKeepsInv(Apply(n, ops[0]), ops[1..]);
    }
  }

  /** Over every run: what is sent is an in-order part of what was pushed, an
      unsent status still waits exactly while fewer than four newer ones were
      pushed, and so the newest is never the one that is lost. */
  lemma {:induction false} KeepsTheNewest(ops: seq<Op>, i: nat)
    requires i < |Run(EMPTY, ops).pushed|
    ensures var n := Run(EMPTY, ops);
            && (forall a, b :: 0 <= a < b < |n.sent| ==> n.sent[a] < n.sent[b] < |n.pushed|)
            && (i !in n.sent ==> (n.kept <= i <==> |n.pushed| - 1 - i < NOTIFY_QUEUE))
            && (i == |n.pushed| - 1 ==> i in n.sent || n.kept <= i)
  {
    RunKeepsInv(EMPTY, ops);
  }

  /** A status and what comes after it: unless it has gone out, it still waits
      exactly when at most three others were pushed since. */
  lemma {:induction false} StillWaits(a: Notify, p: Packet, since: seq<Op>)
    requires Inv(a)
    ensures var at := |a.pushed|;
            var n := Run(Push(a, p), since);
            && at < |n.pushed| == at + 1 + Pushes(since) && n.pushed[at] == p
            && (at in n.sent || (n.kept <= at <==> Pushes(since) < NOTIFY_QUEUE))
  {
    ApplyKeepsInv(a, DoPush(p));
    RunKeepsInv(Push(a, p), since);
    assert Push(a, p).pushed[|a.pushed|] == p;
    hide Run, Pushes;
  }

  /** With no chance to send, nothing goes out. */
  lemma {:induction false} NothingSent(n: Notify, ops: seq<Op>)
    requires forall i :: 0 <= i < |ops| ==> ops[i].DoPush?
    ensures Run(n, ops).sent == n.sent && Pushes(ops) == |ops|
    decreases |ops|
  {
    if ops == [] {
    } else {
      NothingSent(Apply(n, ops[0]), ops[1..]);
    }
  }

  lemma {:induction false} RunConcat(n: Notify, a: seq<Op>, b: seq<Op>)
    ensures Run(n, a + b) == Run(Run(n, a), b) && Pushes(a + b) == Pushes(a) + Pushes(b)
    decreases |a|
  {
    hide Apply;
    if a == [] {
      assert a + b == b;
    } else {
      assert (a + b)[1..] == a[1..] + b;
      RunConcat(Apply(n, a[0]), a[1..], b);
    }
  }

  // ---- the slots as a ring ----

  /** What a ring of four slots holds, oldest first. */
  function Ring(slots: seq<Packet>, head: nat, count: nat): (c: seq<Packet>)
    requires |slots| == NOTIFY_QUEUE && head < NOTIFY_QUEUE && count <= NOTIFY_QUEUE
    ensures |c| == count
  {
    seq(count, i requires 0 <= i < count => slots[(head + i) % NOTIFY_QUEUE])
  }

  lemma {:induction false} RingTakes(slots: seq<Packet>, head: nat, count: nat, p: Packet)
    requires |slots| == NOTIFY_QUEUE && head < NOTIFY_QUEUE && count < NOTIFY_QUEUE
    ensures Ring(slots[(head + count) % NOTIFY_QUEUE := p], head, count + 1) == Ring(slots, head, count) + [p]
  {
  }

  lemma {:induction false} RingDrops(slots: seq<Packet>, head: nat, count: nat)
    requires |slots| == NOTIFY_QUEUE && head < NOTIFY_QUEUE && 0 < count <= NOTIFY_QUEUE
    ensures slots[head] == Ring(slots, head, count)[0]
    ensures Ring(slots, (head + 1) % NOTIFY_QUEUE, count - 1) == Ring(slots, head, count)[1..]
  {
  }
}
