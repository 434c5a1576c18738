/** The backend's single learn session, its timer, and the button store that a
    learned signal is written to and sent from. */
module LearnServer {
  import opened Config
  import opened WireFormat

  datatype Button = Button(id: string, signal: Option<IrMessage>)

  datatype Remote = Remote(id: string, buttons: seq<Button>)

  /** The session object; its timer is named by the number of the arming. */
  datatype Session = Session(remoteId: string, buttonId: string, timer: nat)

  /** How an armed session came to its end. */
  datatype Ending = Learned(signal: IrMessage) | TargetMissing | TimedOut | Cancelled | Replaced

  datatype End = End(timer: nat, how: Ending)

  /** The server's module variables and the live timers, with the history of
      sessions that ended. */
  datatype Server = Server(db: seq<Remote>, session: Option<Session>, timers: map<nat, Session>,
                           armed: nat, ends: seq<End>)

  // ---- the store ----

  /** The first item with this id, or the number of items. */
  function Find<T>(items: seq<T>, idOf: T -> string, id: string): (i: nat)
    ensures i <= |items|
    ensures i < |items| ==> idOf(items[i]) == id
    ensures forall k :: 0 <= k < i ==> idOf(items[k]) != id
    decreases |items|
  {
    if items == [] || idOf(items[0]) == id then 0 else 1 + Find(items[1..], idOf, id)
  }

  function FindRemote(db: seq<Remote>, id: string): nat {
    Find(db, (r: Remote) => r.id, id)
  }

  function FindButton(buttons: seq<Button>, id: string): nat {
    Find(buttons, (b: Button) => b.id, id)
  }

  predicate HasButton(db: seq<Remote>, remoteId: string, buttonId: string) {
    var i := FindRemote(db, remoteId);
    i < |db| && FindButton(db[i].buttons, buttonId) < |db[i].buttons|
  }

  function TheButton(db: seq<Remote>, remoteId: string, buttonId: string): Button
    requires HasButton(db, remoteId, buttonId)
  {
    var i := FindRemote(db, remoteId);
    db[i].buttons[FindButton(db[i].buttons, buttonId)]
  }

  /** find(remote).get('buttons').find(button).assign({ signal }) */
  function Assign(db: seq<Remote>, remoteId: string, buttonId: string, signal: IrMessage): (r: seq<Remote>)
    requires HasButton(db, remoteId, buttonId)
    ensures |r| == |db|
  {
    var i := FindRemote(db, remoteId);
    var j := FindButton(db[i].buttons, buttonId);
    db[i := db[i].(buttons := db[i].buttons[j := db[i].buttons[j].(signal := Some(signal))])]
  }

  function Remove(db: seq<Remote>, id: string): (r: seq<Remote>)
    ensures forall k :: 0 <= k < |r| ==> r[k] in db && r[k].id != id
    decreases |db|
  {
    if db == [] then []
    else (if db[0].id == id then [] else [db[0]]) + Remove(db[1..], id)
  }

  // ---- the session ----

  /** clearLearnSession(): drop the session and its timer. */
  function Clear(s: Server, how: Ending): Server {
    match s.session
    case None => s
    case Some(x) => s.(session := None, timers := s.timers - {x.timer}, ends := s.ends + [End(x.timer, how)])
  }

  /** A live session whose timer is running; the timer's callback holds its own
      copy of the target. */
  function ArmNew(s: Server, remoteId: string, buttonId: string): Server {
    var x := Session(remoteId, buttonId, s.armed);
    s.(session := Some(x), timers := s.timers[s.armed := x], armed := s.armed + 1)
  }

  function Learn(s: Server, x: Session, signal: IrMessage): (Server, Reply) {
    if HasButton(s.db, x.remoteId, x.buttonId) then
      (Clear(s.(db := Assign(s.db, x.remoteId, x.buttonId, signal)), Learned(signal)), Saved)
    else (Clear(s, TargetMissing), NoTarget)
  }

  /** REST calls, messages of the hub (None when the payload is not JSON),
      expiring timers and changes of the store made through the other calls. */
  datatype Event =
    | Arm(remoteId: string, buttonId: string)
    | Message(signal: Option<IrMessage>)
    | Fire(timer: nat)
    | Cancel
    | DeleteRemote(id: string)
    | PutRemotes(db: seq<Remote>)

  datatype Reply =
    | Armed | BadRequest | NotFound | Saved | NoTarget | RawSignal | Ignored | Done
    | WasActive(active: bool) | GaveUp(remoteId: string, buttonId: string)

  function Step(s: Server, e: Event): (Server, Reply) {
    match e
    case Arm(remoteId, buttonId) =>
      if remoteId == "" || buttonId == "" then (s, BadRequest)
      else if !HasButton(s.db, remoteId, buttonId) then (s, NotFound)
      else (ArmNew(Clear(s, Replaced), remoteId, buttonId), Armed)
    case Message(signal) =>
      if signal == None then (s, Ignored)
      else if s.session == None then (s, RawSignal)
      else Learn(s, s.session.value, signal.value)
    case Fire(timer) =>
      if timer !in s.timers then (s, Ignored)
      else (Clear(s.(timers := s.timers - {timer}), TimedOut),
            GaveUp(s.timers[timer].remoteId, s.timers[timer].buttonId))
    case Cancel => (Clear(s, Cancelled), WasActive(s.session.Some?))
    case DeleteRemote(id) => (s.(db := Remove(s.db, id)), Done)
    case PutRemotes(db) => (s.(db := db), Done)
  }

  function Run(s: Server, es: seq<Event>): Server
    decreases |es|
  {
    if es == [] then s else Run(Step(s, es[0]).0, es[1..])
  }

  function Start(db: seq<Remote>): Server {
    Server(db, None, map[], 0, [])
  }

  // ---- what holds over all runs ----

  /** How often the session of a timer has ended. */
  function Endings(ends: seq<End>, timer: nat): nat {
    if ends == [] then 0
    else Endings(ends[..|ends| - 1], timer) + (if ends[|ends| - 1].timer == timer then 1 else 0)
  }

  /** At most one timer is live, and it is the one of the current session, which
      is the session armed last; every other armed session has ended exactly
      once, and the current one has not. */
  ghost predicate Inv(s: Server) {
    && s.timers == (if s.session.Some? then map[s.session.value.timer := s.session.value] else map[])
    && (s.session.Some? ==> s.session.value.timer + 1 == s.armed)
    && (s.session.Some? ==> s.session.value.remoteId != "" && s.session.value.buttonId != "")
    && forall t: nat ::
         Endings(s.ends, t) ==
           if t < s.armed && !(s.session.Some? && s.session.value.timer == t) then 1 else 0
  }

  lemma {:induction false} ClearKeepsInv(s: Server, how: Ending)
    requires Inv(s)
    ensures Inv(Clear(s, how)) && Clear(s, how).session == None && Clear(s, how).timers == map[]
    ensures Clear(s, how).db == s.db && Clear(s, how).armed == s.armed
  {
    if s.session.Some? {
      var t, x := Clear(s, how), s.session.value;
      assert t.timers == map[];
      assert t.ends[..|t.ends| - 1] == s.ends;
      forall u: nat ensures Endings(t.ends, u) == if u < t.armed then 1 else 0 {
        assert Endings(t.ends, u) == Endings(s.ends, u) + if x.timer == u then 1 else 0;
      }
    }
  }

  lemma {:induction false} FireKeepsInv(s: Server, timer: nat)
    requires Inv(s) && timer in s.timers
    ensures s.session.Some?
    ensures Step(s, Fire(timer)) == (Clear(s, TimedOut), GaveUp(s.session.value.remoteId, s.session.value.buttonId))
    ensures Inv(Step(s, Fire(timer)).0)
  {
    ClearKeepsInv(s, TimedOut);
    hide Endings;
    var x := s.session.value;
    assert timer == x.timer && s.timers - {timer} == map[];
    assert Step(s, Fire(timer)).0.timers == map[];
  }

  lemma {:induction false} ArmKeepsInv(s: Server, remoteId: string, buttonId: string)
    requires Inv(s) && s.session == None && remoteId != "" && buttonId != ""
    ensures Inv(ArmNew(s, remoteId, buttonId))
  {
    hide Endings;
    var t := ArmNew(s, remoteId, buttonId);
    assert t.timers == map[t.session.value.timer := t.session.value];
  }

  lemma {:induction false} StepKeepsInv(s: Server, e: Event)
    requires Inv(s)
    ensures Inv(Step(s, e).0)
  {
    hide Endings, Clear, ArmNew, HasButton, Assign, Remove;
    match e
    case Arm(remoteId, buttonId) =>
      ClearKeepsInv(s, Replaced);
      if remoteId != "" && buttonId != "" { ArmKeepsInv(Clear(s, Replaced), remoteId, buttonId); }
    case Message(signal) =>
      if signal.Some? && s.session.Some? {
        var x := s.session.value;
        ClearKeepsInv(s, TargetMissing);
        if HasButton(s.db, x.remoteId, x.buttonId) {
          ClearKeepsInv(s.(db := Assign(s.db, x.remoteId, x.buttonId, signal.value)), Learned(signal.value));
        }
      }
    case Fire(timer) => if timer in s.timers { FireKeepsInv(s, timer); }
    case Cancel => ClearKeepsInv(s, Cancelled);
    case DeleteRemote(_) =>
    case PutRemotes(_) =>
  }

  lemma {:induction false} RunKeepsInv(s: Server, es: seq<Event>)
    requires Inv(s)
    ensures Inv(Run(s, es))
    decreases |es|
  {
    hide Inv, Step;
    if es == [] {
    } else {
      StepKeepsInv(s, es[0]);
      RunKeepsInv(Step(s, es[0]).0, es[1..]);
    }
  }

  lemma {:induction false} EveryRun(db: seq<Remote>, es: seq<Event>)
    ensures Inv(Run(Start(db), es))
  {
    assert forall t: nat :: Endings(Start(db).ends, t) == 0;
    RunKeepsInv(Start(db), es);
  }

  // ---- when a call is accepted ----

  /** The first remote with this id has a button with that one. */
  ghost predicate Holds(db: seq<Remote>, remoteId: string, buttonId: string) {
    exists i {:trigger db[i]} :: 0 <= i < |db| && db[i].id == remoteId && (forall k :: 0 <= k < i ==> db[k].id != remoteId)
                                 && exists j :: 0 <= j < |db[i].buttons| && db[i].buttons[j].id == buttonId
  }

  lemma {:induction false} HasButtonIff(db: seq<Remote>, remoteId: string, buttonId: string)
    ensures HasButton(db, remoteId, buttonId) <==> Holds(db, remoteId, buttonId)
  {
    var i := FindRemote(db, remoteId);
    if HasButton(db, remoteId, buttonId) {
      var b := db[i].buttons;
      assert b[FindButton(b, buttonId)].id == buttonId;
    }
    if Holds(db, remoteId, buttonId) {
      var k :| && 0 <= k < |db| && db[k].id == remoteId && (forall m :: 0 <= m < k ==> db[m].id != remoteId)
               && exists j :: 0 <= j < |db[k].buttons| && db[k].buttons[j].id == buttonId;
      FoundAt(db, remoteId, k);
    }
  }

  /** An arming is accepted exactly if both ids are given and the store holds the
      button; then its session is the live one, and one that was live before has
      been replaced. Otherwise nothing changes. */
  lemma {:induction false} ArmedIff(s: Server, remoteId: string, buttonId: string)
    ensures var (t, r) := Step(s, Arm(remoteId, buttonId));
            && (r == Armed <==> remoteId != "" && buttonId != "" && Holds(s.db, remoteId, buttonId))
            && (r == BadRequest <==> remoteId == "" || buttonId == "")
            && (r != Armed ==> t == s && (r == BadRequest || r == NotFound))
            && (r == Armed ==>
                  && t.session.Some? && t.session.value.remoteId == remoteId && t.session.value.buttonId == buttonId
                  && t.db == s.db
                  && t.ends == s.ends + if s.session.Some? then [End(s.session.value.timer, Replaced)] else [])
  {
    HasButtonIff(s.db, remoteId, buttonId);
    assert s.ends + [] == s.ends;
    hide HasButton, Holds;
  }

  /** A signal that arrives while a session is live is saved exactly if the store
      holds the button it was armed for, whatever that button holds already: then
      this button has the signal and no other has changed. Otherwise the store
      stays. The session ends either way. */
  lemma {:induction false} SavedIff(s: Server, signal: IrMessage)
    requires s.session.Some?
    ensures var x := s.session.value;
            var (t, r) := Step(s, Message(Some(signal)));
            && (r == Saved <==> Holds(s.db, x.remoteId, x.buttonId))
            && (r != Saved ==> r == NoTarget && t.db == s.db)
            && (r == Saved ==>
                  && HasButton(s.db, x.remoteId, x.buttonId) && HasButton(t.db, x.remoteId, x.buttonId)
                  && TheButton(t.db, x.remoteId, x.buttonId).signal == Some(signal)
                  && var i := FindRemote(s.db, x.remoteId);
                     SameBut(s.db, t.db, i, FindButton(s.db[i].buttons, x.buttonId)))
            && t.session == None
            && t.ends == s.ends + [End(x.timer, if r == Saved then Learned(signal) else TargetMissing)]
  {
    hide HasButton, TheButton, Holds, Assign, SameBut, FindRemote, FindButton;
    var x := s.session.value;
    HasButtonIff(s.db, x.remoteId, x.buttonId);
    if HasButton(s.db, x.remoteId, x.buttonId) { AssignsOneButton(s.db, x.remoteId, x.buttonId, signal); }
  }

  // ---- what a learned signal changes ----

  /** Same remotes and buttons, same signals, except for button j of remote i. */
  ghost predicate SameBut(a: seq<Remote>, b: seq<Remote>, i: nat, j: nat) {
    && |a| == |b|
    && (forall k {:trigger b[k]} :: 0 <= k < |a| ==>
          && b[k].id == a[k].id && |b[k].buttons| == |a[k].buttons|
          && (forall m {:trigger b[k].buttons[m]} :: 0 <= m < |a[k].buttons| ==>
                && b[k].buttons[m].id == a[k].buttons[m].id
                && (k != i || m != j ==> b[k].buttons[m] == a[k].buttons[m])))
  }

  lemma {:induction false} AssignsOneButton(db: seq<Remote>, remoteId: string, buttonId: string, signal: IrMessage)
    requires HasButton(db, remoteId, buttonId)
    ensures var i := FindRemote(db, remoteId);
            SameBut(db, Assign(db, remoteId, buttonId, signal), i, FindButton(db[i].buttons, buttonId))
    ensures HasButton(Assign(db, remoteId, buttonId, signal), remoteId, buttonId)
    ensures TheButton(Assign(db, remoteId, buttonId, signal), remoteId, buttonId).signal == Some(signal)
  {
    var i := FindRemote(db, remoteId);
    var j := FindButton(db[i].buttons, buttonId);
    var r := Assign(db, remoteId, buttonId, signal);
    FoundAt(r, remoteId, i);
    ButtonFoundAt(r[i].buttons, buttonId, j);
  }

  lemma {:induction false} FoundAt(db: seq<Remote>, id: string, i: nat)
    requires i < |db| && db[i].id == id
    requires forall k {:trigger db[k]} :: 0 <= k < i ==> db[k].id != id
    ensures FindRemote(db, id) == i
  {
    assert db[i].id == id;
  }

  lemma {:induction false} ButtonFoundAt(buttons: seq<Button>, id: string, j: nat)
    requires j < |buttons| && buttons[j].id == id
    requires forall k {:trigger buttons[k]} :: 0 <= k < j ==> buttons[k].id != id
    ensures FindButton(buttons, id) == j
  {
    assert buttons[j].id == id;
  }

  /** One step writes a signal nowhere but to the button the session was armed
      for, and only when a signal arrives while the session is live. */
  lemma {:induction false} OnlyTheArmedButton(s: Server, e: Event)
    requires !e.DeleteRemote? && !e.PutRemotes?
    requires Step(s, e).0.db != s.db
    ensures e.Message? && e.signal.Some? && s.session.Some?
    ensures var x := s.session.value;
            && HasButton(s.db, x.remoteId, x.buttonId)
            && (var i := FindRemote(s.db, x.remoteId);
                SameBut(s.db, Step(s, e).0.db, i, FindButton(s.db[i].buttons, x.buttonId)))
            && HasButton(Step(s, e).0.db, x.remoteId, x.buttonId)
            && TheButton(Step(s, e).0.db, x.remoteId, x.buttonId).signal == e.signal
            && Step(s, e).0.session == None
            && Step(s, e).0.ends == s.ends + [End(x.timer, Learned(e.signal.value))]
  {
    hide Assign, HasButton, TheButton, SameBut, FindRemote, FindButton;
    if e.Message? && e.signal.Some? && s.session.Some? && HasButton(s.db, s.session.value.remoteId, s.session.value.buttonId) {
      AssignsOneButton(s.db, s.session.value.remoteId, s.session.value.buttonId, e.signal.value);
    }
  }

  /** The target of the last arming the server accepted in a run. */
  function LastArmed(s: Server, es: seq<Event>): Option<(string, string)>
    decreases |es|
  {
    if es == [] then None
    else
      var n := |es| - 1;
      if es[n].Arm? && Step(Run(s, es[..n]), es[n]).1 == Armed then Some((es[n].remoteId, es[n].buttonId))
      else LastArmed(s, es[..n])
  }

  lemma {:induction false} RunSnoc(s: Server, es: seq<Event>)
    requires es != []
    ensures Run(s, es) == Step(Run(s, es[..|es| - 1]), es[|es| - 1]).0
    decreases |es|
  {
    hide Step;
    if |es| == 1 {
      assert es[1..] == [];
    } else {
      var rest := es[1..];
      RunSnoc(Step(s, es[0]).0, rest);
      assert es[..|es| - 1][1..] == rest[..|rest| - 1];
    }
  }

  /** A live session is always that of the arming accepted last. */
  lemma {:induction false} SessionIsLastArmed(db: seq<Remote>, es: seq<Event>)
    ensures var s := Run(Start(db), es);
            s.session.Some? ==> LastArmed(Start(db), es) == Some((s.session.value.remoteId, s.session.value.buttonId))
    decreases |es|
  {
    if es == [] {
    } else {
      RunSnoc(Start(db), es);
      SessionIsLastArmed(db, es[..|es| - 1]);
      SessionAfter(Run(Start(db), es[..|es| - 1]), es[|es| - 1]);
      hide Step, Run, Start;
    }
  }

  lemma {:induction false} SessionAfter(s: Server, e: Event)
    ensures var (t, r) := Step(s, e);
            if r == Armed then
              e.Arm? && t.session.Some? && t.session.value.remoteId == e.remoteId && t.session.value.buttonId == e.buttonId
            else t.session == None || t.session == s.session
  {
    hide Assign, HasButton, Remove;
  }

  /** Over every run: whatever a signal changes in the store is the one button
      that was armed last, by a session that had not ended. */
  lemma {:induction false} LearnedWhereLastArmed(db: seq<Remote>, es: seq<Event>, signal: IrMessage)
    requires Step(Run(Start(db), es), Message(Some(signal))).0.db != Run(Start(db), es).db
    ensures LastArmed(Start(db), es).Some?
    ensures var s, target := Run(Start(db), es), LastArmed(Start(db), es).value;
            && s.armed > 0 && Endings(s.ends, s.armed - 1) == 0
            && HasButton(s.db, target.0, target.1)
            && (var i := FindRemote(s.db, target.0);
                SameBut(s.db, Step(s, Message(Some(signal))).0.db, i, FindButton(s.db[i].buttons, target.1)))
            && HasButton(Step(s, Message(Some(signal))).0.db, target.0, target.1)
            && TheButton(Step(s, Message(Some(signal))).0.db, target.0, target.1).signal == Some(signal)
  {
    hide Step, Run, LastArmed, HasButton, TheButton, SameBut, FindRemote, FindButton, Endings, Start;
    OnlyTheArmedButton(Run(Start(db), es), Message(Some(signal)));
    SessionIsLastArmed(db, es);
    EveryRun(db, es);
  }

  // ---- sending a stored signal ----

  datatype Sent = Payload(text: string) | Refused(status: nat)

  /** POST /api/send up to the publish. */
  function Send(db: seq<Remote>, remoteId: string, buttonId: string): Sent {
    if remoteId == "" || buttonId == "" then Refused(400)
    else if !HasButton(db, remoteId, buttonId) then Refused(404)
    else
      var signal := TheButton(db, remoteId, buttonId).signal;
      if signal == None then Refused(409)
      else if signal.value.truncated then Refused(409)
      else Payload(SendText(signal.value.carrierFreq, signal.value.pulses))
  }

  /** A button is sent exactly if both ids are given, the store holds it, and it
      has a signal that was captured whole. */
  lemma {:induction false} SentIff(db: seq<Remote>, remoteId: string, buttonId: string)
    ensures Send(db, remoteId, buttonId).Payload? <==>
              && remoteId != "" && buttonId != "" && Holds(db, remoteId, buttonId)
              && HasButton(db, remoteId, buttonId) && TheButton(db, remoteId, buttonId).signal.Some?
              && !TheButton(db, remoteId, buttonId).signal.value.truncated
    ensures !Send(db, remoteId, buttonId).Payload? ==>
              Send(db, remoteId, buttonId).status ==
              if remoteId == "" || buttonId == "" then 400 else if !Holds(db, remoteId, buttonId) then 404 else 409
  {
    HasButtonIff(db, remoteId, buttonId);
    hide HasButton, Holds, TheButton, SendText;
  }

  /** A run that leaves a button alone: nothing else is learned for it, its remote
      is not deleted, and edits of the store keep it as it is. Any other remote
      may be created, changed or deleted. */
  ghost predicate LeavesAlone(s: Server, es: seq<Event>, remoteId: string, buttonId: string)
    decreases |es|
  {
    es != [] ==>
      && (es[0].DeleteRemote? ==> es[0].id != remoteId)
      && (es[0].PutRemotes? ==> Keeps(s.db, es[0].db, remoteId, buttonId))
      && (es[0].Message? && s.session.Some? ==>
            (s.session.value.remoteId, s.session.value.buttonId) != (remoteId, buttonId))
      && LeavesAlone(Step(s, es[0]).0, es[1..], remoteId, buttonId)
  }

  /** The button is still found, unchanged. */
  ghost predicate Keeps(before: seq<Remote>, after: seq<Remote>, remoteId: string, buttonId: string) {
    HasButton(before, remoteId, buttonId) ==>
      HasButton(after, remoteId, buttonId) && TheButton(after, remoteId, buttonId) == TheButton(before, remoteId, buttonId)
  }

  lemma {:induction false} RemoveKeepsOthers(db: seq<Remote>, id: string, remoteId: string)
    requires id != remoteId && FindRemote(db, remoteId) < |db|
    ensures var i := FindRemote(Remove(db, id), remoteId);
            i < |Remove(db, id)| && Remove(db, id)[i] == db[FindRemote(db, remoteId)]
    decreases |db|
  {
    var rest := Remove(db[1..], id);
    if db[0].id == remoteId {
      assert Remove(db, id) == [db[0]] + rest;
      FoundAt(Remove(db, id), remoteId, 0);
    } else {
      FindSkips(db[0], db[1..], remoteId);
      assert db == [db[0]] + db[1..];
      RemoveKeepsOthers(db[1..], id, remoteId);
      if db[0].id == id {
        assert Remove(db, id) == rest;
      } else {
        assert Remove(db, id) == [db[0]] + rest;
        FindSkips(db[0], rest, remoteId);
      }
    }
  }

  lemma {:induction false} FindSkips(r: Remote, rest: seq<Remote>, id: string)
    requires r.id != id
    ensures FindRemote([r] + rest, id) == 1 + FindRemote(rest, id)
  {
    assert ([r] + rest)[1..] == rest;
  }

  lemma {:induction false} OtherButtonKept(
      db: seq<Remote>, r: string, b: string, remoteId: string, buttonId: string, signal: IrMessage)
    requires HasButton(db, r, b) && HasButton(db, remoteId, buttonId) && (r, b) != (remoteId, buttonId)
    ensures var d := Assign(db, r, b, signal);
            HasButton(d, remoteId, buttonId) && TheButton(d, remoteId, buttonId) == TheButton(db, remoteId, buttonId)
  {
    var i := FindRemote(db, remoteId);
    var d := Assign(db, r, b, signal);
    FoundAt(d, remoteId, i);
    ButtonFoundAt(d[i].buttons, buttonId, FindButton(db[i].buttons, buttonId));
  }

  lemma {:induction false} StepKeepsButton(s: Server, e: Event, remoteId: string, buttonId: string)
    requires HasButton(s.db, remoteId, buttonId) && LeavesAlone(s, [e], remoteId, buttonId)
    ensures HasButton(Step(s, e).0.db, remoteId, buttonId)
    ensures TheButton(Step(s, e).0.db, remoteId, buttonId) == TheButton(s.db, remoteId, buttonId)
  {
    if e.DeleteRemote? {
      DeleteKeepsButton(s.db, e.id, remoteId, buttonId);
    } else {
      OtherEventKeepsButton(s, e, remoteId, buttonId);
    }
  }

  lemma {:induction false} DeleteKeepsButton(db: seq<Remote>, id: string, remoteId: string, buttonId: string)
    requires id != remoteId
    ensures Keeps(db, Remove(db, id), remoteId, buttonId)
  {
    hide FindRemote, FindButton, Remove;
    if HasButton(db, remoteId, buttonId) { RemoveKeepsOthers(db, id, remoteId); }
  }

  lemma {:induction false} OtherEventKeepsButton(s: Server, e: Event, remoteId: string, buttonId: string)
    requires HasButton(s.db, remoteId, buttonId) && LeavesAlone(s, [e], remoteId, buttonId) && !e.DeleteRemote?
    ensures HasButton(Step(s, e).0.db, remoteId, buttonId)
    ensures TheButton(Step(s, e).0.db, remoteId, buttonId) == TheButton(s.db, remoteId, buttonId)
  {
    hide HasButton, TheButton, Assign, Endings, FindRemote, FindButton;
    if Step(s, e).0.db != s.db && !e.PutRemotes? {
      var x := s.session.value;
      OtherButtonKept(s.db, x.remoteId, x.buttonId, remoteId, buttonId, e.signal.value);
    }
  }

  lemma {:induction false} RunKeepsButton(s: Server, es: seq<Event>, remoteId: string, buttonId: string)
    requires HasButton(s.db, remoteId, buttonId) && LeavesAlone(s, es, remoteId, buttonId)
    ensures HasButton(Run(s, es).db, remoteId, buttonId)
    ensures TheButton(Run(s, es).db, remoteId, buttonId) == TheButton(s.db, remoteId, buttonId)
    decreases |es|
  {
    hide HasButton, TheButton, Step;
    if es == [] {
    } else {
      assert [es[0]][1..] == [];
      StepKeepsButton(s, es[0], remoteId, buttonId);
      RunKeepsButton(Step(s, es[0]).0, es[1..], remoteId, buttonId);
    }
  }

  /** What was learned for a button is what is later sent for it, through any
      run that does not touch the button; a truncated capture is never sent. */
  lemma {:induction false} LearnThenSend(s: Server, signal: IrMessage, es: seq<Event>)
    requires Inv(s) && s.session.Some?
    requires Holds(s.db, s.session.value.remoteId, s.session.value.buttonId)
    requires LeavesAlone(Step(s, Message(Some(signal))).0, es, s.session.value.remoteId, s.session.value.buttonId)
    ensures Send(Run(Step(s, Message(Some(signal))).0, es).db, s.session.value.remoteId, s.session.value.buttonId) ==
            if signal.truncated then Refused(409) else Payload(SendText(signal.carrierFreq, signal.pulses))
  {
    var x := s.session.value;
    HasButtonIff(s.db, x.remoteId, x.buttonId);
    AssignsOneButton(s.db, x.remoteId, x.buttonId, signal);
    RunKeepsButton(Step(s, Message(Some(signal))).0, es, x.remoteId, x.buttonId);
    hide HasButton, Holds, TheButton, Assign, SameBut, LeavesAlone, Run, FindRemote, FindButton, SendText, Endings;
  }

  // ---- the server's module state, changed in place ----

  class LearnService {
    var db: seq<Remote>
    var learnSession: Option<Session>
    var timers: map<nat, Session>
    var nextTimer: nat
    ghost var ends: seq<End>

    ghost function View(): Server
      reads this
    {
      Server(db, learnSession, timers, nextTimer, ends)
    }

    constructor (remotes: seq<Remote>)
      ensures View() == Start(remotes)
    {
      db, learnSession, timers, nextTimer, ends := remotes, None, map[], 0, [];
    }

    method ClearLearnSession(ghost how: Ending)
      modifies this
      ensures View() == Clear(old(View()), how) && db == old(db)
    {
      if learnSession.Some? {
        ends := ends + [End(learnSession.value.timer, how)];
        timers := timers - {learnSession.value.timer};
      }
      learnSession := None;
    }

    method PostLearn(remoteId: string, buttonId: string) returns (r: Reply)
      modifies this
      ensures (View(), r) == Step(old(View()), Arm(remoteId, buttonId))
      ensures r == Armed <==> remoteId != "" && buttonId != "" && Holds(old(db), remoteId, buttonId)
    {
      hide HasButton, Clear, Holds;
      HasButtonIff(db, remoteId, buttonId);
      if remoteId == "" || buttonId == "" { return BadRequest; }
      if !HasButton(db, remoteId, buttonId) { return NotFound; }
      ClearLearnSession(Replaced);
      var x := Session(remoteId, buttonId, nextTimer);
      timers := timers[nextTimer := x];
      learnSession := Some(x);
      nextTimer := nextTimer + 1;
      r := Armed;
    }

    method OnLearned(parsed: Option<IrMessage>) returns (r: Reply)
      modifies this
      ensures (View(), r) == Step(old(View()), Message(parsed))
      ensures parsed.Some? && old(learnSession).Some? ==>
                var x := old(learnSession).value;
                && (r == Saved <==> Holds(old(db), x.remoteId, x.buttonId))
                && (r == Saved ==> HasButton(db, x.remoteId, x.buttonId) &&
                                   TheButton(db, x.remoteId, x.buttonId).signal == parsed)
    {
      hide HasButton, TheButton, Clear, Assign, Holds, SameBut, FindRemote, FindButton;
      if parsed == None { return Ignored; }
      if learnSession.Some? {
        var x := learnSession.value;
        HasButtonIff(db, x.remoteId, x.buttonId);
        if HasButton(db, x.remoteId, x.buttonId) { AssignsOneButton(db, x.remoteId, x.buttonId, parsed.value); }
        if HasButton(db, x.remoteId, x.buttonId) {
          db := Assign(db, x.remoteId, x.buttonId, parsed.value);
          r := Saved;
        } else {
          r := NoTarget;
        }
        ClearLearnSession(if r == Saved then Learned(parsed.value) else TargetMissing);
      } else {
        r := RawSignal;
      }
    }

    method TimerExpires(timer: nat) returns (r: Reply)
      modifies this
      ensures (View(), r) == Step(old(View()), Fire(timer))
    {
      hide Clear;
      if timer !in timers { return Ignored; }
      r := GaveUp(timers[timer].remoteId, timers[timer].buttonId);
      timers := timers - {timer};
      ClearLearnSession(TimedOut);
    }

    method DeleteLearn() returns (r: Reply)
      modifies this
      ensures (View(), r) == Step(old(View()), Cancel)
    {
      hide Clear;
      var wasActive := learnSession.Some?;
      ClearLearnSession(Cancelled);
      r := WasActive(wasActive);
    }
  }
}
