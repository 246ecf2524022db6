/**
 The approval store: what may happen to one deferred tool call, over every sequence of
 calls from the agent and from its superiors.

 The store is an object updated in place. `Legal` is the table its methods are proved
 against; the theorems are about whole call sequences (`Run`).
 */
module Approval {
  import opened Wrappers

  datatype Status = Pending | Committed | Approved | Denied | Redeemed | Cancelled

  datatype Action = Action(
    id: string,
    toolName: string,
    argsJson: string,
    commitReason: Option<string>,
    status: Status,
    denyReason: Option<string>,
    deferReason: Option<string>,
    createdAt: int
  )

  datatype Note = ApprovedNote(id: string) | DeniedNote(id: string, reason: string)

  datatype Error = NotFound | WrongStatus(status: Status) | WasDenied(reason: string)

  datatype Result<T> = Ok(value: T) | Err(error: Error)

  datatype Store = Store(actions: map<string, Action>, queue: seq<Note>)

  datatype Call =
    | Enqueue(id: string, toolName: string, argsJson: string, deferReason: Option<string>, createdAt: int)
    | Commit(id: string, reason: string)
    | Approve(id: string)
    | Deny(id: string, reason: string)
    | Redeem(id: string)
    | Cancel(id: string)
    | Drain
    | Restart // the store is saved and read back: the queue is not persisted

  // ------------------------------------------------------------------ the table

  /** What a call does to an action's status, when the status allows it. */
  function Legal(c: Call, from: Status): Option<Status> {
    match (c, from)
    case (Commit(_, _), Pending) => Some(Committed)
    case (Approve(_), Committed) => Some(Approved)
    case (Deny(_, _), Committed) => Some(Denied)
    case (Redeem(_), Approved) => Some(Redeemed)
    case (Cancel(_), _) => if from.Redeemed? || from.Cancelled? then None else Some(Cancelled)
    case _ => None
  }

  /** The calls that move an existing action. */
  predicate Moves(c: Call) { c.Commit? || c.Approve? || c.Deny? || c.Redeem? || c.Cancel? }

  predicate Accepts(s: Store, c: Call) {
    Moves(c) ==> c.id in s.actions && Legal(c, s.actions[c.id].status).Some?
  }

  function Moved(a: Action, c: Call): Action
    requires Legal(c, a.status).Some?
  {
    var a' := a.(status := Legal(c, a.status).value);
    match c
    case Commit(_, reason) => a'.(commitReason := Some(reason))
    case Deny(_, reason) => a'.(denyReason := Some(reason))
    case _ => a'
  }

  /** What a superior's verdict tells the agent. */
  function Tells(c: Call): seq<Note> {
    match c
    case Approve(id) => [ApprovedNote(id)]
    case Deny(id, reason) => [DeniedNote(id, reason)]
    case _ => []
  }

  function After(s: Store, c: Call): Store {
    if !Accepts(s, c) then s
    else
      match c
      case Enqueue(id, tool, args, why, at) =>
        s.(actions := s.actions[id := Action(id, tool, args, None, Pending, None, why, at)])
      case Drain | Restart => s.(queue := [])
      case _ => Store(s.actions[c.id := Moved(s.actions[c.id], c)], s.queue + Tells(c))
  }

  function Run(cs: seq<Call>): Store
    decreases |cs|
  {
    if cs == [] then Store(map[], []) else After(Run(cs[..|cs| - 1]), cs[|cs| - 1])
  }

  // ------------------------------------------------------------------ the store

  class ApprovalStore {
    var actions: map<string, Action>
    var notifications: seq<Note>

    function View(): Store
      reads this
    {
      Store(actions, notifications)
    }

    constructor ()
      ensures View() == Run([])
    {
      actions, notifications := map[], [];
    }

    /** `id` and `createdAt` stand for the drawn id and the clock. */
    method EnqueueAction(id: string, toolName: string, argsJson: string, deferReason: Option<string>, createdAt: int)
      modifies this
      ensures View() == After(old(View()), Enqueue(id, toolName, argsJson, deferReason, createdAt))
    {
      actions := actions[id := Action(id, toolName, argsJson, None, Pending, None, deferReason, createdAt)];
    }

    method CommitAction(id: string, reason: string) returns (r: Result<()>)
      modifies this
      ensures View() == After(old(View()), Commit(id, reason))
      ensures r.Ok? <==> Accepts(old(View()), Commit(id, reason))
      ensures r == Err(NotFound) <==> id !in old(actions)
    {
      if id !in actions { return Err(NotFound); }
      var action := actions[id];
      if !action.status.Pending? { return Err(WrongStatus(action.status)); }
      actions := actions[id := action.(commitReason := Some(reason), status := Committed)];
      return Ok(());
    }

    method ApproveAction(id: string) returns (r: Result<()>)
      modifies this
      ensures View() == After(old(View()), Approve(id))
      ensures r.Ok? <==> Accepts(old(View()), Approve(id))
      ensures r == Err(NotFound) <==> id !in old(actions)
    {
      if id !in actions { return Err(NotFound); }
      var action := actions[id];
      if !action.status.Committed? { return Err(WrongStatus(action.status)); }
      actions := actions[id := action.(status := Approved)];
      notifications := notifications + [ApprovedNote(id)];
      return Ok(());
    }

    method DenyAction(id: string, reason: string) returns (r: Result<()>)
      modifies this
      ensures View() == After(old(View()), Deny(id, reason))
      ensures r.Ok? <==> Accepts(old(View()), Deny(id, reason))
      ensures r == Err(NotFound) <==> id !in old(actions)
    {
      if id !in actions { return Err(NotFound); }
      var action := actions[id];
      if !action.status.Committed? { return Err(WrongStatus(action.status)); }
      actions := actions[id := action.(status := Denied, denyReason := Some(reason))];
      notifications := notifications + [DeniedNote(id, reason)];
      return Ok(());
    }

    method TakeForRedeem(id: string) returns (r: Result<Action>)
      modifies this
      ensures View() == After(old(View()), Redeem(id))
      ensures r.Ok? <==> Accepts(old(View()), Redeem(id))
      ensures r.Ok? ==> r.value == actions[id]
      ensures r.Err? ==>
        r.error ==
        if id !in old(actions) then NotFound
        else if old(actions)[id].status.Denied? then WasDenied(old(actions)[id].denyReason.UnwrapOr("unknown"))
        else WrongStatus(old(actions)[id].status)
    {
      if id !in actions { return Err(NotFound); }
      var action := actions[id];
      match action.status
      case Denied => return Err(WasDenied(action.denyReason.UnwrapOr("unknown")));
      case Pending | Committed | Redeemed | Cancelled => return Err(WrongStatus(action.status));
      case Approved =>
        actions := actions[id := action.(status := Redeemed)];
        return Ok(actions[id]);
    }

    method CancelAction(id: string) returns (r: Result<Status>)
      modifies this
      ensures View() == After(old(View()), Cancel(id))
      ensures r.Ok? <==> Accepts(old(View()), Cancel(id))
      ensures r.Ok? ==> r.value == old(actions)[id].status
    {
      if id !in actions { return Err(NotFound); }
      var action := actions[id];
      match action.status
      case Redeemed | Cancelled => return Err(WrongStatus(action.status));
      case prev =>
        actions := actions[id := action.(status := Cancelled)];
        return Ok(prev);
    }

    method DrainNotifications() returns (taken: seq<Note>)
      modifies this
      ensures View() == After(old(View()), Drain)
      ensures taken == old(notifications)
    {
      taken, notifications := notifications, [];
    }

    /** Non-destructive: whether a drain now would hand anything over. */
    method HasNotifications() returns (pending: bool)
      ensures pending <==> After(View(), Drain) != View()
    {
      pending := notifications != [];
    }
  }

  // ------------------------------------------------------------------ the life of one action

  /** No id is drawn twice. */
  ghost predicate FreshIds(cs: seq<Call>) {
    forall i, j :: 0 <= i < j < |cs| && cs[i].Enqueue? && cs[j].Enqueue? ==> cs[i].id != cs[j].id
  }

  datatype Kind = Enqueued | Commits | Approves | Denies | Redeems | Cancels

  function KindOf(c: Call): Kind
    requires c.Enqueue? || Moves(c)
  {
    match c
    case Enqueue(_, _, _, _, _) => Enqueued
    case Commit(_, _) => Commits
    case Approve(_) => Approves
    case Deny(_, _) => Denies
    case Redeem(_) => Redeems
    case Cancel(_) => Cancels
  }

  /** The calls that changed the action `id`, in order. */
  function Trail(cs: seq<Call>, id: string): seq<Kind>
    decreases |cs|
  {
    if cs == [] then []
    else
      var before := cs[..|cs| - 1];
      var c := cs[|cs| - 1];
      if (c.Enqueue? || Moves(c)) && c.id == id && Accepts(Run(before), c) then Trail(before, id) + [KindOf(c)]
      else Trail(before, id)
  }

  /** Every life an action can have, and where it leaves the action. */
  predicate Life(t: seq<Kind>, s: Status) {
    || (t == [Enqueued] && s.Pending?)
    || (t == [Enqueued, Commits] && s.Committed?)
    || (t == [Enqueued, Commits, Approves] && s.Approved?)
    || (t == [Enqueued, Commits, Denies] && s.Denied?)
    || (t == [Enqueued, Commits, Approves, Redeems] && s.Redeemed?)
    || (s.Cancelled? &&
        (t == [Enqueued, Cancels] || t == [Enqueued, Commits, Cancels] ||
         t == [Enqueued, Commits, Approves, Cancels] || t == [Enqueued, Commits, Denies, Cancels]))
  }

  lemma {:induction false} NotYetDrawn(cs: seq<Call>, id: string)
    requires forall i :: 0 <= i < |cs| && cs[i].Enqueue? ==> cs[i].id != id
    ensures id !in Run(cs).actions
    decreases |cs|
  {
    if cs != [] { NotYetDrawn(cs[..|cs| - 1], id); }
  }

  /** A drawn id is new to the store. */
  lemma DrawnIsNew(cs: seq<Call>, c: Call)
    requires FreshIds(cs + [c]) && c.Enqueue?
    ensures c.id !in Run(cs).actions
  {
    var all := cs + [c];
    assert forall i :: 0 <= i < |cs| ==> cs[i] == all[i];
    assert all[|cs|] == c;
    NotYetDrawn(cs, c.id);
  }

  /** One step of a life. */
  lemma LifeStep(t: seq<Kind>, s: Status, c: Call)
    requires Life(t, s) && Moves(c) && Legal(c, s).Some?
    ensures Life(t + [KindOf(c)], Legal(c, s).value)
  {}

  /** Over every call sequence, an action lives exactly one of the ten lives. */
  lemma {:induction false} OneLife(cs: seq<Call>, id: string)
    requires FreshIds(cs)
    ensures if id in Run(cs).actions then Life(Trail(cs, id), Run(cs).actions[id].status) else Trail(cs, id) == []
    decreases |cs|
  {
    if cs != [] {
      var before, c := cs[..|cs| - 1], cs[|cs| - 1];
      OneLife(before, id);
      hide Life, Legal;
      assert before + [c] == cs;
      if c.Enqueue? && c.id == id {
        DrawnIsNew(before, c);
        Born();
        assert [] + [Enqueued] == [Enqueued];
      } else if Moves(c) && c.id == id && Accepts(Run(before), c) {
        LifeStep(Trail(before, id), Run(before).actions[id].status, c);
      }
    }
  }

  lemma Born()
    ensures Life([Enqueued], Pending)
  {}

  /** A call is redeemable exactly when it was committed, then approved, and nothing happened to it since. */
  lemma RedeemableExactly(cs: seq<Call>, id: string)
    requires FreshIds(cs)
    ensures Accepts(Run(cs), Redeem(id)) <==> Trail(cs, id) == [Enqueued, Commits, Approves]
  {
    OneLife(cs, id);
  }

  /** Which calls the store accepts, by the action's life alone. */
  lemma AcceptedExactly(cs: seq<Call>, id: string, reason: string)
    requires FreshIds(cs)
    ensures Accepts(Run(cs), Commit(id, reason)) <==> Trail(cs, id) == [Enqueued]
    ensures Accepts(Run(cs), Approve(id)) <==> Trail(cs, id) == [Enqueued, Commits]
    ensures Accepts(Run(cs), Deny(id, reason)) <==> Trail(cs, id) == [Enqueued, Commits]
    ensures Accepts(Run(cs), Cancel(id)) <==>
            Trail(cs, id) != [] && Redeems !in Trail(cs, id) && Cancels !in Trail(cs, id)
  {
    OneLife(cs, id);
  }

  /** No call sequence redeems an id twice, nor after a denial or a cancel. */
  lemma RedeemIsOnceAndLast(cs: seq<Call>, more: seq<Call>, later: Call)
    requires FreshIds(cs + more + [later]) && Moves(later)
    requires Redeems in Trail(cs, later.id) || Cancels in Trail(cs, later.id)
    ensures !Accepts(Run(cs + more), later)
    ensures Denies in Trail(cs, later.id) ==> later.id in Run(cs).actions && !Accepts(Run(cs + more), Redeem(later.id))
  {
    assert FreshIds(cs + more) by {
      assert forall i :: 0 <= i < |cs + more| ==> (cs + more)[i] == (cs + more + [later])[i];
    }
    assert FreshIds(cs) by { assert forall i :: 0 <= i < |cs| ==> cs[i] == (cs + more)[i]; }
    OneLife(cs, later.id);
    OnlyUp(cs, more, later.id);
  }

  // ------------------------------------------------------------------ rank

  function Rank(s: Status): nat {
    match s
    case Pending => 0
    case Committed => 1
    case Approved | Denied => 2
    case Redeemed | Cancelled => 3
  }

  /** An accepted move strictly raises the rank. */
  lemma MoveClimbs(c: Call, from: Status)
    requires Legal(c, from).Some?
    ensures Rank(from) < Rank(Legal(c, from).value)
  {}

  /** A status only ever climbs, and a status of the same rank is the same status. */
  lemma {:induction false} OnlyUp(cs: seq<Call>, more: seq<Call>, id: string)
    requires FreshIds(cs + more) && id in Run(cs).actions
    ensures id in Run(cs + more).actions
    ensures
      var was, now := Run(cs).actions[id].status, Run(cs + more).actions[id].status;
      was == now || Rank(was) < Rank(now)
    decreases |more|
  {
    if more == [] {
      assert cs + more == cs;
    } else {
      var n := |more| - 1;
      var all := cs + more;
      assert all[..|all| - 1] == cs + more[..n];
      assert FreshIds(cs + more[..n]) by { assert forall i :: 0 <= i < |cs| + n ==> (cs + more[..n])[i] == all[i]; }
      OnlyUp(cs, more[..n], id);
      var c := more[n];
      assert cs + more[..n] + [c] == all;
      if c.Enqueue? {
        DrawnIsNew(cs + more[..n], c);
      } else if Moves(c) && c.id == id && Accepts(Run(cs + more[..n]), c) {
        MoveClimbs(c, Run(cs + more[..n]).actions[id].status);
      }
    }
  }

  // ------------------------------------------------------------------ notifications

  /** The verdicts that took effect, in order. */
  function Verdicts(cs: seq<Call>): seq<Note>
    decreases |cs|
  {
    if cs == [] then []
    else
      var before, c := cs[..|cs| - 1], cs[|cs| - 1];
      Verdicts(before) + (if Accepts(Run(before), c) then Tells(c) else [])
  }

  /** What the drains handed over, in order. */
  function HandedOver(cs: seq<Call>): seq<Note>
    decreases |cs|
  {
    if cs == [] then []
    else
      var before, c := cs[..|cs| - 1], cs[|cs| - 1];
      HandedOver(before) + (if c.Drain? then Run(before).queue else [])
  }

  /** Every restart found the queue empty. */
  predicate QuietRestarts(cs: seq<Call>)
    decreases |cs|
  {
    cs == [] ||
    (var before, c := cs[..|cs| - 1], cs[|cs| - 1];
     QuietRestarts(before) && (c.Restart? ==> Run(before).queue == []))
  }

  lemma {:induction false} NoneInvented(cs: seq<Call>)
    ensures |HandedOver(cs)| + |Run(cs).queue| <= |Verdicts(cs)|
    ensures !QuietRestarts(cs) ==> |HandedOver(cs)| + |Run(cs).queue| < |Verdicts(cs)|
    decreases |cs|
  {
    if cs != [] { NoneInvented(cs[..|cs| - 1]); }
  }

  /** The agent hears every verdict exactly once and in order, exactly when no restart drops a queued one. */
  lemma {:induction false} VerdictsConserved(cs: seq<Call>)
    ensures HandedOver(cs) + Run(cs).queue == Verdicts(cs) <==> QuietRestarts(cs)
    decreases |cs|
  {
    NoneInvented(cs);
    if cs != [] && QuietRestarts(cs) {
      VerdictsConserved(cs[..|cs| - 1]);
    }
  }

  lemma {:induction false} JudgedStay(cs: seq<Call>)
    requires FreshIds(cs)
    ensures forall i :: 0 <= i < |Verdicts(cs)| ==>
              var id := Verdicts(cs)[i].id; id in Run(cs).actions && Rank(Run(cs).actions[id].status) >= 2
    ensures forall i, j :: 0 <= i < j < |Verdicts(cs)| ==> Verdicts(cs)[i].id != Verdicts(cs)[j].id
    decreases |cs|
  {
    if cs != [] {
      var before, c := cs[..|cs| - 1], cs[|cs| - 1];
      JudgedStay(before);
      var vs := Verdicts(before);
      forall i | 0 <= i < |vs| ensures vs[i].id in Run(cs).actions && Rank(Run(cs).actions[vs[i].id].status) >= 2 {
        assert before + [c] == cs;
        OnlyUp(before, [c], vs[i].id);
      }
    }
  }

  /** Nobody hears two verdicts on one call. */
  lemma OneVerdictEach(cs: seq<Call>, i: nat, j: nat)
    requires FreshIds(cs) && i < j < |Verdicts(cs)|
    ensures Verdicts(cs)[i].id != Verdicts(cs)[j].id
  { JudgedStay(cs); }

  /** A denied action always carries its reason, and it is the reason the verdict gave. */
  lemma {:induction false} DeniedSaysWhy(cs: seq<Call>, id: string)
    requires id in Run(cs).actions && Run(cs).actions[id].status.Denied?
    ensures Run(cs).actions[id].denyReason.Some?
    ensures DeniedNote(id, Run(cs).actions[id].denyReason.value) in Verdicts(cs)
    decreases |cs|
  {
    var before := cs[..|cs| - 1];
    if id in Run(before).actions && Run(before).actions[id].status.Denied? { DeniedSaysWhy(before, id); }
  }

  // ------------------------------------------------------------------ what is carried

  /** The call `c` was made and took effect. */
  ghost predicate Effective(cs: seq<Call>, c: Call) {
    exists j: nat :: j < |cs| && cs[j] == c && Accepts(Run(cs[..j]), c)
  }

  lemma EffectiveSnoc(cs: seq<Call>, last: Call, c: Call)
    ensures Effective(cs + [last], c) <==> Effective(cs, c) || (c == last && Accepts(Run(cs), c))
  {
    var all := cs + [last];
    if j: nat :| j < |all| && all[j] == c && Accepts(Run(all[..j]), c) {
      if j < |cs| {
        assert cs[j] == c && cs[..j] == all[..j];
      } else {
        assert all[..j] == cs;
      }
    }
    if j: nat :| j < |cs| && cs[j] == c && Accepts(Run(cs[..j]), c) {
      assert all[j] == c && all[..j] == cs[..j];
    }
    assert all[|cs|] == last && all[..|cs|] == cs;
  }

  lemma FreshBefore(cs: seq<Call>, last: Call)
    requires FreshIds(cs + [last])
    ensures FreshIds(cs)
  {
    assert forall i :: 0 <= i < |cs| ==> cs[i] == (cs + [last])[i];
  }

  /** The call deferred is the call kept: whatever happens later, nothing rewrites what was to be run, why, or when. */
  lemma {:induction false} DeferredCallIsKept(cs: seq<Call>, k: nat)
    requires FreshIds(cs) && k < |cs| && cs[k].Enqueue?
    ensures cs[k].id in Run(cs).actions
    ensures
      var a := Run(cs).actions[cs[k].id];
      && a.id == cs[k].id && a.toolName == cs[k].toolName && a.argsJson == cs[k].argsJson
      && a.deferReason == cs[k].deferReason && a.createdAt == cs[k].createdAt
    decreases |cs|
  {
    var n := |cs| - 1;
    var before, c := cs[..n], cs[n];
    assert before + [c] == cs;
    FreshBefore(before, c);
    if k < n {
      assert before[k] == cs[k];
      DeferredCallIsKept(before, k);
      if c.Enqueue? { assert c.id != cs[k].id; }
    }
  }

  /** Which reasons an action carries at each status. */
  predicate Carried(a: Action) {
    match a.status
    case Pending => a.commitReason.None? && a.denyReason.None?
    case Committed | Approved | Redeemed => a.commitReason.Some? && a.denyReason.None?
    case Denied => a.commitReason.Some? && a.denyReason.Some?
    case Cancelled => a.denyReason.Some? ==> a.commitReason.Some?
  }

  lemma {:induction false} CarriedAlways(cs: seq<Call>, id: string)
    requires id in Run(cs).actions
    ensures Carried(Run(cs).actions[id])
    decreases |cs|
  {
    var before := cs[..|cs| - 1];
    if id in Run(before).actions { CarriedAlways(before, id); }
  }

  /** A stored reason is the one given by the commit or the denial that took effect, and there is one for each. */
  lemma {:induction false} ReasonsAreTheirs(cs: seq<Call>, id: string, reason: string)
    requires FreshIds(cs) && id in Run(cs).actions
    ensures Run(cs).actions[id].commitReason == Some(reason) <==> Effective(cs, Commit(id, reason))
    ensures Run(cs).actions[id].denyReason == Some(reason) <==> Effective(cs, Deny(id, reason))
    decreases |cs|
  {
    var before, c := cs[..|cs| - 1], cs[|cs| - 1];
    assert before + [c] == cs;
    FreshBefore(before, c);
    EffectiveSnoc(before, c, Commit(id, reason));
    EffectiveSnoc(before, c, Deny(id, reason));
    if id in Run(before).actions {
      ReasonsAreTheirs(before, id, reason);
      CarriedAlways(before, id);
      if c.Enqueue? { DrawnIsNew(before, c); }
    } else {
      NothingBeforeBirth(before, id, Commit(id, reason));
      NothingBeforeBirth(before, id, Deny(id, reason));
    }
    hide Effective;
  }

  /** A call on an id took effect only if the id is in the store from then on. */
  lemma {:induction false} NothingBeforeBirth(cs: seq<Call>, id: string, c: Call)
    requires Moves(c) && c.id == id && id !in Run(cs).actions
    ensures !Effective(cs, c)
    decreases |cs|
  {
    if cs != [] {
      var before, last := cs[..|cs| - 1], cs[|cs| - 1];
      assert before + [last] == cs;
      NothingBeforeBirth(before, id, c);
      EffectiveSnoc(before, last, c);
    }
  }

  /** The agent is told of exactly the verdicts that were given, with the reason they gave. */
  lemma {:induction false} VerdictsAreGiven(cs: seq<Call>, id: string, reason: string)
    ensures ApprovedNote(id) in Verdicts(cs) <==> Effective(cs, Approve(id))
    ensures DeniedNote(id, reason) in Verdicts(cs) <==> Effective(cs, Deny(id, reason))
    decreases |cs|
  {
    if cs != [] {
      var before, last := cs[..|cs| - 1], cs[|cs| - 1];
      assert before + [last] == cs;
      VerdictsAreGiven(before, id, reason);
      EffectiveSnoc(before, last, Approve(id));
      EffectiveSnoc(before, last, Deny(id, reason));
      hide Effective;
    }
  }

  lemma {:induction false} ApprovedWasApproved(cs: seq<Call>, id: string)
    requires id in Run(cs).actions && Run(cs).actions[id].status.Approved?
    ensures Effective(cs, Approve(id))
    decreases |cs|
  {
    var before, last := cs[..|cs| - 1], cs[|cs| - 1];
    assert before + [last] == cs;
    EffectiveSnoc(before, last, Approve(id));
    if id in Run(before).actions && Run(before).actions[id].status.Approved? { ApprovedWasApproved(before, id); }
    hide Effective;
  }

  /**
   What a redeem hands out is the call that was deferred, word for word, with the justification its
   commit gave, and a superior approved it.
   */
  lemma RedeemedIsTheDeferredCall(cs: seq<Call>, id: string) returns (k: nat, reason: string)
    requires FreshIds(cs) && Accepts(Run(cs), Redeem(id))
    ensures k < |cs| && cs[k].Enqueue? && cs[k].id == id
    ensures Run(cs + [Redeem(id)]).actions[id] ==
            Action(id, cs[k].toolName, cs[k].argsJson, Some(reason), Redeemed, None, cs[k].deferReason, cs[k].createdAt)
    ensures Effective(cs, Commit(id, reason)) && Effective(cs, Approve(id))
  {
    if forall i :: 0 <= i < |cs| && cs[i].Enqueue? ==> cs[i].id != id { NotYetDrawn(cs, id); }
    k :| 0 <= k < |cs| && cs[k].Enqueue? && cs[k].id == id;
    DeferredCallIsKept(cs, k);
    CarriedAlways(cs, id);
    reason := Run(cs).actions[id].commitReason.value;
    ReasonsAreTheirs(cs, id, reason);
    ApprovedWasApproved(cs, id);
    assert (cs + [Redeem(id)])[..|cs|] == cs;
    hide Effective;
  }
}
