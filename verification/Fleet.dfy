/**
 The callers of the lock manager: creation, death, reactivation and removal of agents, each agent
 locking its own workspace and a full handoff moving the supervisor's lock to its child and back.

 Creation is three steps, between which others may run: the slot is reserved under the supervisor,
 the workspace is carved, the agent is registered. So is removal: the agent leaves the registry, a
 handoff's workspace goes back to the supervisor, the rest of its locks is released. The exclusivity
 check of a handoff reads the supervisor's slots, but the mode only of those already registered.
 Ids are never used twice, so an agent that is gone stays in `nodes`.
 */
module Fleet {
  import opened Paths
  import opened Delegation
  import opened LockRules
  import opened Wrappers

  datatype Mode = CarveOut | FullHandoff

  datatype Phase = Reserved | Carved | Registered(live: bool) | Leaving | HandedBack | Gone {
    /** The supervisor counts the agent among its slots. */
    predicate Slotted() { Reserved? || Carved? || Registered? }

    /** Not yet registered: nobody can be created under it. */
    predicate Unborn() { Reserved? || Carved? }
  }

  /** `normal` agents lock their workspace; a guest locks nothing. */
  datatype Node = Node(sup: Option<AgentId>, ws: Path, mode: Mode, phase: Phase, normal: bool, depth: nat)

  type Nodes = map<AgentId, Node>

  datatype State = State(nodes: Nodes, locks: Locks)

  function Tree(nodes: Nodes): Forest {
    Forest(map id | id in nodes && nodes[id].sup.Some? :: nodes[id].sup.value, map id | id in nodes :: nodes[id].depth)
  }

  predicate Child(nodes: Nodes, c: AgentId, s: AgentId) { c in nodes && nodes[c].sup == Some(s) }

  /** Every supervisor was registered, and stands higher up. */
  ghost predicate Rooted(nodes: Nodes) {
    forall id, s :: Child(nodes, id, s) ==> s in nodes && !nodes[s].phase.Unborn() && nodes[s].depth < nodes[id].depth
  }

  lemma TreeIsValid(nodes: Nodes)
    requires Rooted(nodes)
    ensures Tree(nodes).Valid()
  {
    var f := Tree(nodes);
    forall a | a in f.parent ensures f.DepthOf(f.parent[a]) < f.DepthOf(a) {
      assert Child(nodes, a, f.parent[a]);
    }
  }

  ghost function Superiors(nodes: Nodes, id: AgentId): seq<AgentId>
    requires Rooted(nodes)
  {
    TreeIsValid(nodes);
    Tree(nodes).Chain(id)
  }

  // ------------------------------------------------------------------ operations

  datatype Op =
    | Reserve(id: AgentId, sup: AgentId, ws: Path, mode: Mode, normal: bool)
    | Establish(id: AgentId)
    | Register(id: AgentId)
    | Die(id: AgentId, faulted: bool)
    | Reacquire(id: AgentId, chainKnown: bool)
    | Leave(id: AgentId)      // the slot is dropped: removal, or a creation that failed after its carve
    | HandBack(id: AgentId)
    | LetGo(id: AgentId)

  /** The creation route's checks. */
  ghost predicate Admits(nodes: Nodes, s: AgentId, ws: Path, mode: Mode, normal: bool) {
    && s in nodes && nodes[s].phase == Registered(true) && nodes[s].ws <= ws
    && (mode.FullHandoff? ==>
          ws == nodes[s].ws && normal && forall c :: Child(nodes, c, s) ==> !nodes[c].phase.Slotted())
    && (forall c :: Child(nodes, c, s) && nodes[c].phase.Registered? ==> !nodes[c].mode.FullHandoff?)
  }

  function InPhase(nodes: Nodes, id: AgentId, phase: Phase): Nodes
    requires id in nodes
  { nodes[id := nodes[id].(phase := phase)] }

  /** The workspace moves to the child when the child is a full handoff. */
  function HandedDown(locks: Locks, id: AgentId, n: Node): Locks {
    if n.mode.FullHandoff? && n.sup.Some? then Transferred(locks, n.sup.value, id, n.ws) else locks
  }

  function HandedUp(locks: Locks, id: AgentId, n: Node): Locks {
    if n.mode.FullHandoff? && n.sup.Some? then Transferred(locks, id, n.sup.value, n.ws) else locks
  }

  ghost predicate Establishes(st: State, id: AgentId, st': State)
    requires Rooted(st.nodes) && id in st.nodes
  {
    var n := st.nodes[id];
    var down := HandedDown(st.locks, id, n);
    if !n.normal then st' == State(InPhase(st.nodes, id, Carved), st.locks)
    else
      exists o, locks' ::
        && Acquires(down, id, n.ws, Superiors(st.nodes, id), o, locks')
        && st' == if o.Acquired? || o.AlreadyHeld? then State(InPhase(st.nodes, id, Carved), locks')
                  else State(InPhase(st.nodes, id, Gone), HandedUp(locks', id, n))
  }

  ghost predicate Step(st: State, op: Op, st': State)
    requires Rooted(st.nodes)
  {
    var nodes, locks := st.nodes, st.locks;
    match op
    case Reserve(id, s, ws, mode, normal) =>
      && id !in nodes && Admits(nodes, s, ws, mode, normal)
      && st' == State(nodes[id := Node(Some(s), ws, mode, Reserved, normal, nodes[s].depth + 1)], locks)
    case Establish(id) => id in nodes && nodes[id].phase.Reserved? && Establishes(st, id, st')
    case Register(id) =>
      id in nodes && nodes[id].phase.Carved? && st' == State(InPhase(nodes, id, Registered(true)), locks)
    case Die(id, faulted) =>
      && id in nodes && nodes[id].phase.Registered?
      && st' == State(if faulted then InPhase(nodes, id, Registered(false)) else nodes, ReleasedAll(locks, id))
    case Reacquire(id, known) =>
      && id in nodes && nodes[id].phase == Registered(true) && nodes[id].normal && st'.nodes == nodes
      && (var ws, chain := nodes[id].ws, if known then Superiors(nodes, id) else [];
          exists o :: Acquires(locks, id, ws, chain, o, st'.locks))
    case Leave(id) =>
      && id in nodes && (nodes[id].phase.Carved? || nodes[id].phase.Registered?)
      && (forall c :: Child(nodes, c, id) ==> !nodes[c].phase.Slotted())
      && st' == State(InPhase(nodes, id, Leaving), locks)
    case HandBack(id) =>
      && id in nodes && nodes[id].phase.Leaving?
      && st' == State(InPhase(nodes, id, HandedBack), HandedUp(locks, id, nodes[id]))
    case LetGo(id) =>
      && id in nodes && nodes[id].phase.HandedBack?
      && st' == State(InPhase(nodes, id, Gone), ReleasedAll(locks, id))
  }

  // ------------------------------------------------------------------ what the callers keep

  /** Each agent locks nothing but its own workspace, and nothing before it was carved. */
  ghost predicate Owned(st: State) {
    forall p :: p in st.locks ==>
      var h := st.locks[p];
      h in st.nodes && st.nodes[h].ws == p && !st.nodes[h].phase.Reserved?
  }

  /** A handoff child has its supervisor's whole workspace; an agent in a slot has a registered supervisor. */
  ghost predicate Matching(nodes: Nodes) {
    forall c, s :: Child(nodes, c, s) && s in nodes ==>
      && (nodes[c].mode.FullHandoff? ==> nodes[c].ws == nodes[s].ws)
      && (nodes[c].phase.Slotted() ==> nodes[s].phase.Registered?)
  }

  /** What every step keeps, nested or not. */
  ghost predicate Kept(st: State) { Rooted(st.nodes) && Owned(st) && Matching(st.nodes) }

  /** A lock inside another belongs to someone its holder delegated to. */
  ghost predicate NestedFleet(st: State) {
    Rooted(st.nodes) && (TreeIsValid(st.nodes); Nested(Tree(st.nodes), st.locks))
  }

  /** A handoff takes a workspace in which somebody still holds a lock. */
  ghost predicate HandsOverHeld(st: State, op: Op) {
    op.Establish? && op.id in st.nodes &&
    (var n := st.nodes[op.id];
     && n.normal && n.mode.FullHandoff? && n.sup.Some? && n.ws in st.locks && st.locks[n.ws] == n.sup.value
     && exists q :: q in st.locks && n.ws < q)
  }

  lemma PhaseKeeps(st: State, id: AgentId, phase: Phase, locks: Locks)
    requires Kept(st) && id in st.nodes && Owned(State(InPhase(st.nodes, id, phase), locks))
    requires phase.Unborn() ==> st.nodes[id].phase.Unborn()
    requires phase.Slotted() ==> st.nodes[id].phase.Slotted()
    requires st.nodes[id].phase.Registered? && !phase.Registered? ==>
               forall c :: Child(st.nodes, c, id) ==> !st.nodes[c].phase.Slotted()
    ensures Kept(State(InPhase(st.nodes, id, phase), locks))
  {
    assert forall c, a :: Child(InPhase(st.nodes, id, phase), c, a) <==> Child(st.nodes, c, a);
  }

  /** How an establishment ends, and what it does to the locks. */
  lemma EstablishEnds(st: State, id: AgentId, st': State) returns (o: AcquireOutcome, locks': Locks)
    requires Kept(st) && Step(st, Establish(id), st') && st.nodes[id].normal
    ensures Acquires(HandedDown(st.locks, id, st.nodes[id]), id, st.nodes[id].ws, Superiors(st.nodes, id), o, locks')
    ensures st' == if o.Acquired? || o.AlreadyHeld? then State(InPhase(st.nodes, id, Carved), locks')
                   else State(InPhase(st.nodes, id, Gone), st.locks)
    ensures forall p :: p in locks' ==> (p in st.locks && locks'[p] == st.locks[p]) || (p == st.nodes[id].ws && locks'[p] == id)
    ensures HandedDown(st.locks, id, st.nodes[id]) != st.locks ==>
              o.AlreadyHeld? && locks' == HandedDown(st.locks, id, st.nodes[id])
  {
    var n := st.nodes[id];
    o, locks' :|
      && Acquires(HandedDown(st.locks, id, n), id, n.ws, Superiors(st.nodes, id), o, locks')
      && st' == if o.Acquired? || o.AlreadyHeld? then State(InPhase(st.nodes, id, Carved), locks')
                else State(InPhase(st.nodes, id, Gone), HandedUp(locks', id, n));
  }

  lemma ReserveKeeps(st: State, op: Op, st': State)
    requires Kept(st) && op.Reserve? && Step(st, op, st')
    ensures Kept(st')
  {
    assert forall c, a :: Child(st'.nodes, c, a) <==> Child(st.nodes, c, a) || (c == op.id && a == op.sup);
    assert forall c :: !Child(st.nodes, c, op.id);
  }

  lemma EstablishKeeps(st: State, id: AgentId, st': State)
    requires Kept(st) && Step(st, Establish(id), st')
    ensures Kept(st')
  {
    if st.nodes[id].normal { var o, locks' := EstablishEnds(st, id, st'); }
    PhaseKeeps(st, id, st'.nodes[id].phase, st'.locks);
  }

  lemma StepKeeps(st: State, op: Op, st': State)
    requires Kept(st) && Step(st, op, st')
    ensures Kept(st')
  {
    match op
    case Reserve(_, _, _, _, _) => ReserveKeeps(st, op, st');
    case Establish(id) => EstablishKeeps(st, id, st');
    case Register(id) => PhaseKeeps(st, id, Registered(true), st'.locks);
    case Die(id, faulted) => if faulted { PhaseKeeps(st, id, Registered(false), st'.locks); }
    case Reacquire(id, known) =>
    case Leave(id) => PhaseKeeps(st, id, Leaving, st'.locks);
    case HandBack(id) =>
      if st.nodes[id].sup.Some? { assert Child(st.nodes, id, st.nodes[id].sup.value); }
      PhaseKeeps(st, id, HandedBack, st'.locks);
    case LetGo(id) => PhaseKeeps(st, id, Gone, st'.locks);
  }

  // ------------------------------------------------------------------ chains

  /** `b` has every node of `a`, under the same supervisor. */
  ghost predicate Extends(a: Nodes, b: Nodes) {
    forall id :: id in a ==> id in b && a[id].sup == b[id].sup && a[id].depth == b[id].depth
  }

  lemma {:induction false} SameSuperiors(a: Nodes, b: Nodes, id: AgentId)
    requires Rooted(a) && Rooted(b) && Extends(a, b) && id in a
    ensures Superiors(a, id) == Superiors(b, id)
    decreases a[id].depth
  {
    TreeIsValid(a);
    TreeIsValid(b);
    if a[id].sup.Some? {
      var s := a[id].sup.value;
      assert Child(a, id, s);
      SameSuperiors(a, b, s);
    }
  }

  lemma SameNesting(a: Nodes, b: Nodes, locks: Locks)
    requires Rooted(a) && Rooted(b) && Extends(a, b) && forall p :: p in locks ==> locks[p] in a
    ensures NestedFleet(State(a, locks)) <==> NestedFleet(State(b, locks))
  {
    TreeIsValid(a);
    TreeIsValid(b);
    forall p, q | p in locks && q in locks
      ensures Tree(a).Above(locks[p], locks[q]) <==> Tree(b).Above(locks[p], locks[q])
    {
      SameSuperiors(a, b, locks[q]);
    }
  }

  /** Whoever stands above someone was registered. */
  lemma {:induction false} AboveWasRegistered(nodes: Nodes, a: AgentId, h: AgentId)
    requires Rooted(nodes) && a in Superiors(nodes, h) && h in nodes
    ensures a in nodes && !nodes[a].phase.Unborn()
    decreases nodes[h].depth
  {
    TreeIsValid(nodes);
    var s := nodes[h].sup.value;
    assert Child(nodes, h, s);
    if a != s { AboveWasRegistered(nodes, a, s); }
  }

  // ------------------------------------------------------------------ each operation, exactly

  /** The transfer of a handoff keeps nesting exactly when nobody holds a lock inside the workspace. */
  lemma HandoffDownNests(st: State, id: AgentId)
    requires Kept(st) && NestedFleet(st) && id in st.nodes && st.nodes[id].phase.Reserved? && st.nodes[id].normal
    ensures NestedFleet(State(st.nodes, HandedDown(st.locks, id, st.nodes[id]))) <==> !HandsOverHeld(st, Establish(id))
    ensures HandsOverHeld(st, Establish(id)) ==> HandedDown(st.locks, id, st.nodes[id]) != st.locks
  {
    TreeIsValid(st.nodes);
    var f, n, locks := Tree(st.nodes), st.nodes[id], st.locks;
    if n.mode.FullHandoff? && n.sup.Some? && n.ws in locks && locks[n.ws] == n.sup.value {
      HandoffDownExactly(f, locks, id, n.ws);
      forall q | q in locks ensures !f.Above(id, locks[q]) {
        if f.Above(id, locks[q]) { AboveWasRegistered(st.nodes, id, locks[q]); }
      }
      assert Child(st.nodes, id, n.sup.value);
      assert HandedDown(locks, id, n)[n.ws] == id;
    }
  }

  lemma EstablishNests(st: State, id: AgentId, st': State)
    requires Kept(st) && Kept(st') && NestedFleet(st) && Step(st, Establish(id), st')
    ensures NestedFleet(st') <==> !HandsOverHeld(st, Establish(id))
  {
    TreeIsValid(st.nodes);
    var n := st.nodes[id];
    SameNesting(st.nodes, st'.nodes, st'.locks);
    if n.normal {
      var o, locks' := EstablishEnds(st, id, st');
      HandoffDownNests(st, id);
      if !HandsOverHeld(st, Establish(id)) {
        AcquireKeepsNesting(Tree(st.nodes), HandedDown(st.locks, id, n), id, n.ws, Superiors(st.nodes, id), o, locks');
      }
    }
  }

  /** The workspace handed back stays nested: the supervisor locks nothing around it. */
  lemma HandBackNests(st: State, id: AgentId)
    requires Kept(st) && NestedFleet(st) && id in st.nodes
    ensures NestedFleet(State(st.nodes, HandedUp(st.locks, id, st.nodes[id])))
  {
    TreeIsValid(st.nodes);
    var n := st.nodes[id];
    if n.mode.FullHandoff? && n.sup.Some? && n.ws in st.locks && st.locks[n.ws] == id {
      assert Child(st.nodes, id, n.sup.value);
      HandoffUpExactly(Tree(st.nodes), st.locks, id, n.ws);
    }
  }

  /** A step from a nested fleet leaves it nested exactly when it hands over no workspace with a lock inside. */
  lemma StepNests(st: State, op: Op, st': State)
    requires Kept(st) && NestedFleet(st) && Step(st, op, st')
    ensures Kept(st') && (NestedFleet(st') <==> !HandsOverHeld(st, op))
  {
    StepKeeps(st, op, st');
    TreeIsValid(st.nodes);
    var f := Tree(st.nodes);
    match op
    case Establish(id) => EstablishNests(st, id, st');
    case Reserve(_, _, _, _, _) => SameNesting(st.nodes, st'.nodes, st.locks);
    case Register(_) | Leave(_) => SameNesting(st.nodes, st'.nodes, st.locks);
    case Die(id, _) =>
      ReleaseKeepsNesting(f, st.locks, id, []);
      SameNesting(st.nodes, st'.nodes, st'.locks);
    case LetGo(id) =>
      ReleaseKeepsNesting(f, st.locks, id, []);
      SameNesting(st.nodes, st'.nodes, st'.locks);
    case HandBack(id) =>
      HandBackNests(st, id);
      if st.nodes[id].sup.Some? { assert Child(st.nodes, id, st.nodes[id].sup.value); }
      SameNesting(st.nodes, st'.nodes, st'.locks);
    case Reacquire(id, known) =>
      var chain := if known then f.Chain(id) else [];
      var o :| Acquires(st.locks, id, st.nodes[id].ws, chain, o, st'.locks);
      AcquireKeepsNesting(f, st.locks, id, st.nodes[id].ws, chain, o, st'.locks);
  }

  // ------------------------------------------------------------------ every run of the callers

  /** A fleet starts with its root, which holds nothing yet. */
  ghost predicate Initial(st: State) {
    exists root, ws, normal ::
      st == State(map[root := Node(None, ws, CarveOut, Registered(true), normal, 0)], map[])
  }

  ghost predicate StepsTo(st: State, op: Op, st': State) { Rooted(st.nodes) && Step(st, op, st') }

  ghost predicate Run(states: seq<State>, ops: seq<Op>) {
    && |states| == |ops| + 1 && Initial(states[0])
    && forall i :: 0 <= i < |ops| ==> StepsTo(states[i], ops[i], states[i + 1])
  }

  lemma InitialKept(st: State)
    requires Initial(st)
    ensures Kept(st) && NestedFleet(st) && NotStranded(st)
  {
    assert forall c, a :: !Child(st.nodes, c, a);
  }

  lemma {:induction false} RunKeeps(states: seq<State>, ops: seq<Op>, n: nat)
    requires Run(states, ops) && n < |states|
    ensures Kept(states[n])
  {
    if n == 0 {
      InitialKept(states[0]);
    } else {
      RunKeeps(states, ops, n - 1);
      assert StepsTo(states[n - 1], ops[n - 1], states[n]);
      StepKeeps(states[n - 1], ops[n - 1], states[n]);
    }
  }

  /**
   Every run of creations, handoffs, deaths, reactivations and removals, however their steps interleave: all its
   states are nested if and only if none of its handoffs takes a workspace in which somebody still holds a lock.
   */
  lemma {:induction false} NestedExactly(states: seq<State>, ops: seq<Op>, n: nat)
    requires Run(states, ops) && n < |states|
    ensures (forall i :: 0 <= i <= n ==> NestedFleet(states[i])) <==> forall i :: 0 <= i < n ==> !HandsOverHeld(states[i], ops[i])
  {
    hide NestedFleet, HandsOverHeld, Kept;
    if n == 0 {
      InitialKept(states[0]);
    } else {
      NestedExactly(states, ops, n - 1);
      RunKeeps(states, ops, n - 1);
      assert StepsTo(states[n - 1], ops[n - 1], states[n]);
      if NestedFleet(states[n - 1]) { StepNests(states[n - 1], ops[n - 1], states[n]); }
    }
  }

  /** What that means for two locks: the inner one's holder is a delegate of the outer one's, and nobody holds two. */
  lemma FleetsStayNested(states: seq<State>, ops: seq<Op>, n: nat, p: Path, q: Path)
    requires Run(states, ops) && n < |states| && forall i :: 0 <= i < n ==> !HandsOverHeld(states[i], ops[i])
    requires p in states[n].locks && q in states[n].locks
    ensures
      var a, b := states[n].locks[p], states[n].locks[q];
      && b in states[n].nodes && states[n].nodes[b].ws == q
      && (p < q ==> Rooted(states[n].nodes) && a in Superiors(states[n].nodes, b))
      && (a == b ==> p == q)
  {
    NestedExactly(states, ops, n);
    RunKeeps(states, ops, n);
    assert NestedFleet(states[n]);
  }

  // ------------------------------------------------------------------ locks nobody will release

  /** No lock is left with an agent that has let go of everything. */
  ghost predicate NotStranded(st: State) {
    forall p :: p in st.locks && st.locks[p] in st.nodes ==> !st.nodes[st.locks[p]].phase.Gone?
  }

  /** A handoff's workspace goes back to a supervisor that has already let go of everything. */
  ghost predicate HandsBackToGone(st: State, op: Op) {
    op.HandBack? && op.id in st.nodes &&
    (var n := st.nodes[op.id];
     && n.mode.FullHandoff? && n.sup.Some? && n.ws in st.locks && st.locks[n.ws] == op.id
     && n.sup.value in st.nodes && st.nodes[n.sup.value].phase.Gone?)
  }

  lemma StepStrands(st: State, op: Op, st': State)
    requires Kept(st) && NotStranded(st) && Step(st, op, st')
    ensures NotStranded(st') <==> !HandsBackToGone(st, op)
  {
    match op
    case Establish(id) => if st.nodes[id].normal { var o, locks' := EstablishEnds(st, id, st'); }
    case HandBack(id) =>
      var n := st.nodes[id];
      if n.mode.FullHandoff? && n.sup.Some? && n.ws in st.locks && st.locks[n.ws] == id {
        assert Child(st.nodes, id, n.sup.value);
        assert st'.locks[n.ws] == n.sup.value;
      }
    case _ =>
  }

  /** All states of a run are free of stranded locks if and only if no handoff is handed back to a supervisor already gone. */
  lemma {:induction false} StrandedExactly(states: seq<State>, ops: seq<Op>, n: nat)
    requires Run(states, ops) && n < |states|
    ensures (forall i :: 0 <= i <= n ==> NotStranded(states[i])) <==> forall i :: 0 <= i < n ==> !HandsBackToGone(states[i], ops[i])
  {
    hide NotStranded, HandsBackToGone, Kept;
    if n == 0 {
      InitialKept(states[0]);
    } else {
      StrandedExactly(states, ops, n - 1);
      RunKeeps(states, ops, n - 1);
      assert StepsTo(states[n - 1], ops[n - 1], states[n]);
      if NotStranded(states[n - 1]) { StepStrands(states[n - 1], ops[n - 1], states[n]); }
    }
  }

  /** A stranded lock stays: no later step of anybody's takes it from an agent that is gone. */
  lemma {:induction false} StrandedForGood(states: seq<State>, ops: seq<Op>, m: nat, n: nat, p: Path)
    requires Run(states, ops) && m <= n < |states|
    requires p in states[m].locks && states[m].locks[p] in states[m].nodes
    requires states[m].nodes[states[m].locks[p]].phase.Gone?
    ensures p in states[n].locks && states[n].locks[p] == states[m].locks[p]
    ensures states[n].locks[p] in states[n].nodes && states[n].nodes[states[n].locks[p]].phase.Gone?
  {
    hide Kept, Step, Initial;
    if m < n {
      StrandedForGood(states, ops, m, n - 1, p);
      RunKeeps(states, ops, n - 1);
      assert StepsTo(states[n - 1], ops[n - 1], states[n]);
      StrandedStays(states[n - 1], ops[n - 1], states[n], p);
    }
  }

  lemma StrandedStays(st: State, op: Op, st': State, p: Path)
    requires Kept(st) && Step(st, op, st') && p in st.locks && st.locks[p] in st.nodes
    requires st.nodes[st.locks[p]].phase.Gone?
    ensures p in st'.locks && st'.locks[p] == st.locks[p]
    ensures st'.locks[p] in st'.nodes && st'.nodes[st'.locks[p]].phase.Gone?
  {
    match op
    case Establish(id) =>
      if st.nodes[id].sup.Some? { assert Child(st.nodes, id, st.nodes[id].sup.value); }
      if st.nodes[id].normal { var o, locks' := EstablishEnds(st, id, st'); }
    case _ =>
  }

  // ------------------------------------------------------------------ faulted agents

  /** An agent whose task faulted holds no lock. */
  ghost predicate FaultedHoldNothing(st: State) {
    forall p :: p in st.locks && st.locks[p] in st.nodes ==> st.nodes[st.locks[p]].phase != Registered(false)
  }

  /** A handoff's workspace goes back to a supervisor whose task has faulted. */
  ghost predicate HandsBackToFaulted(st: State, op: Op) {
    op.HandBack? && op.id in st.nodes &&
    (var n := st.nodes[op.id];
     && n.mode.FullHandoff? && n.sup.Some? && n.ws in st.locks && st.locks[n.ws] == op.id
     && n.sup.value in st.nodes && st.nodes[n.sup.value].phase == Registered(false))
  }

  lemma StepFaults(st: State, op: Op, st': State)
    requires Kept(st) && FaultedHoldNothing(st) && Step(st, op, st')
    ensures FaultedHoldNothing(st') <==> !HandsBackToFaulted(st, op)
  {
    match op
    case Establish(id) => if st.nodes[id].normal { var o, locks' := EstablishEnds(st, id, st'); }
    case HandBack(id) =>
      var n := st.nodes[id];
      if n.mode.FullHandoff? && n.sup.Some? && n.ws in st.locks && st.locks[n.ws] == id {
        assert Child(st.nodes, id, n.sup.value);
        assert st'.locks[n.ws] == n.sup.value;
      }
    case _ =>
  }

  /** A fault lets go of everything: in all states of a run no faulted agent holds a lock, if and only if no handoff is handed back to one. */
  lemma {:induction false} FaultedExactly(states: seq<State>, ops: seq<Op>, n: nat)
    requires Run(states, ops) && n < |states|
    ensures (forall i :: 0 <= i <= n ==> FaultedHoldNothing(states[i])) <==>
            forall i :: 0 <= i < n ==> !HandsBackToFaulted(states[i], ops[i])
  {
    hide FaultedHoldNothing, HandsBackToFaulted, Kept;
    if n == 0 {
      InitialFaultless(states[0]);
    } else {
      FaultedExactly(states, ops, n - 1);
      RunKeeps(states, ops, n - 1);
      assert StepsTo(states[n - 1], ops[n - 1], states[n]);
      if FaultedHoldNothing(states[n - 1]) { StepFaults(states[n - 1], ops[n - 1], states[n]); }
    }
  }

  lemma InitialFaultless(st: State)
    requires Initial(st)
    ensures FaultedHoldNothing(st)
  {}
}
