/**
 Runs of the callers' own checks that reach what `Fleet` says they can: a sibling's lock inside a
 handoff's, by either of two windows, and a workspace left with an agent that is gone or has faulted.
 */
module FleetRuns {
  import opened Paths
  import opened Delegation
  import opened LockRules
  import opened Wrappers
  import opened Fleet

  ghost predicate Reached(st: State) { exists states, ops :: Run(states, ops) && states[|ops|] == st }

  lemma ReachedFirst(st: State)
    requires Initial(st)
    ensures Reached(st)
  {
    assert Run([st], []);
  }

  lemma ReachedNext(st: State, op: Op, st': State)
    requires Reached(st) && StepsTo(st, op, st')
    ensures Reached(st')
  {
    hide StepsTo, Initial;
    var states, ops :| Run(states, ops) && states[|ops|] == st;
    var states', ops' := states + [st'], ops + [op];
    forall i | 0 <= i < |ops'| ensures StepsTo(states'[i], ops'[i], states'[i + 1]) {
      if i < |ops| { assert StepsTo(states[i], ops[i], states[i + 1]); }
    }
    assert Run(states', ops');
  }

  // ------------------------------------------------------------------ a root with two children at most

  const W: Path := ["w"]
  const SUB: Path := ["w", "s"]

  function Root(): Node { Node(None, W, CarveOut, Registered(true), true, 0) }

  /** A handoff of the root's whole workspace, and a carve-out from it. */
  function Handoff(phase: Phase): Node { Node(Some(0), W, FullHandoff, phase, true, 1) }

  function Carve(phase: Phase): Node { Node(Some(0), SUB, CarveOut, phase, true, 1) }

  /** The root with some of: its handoff, as agent 1, and its carve-out, as agent 2. */
  predicate Pair(nodes: Nodes) {
    && nodes.Keys <= {0, 1, 2} && 0 in nodes && nodes[0] == Root()
    && (1 in nodes ==> nodes[1] == Handoff(nodes[1].phase))
    && (2 in nodes ==> nodes[2] == Carve(nodes[2].phase))
  }

  lemma PairIsRooted(nodes: Nodes)
    requires Pair(nodes)
    ensures Rooted(nodes) && (forall id, s :: Child(nodes, id, s) ==> s == 0)
    ensures Superiors(nodes, 0) == [] && (forall id :: id in nodes && id != 0 ==> Superiors(nodes, id) == [0])
  {
    forall id, s | Child(nodes, id, s) ensures s == 0 && id in {1, 2} { assert id in {0, 1, 2}; }
    TreeIsValid(nodes);
    assert Tree(nodes).Chain(0) == [];
    forall id | id in nodes && id != 0 ensures Superiors(nodes, id) == [0] { assert id in {0, 1, 2}; }
  }

  lemma RootLocks(nodes: Nodes)
    requires nodes == map[0 := Root()]
    ensures Reached(State(nodes, map[W := 0]))
  {
    var locks: Locks := map[];
    PairIsRooted(nodes);
    assert Overlap(locks, W, 0, [], Free);
    assert LockRules.Held(locks, 0) == {};
    assert Acquires(locks, 0, W, [], Acquired, map[W := 0]);
    assert Initial(State(nodes, locks));
    ReachedFirst(State(nodes, locks));
    hide Reached, Superiors, Rooted, Acquires;
    ReachedNext(State(nodes, locks), Reacquire(0, true), State(nodes, map[W := 0]));
  }

  /** The carve-out locks its part under the root's lock. */
  lemma CarveLocks(nodes: Nodes)
    requires Pair(nodes) && 2 in nodes && nodes[2].phase.Reserved?
    ensures StepsTo(State(nodes, map[W := 0]), Establish(2), State(InPhase(nodes, 2, Carved), map[W := 0, SUB := 2]))
  {
    PairIsRooted(nodes);
    var locks: Locks := map[W := 0];
    assert W < SUB;
    forall p ensures !BlocksFromAbove(locks, p, SUB, 2, [0]) && !BlocksFromBelow(locks, p, SUB) {}
    assert Overlap(locks, SUB, 2, [0], Free);
    assert LockRules.Held(locks, 2) == {};
    assert locks[SUB := 2] == map[W := 0, SUB := 2];
    assert Acquires(locks, 2, SUB, [0], Acquired, map[W := 0, SUB := 2]);
    hide Acquires, Superiors, Rooted;
    assert HandedDown(locks, 2, nodes[2]) == locks;
  }

  /** The handoff takes the workspace around the carve-out's lock. */
  lemma HandoffLocks(nodes: Nodes)
    requires Pair(nodes) && 1 in nodes && nodes[1].phase.Reserved?
    ensures StepsTo(State(nodes, map[W := 0, SUB := 2]), Establish(1), State(InPhase(nodes, 1, Carved), map[W := 1, SUB := 2]))
  {
    PairIsRooted(nodes);
    var locks: Locks := map[W := 0, SUB := 2];
    var down: Locks := map[W := 1, SUB := 2];
    assert W != SUB && locks[W := 1] == down;
    assert HandedDown(locks, 1, nodes[1]) == down;
    assert Acquires(down, 1, W, [0], AlreadyHeld, down);
    hide Acquires, Superiors, Rooted;
  }

  lemma PeersAreNotNested(nodes: Nodes)
    requires Pair(nodes) && 1 in nodes && 2 in nodes
    ensures !NestedFleet(State(nodes, map[W := 1, SUB := 2]))
  {
    PairIsRooted(nodes);
    TreeIsValid(nodes);
    var locks: Locks := map[W := 1, SUB := 2];
    assert W < SUB;
    assert !Tree(nodes).Above(locks[W], locks[SUB]);
  }

  // ------------------------------------------------------------------ the slot the check does not read

  lemma ReserveHandoff(nodes: Nodes, locks: Locks)
    requires Pair(nodes) && 1 !in nodes && (2 in nodes ==> !nodes[2].phase.Slotted())
    ensures StepsTo(State(nodes, locks), Reserve(1, 0, W, FullHandoff, true), State(nodes[1 := Handoff(Reserved)], locks))
  {
    PairIsRooted(nodes);
    assert forall c :: Child(nodes, c, 0) ==> c == 2;
  }

  /** The check lets a carve-out by, since the handoff's slot is not registered yet. */
  lemma ReserveCarve(nodes: Nodes, locks: Locks)
    requires Pair(nodes) && 2 !in nodes && (1 in nodes ==> !nodes[1].phase.Registered?)
    ensures StepsTo(State(nodes, locks), Reserve(2, 0, SUB, CarveOut, true), State(nodes[2 := Carve(Reserved)], locks))
  {
    PairIsRooted(nodes);
    assert W <= SUB;
    assert forall c :: Child(nodes, c, 0) ==> c == 1;
  }

  /** A carve-out reserved past a handoff's slot, and quicker than it, ends up with its lock inside its sibling's. */
  lemma RaceBreaksNesting()
    ensures exists st :: Reached(st) && !NestedFleet(st)
  {
    var n0: Nodes, l: Locks, l2: Locks := map[0 := Root()], map[W := 0], map[W := 0, SUB := 2];
    RootLocks(n0);
    hide Reached, NestedFleet, StepsTo;
    ReserveHandoff(n0, l);
    var n1 := n0[1 := Handoff(Reserved)];
    ReachedNext(State(n0, l), Reserve(1, 0, W, FullHandoff, true), State(n1, l));
    ReserveCarve(n1, l);
    var n2 := n1[2 := Carve(Reserved)];
    ReachedNext(State(n1, l), Reserve(2, 0, SUB, CarveOut, true), State(n2, l));
    CarveLocks(n2);
    var n3 := InPhase(n2, 2, Carved);
    ReachedNext(State(n2, l), Establish(2), State(n3, l2));
    HandoffLocks(n3);
    var n4 := InPhase(n3, 1, Carved);
    ReachedNext(State(n3, l2), Establish(1), State(n4, map[W := 1, SUB := 2]));
    PeersAreNotNested(n4);
  }

  // ------------------------------------------------------------------ the lock the check does not see

  lemma Registers(st: State, id: AgentId)
    requires Rooted(st.nodes) && id in st.nodes && st.nodes[id].phase.Carved?
    ensures StepsTo(st, Register(id), State(InPhase(st.nodes, id, Registered(true)), st.locks))
  {}

  lemma Leaves(st: State, id: AgentId)
    requires Rooted(st.nodes) && id in st.nodes && st.nodes[id].phase.Registered?
    requires forall c :: Child(st.nodes, c, id) ==> !st.nodes[c].phase.Slotted()
    ensures StepsTo(st, Leave(id), State(InPhase(st.nodes, id, Leaving), st.locks))
  {}

  lemma CarveStands()
    ensures Reached(State(map[0 := Root(), 2 := Carve(Carved)], map[W := 0, SUB := 2]))
  {
    var n0: Nodes, l: Locks, l2: Locks := map[0 := Root()], map[W := 0], map[W := 0, SUB := 2];
    var n1: Nodes, n2: Nodes := map[0 := Root(), 2 := Carve(Reserved)], map[0 := Root(), 2 := Carve(Carved)];
    RootLocks(n0);
    hide Reached, StepsTo;
    ReserveCarve(n0, l);
    assert n0[2 := Carve(Reserved)] == n1;
    ReachedNext(State(n0, l), Reserve(2, 0, SUB, CarveOut, true), State(n1, l));
    CarveLocks(n1);
    assert InPhase(n1, 2, Carved) == n2;
    ReachedNext(State(n1, l), Establish(2), State(n2, l2));
  }

  lemma CarveLeft()
    ensures Reached(State(map[0 := Root(), 2 := Carve(Leaving)], map[W := 0, SUB := 2]))
  {
    var l: Locks := map[W := 0, SUB := 2];
    var n0: Nodes, n1: Nodes := map[0 := Root(), 2 := Carve(Carved)], map[0 := Root(), 2 := Carve(Registered(true))];
    var n2: Nodes := map[0 := Root(), 2 := Carve(Leaving)];
    CarveStands();
    hide Reached, StepsTo;
    PairIsRooted(n0);
    PairIsRooted(n1);
    hide Rooted;
    Registers(State(n0, l), 2);
    assert InPhase(n0, 2, Registered(true)) == n1;
    ReachedNext(State(n0, l), Register(2), State(n1, l));
    Leaves(State(n1, l), 2);
    assert InPhase(n1, 2, Leaving) == n2;
    ReachedNext(State(n1, l), Leave(2), State(n2, l));
  }

  /** A sibling that left the registry and still holds its lock leaves an empty slot list, and the same end. */
  lemma RemovalBreaksNesting()
    ensures exists st :: Reached(st) && !NestedFleet(st)
  {
    var n0: Nodes, l: Locks := map[0 := Root(), 2 := Carve(Leaving)], map[W := 0, SUB := 2];
    CarveLeft();
    hide Reached, NestedFleet, StepsTo;
    ReserveHandoff(n0, l);
    var n1 := n0[1 := Handoff(Reserved)];
    ReachedNext(State(n0, l), Reserve(1, 0, W, FullHandoff, true), State(n1, l));
    HandoffLocks(n1);
    var n2 := InPhase(n1, 1, Carved);
    ReachedNext(State(n1, l), Establish(1), State(n2, map[W := 1, SUB := 2]));
    PeersAreNotNested(n2);
  }

  // ------------------------------------------------------------------ a workspace left behind

  /** Agent 1 under the root on a workspace of its own, and agent 2 its handoff. */
  function Middle(phase: Phase): Node { Node(Some(0), SUB, CarveOut, phase, true, 1) }

  function Heir(phase: Phase): Node { Node(Some(1), SUB, FullHandoff, phase, true, 2) }

  /** The root, the middle agent and its heir, the middle agent registered once it has one. */
  predicate Line(nodes: Nodes) {
    && nodes.Keys <= {0, 1, 2} && 0 in nodes && nodes[0] == Root()
    && (1 in nodes ==> nodes[1] == Middle(nodes[1].phase))
    && (2 in nodes ==> nodes[2] == Heir(nodes[2].phase) && 1 in nodes && !nodes[1].phase.Unborn())
  }

  lemma LineIsRooted(nodes: Nodes)
    requires Line(nodes)
    ensures Rooted(nodes) && (forall id, s :: Child(nodes, id, s) ==> (id == 1 && s == 0) || (id == 2 && s == 1))
    ensures 1 in nodes ==> Superiors(nodes, 1) == [0]
  {
    forall id, s | Child(nodes, id, s) ensures (id == 1 && s == 0) || (id == 2 && s == 1) { assert id in {0, 1, 2}; }
    TreeIsValid(nodes);
    assert Tree(nodes).Chain(0) == [];
  }

  /** The middle agent is created and registered, holding its workspace. */
  lemma MiddleStands()
    ensures Reached(State(map[0 := Root(), 1 := Middle(Registered(true))], map[SUB := 1]))
  {
    var n0: Nodes, none: Locks, l: Locks := map[0 := Root()], map[], map[SUB := 1];
    assert Initial(State(n0, none));
    ReachedFirst(State(n0, none));
    hide Reached;
    var n1, n2 := n0[1 := Middle(Reserved)], n0[1 := Middle(Carved)];
    LineIsRooted(n0);
    assert W <= SUB;
    ReachedNext(State(n0, none), Reserve(1, 0, SUB, CarveOut, true), State(n1, none));
    LineIsRooted(n1);
    MiddleLocks(n1);
    assert InPhase(n1, 1, Carved) == n2;
    ReachedNext(State(n1, none), Establish(1), State(n2, l));
    LineIsRooted(n2);
    Registers(State(n2, l), 1);
    assert InPhase(n2, 1, Registered(true)) == map[0 := Root(), 1 := Middle(Registered(true))];
    ReachedNext(State(n2, l), Register(1), State(map[0 := Root(), 1 := Middle(Registered(true))], l));
  }

  lemma MiddleLocks(nodes: Nodes)
    requires nodes == map[0 := Root(), 1 := Middle(Reserved)]
    ensures StepsTo(State(nodes, map[]), Establish(1), State(InPhase(nodes, 1, Carved), map[SUB := 1]))
  {
    LineIsRooted(nodes);
    var locks: Locks := map[];
    assert Overlap(locks, SUB, 1, [0], Free);
    assert LockRules.Held(locks, 1) == {};
    assert Acquires(locks, 1, SUB, [0], Acquired, map[SUB := 1]);
    hide Acquires, Superiors, Rooted;
    assert HandedDown(locks, 1, nodes[1]) == locks;
  }

  /** Its heir is created and registered, holding the workspace in its stead. */
  lemma HeirStands()
    ensures Reached(State(map[0 := Root(), 1 := Middle(Registered(true)), 2 := Heir(Registered(true))], map[SUB := 2]))
  {
    var n0: Nodes, l: Locks, l2: Locks := map[0 := Root(), 1 := Middle(Registered(true))], map[SUB := 1], map[SUB := 2];
    MiddleStands();
    hide Reached;
    var n1, n2 := n0[2 := Heir(Reserved)], n0[2 := Heir(Carved)];
    LineIsRooted(n0);
    ReachedNext(State(n0, l), Reserve(2, 1, SUB, FullHandoff, true), State(n1, l));
    HeirLocks(n1);
    assert InPhase(n1, 2, Carved) == n2;
    ReachedNext(State(n1, l), Establish(2), State(n2, l2));
    LineIsRooted(n2);
    Registers(State(n2, l2), 2);
    var n3: Nodes := map[0 := Root(), 1 := Middle(Registered(true)), 2 := Heir(Registered(true))];
    assert InPhase(n2, 2, Registered(true)) == n3;
    ReachedNext(State(n2, l2), Register(2), State(n3, l2));
  }

  lemma HeirLocks(nodes: Nodes)
    requires Line(nodes) && 2 in nodes && nodes[2].phase.Reserved?
    ensures StepsTo(State(nodes, map[SUB := 1]), Establish(2), State(InPhase(nodes, 2, Carved), map[SUB := 2]))
  {
    LineIsRooted(nodes);
    var locks: Locks, down: Locks := map[SUB := 1], map[SUB := 2];
    assert locks[SUB := 2] == down;
    assert HandedDown(locks, 2, nodes[2]) == down;
    assert Acquires(down, 2, SUB, Superiors(nodes, 2), AlreadyHeld, down);
    hide Acquires, Superiors, Rooted;
  }

  lemma HandsBack(st: State, id: AgentId)
    requires Rooted(st.nodes) && id in st.nodes && st.nodes[id].phase.Leaving?
    ensures StepsTo(st, HandBack(id), State(InPhase(st.nodes, id, HandedBack), HandedUp(st.locks, id, st.nodes[id])))
  {}

  lemma LetsGo(st: State, id: AgentId)
    requires Rooted(st.nodes) && id in st.nodes && st.nodes[id].phase.HandedBack?
    ensures StepsTo(st, LetGo(id), State(InPhase(st.nodes, id, Gone), ReleasedAll(st.locks, id)))
  {}

  /** Both leave the registry, the heir first. */
  lemma BothLeave()
    ensures Reached(State(map[0 := Root(), 1 := Middle(Leaving), 2 := Heir(Leaving)], map[SUB := 2]))
  {
    var l: Locks := map[SUB := 2];
    var n0: Nodes := map[0 := Root(), 1 := Middle(Registered(true)), 2 := Heir(Registered(true))];
    var n1: Nodes := map[0 := Root(), 1 := Middle(Registered(true)), 2 := Heir(Leaving)];
    var n2: Nodes := map[0 := Root(), 1 := Middle(Leaving), 2 := Heir(Leaving)];
    HeirStands();
    hide Reached, StepsTo;
    LineIsRooted(n0);
    LineIsRooted(n1);
    hide Rooted;
    Leaves(State(n0, l), 2);
    assert InPhase(n0, 2, Leaving) == n1;
    ReachedNext(State(n0, l), Leave(2), State(n1, l));
    Leaves(State(n1, l), 1);
    assert InPhase(n1, 1, Leaving) == n2;
    ReachedNext(State(n1, l), Leave(1), State(n2, l));
  }

  /** The middle agent is done before the heir hands the workspace back to it. */
  lemma MiddleGoesFirst()
    ensures Reached(State(map[0 := Root(), 1 := Middle(Gone), 2 := Heir(Leaving)], map[SUB := 2]))
  {
    var l: Locks := map[SUB := 2];
    var n0: Nodes := map[0 := Root(), 1 := Middle(Leaving), 2 := Heir(Leaving)];
    var n1: Nodes := map[0 := Root(), 1 := Middle(HandedBack), 2 := Heir(Leaving)];
    var n2: Nodes := map[0 := Root(), 1 := Middle(Gone), 2 := Heir(Leaving)];
    BothLeave();
    hide Reached, StepsTo;
    LineIsRooted(n0);
    LineIsRooted(n1);
    hide Rooted;
    HandsBack(State(n0, l), 1);
    assert HandedUp(l, 1, n0[1]) == l && InPhase(n0, 1, HandedBack) == n1;
    ReachedNext(State(n0, l), HandBack(1), State(n1, l));
    LetsGo(State(n1, l), 1);
    assert ReleasedAll(l, 1) == l && InPhase(n1, 1, Gone) == n2;
    ReachedNext(State(n1, l), LetGo(1), State(n2, l));
  }

  /** The workspace of a supervisor removed while its handoff child is being torn down is locked by nobody that is left. */
  lemma RemovalStrandsALock()
    ensures exists st :: Reached(st) && !NotStranded(st)
  {
    var l: Locks, l1: Locks := map[SUB := 2], map[SUB := 1];
    var n0: Nodes := map[0 := Root(), 1 := Middle(Gone), 2 := Heir(Leaving)];
    MiddleGoesFirst();
    hide Reached, StepsTo, Rooted;
    LineIsRooted(n0);
    HandsBack(State(n0, l), 2);
    assert l[SUB := 1] == l1 && HandedUp(l, 2, n0[2]) == l1;
    var st := State(InPhase(n0, 2, HandedBack), l1);
    ReachedNext(State(n0, l), HandBack(2), st);
    assert l1[SUB] == 1 && st.nodes[1].phase.Gone?;
  }

  /** The supervisor's task faults while its heir holds the workspace. */
  lemma MiddleFaults()
    ensures Reached(State(map[0 := Root(), 1 := Middle(Registered(false)), 2 := Heir(Registered(true))], map[SUB := 2]))
  {
    var l: Locks := map[SUB := 2];
    var n0: Nodes := map[0 := Root(), 1 := Middle(Registered(true)), 2 := Heir(Registered(true))];
    var n1: Nodes := map[0 := Root(), 1 := Middle(Registered(false)), 2 := Heir(Registered(true))];
    HeirStands();
    hide Reached, StepsTo;
    LineIsRooted(n0);
    hide Rooted;
    Faults(State(n0, l), 1);
    assert ReleasedAll(l, 1) == l && InPhase(n0, 1, Registered(false)) == n1;
    ReachedNext(State(n0, l), Die(1, true), State(n1, l));
  }

  lemma Faults(st: State, id: AgentId)
    requires Rooted(st.nodes) && id in st.nodes && st.nodes[id].phase.Registered?
    ensures StepsTo(st, Die(id, true), State(InPhase(st.nodes, id, Registered(false)), ReleasedAll(st.locks, id)))
  {}

  /** Removing the heir then hands the workspace to the faulted supervisor. */
  lemma RemovalLocksAFaultedAgent()
    ensures exists st :: Reached(st) && !FaultedHoldNothing(st)
  {
    var l: Locks, l1: Locks := map[SUB := 2], map[SUB := 1];
    var n0: Nodes := map[0 := Root(), 1 := Middle(Registered(false)), 2 := Heir(Registered(true))];
    var n1: Nodes := map[0 := Root(), 1 := Middle(Registered(false)), 2 := Heir(Leaving)];
    MiddleFaults();
    hide Reached, StepsTo;
    LineIsRooted(n0);
    LineIsRooted(n1);
    hide Rooted;
    Leaves(State(n0, l), 2);
    assert InPhase(n0, 2, Leaving) == n1;
    ReachedNext(State(n0, l), Leave(2), State(n1, l));
    HandsBack(State(n1, l), 2);
    assert l[SUB := 1] == l1 && HandedUp(l, 2, n1[2]) == l1;
    var st := State(InPhase(n1, 2, HandedBack), l1);
    ReachedNext(State(n1, l), HandBack(2), st);
    assert l1[SUB] == 1 && st.nodes[1].phase == Registered(false);
  }
}
