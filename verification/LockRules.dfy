/**
 What the directory locks mean: the locked paths and their writers as a plain map, the
 conflict rule as a relation, and the invariants of every lock state.
 */
module LockRules {
  import opened Paths
  import opened Delegation

  /** Per-agent cap on held write-locks. */
  const MAX_LOCKS_PER_AGENT := 8

  type Locks = map<Path, AgentId>

  /** What blocks a new lock: nothing, an own overlapping lock, or another agent's. */
  datatype Conflict = Free | OwnOverlap(conflict: Path) | Other(holder: AgentId, conflict: Path)

  datatype AcquireOutcome =
    | Acquired
    | AlreadyHeld
    | Busy(holder: AgentId, conflict: Path)
    | SelfOverlap(conflict: Path)
    | CapReached

  datatype ProbeOutcome = Clear | WouldBlock(holder: AgentId, conflict: Path) | ProbeSelfOverlap(conflict: Path)

  /** A lock above `canon` that does not delegate to `agent`. */
  predicate BlocksFromAbove(locks: Locks, p: Path, canon: Path, agent: AgentId, chain: seq<AgentId>) {
    p in locks && p < canon && (locks[p] == agent || locks[p] !in chain)
  }

  predicate BlocksFromBelow(locks: Locks, p: Path, canon: Path) { p in locks && canon < p }

  /** The conflict at `p`, worded by who holds it. */
  function ConflictAt(locks: Locks, p: Path, agent: AgentId): Conflict
    requires p in locks
  {
    if locks[p] == agent then OwnOverlap(p) else Other(locks[p], p)
  }

  /**
   The conflict rule: the nearest blocking lock above decides; failing one, the first lock
   below in path order; failing both, the path is free.
   */
  ghost predicate Overlap(locks: Locks, canon: Path, agent: AgentId, chain: seq<AgentId>, r: Conflict) {
    match r
    case Free =>
      && (forall p :: !BlocksFromAbove(locks, p, canon, agent, chain))
      && (forall p :: !BlocksFromBelow(locks, p, canon))
    case OwnOverlap(p) => p in locks && r == ConflictAt(locks, p, agent) && Decides(locks, p, canon, agent, chain)
    case Other(_, p) => p in locks && r == ConflictAt(locks, p, agent) && Decides(locks, p, canon, agent, chain)
  }

  ghost predicate Decides(locks: Locks, p: Path, canon: Path, agent: AgentId, chain: seq<AgentId>) {
    || (&& BlocksFromAbove(locks, p, canon, agent, chain)
        && (forall q :: BlocksFromAbove(locks, q, canon, agent, chain) ==> q <= p))
    || (&& BlocksFromBelow(locks, p, canon)
        && (forall q :: !BlocksFromAbove(locks, q, canon, agent, chain))
        && (forall q :: BlocksFromBelow(locks, q, canon) ==> q == p || Less(p, q)))
  }

  /** The rule names one answer. */
  lemma OverlapIsUnique(locks: Locks, canon: Path, agent: AgentId, chain: seq<AgentId>, r: Conflict, r': Conflict)
    requires Overlap(locks, canon, agent, chain, r) && Overlap(locks, canon, agent, chain, r')
    ensures r == r'
  {
    if !r.Free? && !r'.Free? && r.conflict != r'.conflict {
      if Less(r.conflict, r'.conflict) && Less(r'.conflict, r.conflict) {
        Transitive(r.conflict, r'.conflict, r.conflict);
        Irreflexive(r.conflict);
      }
    }
  }

  function Held(locks: Locks, agent: AgentId): set<Path> { set p | p in locks && locks[p] == agent }

  // ------------------------------------------------------------------ operations as relations

  ghost predicate Acquires(
    locks: Locks, agent: AgentId, canon: Path, chain: seq<AgentId>, o: AcquireOutcome, locks': Locks)
  {
    if canon in locks then
      locks' == locks && o == if locks[canon] == agent then AlreadyHeld else Busy(locks[canon], canon)
    else
      exists r :: Overlap(locks, canon, agent, chain, r) && o == OutcomeOf(locks, agent, r) &&
                  locks' == if o.Acquired? then locks[canon := agent] else locks
  }

  function OutcomeOf(locks: Locks, agent: AgentId, r: Conflict): AcquireOutcome {
    match r
    case Free => if |Held(locks, agent)| >= MAX_LOCKS_PER_AGENT then CapReached else Acquired
    case OwnOverlap(p) => SelfOverlap(p)
    case Other(h, p) => Busy(h, p)
  }

  ghost predicate Probes(locks: Locks, agent: AgentId, canon: Path, chain: seq<AgentId>, o: ProbeOutcome) {
    if canon in locks && locks[canon] != agent then o == WouldBlock(locks[canon], canon)
    else
      exists r :: Overlap(locks, canon, agent, chain, r) &&
                  o == match r
                       case Free => Clear
                       case OwnOverlap(p) => ProbeSelfOverlap(p)
                       case Other(h, p) => WouldBlock(h, p)
  }

  function Released(locks: Locks, agent: AgentId, canon: Path): Locks {
    map p | p in locks && !(p == canon && locks[p] == agent) :: locks[p]
  }

  function ReleasedAll(locks: Locks, agent: AgentId): Locks {
    map p | p in locks && locks[p] != agent :: locks[p]
  }

  function Transferred(locks: Locks, from: AgentId, to: AgentId, canon: Path): Locks {
    if canon in locks && locks[canon] == from then locks[canon := to] else locks
  }

  // ------------------------------------------------------------------ whose locks move

  /** One operation on the locks, by its caller. */
  datatype LockOp =
    | AcquireOp(agent: AgentId, canon: Path, chain: seq<AgentId>)
    | ReleaseOp(agent: AgentId, canon: Path)
    | ReleaseAllOp(agent: AgentId)
    | TransferOp(agent: AgentId, to: AgentId, canon: Path)

  ghost predicate LockStep(locks: Locks, op: LockOp, locks': Locks) {
    match op
    case AcquireOp(agent, canon, chain) => exists o :: Acquires(locks, agent, canon, chain, o, locks')
    case ReleaseOp(agent, canon) => locks' == Released(locks, agent, canon)
    case ReleaseAllOp(agent) => locks' == ReleasedAll(locks, agent)
    case TransferOp(from, to, canon) => locks' == Transferred(locks, from, to, canon)
  }

  /** What one operation does to the lock at `p`: it may appear for its caller, and only its caller's can go or change hands. */
  lemma StepAt(locks: Locks, op: LockOp, locks': Locks, p: Path)
    requires LockStep(locks, op, locks')
    ensures p in locks && locks[p] != op.agent ==> p in locks' && locks'[p] == locks[p]
    ensures p !in locks && p in locks' ==> op.AcquireOp? && p == op.canon && locks'[p] == op.agent
    ensures p in locks && locks[p] == op.agent ==>
              if op.ReleaseAllOp? || (op.ReleaseOp? && p == op.canon) then p !in locks'
              else p in locks' && locks'[p] == if op.TransferOp? && p == op.canon then op.to else op.agent
  {
    if op.AcquireOp? {
      var o :| Acquires(locks, op.agent, op.canon, op.chain, o, locks');
    }
  }

  ghost predicate LockRun(states: seq<Locks>, ops: seq<LockOp>) {
    |states| == |ops| + 1 && forall i {:trigger ops[i]} :: 0 <= i < |ops| ==> LockStep(states[i], ops[i], states[i + 1])
  }

  /**
   Nobody takes a lock from another: whatever the others do, an agent holds what it held until it lets go
   or hands over itself, and it comes to hold more only by its own acquire or a transfer to it.
   */
  lemma {:induction false} OthersLeaveLocksAlone(states: seq<Locks>, ops: seq<LockOp>, n: nat, a: AgentId)
    requires LockRun(states, ops) && n <= |ops| && forall i :: 0 <= i < n ==> ops[i].agent != a
    ensures Held(states[0], a) <= Held(states[n], a)
    ensures (forall i :: 0 <= i < n && ops[i].TransferOp? ==> ops[i].to != a) ==> Held(states[n], a) == Held(states[0], a)
  {
    if n > 0 {
      OthersLeaveLocksAlone(states, ops, n - 1, a);
      var before, op, after := states[n - 1], ops[n - 1], states[n];
      assert LockStep(before, op, after);
      forall p ensures p in Held(before, a) ==> p in Held(after, a) { StepAt(before, op, after, p); }
      if !(op.TransferOp? && op.to == a) {
        forall p ensures p in Held(after, a) ==> p in Held(before, a) { StepAt(before, op, after, p); }
      }
      hide LockStep;
    }
  }

  // ------------------------------------------------------------------ the nesting invariant

  /** A lock inside another is held by someone its holder delegated to. */
  ghost predicate Nested(f: Forest, locks: Locks)
    requires f.Valid()
  {
    forall p, q :: p in locks && q in locks && p < q ==> f.Above(locks[p], locks[q])
  }

  ghost predicate Capped(locks: Locks) { forall a :: |Held(locks, a)| <= 8 }

  lemma NoSelfOverlap(f: Forest, locks: Locks, p: Path, q: Path)
    requires f.Valid() && Nested(f, locks) && p in locks && q in locks && p < q
    ensures locks[p] != locks[q]
  {
    f.AboveIsHigher(locks[p], locks[q]);
  }

  /** An acquire that passes nobody but the caller's own superiors keeps every lock nested under a delegating one. */
  lemma AcquireKeepsNesting(
    f: Forest, locks: Locks, agent: AgentId, canon: Path, chain: seq<AgentId>, o: AcquireOutcome, locks': Locks)
    requires f.Valid() && Nested(f, locks) && forall a :: a in chain ==> f.Above(a, agent)
    requires Acquires(locks, agent, canon, chain, o, locks')
    ensures Nested(f, locks')
  {
    if o.Acquired? {
      assert Overlap(locks, canon, agent, chain, Free);
      forall p, q | p in locks' && q in locks' && p < q
        ensures f.Above(locks'[p], locks'[q])
      {
        assert !BlocksFromAbove(locks, p, canon, agent, chain);
        assert !BlocksFromBelow(locks, q, canon);
      }
    }
  }

  lemma ReleaseKeepsNesting(f: Forest, locks: Locks, agent: AgentId, canon: Path)
    requires f.Valid() && Nested(f, locks)
    ensures Nested(f, Released(locks, agent, canon)) && Nested(f, ReleasedAll(locks, agent))
  {}

  /** A transfer keeps nesting exactly when the new holder sits between the holders around and inside the lock. */
  ghost predicate FitsAt(f: Forest, locks: Locks, to: AgentId, canon: Path)
    requires f.Valid()
  {
    && (forall p :: p in locks && p < canon ==> f.Above(locks[p], to))
    && (forall q :: q in locks && canon < q ==> f.Above(to, locks[q]))
  }

  lemma TransferKeepsNestingExactly(f: Forest, locks: Locks, from: AgentId, to: AgentId, canon: Path)
    requires f.Valid() && Nested(f, locks) && canon in locks && locks[canon] == from
    ensures Nested(f, Transferred(locks, from, to, canon)) <==> FitsAt(f, locks, to, canon)
  {
    var locks' := Transferred(locks, from, to, canon);
    if Nested(f, locks') {
      forall p | p in locks && p < canon ensures f.Above(locks[p], to) {
        assert f.Above(locks'[p], locks'[canon]);
      }
      forall q | q in locks && canon < q ensures f.Above(to, locks[q]) {
        assert f.Above(locks'[canon], locks'[q]);
      }
    }
  }

  /** Handing a workspace down to a child is safe exactly when every carve-out inside it belongs under that child. */
  lemma HandoffDownExactly(f: Forest, locks: Locks, child: AgentId, canon: Path)
    requires f.Valid() && Nested(f, locks) && child in f.parent
    requires canon in locks && locks[canon] == f.parent[child]
    ensures
      Nested(f, Transferred(locks, f.parent[child], child, canon)) <==>
      forall q :: q in locks && canon < q ==> f.Above(child, locks[q])
  {
    TransferKeepsNestingExactly(f, locks, f.parent[child], child, canon);
  }

  /** Handing it back up is safe exactly when the supervisor holds no lock around it. */
  lemma HandoffUpExactly(f: Forest, locks: Locks, child: AgentId, canon: Path)
    requires f.Valid() && Nested(f, locks) && child in f.parent
    requires canon in locks && locks[canon] == child
    ensures
      Nested(f, Transferred(locks, child, f.parent[child], canon)) <==>
      forall p :: p in locks && p < canon ==> locks[p] != f.parent[child]
  {
    var s := f.parent[child];
    TransferKeepsNestingExactly(f, locks, child, s, canon);
    if f.Above(s, s) { f.AboveIsHigher(s, s); }
    forall q | q in locks && canon < q ensures f.Above(s, locks[q]) {
      assert f.Above(s, child);
      f.AboveTransitive(s, child, locks[q]);
    }
  }

  // ------------------------------------------------------------------ the cap

  lemma HeldAfterAdd(locks: Locks, canon: Path, agent: AgentId, a: AgentId)
    requires canon in locks ==> locks[canon] != agent
    ensures Held(locks[canon := agent], agent) == Held(locks, agent) + {canon}
    ensures |Held(locks[canon := agent], agent)| == |Held(locks, agent)| + 1
    ensures a != agent ==> Held(locks[canon := agent], a) <= Held(locks, a)
    ensures a != agent ==> |Held(locks[canon := agent], a)| <= |Held(locks, a)|
  {
    assert Held(locks[canon := agent], agent) == Held(locks, agent) + {canon};
    if a != agent { SubsetSize(Held(locks[canon := agent], a), Held(locks, a)); }
  }

  lemma SubsetSize(a: set<Path>, b: set<Path>)
    requires a <= b
    ensures |a| <= |b|
  {
    assert b == a + (b - a);
  }

  /** No operation but a transfer can put an agent over the cap. */
  lemma CapKept(locks: Locks, agent: AgentId, canon: Path, chain: seq<AgentId>, o: AcquireOutcome, locks': Locks)
    requires Capped(locks) && Acquires(locks, agent, canon, chain, o, locks')
    ensures Capped(locks') && Capped(Released(locks, agent, canon)) && Capped(ReleasedAll(locks, agent))
  {
    forall a ensures |Held(locks', a)| <= 8 {
      if o.Acquired? { HeldAfterAdd(locks, canon, agent, a); }
    }
    forall a
      ensures |Held(Released(locks, agent, canon), a)| <= 8
      ensures |Held(ReleasedAll(locks, agent), a)| <= 8
    {
      SubsetSize(Held(Released(locks, agent, canon), a), Held(locks, a));
      SubsetSize(Held(ReleasedAll(locks, agent), a), Held(locks, a));
    }
  }

  /** A transfer never checks the cap: it keeps it exactly when the receiver had room. */
  lemma TransferKeepsCapExactly(locks: Locks, from: AgentId, to: AgentId, canon: Path)
    requires Capped(locks) && canon in locks && locks[canon] == from && from != to
    ensures Capped(Transferred(locks, from, to, canon)) <==> |Held(locks, to)| < 8
  {
    var locks' := Transferred(locks, from, to, canon);
    HeldAfterAdd(locks, canon, to, to);
    assert Capped(locks') ==> |Held(locks', to)| <= 8;
    forall a | a != to ensures |Held(locks', a)| <= 8 { HeldAfterAdd(locks, canon, to, a); }
  }

  // ------------------------------------------------------------------ effective writers

  /** What the sandbox lets `a` write: a file under an own lock, with no other agent's lock in between. */
  ghost predicate Writable(locks: Locks, a: AgentId, file: Path) {
    exists p :: Grants(locks, a, p, file)
  }

  ghost predicate Grants(locks: Locks, a: AgentId, p: Path, file: Path) {
    && p in locks && locks[p] == a && p <= file
    && forall q :: q in locks && p < q <= file ==> locks[q] == a
  }

  /** The deepest lock over `file`. */
  ghost predicate Deepest(locks: Locks, p: Path, file: Path) {
    p in locks && p <= file && forall q :: q in locks && q <= file ==> q <= p
  }

  /** A file is writable by the holder of its deepest lock and by nobody else. */
  lemma WriterIsDeepestHolder(locks: Locks, p: Path, file: Path, a: AgentId)
    requires Deepest(locks, p, file)
    ensures Writable(locks, a, file) <==> a == locks[p]
  {
    if Writable(locks, a, file) {
      var q :| Grants(locks, a, q, file);
      assert q <= p;
      assert q == p || q < p;
    }
    if a == locks[p] { assert Grants(locks, a, p, file); }
  }

  lemma OneWriter(locks: Locks, a: AgentId, b: AgentId, file: Path)
    requires Writable(locks, a, file) && Writable(locks, b, file)
    ensures a == b
  {
    var p :| Grants(locks, a, p, file);
    var q :| Grants(locks, b, q, file);
    Comparable(p, q, file);
    assert p < q || p == q || q < p;
  }

  lemma Comparable(p: Path, q: Path, file: Path)
    requires p <= file && q <= file
    ensures p <= q || q <= p
  {
    assert p == file[..|p|] && q == file[..|q|];
  }

  // ------------------------------------------------------------------ the dry run

  /** The probe answers as an acquire would, for every path the agent does not already hold itself. */
  lemma ProbeAgrees(
    locks: Locks, agent: AgentId, canon: Path, chain: seq<AgentId>, o: AcquireOutcome, locks': Locks, pr: ProbeOutcome)
    requires canon in locks ==> locks[canon] != agent
    requires Acquires(locks, agent, canon, chain, o, locks') && Probes(locks, agent, canon, chain, pr)
    ensures pr.WouldBlock? <==> o.Busy?
    ensures pr.WouldBlock? ==> o == Busy(pr.holder, pr.conflict)
    ensures pr.ProbeSelfOverlap? <==> o.SelfOverlap?
    ensures pr.ProbeSelfOverlap? ==> o == SelfOverlap(pr.conflict)
    ensures pr.Clear? <==> o.Acquired? || o.CapReached?
  {
    if canon !in locks {
      var r :| Overlap(locks, canon, agent, chain, r) && o == OutcomeOf(locks, agent, r);
      var r' :| Overlap(locks, canon, agent, chain, r') &&
                pr == match r'
                      case Free => Clear
                      case OwnOverlap(p) => ProbeSelfOverlap(p)
                      case Other(h, p) => WouldBlock(h, p);
      OverlapIsUnique(locks, canon, agent, chain, r, r');
    }
  }

  /** Where it does hold the path, the acquire is idempotent and the probe reports the first lock below, whoever's. */
  lemma ProbeOfOwnLock(
    f: Forest, locks: Locks, agent: AgentId, canon: Path, o: AcquireOutcome, locks': Locks, pr: ProbeOutcome)
    requires f.Valid() && Nested(f, locks) && canon in locks && locks[canon] == agent
    requires Acquires(locks, agent, canon, f.Chain(agent), o, locks') && Probes(locks, agent, canon, f.Chain(agent), pr)
    ensures o == AlreadyHeld && locks' == locks
    ensures pr.Clear? <==> forall q :: q in locks ==> !(canon < q)
    ensures !pr.ProbeSelfOverlap?
  {
    var r :| Overlap(locks, canon, agent, f.Chain(agent), r) &&
             pr == match r
                   case Free => Clear
                   case OwnOverlap(p) => ProbeSelfOverlap(p)
                   case Other(h, p) => WouldBlock(h, p);
    forall p ensures !BlocksFromAbove(locks, p, canon, agent, f.Chain(agent)) {
      if p in locks && p < canon { NoSelfOverlap(f, locks, p, canon); }
    }
    if !r.Free? {
      assert canon < r.conflict;
      NoSelfOverlap(f, locks, canon, r.conflict);
    } else {
      forall q | q in locks ensures !(canon < q) { assert !BlocksFromBelow(locks, q, canon); }
    }
  }
}
