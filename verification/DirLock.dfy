/**
 The lock manager itself: an ordered map from canonical paths to writers, updated in place.
 A path the operating system could not canonicalize arrives as `None`.
 */
module DirLock {
  import opened Paths
  import opened Delegation
  import opened LockRules
  import opened Wrappers

  datatype Result<+T> = Ok(value: T) | CannotLock

  datatype TransferOutcome = HandedOver | NotOwner

  ghost predicate Increasing(keys: seq<Path>) { forall i, j :: 0 <= i < j < |keys| ==> Less(keys[i], keys[j]) }

  /** A new key put between the smaller and the greater ones keeps the order, and is the only one added. */
  lemma KeyInserted(keys: seq<Path>, canon: Path, i: nat)
    requires Increasing(keys) && canon !in keys && i <= |keys|
    requires forall j :: 0 <= j < i ==> keys[j] == canon || Less(keys[j], canon)
    requires forall j :: i <= j < |keys| ==> Less(canon, keys[j])
    ensures Increasing(keys[..i] + [canon] + keys[i..])
    ensures forall p :: p in keys[..i] + [canon] + keys[i..] <==> p in keys || p == canon
  {
    hide Less;
    var more := keys[..i] + [canon] + keys[i..];
    forall a, b | 0 <= a < b < |more| ensures Less(more[a], more[b]) {
      assert a < i ==> more[a] == keys[a] && keys[a] in keys;
      assert b > i ==> more[b] == keys[b - 1];
      assert a > i ==> more[a] == keys[a - 1];
      assert b < i ==> more[b] == keys[b];
    }
    KeysAround(keys, canon, i);
  }

  lemma KeysAround(keys: seq<Path>, canon: Path, i: nat)
    requires i <= |keys|
    ensures forall p :: p in keys[..i] + [canon] + keys[i..] <==> p in keys || p == canon
  {
    assert keys == keys[..i] + keys[i..];
  }

  class DirLockManager {
    var keys: seq<Path>                     // the map's keys in iteration order
    var dirs: map<Path, Option<AgentId>>    // per directory, its writer

    /** The keys in use, in order, each once. */
    ghost predicate Ordered()
      reads this
    {
      && Increasing(keys)
      && (forall p :: p in dirs <==> p in keys)
    }

    /** Between calls no idle entry stays behind. */
    ghost predicate Valid()
      reads this
    {
      Ordered() && forall p :: p in dirs ==> dirs[p].Some?
    }

    ghost function Locked(): Locks
      reads this
    {
      map p | p in dirs && dirs[p].Some? :: dirs[p].value
    }

    lemma Distinct()
      requires Ordered()
      ensures forall i, j :: 0 <= i < j < |keys| ==> keys[i] != keys[j]
    {
      forall i, j | 0 <= i < j < |keys| ensures keys[i] != keys[j] { Irreflexive(keys[i]); }
    }

    constructor ()
      ensures Valid() && Locked() == map[]
    {
      keys, dirs := [], map[];
    }

    /** Where the keys above `canon` begin. */
    method RangeAfter(canon: Path) returns (i: nat)
      requires Ordered()
      ensures i <= |keys|
      ensures forall j :: 0 <= j < i ==> keys[j] == canon || Less(keys[j], canon)
      ensures forall j :: i <= j < |keys| ==> Less(canon, keys[j])
    {
      i := 0;
      while i < |keys| && (keys[i] == canon || Less(keys[i], canon))
        invariant 0 <= i <= |keys|
        invariant forall j :: 0 <= j < i ==> keys[j] == canon || Less(keys[j], canon)
      {
        i := i + 1;
      }
      forall j | i <= j < |keys| ensures Less(canon, keys[j]) {
        Total(keys[i], canon);
        if i < j { Transitive(canon, keys[i], keys[j]); }
      }
    }

    /** The ancestor walk, nearest first: skip delegated locks, stop at the first that blocks. */
    method AncestorConflict(canon: Path, agent: AgentId, chain: seq<AgentId>) returns (at: Option<Path>)
      requires Valid()
      ensures at.None? ==> forall p :: !BlocksFromAbove(Locked(), p, canon, agent, chain)
      ensures at.Some? ==> BlocksFromAbove(Locked(), at.value, canon, agent, chain)
      ensures at.Some? ==> forall p :: BlocksFromAbove(Locked(), p, canon, agent, chain) ==> p <= at.value
    {
      var n := |canon|;
      while n > 0
        invariant 0 <= n <= |canon|
        invariant forall p :: BlocksFromAbove(Locked(), p, canon, agent, chain) ==> |p| < n
      {
        n := n - 1;
        var anc := canon[..n];
        if anc in dirs && dirs[anc].Some? {
          var writer := dirs[anc].value;
          if writer == agent || writer !in chain {
            forall p | BlocksFromAbove(Locked(), p, canon, agent, chain) ensures p <= anc {
              Comparable(p, anc, canon);
            }
            return Some(anc);
          }
        }
        forall p | BlocksFromAbove(Locked(), p, canon, agent, chain) ensures |p| < n {
          assert p == canon[..|p|];
        }
      }
      return None;
    }

    /** The descendant scan: start just above `canon`, pass over idle entries, stop at the first key outside it. */
    method DescendantConflict(canon: Path) returns (at: Option<Path>)
      requires Ordered()
      ensures at.None? ==> forall p :: !BlocksFromBelow(Locked(), p, canon)
      ensures at.Some? ==> BlocksFromBelow(Locked(), at.value, canon)
      ensures at.Some? ==> forall p :: BlocksFromBelow(Locked(), p, canon) ==> p == at.value || Less(at.value, p)
    {
      var i := RangeAfter(canon);
      BelowIsAfter(canon, i);
      while i < |keys|
        invariant 0 <= i <= |keys|
        invariant forall j :: i <= j < |keys| ==> Less(canon, keys[j])
        invariant forall p :: BlocksFromBelow(Locked(), p, canon) ==> p in keys[i..]
      {
        var k := keys[i];
        if !(canon <= k) {
          forall p ensures !BlocksFromBelow(Locked(), p, canon) {
            if BlocksFromBelow(Locked(), p, canon) { DescendantsContiguous(canon, k, p); }
          }
          return None;
        }
        if dirs[k].Some? {
          Irreflexive(k);
          assert k != canon;
          return Some(k);
        }
        i := i + 1;
      }
      return None;
    }

    /** Everything locked below `canon` lies in the range above it. */
    lemma BelowIsAfter(canon: Path, i: nat)
      requires Ordered() && i <= |keys|
      requires forall j :: 0 <= j < i ==> keys[j] == canon || Less(keys[j], canon)
      ensures forall p :: BlocksFromBelow(Locked(), p, canon) ==> p in keys[i..]
    {
      forall p | BlocksFromBelow(Locked(), p, canon) ensures p in keys[i..] {
        var j :| 0 <= j < |keys| && keys[j] == p;
        AncestorFirst(canon, p);
        Irreflexive(canon);
        if j < i && keys[j] != canon { Transitive(canon, p, canon); }
        assert keys[i..][j - i] == p;
      }
    }

    function BlockedBy(p: Path, agent: AgentId): (r: Conflict)
      requires p in dirs && dirs[p].Some?
      reads this
      ensures r == ConflictAt(Locked(), p, agent)
    {
      if dirs[p].value == agent then OwnOverlap(p) else Other(dirs[p].value, p)
    }

    method OverlapConflict(canon: Path, agent: AgentId, chain: seq<AgentId>) returns (r: Conflict)
      requires Valid()
      ensures Overlap(Locked(), canon, agent, chain, r)
    {
      var above := AncestorConflict(canon, agent, chain);
      if above.Some? { return BlockedBy(above.value, agent); }
      var below := DescendantConflict(canon);
      if below.Some? { return BlockedBy(below.value, agent); }
      return Free;
    }

    method CountHeld(agent: AgentId) returns (n: nat)
      requires Valid()
      ensures n == |LockRules.Held(Locked(), agent)|
    {
      Distinct();
      n := 0;
      hide Ordered, Less;
      for i := 0 to |keys|
        invariant n == |HeldIn(keys[..i], agent)|
      {
        HeldInNext(i, agent);
        if dirs[keys[i]] == Some(agent) { n := n + 1; }
      }
      assert keys[..|keys|] == keys;
      AllHeld(agent);
    }

    ghost function HeldIn(ks: seq<Path>, agent: AgentId): set<Path>
      reads this
      requires forall p :: p in ks ==> p in dirs
    {
      set p | p in ks && dirs[p] == Some(agent)
    }

    lemma HeldInNext(i: nat, agent: AgentId)
      requires i < |keys| && (forall p :: p in keys ==> p in dirs)
      requires forall a, b :: 0 <= a < b < |keys| ==> keys[a] != keys[b]
      ensures keys[i] in dirs
      ensures |HeldIn(keys[..i + 1], agent)| == |HeldIn(keys[..i], agent)| + if dirs[keys[i]] == Some(agent) then 1 else 0
    {
      var k := keys[i];
      assert keys[..i + 1] == keys[..i] + [k];
      assert k !in keys[..i];
      assert HeldIn(keys[..i + 1], agent) == HeldIn(keys[..i], agent) + if dirs[k] == Some(agent) then {k} else {};
    }

    lemma AllHeld(agent: AgentId)
      requires Ordered()
      ensures HeldIn(keys, agent) == LockRules.Held(Locked(), agent)
    {}

    /** entry(canon).or_default().writer = Some(agent), for a path not in the map. */
    method Insert(canon: Path, agent: AgentId)
      requires Valid() && canon !in dirs
      modifies this
      ensures Valid() && Locked() == old(Locked())[canon := agent]
    {
      var i := RangeAfter(canon);
      KeyInserted(keys, canon, i);
      keys := keys[..i] + [canon] + keys[i..];
      dirs := dirs[canon := Some(agent)];
      hide Less;
    }

    method Acquire(agent: AgentId, path: Option<Path>, chain: seq<AgentId>) returns (r: Result<AcquireOutcome>)
      requires Valid()
      modifies this
      ensures Valid()
      ensures path.None? ==> r == CannotLock && Locked() == old(Locked())
      ensures path.Some? ==> r.Ok? && Acquires(old(Locked()), agent, path.value, chain, r.value, Locked())
    {
      if path.None? { return CannotLock; }
      var canon := path.value;
      if canon in dirs && dirs[canon].Some? {
        if dirs[canon] == Some(agent) { return Ok(AlreadyHeld); }
        return Ok(Busy(dirs[canon].value, canon));
      }
      var conflict := OverlapConflict(canon, agent, chain);
      match conflict {
        case OwnOverlap(p) => return Ok(SelfOverlap(p));
        case Other(h, p) => return Ok(Busy(h, p));
        case Free =>
      }
      var n := CountHeld(agent);
      assert OutcomeOf(Locked(), agent, conflict) == if n >= MAX_LOCKS_PER_AGENT then CapReached else Acquired;
      if n >= MAX_LOCKS_PER_AGENT { return Ok(CapReached); }
      Insert(canon, agent);
      return Ok(Acquired);
    }

    /** Drop the entries left without a writer. */
    method Retain()
      requires Ordered()
      modifies this
      ensures Valid() && Locked() == old(Locked())
    {
      var kept: seq<Path> := [];
      for i := 0 to |keys|
        invariant forall a, b :: 0 <= a < b < |kept| ==> Less(kept[a], kept[b])
        invariant forall a :: 0 <= a < |kept| ==> kept[a] in keys[..i]
        invariant forall p :: p in kept <==> p in keys[..i] && dirs[p].Some?
        invariant keys == old(keys) && dirs == old(dirs)
      {
        assert keys[..i + 1] == keys[..i] + [keys[i]];
        if dirs[keys[i]].Some? { kept := kept + [keys[i]]; }
      }
      assert keys[..|keys|] == keys;
      keys := kept;
      dirs := map p | p in dirs && dirs[p].Some? :: dirs[p];
    }

    method Release(agent: AgentId, path: Option<Path>)
      requires Valid()
      modifies this
      ensures Valid()
      ensures Locked() == if path.None? then old(Locked()) else Released(old(Locked()), agent, path.value)
    {
      if path.None? { return; }
      var canon := path.value;
      if canon in dirs && dirs[canon] == Some(agent) {
        dirs := dirs[canon := None];
      }
      Retain();
    }

    method ReleaseAll(agent: AgentId)
      requires Valid()
      modifies this
      ensures Valid() && Locked() == ReleasedAll(old(Locked()), agent)
    {
      Distinct();
      hide Less;
      for i := 0 to |keys|
        invariant keys == old(keys) && dirs.Keys == old(dirs).Keys
        invariant forall j :: 0 <= j < |keys| ==>
          dirs[keys[j]] == if j < i && old(dirs)[keys[j]] == Some(agent) then None else old(dirs)[keys[j]]
      {
        if dirs[keys[i]] == Some(agent) {
          dirs := dirs[keys[i] := None];
        }
      }
      assert Locked() == ReleasedAll(old(Locked()), agent);
      Retain();
    }

    method Transfer(from: AgentId, to: AgentId, path: Option<Path>) returns (r: Result<TransferOutcome>)
      requires Valid()
      modifies this
      ensures Valid()
      ensures path.None? ==> r == CannotLock && Locked() == old(Locked())
      ensures path.Some? ==>
        && Locked() == Transferred(old(Locked()), from, to, path.value)
        && r == Ok(if path.value in old(Locked()) && old(Locked())[path.value] == from then HandedOver else NotOwner)
    {
      if path.None? { return CannotLock; }
      var canon := path.value;
      if canon in dirs && dirs[canon] == Some(from) {
        dirs := dirs[canon := Some(to)];
        return Ok(HandedOver);
      }
      return Ok(NotOwner);
    }

    method ProbeConflict(agent: AgentId, path: Option<Path>, chain: seq<AgentId>) returns (r: Result<ProbeOutcome>)
      requires Valid()
      ensures path.None? ==> r == CannotLock
      ensures path.Some? ==> r.Ok? && Probes(Locked(), agent, path.value, chain, r.value)
    {
      if path.None? { return CannotLock; }
      var canon := path.value;
      if canon in dirs && dirs[canon].Some? && dirs[canon].value != agent {
        return Ok(WouldBlock(dirs[canon].value, canon));
      }
      var conflict := OverlapConflict(canon, agent, chain);
      match conflict
      case Free => return Ok(Clear);
      case OwnOverlap(p) => return Ok(ProbeSelfOverlap(p));
      case Other(h, p) => return Ok(WouldBlock(h, p));
    }

    /** The paths `agent` holds, or those it does not: in path order, each once. */
    method PathsOf(agent: AgentId, own: bool) returns (paths: seq<Path>)
      requires Valid()
      ensures forall p :: p in paths <==> p in Locked() && (Locked()[p] == agent) == own
      ensures forall i, j :: 0 <= i < j < |paths| ==> Less(paths[i], paths[j])
    {
      paths := [];
      for i := 0 to |keys|
        invariant forall a, b :: 0 <= a < b < |paths| ==> Less(paths[a], paths[b])
        invariant forall a :: 0 <= a < |paths| ==> paths[a] in keys[..i]
        invariant forall p :: p in paths <==> p in keys[..i] && (dirs[p] == Some(agent)) == own
      {
        assert keys[..i + 1] == keys[..i] + [keys[i]];
        if (dirs[keys[i]] == Some(agent)) == own { paths := paths + [keys[i]]; }
      }
      assert keys[..|keys|] == keys;
    }

    /** The writable set the sandbox gives `agent`. */
    method WritePaths(agent: AgentId) returns (paths: seq<Path>)
      requires Valid()
      ensures forall p :: p in paths <==> p in LockRules.Held(Locked(), agent)
    {
      paths := PathsOf(agent, true);
    }

    /** The read-only holes: every lock of some other agent, so with WritePaths exactly the locked paths. */
    method ReadonlyPaths(agent: AgentId) returns (paths: seq<Path>)
      requires Valid()
      ensures forall p :: p in paths <==> p in Locked() && p !in LockRules.Held(Locked(), agent)
    {
      paths := PathsOf(agent, false);
    }
  }
}
