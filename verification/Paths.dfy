/**
 Canonical paths as component sequences in the order of an ordered map's keys: compared
 component by component, and each component byte by byte.
 */
module Paths {
  type Component = seq<char>
  type Path = seq<Component>

  predicate NameLess(a: Component, b: Component) {
    b != [] && (a == [] || a[0] < b[0] || (a[0] == b[0] && NameLess(a[1..], b[1..])))
  }

  predicate Less(p: Path, q: Path) {
    q != [] && (p == [] || NameLess(p[0], q[0]) || (p[0] == q[0] && Less(p[1..], q[1..])))
  }

  lemma {:induction false} NameTotal(a: Component, b: Component)
    ensures NameLess(a, b) || a == b || NameLess(b, a)
  {
    if a != [] && b != [] && a[0] == b[0] {
      NameTotal(a[1..], b[1..]);
      assert a[1..] == b[1..] ==> a == [a[0]] + a[1..] == b;
    }
  }

  lemma {:induction false} NameTransitive(a: Component, b: Component, c: Component)
    requires NameLess(a, b) && NameLess(b, c)
    ensures NameLess(a, c) && a != c
  {
    if a != [] && a[0] == b[0] == c[0] { NameTransitive(a[1..], b[1..], c[1..]); }
  }

  lemma {:induction false} NameIrreflexive(a: Component)
    ensures !NameLess(a, a)
  {
    if a != [] { NameIrreflexive(a[1..]); }
  }

  lemma {:induction false} Total(p: Path, q: Path)
    ensures Less(p, q) || p == q || Less(q, p)
  {
    if p != [] && q != [] {
      NameTotal(p[0], q[0]);
      if p[0] == q[0] {
        Total(p[1..], q[1..]);
        assert p[1..] == q[1..] ==> p == [p[0]] + p[1..] == q;
      }
    }
  }

  lemma {:induction false} Irreflexive(p: Path)
    ensures !Less(p, p)
  {
    if p != [] {
      NameIrreflexive(p[0]);
      Irreflexive(p[1..]);
    }
  }

  lemma {:induction false} Transitive(p: Path, q: Path, r: Path)
    requires Less(p, q) && Less(q, r)
    ensures Less(p, r)
  {
    if p != [] {
      if NameLess(p[0], q[0]) && NameLess(q[0], r[0]) {
        NameTransitive(p[0], q[0], r[0]);
      } else if p[0] == q[0] == r[0] {
        Transitive(p[1..], q[1..], r[1..]);
      }
    }
  }

  /** A path comes before everything below it. */
  lemma {:induction false} AncestorFirst(p: Path, q: Path)
    requires p < q
    ensures Less(p, q)
  {
    if p != [] {
      assert p[1..] < q[1..];
      AncestorFirst(p[1..], q[1..]);
    }
  }

  /** Everything below a path is contiguous just above it: no other path comes between. */
  lemma {:induction false} DescendantsContiguous(p: Path, m: Path, k: Path)
    requires p <= k && Less(p, m) && (m == k || Less(m, k))
    ensures p <= m
  {
    if p != [] {
      if NameLess(p[0], m[0]) {
        if m[0] == k[0] {
          NameIrreflexive(m[0]);
        } else {
          NameTransitive(p[0], m[0], k[0]);
        }
        assert false;
      }
      NameIrreflexive(p[0]);
      assert p[1..] <= k[1..];
      DescendantsContiguous(p[1..], m[1..], k[1..]);
      assert p == [p[0]] + p[1..] && m == [m[0]] + m[1..];
    }
  }
}
