/**
 The order of one level of the skill index: categories before skills, each by name without
 case, ties as the directory gave them.
 */
module SkillOrder {
  import opened Wrappers

  datatype Entry =
    | Skill(name: string, description: Option<string>)
    | Category(name: string, description: Option<string>, children: seq<Entry>, expanded: bool)


  // ------------------------------------------------------------------ sorting

  function LowerChar(c: char): char { if 'A' <= c <= 'Z' then c - 'A' + 'a' else c }

  function Lower(s: string): string { seq(|s|, i requires 0 <= i < |s| => LowerChar(s[i])) }

  /** Categories first, then by name without case. */
  predicate Le(a: Entry, b: Entry) {
    if a.Category? != b.Category? then a.Category? else StringLe(Lower(a.name), Lower(b.name))
  }

  predicate StringLe(a: string, b: string) {
    a == [] || (b != [] && (a[0] < b[0] || (a[0] == b[0] && StringLe(a[1..], b[1..]))))
  }

  function Insert(e: Entry, es: seq<Entry>): seq<Entry> {
    if es == [] || Le(e, es[0]) then [e] + es else [es[0]] + Insert(e, es[1..])
  }

  /** A stable sort. */
  function Sort(es: seq<Entry>): seq<Entry> { if es == [] then [] else Insert(es[0], Sort(es[1..])) }

  // ------------------------------------------------------------------ what sorted means

  /** `a` stands before `b` in the dictionary, or is `b`: it ends, or is smaller, at the first place they differ. */
  ghost predicate NoLater(a: string, b: string) { exists n: nat :: SplitAt(a, b, n) }

  predicate SplitAt(a: string, b: string, n: nat) {
    n <= |a| && n <= |b| && a[..n] == b[..n] && (n == |a| || (n < |b| && a[n] < b[n]))
  }

  /** No skill before a category, and the lower-cased names never fall within a kind. */
  ghost predicate InOrder(a: Entry, b: Entry) {
    (a.Category? || b.Skill?) && ((a.Category? <==> b.Category?) ==> NoLater(Lower(a.name), Lower(b.name)))
  }

  ghost predicate Ordered(es: seq<Entry>) { forall i, j :: 0 <= i < j < |es| ==> InOrder(es[i], es[j]) }

  /** Entries the order does not tell apart. */
  predicate SameKey(a: Entry, b: Entry) { (a.Category? <==> b.Category?) && Lower(a.name) == Lower(b.name) }

  /** The entries that tie with `e`, as they stand. */
  function Ties(es: seq<Entry>, e: Entry): seq<Entry> {
    if es == [] then [] else (if SameKey(es[0], e) then [es[0]] else []) + Ties(es[1..], e)
  }

  lemma {:induction false} StringLeExactly(a: string, b: string)
    ensures StringLe(a, b) <==> NoLater(a, b)
  {
    if a == [] {
      assert SplitAt(a, b, 0);
    } else if b != [] && a[0] < b[0] {
      assert SplitAt(a, b, 0);
    } else if b != [] && a[0] == b[0] {
      StringLeExactly(a[1..], b[1..]);
      if n: nat :| SplitAt(a[1..], b[1..], n) {
        assert a[..n + 1] == [a[0]] + a[1..][..n] && b[..n + 1] == [b[0]] + b[1..][..n];
        assert SplitAt(a, b, n + 1);
      }
      if n: nat :| SplitAt(a, b, n) {
        assert n > 0;
        assert a[1..][..n - 1] == a[..n][1..] && b[1..][..n - 1] == b[..n][1..];
        assert SplitAt(a[1..], b[1..], n - 1);
      }
    } else {
      forall n: nat | 0 < n <= |a| && n <= |b| ensures a[..n] == b[..n] ==> a[0] == b[0] {
        assert a[..n][0] == a[0] && b[..n][0] == b[0];
      }
    }
  }

  lemma {:induction false} StringLeTotal(a: string, b: string)
    ensures StringLe(a, b) || StringLe(b, a)
    ensures StringLe(a, b) && StringLe(b, a) ==> a == b
  {
    if a != [] && b != [] && a[0] == b[0] {
      StringLeTotal(a[1..], b[1..]);
      assert a == [a[0]] + a[1..] && b == [b[0]] + b[1..];
    }
  }

  lemma {:induction false} StringLeTransitive(a: string, b: string, c: string)
    requires StringLe(a, b) && StringLe(b, c)
    ensures StringLe(a, c)
  {
    if a != [] && a[0] == b[0] == c[0] { StringLeTransitive(a[1..], b[1..], c[1..]); }
  }

  lemma LeIsOrder(a: Entry, b: Entry, c: Entry)
    ensures Le(a, b) <==> InOrder(a, b)
    ensures Le(a, b) || Le(b, a)
    ensures Le(a, b) && Le(b, a) <==> SameKey(a, b)
    ensures Le(a, b) && Le(b, c) ==> Le(a, c)
  {
    var x, y, z := Lower(a.name), Lower(b.name), Lower(c.name);
    StringLeExactly(x, y);
    StringLeTotal(x, y);
    StringLeTotal(x, x);
    if StringLe(x, y) && StringLe(y, z) { StringLeTransitive(x, y, z); }
  }

  // ------------------------------------------------------------------ the sort sorts

  lemma {:induction false} InsertHolds(e: Entry, es: seq<Entry>)
    ensures multiset(Insert(e, es)) == multiset{e} + multiset(es)
  {
    if es != [] && !Le(e, es[0]) {
      InsertHolds(e, es[1..]);
      assert es == [es[0]] + es[1..];
    }
  }

  lemma {:induction false} SortHolds(es: seq<Entry>)
    ensures multiset(Sort(es)) == multiset(es)
  {
    if es != [] {
      SortHolds(es[1..]);
      InsertHolds(es[0], Sort(es[1..]));
      assert es == [es[0]] + es[1..];
    }
  }

  lemma {:induction false} InsertOrders(e: Entry, es: seq<Entry>)
    requires Ordered(es)
    ensures Ordered(Insert(e, es))
  {
    hide InOrder, Le, SameKey;
    var r := Insert(e, es);
    if es != [] {
      var first, rest := es[0], es[1..];
      LeIsOrder(e, first, first);
      LeIsOrder(first, e, e);
      if Le(e, first) {
        forall j | 0 < j < |r| ensures InOrder(e, r[j]) {
          LeIsOrder(first, r[j], r[j]);
          LeIsOrder(e, first, r[j]);
          LeIsOrder(e, r[j], r[j]);
        }
      } else {
        InsertOrders(e, rest);
        InsertHolds(e, rest);
        forall j | 0 < j < |r| ensures InOrder(first, r[j]) {
          assert r[j] in multiset(Insert(e, rest));
          assert r[j] == e || r[j] in rest;
        }
      }
    }
  }

  lemma {:induction false} SortOrders(es: seq<Entry>)
    ensures Ordered(Sort(es))
  {
    if es != [] {
      SortOrders(es[1..]);
      InsertOrders(es[0], Sort(es[1..]));
    }
  }

  lemma {:induction false} InsertKeepsTies(e: Entry, es: seq<Entry>, key: Entry)
    ensures Ties(Insert(e, es), key) == Ties([e] + es, key)
  {
    assert ([e] + es)[1..] == es;
    if es != [] && !Le(e, es[0]) {
      LeIsOrder(e, es[0], e);
      InsertKeepsTies(e, es[1..], key);
      assert ([e] + es[1..])[1..] == es[1..];
      assert !(SameKey(e, key) && SameKey(es[0], key));
    }
  }

  /** A tie keeps the directory's order. */
  lemma {:induction false} SortIsStable(es: seq<Entry>, key: Entry)
    ensures Ties(Sort(es), key) == Ties(es, key)
  {
    if es != [] {
      SortIsStable(es[1..], key);
      InsertKeepsTies(es[0], Sort(es[1..]), key);
      assert ([es[0]] + Sort(es[1..]))[1..] == Sort(es[1..]);
    }
  }

  ghost predicate SameTies(a: seq<Entry>, b: seq<Entry>) { forall key: Entry :: Ties(a, key) == Ties(b, key) }

  lemma {:induction false} TiesAreEntries(es: seq<Entry>, key: Entry, e: Entry)
    ensures e in Ties(es, key) <==> e in es && SameKey(e, key)
  {
    if es != [] { TiesAreEntries(es[1..], key, e); }
  }

  /** An entry of an ordered list does not come before its first. */
  lemma FirstIsLeast(es: seq<Entry>, e: Entry)
    requires Ordered(es) && e in es
    ensures Le(es[0], e)
  {
    var i :| 0 <= i < |es| && es[i] == e;
    LeIsOrder(es[0], e, e);
  }

  /** Two ordered lists with the same ties open alike. */
  lemma SameHead(a: seq<Entry>, b: seq<Entry>)
    requires Ordered(a) && Ordered(b) && SameTies(a, b) && a != []
    ensures b != [] && a[0] == b[0] && SameTies(a[1..], b[1..])
  {
    hide InOrder, Ties, Le, Ordered, SameKey;
    HeadTies(a);
    TiesAreEntries(b, a[0], a[0]);
    assert b != [];
    HeadTies(b);
    TiesAreEntries(a, b[0], b[0]);
    FirstIsLeast(a, b[0]);
    FirstIsLeast(b, a[0]);
    LeIsOrder(a[0], b[0], b[0]);
    LeIsOrder(b[0], a[0], a[0]);
    LeIsOrder(a[0], a[0], a[0]);
    TiesOpen(a, a[0]);
    TiesOpen(b, a[0]);
    assert Ties(a, a[0])[0] == a[0] && Ties(b, a[0])[0] == b[0];
    forall key: Entry ensures Ties(a[1..], key) == Ties(b[1..], key) {
      TiesOpen(a, key);
      TiesOpen(b, key);
      assert Ties(a, key) == Ties(b, key);
      assert SameKey(a[0], key) ==> Ties(a, key)[1..] == Ties(a[1..], key) && Ties(b, key)[1..] == Ties(b[1..], key);
    }
  }

  lemma HeadTies(es: seq<Entry>)
    requires es != []
    ensures es[0] in Ties(es, es[0])
  {}

  lemma TiesOpen(es: seq<Entry>, key: Entry)
    requires es != []
    ensures Ties(es, key) == if SameKey(es[0], key) then [es[0]] + Ties(es[1..], key) else Ties(es[1..], key)
  {}

  lemma {:induction false} OrderedIsUnique(a: seq<Entry>, b: seq<Entry>)
    requires Ordered(a) && Ordered(b) && SameTies(a, b)
    ensures a == b
  {
    if a == [] {
      if b != [] {
        assert Ties(a, b[0]) == [];
        HeadTies(b);
      }
    } else {
      SameHead(a, b);
      OrderedIsUnique(a[1..], b[1..]);
      assert a == [a[0]] + a[1..] && b == [b[0]] + b[1..];
    }
  }

  /** The sort is exactly this: the one list in order that keeps every tie as it stood; nothing is lost or added. */
  lemma SortExactly(es: seq<Entry>, sorted: seq<Entry>)
    ensures sorted == Sort(es) <==> Ordered(sorted) && SameTies(sorted, es)
    ensures multiset(Sort(es)) == multiset(es)
  {
    SortHolds(es);
    SortOrders(es);
    forall key ensures Ties(Sort(es), key) == Ties(es, key) { SortIsStable(es, key); }
    hide Ordered, Ties;
    if Ordered(sorted) && SameTies(sorted, es) { OrderedIsUnique(sorted, Sort(es)); }
  }

  /** Lower-casing moves the capital letters alone, each to its small letter. */
  lemma LowerFoldsCapitals(s: string, i: nat)
    requires i < |s|
    ensures |Lower(s)| == |s| && !('A' <= Lower(s)[i] <= 'Z') && Lower(Lower(s)) == Lower(s)
    ensures Lower(s)[i] == s[i] || ('A' <= s[i] <= 'Z' && Lower(s)[i] as int - 'a' as int == s[i] as int - 'A' as int)
  {
    assert forall k :: 0 <= k < |s| ==> LowerChar(LowerChar(s[k])) == LowerChar(s[k]);
  }
}
