/**
 The skill index: a depth-bounded listing of a directory tree. The disk maps a path to a
 listing, so a tree with link cycles is a disk like any other; only the depth ends a walk.
 */
module SkillIndex {
  import opened Wrappers
  import opened SkillOrder

  const MAX_INDEX_DEPTH: nat := 10

  type Path = seq<string>

  /** What a directory entry is, links followed; a skill file carries its description when it can be read. */
  datatype Meta = Directory | Regular(readable: bool, description: Option<string>) | Special | Broken

  datatype Item = Item(name: string, meta: Meta)

  /** `list` is None for a path that cannot be read as a directory; `readme` is the description of a directory. */
  datatype Disk = Disk(list: Path -> Option<seq<Item>>, readme: Path -> Option<string>)

  // ------------------------------------------------------------------ classification

  predicate HasMdExtension(name: string) { |name| >= 3 && Lower(name[|name| - 3..]) == ".md" }

  predicate IsCategory(i: Item) { !("." <= i.name) && i.meta.Directory? }

  predicate IsSkill(i: Item) {
    !("." <= i.name) && i.meta.Regular? && HasMdExtension(i.name) && i.name != "README.md" && i.name != "index.md"
  }

  function Stem(name: string): string
    requires |name| >= 3
  { name[..|name| - 3] }

  // ------------------------------------------------------------------ collecting

  /** The children of a category: an unreadable directory reads as an empty one. */
  function Nested(d: Disk, dir: Path, budget: nat): seq<Entry>
    decreases budget, 1, 0
  {
    if d.list(dir).None? then [] else Collected(d, dir, d.list(dir).value, budget)
  }

  function Collected(d: Disk, dir: Path, items: seq<Item>, budget: nat): seq<Entry>
    decreases budget, 0, |items| + 1
  {
    Sort(Gathered(d, dir, items, budget))
  }

  function Gathered(d: Disk, dir: Path, items: seq<Item>, budget: nat): seq<Entry>
    decreases budget, 0, |items|
  {
    if items == [] then []
    else
      var n := |items| - 1;
      Gathered(d, dir, items[..n], budget) + EntryOf(d, dir, items[n], budget)
  }

  /** What one directory entry adds to the listing: at most one entry. */
  function EntryOf(d: Disk, dir: Path, i: Item, budget: nat): seq<Entry>
    decreases budget, 0, 0
  {
    if IsCategory(i) then
      var sub := dir + [i.name];
      [Category(i.name, d.readme(sub), if budget > 0 then Nested(d, sub, budget - 1) else [], budget > 0)]
    else if IsSkill(i) && i.meta.readable then [Skill(Stem(i.name), i.meta.description)]
    else []
  }

  /** collect_entries: an unreadable top directory is an error, a nested one is empty. */
  method CollectEntries(d: Disk, dir: Path, budget: nat) returns (r: Option<seq<Entry>>)
    ensures r == if d.list(dir).None? then None else Some(Nested(d, dir, budget))
    ensures r.Some? ==> DeepOrdered(r.value) && Lists(d, dir, r.value, budget)
    decreases budget
  {
    var listing := d.list(dir);
    if listing.None? { return None; }
    var items := listing.value;
    var out: seq<Entry> := [];
    for k := 0 to |items|
      invariant out == Gathered(d, dir, items[..k], budget)
    {
      assert items[..k + 1][..k] == items[..k];
      assert Gathered(d, dir, items[..k + 1], budget) == out + EntryOf(d, dir, items[k], budget);
      var i := items[k];
      if IsCategory(i) {
        var sub := dir + [i.name];
        var children, expanded := [], false;
        if budget > 0 {
          var nested := CollectEntries(d, sub, budget - 1);
          children, expanded := nested.UnwrapOr([]), true;
        }
        out := out + [Category(i.name, d.readme(sub), children, expanded)];
      } else if IsSkill(i) && i.meta.readable {
        out := out + [Skill(Stem(i.name), i.meta.description)];
      }
    }
    assert items[..|items|] == items;
    r := Some(Sort(out));
    NestedDeepOrdered(d, dir, budget);
    NestedLists(d, dir, budget);
  }

  // ------------------------------------------------------------------ what is listed, in what order

  /** Every level is in order, all the way down. */
  ghost predicate DeepOrdered(es: seq<Entry>)
    decreases es
  {
    Ordered(es) && forall k :: 0 <= k < |es| && es[k].Category? ==> DeepOrdered(es[k].children)
  }

  /** The directory holds a readable skill file `name` plus an extension that is .md without case. */
  predicate SkillFile(i: Item, name: string, description: Option<string>) {
    && i.meta == Regular(true, description)
    && |i.name| == |name| + 3 && i.name[..|name|] == name && Lower(i.name[|name|..]) == ".md"
    && i.name[0] != '.' && i.name != "README.md" && i.name != "index.md"
  }

  /** The directory holds a sub-directory of this name, hidden ones aside. */
  predicate SubDirectory(i: Item, name: string) {
    i.meta == Directory && i.name == name && (name == "" || name[0] != '.')
  }

  ghost predicate HasSkill(items: seq<Item>, name: string, description: Option<string>) {
    exists k :: 0 <= k < |items| && SkillFile(items[k], name, description)
  }

  ghost predicate HasDirectory(items: seq<Item>, name: string) {
    exists k :: 0 <= k < |items| && SubDirectory(items[k], name)
  }

  /** What a category entry for the sub-directory `name` carries. */
  predicate Describes(d: Disk, dir: Path, e: Entry, name: string, budget: nat) {
    && e.Category? && e.name == name && e.description == d.readme(dir + [name])
    && (e.expanded <==> budget > 0) && (budget == 0 ==> e.children == [])
  }

  ghost predicate HasEntry(d: Disk, dir: Path, es: seq<Entry>, name: string, budget: nat) {
    exists e :: e in es && Describes(d, dir, e, name, budget)
  }

  /** `es` lists the skill files and sub-directories of `dir`, all of them and nothing else. */
  ghost predicate Lists(d: Disk, dir: Path, es: seq<Entry>, budget: nat) {
    var items := d.list(dir).UnwrapOr([]);
    && (forall name, why :: Skill(name, why) in es <==> HasSkill(items, name, why))
    && (forall name :: HasEntry(d, dir, es, name, budget) <==> HasDirectory(items, name))
    && (forall e :: e in es && e.Category? ==> Describes(d, dir, e, e.name, budget))
  }

  lemma EntryListed(d: Disk, dir: Path, i: Item, budget: nat, name: string, why: Option<string>)
    ensures Skill(name, why) in EntryOf(d, dir, i, budget) <==> SkillFile(i, name, why)
    ensures (exists e :: e in EntryOf(d, dir, i, budget) && Describes(d, dir, e, name, budget)) <==> SubDirectory(i, name)
    ensures forall e :: e in EntryOf(d, dir, i, budget) && e.Category? ==> Describes(d, dir, e, e.name, budget)
  {
    var es := EntryOf(d, dir, i, budget);
    if SubDirectory(i, name) { assert Describes(d, dir, es[0], name, budget) && es[0] in es; }
    if SkillFile(i, name, why) {
      assert i.name[|i.name| - 3..] == i.name[|name|..];
      assert Stem(i.name) == name;
    }
    if Skill(name, why) in es { assert i.name[|name|..] == i.name[|i.name| - 3..]; }
  }

  lemma {:induction false} GatheredLists(
    d: Disk, dir: Path, items: seq<Item>, budget: nat, name: string, why: Option<string>)
    ensures Skill(name, why) in Gathered(d, dir, items, budget) <==> HasSkill(items, name, why)
    ensures HasEntry(d, dir, Gathered(d, dir, items, budget), name, budget) <==> HasDirectory(items, name)
    ensures forall e :: e in Gathered(d, dir, items, budget) && e.Category? ==> Describes(d, dir, e, e.name, budget)
    decreases |items|
  {
    if items != [] {
      var n := |items| - 1;
      GatheredLists(d, dir, items[..n], budget, name, why);
      EntryListed(d, dir, items[n], budget, name, why);
      hide EntryOf, Describes, SkillFile, SubDirectory;
      HasMore(items, name, why);
      HasMoreEntries(d, dir, Gathered(d, dir, items[..n], budget), EntryOf(d, dir, items[n], budget), name, budget);
    }
  }

  lemma HasMore(items: seq<Item>, name: string, why: Option<string>)
    requires items != []
    ensures
      var n := |items| - 1;
      && (HasSkill(items, name, why) <==> HasSkill(items[..n], name, why) || SkillFile(items[n], name, why))
      && (HasDirectory(items, name) <==> HasDirectory(items[..n], name) || SubDirectory(items[n], name))
  {
    hide SkillFile, SubDirectory;
    var n := |items| - 1;
    if HasSkill(items[..n], name, why) {
      var k :| 0 <= k < n && SkillFile(items[..n][k], name, why);
      assert SkillFile(items[k], name, why);
    }
    if HasDirectory(items[..n], name) {
      var k :| 0 <= k < n && SubDirectory(items[..n][k], name);
      assert SubDirectory(items[k], name);
    }
    if k :| 0 <= k < n && SkillFile(items[k], name, why) { assert SkillFile(items[..n][k], name, why); }
    if k :| 0 <= k < n && SubDirectory(items[k], name) { assert SubDirectory(items[..n][k], name); }
  }

  lemma HasMoreEntries(d: Disk, dir: Path, a: seq<Entry>, b: seq<Entry>, name: string, budget: nat)
    ensures HasEntry(d, dir, a + b, name, budget) <==>
            HasEntry(d, dir, a, name, budget) || HasEntry(d, dir, b, name, budget)
  { hide Describes; }

  lemma NestedLists(d: Disk, dir: Path, budget: nat)
    ensures Lists(d, dir, Nested(d, dir, budget), budget)
  {
    var items := d.list(dir).UnwrapOr([]);
    var es := Gathered(d, dir, items, budget);
    SortHolds(es);
    assert Nested(d, dir, budget) == Sort(es);
    forall e ensures e in Sort(es) <==> e in es { assert e in multiset(Sort(es)) <==> e in multiset(es); }
    hide Nested, Gathered, Sort, Describes, SkillFile, SubDirectory, HasSkill, HasDirectory;
    GatheredLists(d, dir, items, budget, "", None);
    forall name, why: Option<string>
      ensures Skill(name, why) in Nested(d, dir, budget) <==> HasSkill(items, name, why)
    {
      GatheredLists(d, dir, items, budget, name, why);
    }
    forall name ensures HasEntry(d, dir, Nested(d, dir, budget), name, budget) <==> HasDirectory(items, name) {
      GatheredLists(d, dir, items, budget, name, None);
    }
  }

  lemma {:induction false} GatheredDeepOrdered(d: Disk, dir: Path, items: seq<Item>, budget: nat)
    ensures forall e :: e in Gathered(d, dir, items, budget) && e.Category? ==> DeepOrdered(e.children)
    decreases budget, 0, |items|
  {
    if items != [] {
      var i := items[|items| - 1];
      GatheredDeepOrdered(d, dir, items[..|items| - 1], budget);
      if IsCategory(i) && budget > 0 { NestedDeepOrdered(d, dir + [i.name], budget - 1); }
      hide Nested;
    }
  }

  /** Every collected level is in order, those under an expanded category included. */
  lemma {:induction false} NestedDeepOrdered(d: Disk, dir: Path, budget: nat)
    ensures DeepOrdered(Nested(d, dir, budget))
    decreases budget, 1, 0
  {
    if d.list(dir).Some? {
      var es := Gathered(d, dir, d.list(dir).value, budget);
      GatheredDeepOrdered(d, dir, d.list(dir).value, budget);
      SortOrders(es);
      SortHolds(es);
      hide Gathered, Sort, Ordered;
      forall e | e in Sort(es) ensures e in es { assert e in multiset(Sort(es)); }
    }
  }

  /** Entries the order does not tell apart stand as the directory gave them. */
  lemma TiesKeepDirectoryOrder(d: Disk, dir: Path, budget: nat)
    ensures SameTies(Nested(d, dir, budget), Gathered(d, dir, d.list(dir).UnwrapOr([]), budget))
  {
    var es := Gathered(d, dir, d.list(dir).UnwrapOr([]), budget);
    SortExactly(es, Sort(es));
    assert Nested(d, dir, budget) == Sort(es);
  }

  /** What is gathered from more items comes after. */
  lemma {:induction false} GatheredConcat(d: Disk, dir: Path, budget: nat, items: seq<Item>, more: seq<Item>)
    ensures Gathered(d, dir, items + more, budget) == Gathered(d, dir, items, budget) + Gathered(d, dir, more, budget)
    decreases |more|
  {
    if more == [] {
      assert items + more == items;
    } else {
      var n := |more| - 1;
      GatheredConcat(d, dir, budget, items, more[..n]);
      hide EntryOf;
      assert (items + more)[..|items| + n] == items + more[..n];
    }
  }

  // ------------------------------------------------------------------ counting

  datatype Count = Count(skills: nat, categories: nat)

  /** count_children: by kind alone, reading no file. */
  function Counted(items: seq<Item>): Count {
    if items == [] then Count(0, 0)
    else
      var n := |items| - 1;
      var before := Counted(items[..n]);
      if IsSkill(items[n]) then before.(skills := before.skills + 1)
      else if IsCategory(items[n]) then before.(categories := before.categories + 1)
      else before
  }

  function SkillPlaces(items: seq<Item>): set<int> { set k | 0 <= k < |items| && IsSkill(items[k]) }

  function CategoryPlaces(items: seq<Item>): set<int> { set k | 0 <= k < |items| && IsCategory(items[k]) }

  lemma OneMoreItem(items: seq<Item>)
    requires items != []
    ensures
      var n := |items| - 1;
      && SkillPlaces(items) == SkillPlaces(items[..n]) + (if IsSkill(items[n]) then {n} else {})
      && CategoryPlaces(items) == CategoryPlaces(items[..n]) + (if IsCategory(items[n]) then {n} else {})
  { hide IsSkill, IsCategory; }

  /** The counts are how many skill files and how many sub-directories there are. */
  lemma {:induction false} CountedExactly(items: seq<Item>)
    ensures Counted(items) == Count(|SkillPlaces(items)|, |CategoryPlaces(items)|)
  {
    if items != [] {
      var n := |items| - 1;
      CountedExactly(items[..n]);
      NotBoth(items[n]);
      OneMoreItem(items);
      assert n !in SkillPlaces(items[..n]) && n !in CategoryPlaces(items[..n]);
      hide IsSkill, IsCategory, SkillPlaces, CategoryPlaces;
    }
  }

  lemma NotBoth(i: Item)
    ensures !(IsSkill(i) && IsCategory(i))
  {}

  function CountChildren(d: Disk, dir: Path): Count {
    if d.list(dir).None? then Count(0, 0) else Counted(d.list(dir).value)
  }

  /** count_from_children: over what was collected. */
  function CountEntries(es: seq<Entry>): Count {
    Count(|Filter(es, false)|, |Filter(es, true)|)
  }

  function Filter(es: seq<Entry>, categories: bool): seq<Entry> {
    if es == [] then []
    else if es[0].Category? == categories then [es[0]] + Filter(es[1..], categories)
    else Filter(es[1..], categories)
  }

  lemma {:induction false} FilterInsert(e: Entry, es: seq<Entry>, categories: bool)
    ensures |Filter(Insert(e, es), categories)| == |Filter([e] + es, categories)|
  {
    assert ([e] + es)[1..] == es;
    if es != [] && !Le(e, es[0]) {
      var rest := [es[0]] + Insert(e, es[1..]);
      assert rest[1..] == Insert(e, es[1..]);
      FilterInsert(e, es[1..], categories);
      assert ([e] + es[1..])[1..] == es[1..];
    }
  }

  lemma {:induction false} FilterSort(es: seq<Entry>, categories: bool)
    ensures |Filter(Sort(es), categories)| == |Filter(es, categories)|
  {
    if es != [] {
      FilterSort(es[1..], categories);
      FilterInsert(es[0], Sort(es[1..]), categories);
      assert ([es[0]] + Sort(es[1..]))[1..] == Sort(es[1..]);
    }
  }

  lemma {:induction false} FilterConcat(a: seq<Entry>, b: seq<Entry>, categories: bool)
    ensures Filter(a + b, categories) == Filter(a, categories) + Filter(b, categories)
  {
    if a == [] {
      assert a + b == b;
    } else {
      assert (a + b)[1..] == a[1..] + b;
      FilterConcat(a[1..], b, categories);
    }
  }

  /** Every skill file listed under `dir` can be read. */
  ghost predicate ReadableItems(items: seq<Item>) {
    forall k :: 0 <= k < |items| && IsSkill(items[k]) ==> items[k].meta.readable
  }

  lemma {:induction false} GatheredCounts(d: Disk, dir: Path, items: seq<Item>, budget: nat)
    ensures |Filter(Gathered(d, dir, items, budget), true)| == Counted(items).categories
    ensures |Filter(Gathered(d, dir, items, budget), false)| <= Counted(items).skills
    ensures |Filter(Gathered(d, dir, items, budget), false)| == Counted(items).skills <==> ReadableItems(items)
    decreases |items|
  {
    if items != [] {
      var n := |items| - 1;
      GatheredCounts(d, dir, items[..n], budget);
      FilterConcat(Gathered(d, dir, items[..n], budget), EntryOf(d, dir, items[n], budget), true);
      FilterConcat(Gathered(d, dir, items[..n], budget), EntryOf(d, dir, items[n], budget), false);
      assert ReadableItems(items) <==> ReadableItems(items[..n]) && (IsSkill(items[n]) ==> items[n].meta.readable);
    }
  }

  /** The label of a category is the same counted or expanded exactly when every skill file in it can be read. */
  lemma LabelsAgreeExactly(d: Disk, dir: Path, budget: nat)
    ensures CountChildren(d, dir) == CountEntries(Nested(d, dir, budget)) <==>
            (d.list(dir).Some? ==> ReadableItems(d.list(dir).value))
  {
    if d.list(dir).Some? {
      var items := d.list(dir).value;
      GatheredCounts(d, dir, items, budget);
      FilterSort(Gathered(d, dir, items, budget), true);
      FilterSort(Gathered(d, dir, items, budget), false);
    }
  }

  // ------------------------------------------------------------------ rendering

  /** One bullet: its indent level, its name, and a category's label. */
  datatype Line = Line(level: nat, name: string, count: Option<Count>, description: Option<string>)

  function Lines(d: Disk, es: seq<Entry>, dir: Path, level: nat): seq<Line>
    decreases es
  {
    if es == [] then [] else Block(d, es[0], dir, level) + Lines(d, es[1..], dir, level)
  }

  /** A category's bullet, then its children one level in. */
  function Block(d: Disk, e: Entry, dir: Path, level: nat): seq<Line>
    decreases e
  {
    match e
    case Skill(name, description) => [Line(level, name, None, description)]
    case Category(name, description, children, expanded) =>
      var sub := dir + [name];
      var shown := if expanded then CountEntries(children) else CountChildren(d, sub);
      [Line(level, name, Some(shown), description)] + (if expanded then Lines(d, children, sub, level + 1) else [])
  }

  /** How many categories were left unexpanded. */
  function Unexpanded(es: seq<Entry>): nat
    decreases es
  {
    if es == [] then 0 else UnexpandedIn(es[0]) + Unexpanded(es[1..])
  }

  function UnexpandedIn(e: Entry): nat
    decreases e
  {
    if e.Skill? then 0 else if e.expanded then Unexpanded(e.children) else 1
  }

  /** render_entries: `out` grows by the entries' lines, `unexpanded` by their unexpanded categories. */
  method RenderEntries(d: Disk, es: seq<Entry>, dir: Path, level: nat, out: seq<Line>, unexpanded: nat)
    returns (out': seq<Line>, unexpanded': nat)
    ensures out' == out + Lines(d, es, dir, level)
    ensures unexpanded' == unexpanded + Unexpanded(es)
    decreases es
  {
    out', unexpanded' := out, unexpanded;
    for k := 0 to |es|
      invariant out' + Lines(d, es[k..], dir, level) == out + Lines(d, es, dir, level)
      invariant unexpanded' + Unexpanded(es[k..]) == unexpanded + Unexpanded(es)
    {
      assert es[k..][1..] == es[k + 1..];
      match es[k]
      case Skill(name, description) => out' := out' + [Line(level, name, None, description)];
      case Category(name, description, children, expanded) =>
        var sub := dir + [name];
        var count;
        if expanded {
          count := CountEntries(children);
        } else {
          unexpanded' := unexpanded' + 1;
          count := CountChildren(d, sub);
        }
        out' := out' + [Line(level, name, Some(count), description)];
        if expanded { out', unexpanded' := RenderEntries(d, children, sub, level + 1, out', unexpanded'); }
    }
  }

  datatype Index = Index(lines: seq<Line>, footer: bool)

  function Clamped(depth: nat): (levels: nat)
    ensures 1 <= levels <= 10
    ensures 1 <= depth <= 10 ==> levels == depth
    ensures depth > 10 ==> levels == 10
  {
    if depth < 1 then 1 else if depth > MAX_INDEX_DEPTH then MAX_INDEX_DEPTH else depth
  }

  /** The listing of a directory to a depth of `budget + 1` levels. */
  function Listing(d: Disk, dir: Path, budget: nat): seq<Line> { Lines(d, Nested(d, dir, budget), dir, 0) }

  /** render_skill_index. */
  method RenderSkillIndex(d: Disk, dir: Path, depth: nat) returns (r: Option<Index>)
    ensures r.None? <==> d.list(dir).None?
    ensures r.Some? ==> r.value.lines == Listing(d, dir, Clamped(depth) - 1)
    ensures r.Some? ==> DeepOrdered(Nested(d, dir, Clamped(depth) - 1))
    ensures r.Some? ==> Bullets(d, r.value.lines, Nested(d, dir, Clamped(depth) - 1), 0)
    ensures r.Some? ==>
              (r.value.footer <==>
               exists k :: 0 <= k < |r.value.lines| && AtLevel(r.value.lines[k], Clamped(depth) - 1))
  {
    var budget := Clamped(depth) - 1;
    var entries := CollectEntries(d, dir, budget);
    if entries.None? { return None; }
    var lines, unexpanded := RenderEntries(d, entries.value, dir, 0, [], 0);
    FooterExactly(d, dir, budget);
    TopBullets(d, entries.value, dir, 0);
    r := Some(Index(lines, unexpanded > 0));
  }

  // ------------------------------------------------------------------ what a listing says

  /** A category at the last rendered level. */
  predicate AtLevel(l: Line, level: nat) { l.count.Some? && l.level == level }

  ghost predicate SomeAt(ls: seq<Line>, level: nat) { exists k :: 0 <= k < |ls| && AtLevel(ls[k], level) }

  /** Entries collected from `dir`: expanded while the budget lasts, each holding its own directory's listing. */
  ghost predicate Faithful(d: Disk, es: seq<Entry>, dir: Path, budget: nat) {
    forall k :: 0 <= k < |es| ==> FaithfulEntry(d, es[k], dir, budget)
  }

  predicate FaithfulEntry(d: Disk, e: Entry, dir: Path, budget: nat) {
    e.Category? ==>
      && e.expanded == (budget > 0)
      && e.children == if budget > 0 then Nested(d, dir + [e.name], budget - 1) else []
  }

  lemma {:induction false} InsertKeeps(d: Disk, e: Entry, es: seq<Entry>, dir: Path, budget: nat)
    requires FaithfulEntry(d, e, dir, budget) && Faithful(d, es, dir, budget)
    ensures Faithful(d, Insert(e, es), dir, budget)
  {
    if es != [] && !Le(e, es[0]) { InsertKeeps(d, e, es[1..], dir, budget); }
  }

  lemma {:induction false} SortKeeps(d: Disk, es: seq<Entry>, dir: Path, budget: nat)
    requires Faithful(d, es, dir, budget)
    ensures Faithful(d, Sort(es), dir, budget)
  {
    if es != [] {
      SortKeeps(d, es[1..], dir, budget);
      InsertKeeps(d, es[0], Sort(es[1..]), dir, budget);
    }
  }

  lemma {:induction false} GatheredFaithful(d: Disk, dir: Path, items: seq<Item>, budget: nat)
    ensures Faithful(d, Gathered(d, dir, items, budget), dir, budget)
    decreases |items|
  {
    if items != [] { GatheredFaithful(d, dir, items[..|items| - 1], budget); }
  }

  /** Every category a listing expands holds exactly the listing of its own directory, one level shallower. */
  lemma NestedFaithful(d: Disk, dir: Path, budget: nat)
    ensures Faithful(d, Nested(d, dir, budget), dir, budget)
  {
    if d.list(dir).Some? {
      GatheredFaithful(d, dir, d.list(dir).value, budget);
      SortKeeps(d, Gathered(d, dir, d.list(dir).value, budget), dir, budget);
    }
  }

  function Shifted(ls: seq<Line>): seq<Line> {
    seq(|ls|, k requires 0 <= k < |ls| => ls[k].(level := ls[k].level + 1))
  }

  lemma ShiftConcat(a: seq<Line>, b: seq<Line>)
    ensures Shifted(a + b) == Shifted(a) + Shifted(b)
  {}

  lemma {:induction false} LinesShift(d: Disk, es: seq<Entry>, dir: Path, level: nat)
    ensures Lines(d, es, dir, level + 1) == Shifted(Lines(d, es, dir, level))
    decreases es
  {
    if es != [] {
      LinesShift(d, es[1..], dir, level);
      ShiftConcat(Block(d, es[0], dir, level), Lines(d, es[1..], dir, level));
      match es[0]
      case Skill(_, _) =>
      case Category(name, description, children, expanded) =>
        if expanded {
          LinesShift(d, children, dir + [name], level + 1);
          var head := [Block(d, es[0], dir, level)[0]];
          ShiftConcat(head, Lines(d, children, dir + [name], level + 1));
        }
    }
  }

  /** The lines of a listing, read off the directory itself: under every expanded category stands that directory's own listing. */
  function Unfolded(d: Disk, es: seq<Entry>, dir: Path, budget: nat): seq<Line>
    decreases es
  {
    if es == [] then []
    else
      (match es[0]
       case Skill(name, description) => [Line(0, name, None, description)]
       case Category(name, description, _, _) =>
         [Line(0, name, Some(if budget > 0 then CountEntries(Nested(d, dir + [name], budget - 1)) else CountChildren(d, dir + [name])), description)] +
         (if budget > 0 then Shifted(Listing(d, dir + [name], budget - 1)) else [])) +
      Unfolded(d, es[1..], dir, budget)
  }

  lemma {:induction false} LinesUnfold(d: Disk, es: seq<Entry>, dir: Path, budget: nat)
    requires Faithful(d, es, dir, budget)
    ensures Lines(d, es, dir, 0) == Unfolded(d, es, dir, budget)
    decreases es
  {
    if es != [] {
      assert FaithfulEntry(d, es[0], dir, budget);
      assert Faithful(d, es[1..], dir, budget);
      LinesUnfold(d, es[1..], dir, budget);
      if es[0].Category? && budget > 0 { LinesShift(d, es[0].children, dir + [es[0].name], 0); }
    }
  }

  /** A listing is made of smaller listings: each expanded category is followed by its own directory's listing, one indent in. */
  lemma SelfSimilar(d: Disk, dir: Path, budget: nat)
    ensures Listing(d, dir, budget) == Unfolded(d, Nested(d, dir, budget), dir, budget)
  {
    NestedFaithful(d, dir, budget);
    LinesUnfold(d, Nested(d, dir, budget), dir, budget);
  }

  lemma SomeAtConcat(a: seq<Line>, b: seq<Line>, level: nat)
    ensures SomeAt(a + b, level) <==> SomeAt(a, level) || SomeAt(b, level)
  {
    if SomeAt(a, level) {
      var k :| 0 <= k < |a| && AtLevel(a[k], level);
      assert (a + b)[k] == a[k];
    }
    if SomeAt(b, level) {
      var k :| 0 <= k < |b| && AtLevel(b[k], level);
      assert (a + b)[|a| + k] == b[k];
    }
  }

  lemma {:induction false} UnexpandedExactly(d: Disk, es: seq<Entry>, dir: Path, level: nat, budget: nat)
    requires Faithful(d, es, dir, budget)
    ensures Unexpanded(es) > 0 <==> SomeAt(Lines(d, es, dir, level), level + budget)
    decreases es
  {
    if es != [] {
      assert Faithful(d, es[1..], dir, budget);
      UnexpandedExactly(d, es[1..], dir, level, budget);
      SomeAtConcat(Block(d, es[0], dir, level), Lines(d, es[1..], dir, level), level + budget);
      assert FaithfulEntry(d, es[0], dir, budget);
      match es[0]
      case Skill(_, _) =>
      case Category(name, description, children, expanded) =>
        var head := [Block(d, es[0], dir, level)[0]];
        assert head[0].count.Some? && head[0].level == level;
        if expanded {
          NestedFaithful(d, dir + [name], budget - 1);
          UnexpandedExactly(d, children, dir + [name], level + 1, budget - 1);
          SomeAtConcat(head, Lines(d, children, dir + [name], level + 1), level + budget);
        } else {
          assert AtLevel(Block(d, es[0], dir, level)[0], level + budget);
        }
    }
  }

  /** The drill-in footer stands exactly when some category sits at the last rendered level. */
  lemma FooterExactly(d: Disk, dir: Path, budget: nat)
    ensures Unexpanded(Nested(d, dir, budget)) > 0 <==> SomeAt(Listing(d, dir, budget), budget)
  {
    NestedFaithful(d, dir, budget);
    UnexpandedExactly(d, Nested(d, dir, budget), dir, 0, budget);
  }

  // ------------------------------------------------------------------ depths

  /** The same entry collected with another budget. */
  function Reexpanded(d: Disk, e: Entry, dir: Path, budget: nat): Entry {
    match e
    case Skill(_, _) => e
    case Category(name, description, _, _) =>
      Category(name, description, if budget > 0 then Nested(d, dir + [name], budget - 1) else [], budget > 0)
  }

  function AllReexpanded(d: Disk, es: seq<Entry>, dir: Path, budget: nat): (r: seq<Entry>)
    ensures |r| == |es|
  {
    if es == [] then [] else [Reexpanded(d, es[0], dir, budget)] + AllReexpanded(d, es[1..], dir, budget)
  }

  lemma {:induction false} ReexpandConcat(d: Disk, a: seq<Entry>, b: seq<Entry>, dir: Path, budget: nat)
    ensures AllReexpanded(d, a + b, dir, budget) == AllReexpanded(d, a, dir, budget) + AllReexpanded(d, b, dir, budget)
  {
    if a == [] {
      assert a + b == b;
    } else {
      assert (a + b)[1..] == a[1..] + b;
      ReexpandConcat(d, a[1..], b, dir, budget);
    }
  }

  lemma {:induction false} ReexpandGathered(d: Disk, dir: Path, items: seq<Item>, b: nat, budget: nat)
    ensures AllReexpanded(d, Gathered(d, dir, items, b), dir, budget) == Gathered(d, dir, items, budget)
    decreases |items|
  {
    if items != [] {
      var n := |items| - 1;
      ReexpandGathered(d, dir, items[..n], b, budget);
      ReexpandConcat(d, Gathered(d, dir, items[..n], b), EntryOf(d, dir, items[n], b), dir, budget);
    }
  }

  lemma {:induction false} ReexpandInsert(d: Disk, e: Entry, es: seq<Entry>, dir: Path, budget: nat)
    ensures AllReexpanded(d, Insert(e, es), dir, budget) ==
            Insert(Reexpanded(d, e, dir, budget), AllReexpanded(d, es, dir, budget))
  {
    ReexpandConcat(d, [e], es, dir, budget);
    assert [e][1..] == [];
    if es != [] && !Le(e, es[0]) {
      ReexpandInsert(d, e, es[1..], dir, budget);
      ReexpandConcat(d, [es[0]], Insert(e, es[1..]), dir, budget);
      assert [es[0]][1..] == [];
      assert AllReexpanded(d, es, dir, budget)[1..] == AllReexpanded(d, es[1..], dir, budget);
    }
  }

  lemma {:induction false} ReexpandSort(d: Disk, es: seq<Entry>, dir: Path, budget: nat)
    ensures AllReexpanded(d, Sort(es), dir, budget) == Sort(AllReexpanded(d, es, dir, budget))
  {
    if es != [] {
      ReexpandSort(d, es[1..], dir, budget);
      ReexpandInsert(d, es[0], Sort(es[1..]), dir, budget);
      assert AllReexpanded(d, es, dir, budget)[1..] == AllReexpanded(d, es[1..], dir, budget);
    }
  }

  /** The order and the kinds of a level do not depend on how deep the walk goes. */
  lemma NestedReexpands(d: Disk, dir: Path, b: nat, budget: nat)
    ensures AllReexpanded(d, Nested(d, dir, b), dir, budget) == Nested(d, dir, budget)
  {
    if d.list(dir).Some? {
      ReexpandGathered(d, dir, d.list(dir).value, b, budget);
      ReexpandSort(d, Gathered(d, dir, d.list(dir).value, b), dir, budget);
    }
  }

  /** Every skill file on the disk can be read. */
  ghost predicate Readable(d: Disk) { forall dir :: d.list(dir).Some? ==> ReadableItems(d.list(dir).value) }

  /** The lines down to a level. */
  function Upto(ls: seq<Line>, level: nat): seq<Line> {
    if ls == [] then []
    else (if ls[0].level <= level then [ls[0]] else []) + Upto(ls[1..], level)
  }

  lemma {:induction false} UptoConcat(a: seq<Line>, b: seq<Line>, level: nat)
    ensures Upto(a + b, level) == Upto(a, level) + Upto(b, level)
  {
    if a == [] {
      assert a + b == b;
    } else {
      assert (a + b)[1..] == a[1..] + b;
      UptoConcat(a[1..], b, level);
      var head := if a[0].level <= level then [a[0]] else [];
      assert Upto(a + b, level) == head + (Upto(a[1..], level) + Upto(b, level));
    }
  }

  lemma {:induction false} LinesLieBelow(d: Disk, es: seq<Entry>, dir: Path, level: nat, above: nat)
    requires above < level
    ensures Upto(Lines(d, es, dir, level), above) == []
    decreases es
  {
    if es != [] {
      LinesLieBelow(d, es[1..], dir, level, above);
      UptoConcat(Block(d, es[0], dir, level), Lines(d, es[1..], dir, level), above);
      match es[0]
      case Skill(_, _) =>
      case Category(name, description, children, expanded) =>
        if expanded { LinesLieBelow(d, children, dir + [name], level + 1, above); }
        var head := [Block(d, es[0], dir, level)[0]];
        UptoConcat(head, Block(d, es[0], dir, level)[1..], above);
        assert head + Block(d, es[0], dir, level)[1..] == Block(d, es[0], dir, level);
    }
  }

  /** What stands under a category, cut back by a level. */
  lemma {:induction false} BelowCut(d: Disk, sub: Path, level: nat, budget: nat)
    requires Readable(d)
    ensures Upto(Lines(d, Nested(d, sub, budget), sub, level + 1), level + budget) ==
            if budget > 0 then Lines(d, Nested(d, sub, budget - 1), sub, level + 1) else []
    decreases budget, 0
  {
    hide Nested, Readable, Lines, Upto, FaithfulEntry;
    if budget == 0 {
      LinesLieBelow(d, Nested(d, sub, budget), sub, level + 1, level);
    } else {
      NestedFaithful(d, sub, budget);
      LinesCut(d, Nested(d, sub, budget), sub, level + 1, budget - 1);
      NestedReexpands(d, sub, budget, budget - 1);
    }
  }

  /** A category's bullet reads the same at either depth. */
  lemma SameBullet(d: Disk, sub: Path, budget: nat)
    requires Readable(d)
    ensures CountEntries(Nested(d, sub, budget)) ==
            if budget > 0 then CountEntries(Nested(d, sub, budget - 1)) else CountChildren(d, sub)
  {
    LabelsAgreeExactly(d, sub, budget);
    if budget > 0 { LabelsAgreeExactly(d, sub, budget - 1); }
  }

  /** One category, cut back by a level: its bullet reads the same, and its children are cut back with it. */
  lemma {:induction false} BlockCut(d: Disk, e: Entry, dir: Path, level: nat, budget: nat)
    requires Readable(d) && FaithfulEntry(d, e, dir, budget + 1)
    ensures Upto(Block(d, e, dir, level), level + budget) == Block(d, Reexpanded(d, e, dir, budget), dir, level)
    decreases budget, 1
  {
    if e.Category? {
      var sub := dir + [e.name];
      SameBullet(d, sub, budget);
      BelowCut(d, sub, level, budget);
      var head := [Line(level, e.name, Some(CountEntries(e.children)), e.description)];
      UptoConcat(head, Lines(d, e.children, sub, level + 1), level + budget);
      hide Nested, CountEntries, CountChildren, Readable;
    }
  }

  lemma {:induction false} LinesCut(d: Disk, es: seq<Entry>, dir: Path, level: nat, budget: nat)
    requires Readable(d) && Faithful(d, es, dir, budget + 1)
    ensures Upto(Lines(d, es, dir, level), level + budget) ==
            Lines(d, AllReexpanded(d, es, dir, budget), dir, level)
    decreases budget, 2, |es|
  {
    if es != [] {
      assert FaithfulEntry(d, es[0], dir, budget + 1) && Faithful(d, es[1..], dir, budget + 1);
      BlockCut(d, es[0], dir, level, budget);
      LinesCut(d, es[1..], dir, level, budget);
      UptoConcat(Block(d, es[0], dir, level), Lines(d, es[1..], dir, level), level + budget);
      assert AllReexpanded(d, es, dir, budget)[1..] == AllReexpanded(d, es[1..], dir, budget);
    }
  }

  /** Going one level deeper only adds lines: cut back to the shallower levels, the deeper index is the shallower one. */
  lemma DeeperOnlyAdds(d: Disk, dir: Path, budget: nat)
    requires Readable(d)
    ensures Upto(Listing(d, dir, budget + 1), budget) == Listing(d, dir, budget)
  {
    NestedFaithful(d, dir, budget + 1);
    LinesCut(d, Nested(d, dir, budget + 1), dir, 0, budget);
    NestedReexpands(d, dir, budget + 1, budget);
  }

  // ------------------------------------------------------------------ bullets

  /** The lines of one level are its entries' bullets, in the entries' order. */
  ghost predicate Bullets(d: Disk, ls: seq<Line>, es: seq<Entry>, level: nat) {
    var top := Upto(ls, level);
    |top| == |es| &&
    forall k :: 0 <= k < |es| ==> BulletOf(top[k], es[k], level)
  }

  predicate BulletOf(l: Line, e: Entry, level: nat) {
    l.level == level && l.name == e.name && l.description == e.description && (l.count.Some? <==> e.Category?)
  }

  /** Of an entry's lines only its own bullet stands at its level. */
  lemma BlockTop(d: Disk, e: Entry, dir: Path, level: nat)
    ensures
      var top := Upto(Block(d, e, dir, level), level);
      |top| == 1 && BulletOf(top[0], e, level)
  {
    var block := Block(d, e, dir, level);
    var head := [block[0]];
    assert head[1..] == [] && Upto(head, level) == head;
    if e.Category? && e.expanded {
      var sub := dir + [e.name];
      LinesLieBelow(d, e.children, sub, level + 1, level);
      UptoConcat(head, Lines(d, e.children, sub, level + 1), level);
    }
    hide Upto, Lines;
  }

  lemma {:induction false} TopBullets(d: Disk, es: seq<Entry>, dir: Path, level: nat)
    ensures Bullets(d, Lines(d, es, dir, level), es, level)
  {
    if es != [] {
      TopBullets(d, es[1..], dir, level);
      BlockTop(d, es[0], dir, level);
      UptoConcat(Block(d, es[0], dir, level), Lines(d, es[1..], dir, level), level);
      hide Block, BulletOf, Upto;
    }
  }
}
