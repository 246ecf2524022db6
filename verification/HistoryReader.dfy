/**
 The restart paths that read the history log newest-first and stop early, against the
 meaning of the whole log.
 */
module HistoryReader {
  import opened Wrappers
  import opened HistoryLog

  // ------------------------------------------------------------------ the log as it is scanned

  lemma {:induction false} FlatSnoc(files: seq<File>, f: File)
    ensures Flat(files + [f]) == Flat(files) + LinesOf(f)
  {
    if files == [] {
      assert files + [f] == [f];
      assert Flat([f]) == LinesOf(f) + Flat([]);
    } else {
      assert (files + [f])[1..] == files[1..] + [f];
      FlatSnoc(files[1..], f);
    }
  }

  /** The scan has read `done` and still has `front` and the first `fi` files to go. */
  ghost predicate Split(files: seq<File>, fi: nat, front: seq<Line>, done: seq<Line>) {
    fi <= |files| && Flat(files) == Flat(files[..fi]) + front + done
  }

  lemma NextFile(files: seq<File>, fi: nat, done: seq<Line>)
    requires 0 < fi && Split(files, fi, [], done)
    ensures Split(files, fi - 1, LinesOf(files[fi - 1]), done)
  {
    assert files[..fi] == files[..fi - 1] + [files[fi - 1]];
    FlatSnoc(files[..fi - 1], files[fi - 1]);
  }

  lemma NextLine(files: seq<File>, fi: nat, front: seq<Line>, done: seq<Line>)
    requires front != [] && Split(files, fi, front, done)
    ensures Split(files, fi, front[..|front| - 1], [front[|front| - 1]] + done)
  {
    assert front == front[..|front| - 1] + [front[|front| - 1]];
  }

  // ------------------------------------------------------------------ hydrate_turns

  ghost predicate Found(done: seq<Line>, ids: set<nat>, id: nat) { id in ids && LastFor(done, id).Some? }

  /** `turns` holds one entry for each found id, from its newest record. */
  ghost predicate TurnsOf(turns: seq<TurnEntry>, done: seq<Line>, ids: set<nat>) {
    && (forall i :: 0 <= i < |turns| ==>
          Found(done, ids, turns[i].id) && turns[i] == EntryOf(LastFor(done, turns[i].id).value))
    && (forall i, j :: 0 <= i < j < |turns| ==> turns[i].id != turns[j].id)
    && (forall id: nat :: Found(done, ids, id) ==> exists i :: 0 <= i < |turns| && turns[i].id == id)
  }

  ghost predicate SidecarOf(sidecar: map<nat, seq<string>>, done: seq<Line>, ids: set<nat>) {
    forall id: nat ::
      (id in sidecar <==> Found(done, ids, id) && LastFor(done, id).value.attachments != []) &&
      (id in sidecar ==> sidecar[id] == LastFor(done, id).value.attachments)
  }

  ghost predicate Hydrating(
    done: seq<Line>, ids: set<nat>, wanted: set<nat>, turns: seq<TurnEntry>, sidecar: map<nat, seq<string>>, bad: nat)
  {
    && (forall id: nat :: id in wanted <==> id in ids && LastFor(done, id).None?)
    && TurnsOf(turns, done, ids) && SidecarOf(sidecar, done, ids)
    && bad == CountBad(done)
    && (ids != {} ==> forall m :: 0 < m <= |done| ==> !AllFound(done[m..], ids))
  }

  /** Prepending one older line changes the newest record of at most the turn it carries. */
  lemma Prepend(l: Line, done: seq<Line>, id: nat)
    ensures LastFor([l] + done, id) ==
            if LastFor(done, id).Some? then LastFor(done, id)
            else if IsTurnFor(l, id) then Some(l.record) else None
    ensures CountBad([l] + done) == (if l.Bad? then 1 else 0) + CountBad(done)
  {
    assert ([l] + done)[1..] == done;
  }

  lemma PrependAll(l: Line, done: seq<Line>)
    ensures forall id: nat :: LastFor([l] + done, id) ==
                              if LastFor(done, id).Some? then LastFor(done, id)
                              else if IsTurnFor(l, id) then Some(l.record) else None
  {
    forall id: nat { Prepend(l, done, id); }
  }

  /** The turn on a line, when it is still wanted, joins the entries. */
  lemma TakeTurn(l: Line, done: seq<Line>, ids: set<nat>, turns: seq<TurnEntry>)
    requires TurnsOf(turns, done, ids)
    ensures
      var takes := IsTurn(l) && l.record.turnId.value in ids && LastFor(done, l.record.turnId.value).None?;
      TurnsOf(if takes then turns + [EntryOf(l.record)] else turns, [l] + done, ids)
  {
    PrependAll(l, done);
    hide LastFor;
    if IsTurn(l) && l.record.turnId.value in ids && LastFor(done, l.record.turnId.value).None? {
      var id0 := l.record.turnId.value;
      var more := turns + [EntryOf(l.record)];
      forall id: nat | Found([l] + done, ids, id) ensures exists i :: 0 <= i < |more| && more[i].id == id {
        if id == id0 {
          assert more[|turns|].id == id;
        } else {
          assert Found(done, ids, id);
          var i :| 0 <= i < |turns| && turns[i].id == id;
          assert more[i].id == id;
        }
      }
    } else {
      assert forall id: nat :: Found([l] + done, ids, id) ==> Found(done, ids, id);
    }
  }

  lemma TakeSidecar(l: Line, done: seq<Line>, ids: set<nat>, sidecar: map<nat, seq<string>>)
    requires SidecarOf(sidecar, done, ids)
    ensures
      var takes := IsTurn(l) && l.record.turnId.value in ids && LastFor(done, l.record.turnId.value).None?;
      SidecarOf(
        if takes && l.record.attachments != [] then sidecar[l.record.turnId.value := l.record.attachments] else sidecar,
        [l] + done, ids)
  {
    PrependAll(l, done);
    hide LastFor;
  }

  /** The scan was not complete before this line, so no shorter stretch finds every id. */
  lemma StillScanning(l: Line, done: seq<Line>, ids: set<nat>)
    requires !AllFound(done, ids)
    requires forall m :: 0 < m <= |done| ==> !AllFound(done[m..], ids)
    ensures forall m :: 0 < m <= |[l] + done| ==> !AllFound(([l] + done)[m..], ids)
  {
    hide AllFound;
    var next := [l] + done;
    forall m | 0 < m <= |next| ensures !AllFound(next[m..], ids) {
      assert next[m..] == done[m - 1..];
      assert done[0..] == done;
    }
  }

  /** One line of the scan: drop it, count it, or take its turn. */
  lemma HydrateLine(
    l: Line, done: seq<Line>, ids: set<nat>, wanted: set<nat>, turns: seq<TurnEntry>,
    sidecar: map<nat, seq<string>>, bad: nat)
    requires Hydrating(done, ids, wanted, turns, sidecar, bad)
    requires ids != {} ==> wanted != {}
    ensures
      var takes := IsTurn(l) && l.record.turnId.value in wanted;
      Hydrating(
        [l] + done, ids,
        if takes then wanted - {l.record.turnId.value} else wanted,
        if takes then turns + [EntryOf(l.record)] else turns,
        if takes && l.record.attachments != [] then sidecar[l.record.turnId.value := l.record.attachments] else sidecar,
        bad + if l.Bad? then 1 else 0)
  {
    TakeTurn(l, done, ids, turns);
    TakeSidecar(l, done, ids, sidecar);
    if ids != {} {
      var w :| w in wanted;
      assert LastFor(done, w).None?;
      StillScanning(l, done, ids);
    }
    PrependAll(l, done);
    Prepend(l, done, 0);
    hide TurnsOf, SidecarOf, LastFor;
  }

  /** Once every id is found, the older rest of the log cannot change the answer. */
  lemma NothingOlderMatters(older: seq<Line>, done: seq<Line>, ids: set<nat>)
    requires AllFound(done, ids)
    ensures forall id: nat :: id in ids ==> LastFor(older + done, id) == LastFor(done, id)
  {
    forall id: nat | id in ids ensures LastFor(older + done, id) == LastFor(done, id) {
      LastForSuffix(older, done, id);
    }
  }

  function SetOf(ids: seq<nat>): set<nat> { set id | id in ids }

  ghost predicate Ascending(ts: seq<TurnEntry>) { forall i, j :: 0 <= i < j < |ts| ==> ts[i].id < ts[j].id }

  /**
   hydrate_turns: one entry per wanted id that has a record, each from the newest parseable turn
   record in the whole log, strictly ascending; the rest are missing. The early exit shows only
   in how many damaged lines were met.
   */
  method HydrateTurns(files: seq<File>, ids: seq<nat>)
    returns (turns: seq<TurnEntry>, badLines: nat, missing: seq<nat>, sidecar: map<nat, seq<string>>)
    ensures TurnsOf(turns, Flat(files), SetOf(ids)) && Ascending(turns)
    ensures SidecarOf(sidecar, Flat(files), SetOf(ids))
    ensures forall t :: t in turns ==> t.id in ids && Restored(Flat(files), t, sidecar)
    ensures forall id: nat :: id in ids && (exists i: nat :: NewestAt(Flat(files), id, i)) ==> exists t :: t in turns && t.id == id
    ensures forall id: nat :: id in missing <==> id in ids && LastFor(Flat(files), id).None?
    ensures forall i, j :: 0 <= i < j < |missing| ==> missing[i] < missing[j]
    ensures exists k: nat :: k <= |Flat(files)| && StopsAt(Flat(files), SetOf(ids), k) && badLines == CountBad(Flat(files)[k..])
  {
    hide Split, Hydrating, TurnsOf, SidecarOf, LastFor, Flat, CountBad, StopsAt;
    ghost var all := SetOf(ids);
    var wanted := SetOf(ids);
    turns, badLines, sidecar := [], 0, map[];
    ghost var done: seq<Line> := [];
    ghost var front: seq<Line> := [];
    var fi := |files|;
    HydrateStart(files, all);
    var complete := false;
    while fi > 0 && !complete
      invariant 0 <= fi <= |files|
      invariant Split(files, fi, front, done) && (!complete ==> front == [])
      invariant Hydrating(done, all, wanted, turns, sidecar, badLines)
      invariant wanted <= all && if complete then all != {} && wanted == {} else all != {} ==> wanted != {}
      decreases fi
    {
      NextFile(files, fi, done);
      fi := fi - 1;
      front := LinesOf(files[fi]);
      if files[fi].None? { continue; }
      var lines := files[fi].value;
      var li := |lines|;
      assert lines[..li] == lines;
      while li > 0 && !complete
        invariant 0 <= li <= |lines| && front == lines[..li]
        invariant Split(files, fi, front, done)
        invariant Hydrating(done, all, wanted, turns, sidecar, badLines)
        invariant wanted <= all && if complete then all != {} && wanted == {} else all != {} ==> wanted != {}
        decreases li
      {
        NextLine(files, fi, front, done);
        li := li - 1;
        var l := lines[li];
        assert front[..li] == lines[..li];
        HydrateLine(l, done, all, wanted, turns, sidecar, badLines);
        done, front := [l] + done, lines[..li];
        match l
        case Blank =>
        case Bad => badLines := badLines + 1;
        case Rec(rec) =>
          if rec.kind.Turn? && rec.turnId.Some? && rec.turnId.value in wanted {
            var id := rec.turnId.value;
            wanted := wanted - {id};
            if rec.attachments != [] { sidecar := sidecar[id := rec.attachments]; }
            turns := turns + [EntryOf(rec)];
            if wanted == {} { complete := true; }
          }
      }
    }
    HydrateEnd(files, fi, front, done, all, wanted, turns, sidecar, badLines);
    missing := SortedIds(wanted);
    turns := SortById(turns, Flat(files), all);
    HydratedCarry(Flat(files), all, turns, sidecar);
    assert forall id: nat :: id in ids ==> id in all;
  }

  /** In the log's own terms: each entry carries its last record, and no wanted turn with a record is left out. */
  lemma HydratedCarry(lines: seq<Line>, ids: set<nat>, turns: seq<TurnEntry>, sidecar: map<nat, seq<string>>)
    requires TurnsOf(turns, lines, ids) && SidecarOf(sidecar, lines, ids)
    ensures forall t :: t in turns ==> t.id in ids && Restored(lines, t, sidecar)
    ensures forall id: nat :: id in ids && (exists i: nat :: NewestAt(lines, id, i)) ==> exists t :: t in turns && t.id == id
  {
    hide LastFor;
    forall t | t in turns ensures t.id in ids && Restored(lines, t, sidecar) {
      LastForIsNewest(lines, t.id);
      assert Found(lines, ids, t.id);
      var i: nat :| NewestAt(lines, t.id, i) && lines[i].record == LastFor(lines, t.id).value;
    }
    forall id: nat | id in ids && (exists i: nat :: NewestAt(lines, id, i)) ensures exists t :: t in turns && t.id == id {
      LastForIsNewest(lines, id);
      assert Found(lines, ids, id);
      var i :| 0 <= i < |turns| && turns[i].id == id;
      assert turns[i] in turns;
    }
  }

  lemma HydrateStart(files: seq<File>, ids: set<nat>)
    ensures Split(files, |files|, [], []) && Hydrating([], ids, ids, [], map[], 0)
  {
    assert files[..|files|] == files;
  }

  /** A scan that ended, with every id found or nothing left to read, speaks for the whole log. */
  lemma HydrateEnd(
    files: seq<File>, fi: nat, front: seq<Line>, done: seq<Line>, ids: set<nat>, wanted: set<nat>,
    turns: seq<TurnEntry>, sidecar: map<nat, seq<string>>, bad: nat)
    requires Split(files, fi, front, done) && Hydrating(done, ids, wanted, turns, sidecar, bad)
    requires (ids != {} && wanted == {}) || (fi == 0 && front == [])
    ensures TurnsOf(turns, Flat(files), ids) && SidecarOf(sidecar, Flat(files), ids)
    ensures forall id: nat :: id in wanted <==> id in ids && LastFor(Flat(files), id).None?
    ensures exists k: nat :: k <= |Flat(files)| && StopsAt(Flat(files), ids, k) && bad == CountBad(Flat(files)[k..])
  {
    var older := Flat(files[..fi]) + front;
    assert Flat(files) == older + done;
    if fi == 0 && front == [] {
      assert files[..0] == [] && older == [];
      assert older + done == done;
    } else {
      NothingOlderMatters(older, done, ids);
    }
    StopPoint(older, done, ids);
    SameAnswers(done, Flat(files), ids, turns, sidecar);
    hide LastFor, StopsAt, CountBad, Flat, TurnsOf, SidecarOf;
  }

  /** Two logs that agree on the newest records of `ids` hydrate alike. */
  lemma SameAnswers(a: seq<Line>, b: seq<Line>, ids: set<nat>, turns: seq<TurnEntry>, sidecar: map<nat, seq<string>>)
    requires forall id: nat :: id in ids ==> LastFor(a, id) == LastFor(b, id)
    requires TurnsOf(turns, a, ids) && SidecarOf(sidecar, a, ids)
    ensures TurnsOf(turns, b, ids) && SidecarOf(sidecar, b, ids)
  {
    hide LastFor;
    assert forall id: nat :: Found(b, ids, id) ==> Found(a, ids, id);
  }

  lemma StopPoint(older: seq<Line>, done: seq<Line>, ids: set<nat>)
    requires older == [] || (ids != {} && AllFound(done, ids))
    requires ids != {} ==> forall m :: 0 < m <= |done| ==> !AllFound(done[m..], ids)
    ensures StopsAt(older + done, ids, |older|) && (older + done)[|older|..] == done
  {
    var lines := older + done;
    assert lines[|older|..] == done;
    forall m | ids != {} && |older| < m <= |lines| ensures !AllFound(lines[m..], ids) {
      assert lines[m..] == done[m - |older|..];
    }
  }

  /** sort_by_key on the turn id. */
  method SortById(turns: seq<TurnEntry>, ghost done: seq<Line>, ghost ids: set<nat>) returns (sorted: seq<TurnEntry>)
    requires TurnsOf(turns, done, ids)
    ensures TurnsOf(sorted, done, ids) && Ascending(sorted)
  {
    hide LastFor;
    sorted := [];
    for i := 0 to |turns|
      invariant Ascending(sorted)
      invariant forall t :: t in sorted <==> t in turns[..i]
    {
      var k := 0;
      while k < |sorted| && sorted[k].id < turns[i].id
        invariant 0 <= k <= |sorted|
        invariant forall j :: 0 <= j < k ==> sorted[j].id < turns[i].id
      {
        k := k + 1;
      }
      assert turns[..i + 1] == turns[..i] + [turns[i]];
      forall j | 0 <= j < |sorted| ensures sorted[j].id != turns[i].id {
        assert sorted[j] in turns[..i];
      }
      sorted := sorted[..k] + [turns[i]] + sorted[k..];
    }
    assert turns[..|turns|] == turns;
    forall i | 0 <= i < |sorted|
      ensures Found(done, ids, sorted[i].id) && sorted[i] == EntryOf(LastFor(done, sorted[i].id).value)
    {
      assert sorted[i] in turns;
    }
    forall id: nat | Found(done, ids, id) ensures exists i :: 0 <= i < |sorted| && sorted[i].id == id {
      var i :| 0 <= i < |turns| && turns[i].id == id;
      assert turns[i] in sorted;
    }
  }

  method SortedIds(s: set<nat>) returns (sorted: seq<nat>)
    ensures forall id: nat :: id in sorted <==> id in s
    ensures forall i, j :: 0 <= i < j < |sorted| ==> sorted[i] < sorted[j]
  {
    sorted := [];
    var left := s;
    while left != {}
      invariant left <= s
      invariant forall id: nat :: id in sorted <==> id in s && id !in left
      invariant forall i, j :: 0 <= i < j < |sorted| ==> sorted[i] < sorted[j]
      decreases left
    {
      var x :| x in left;
      var k := 0;
      while k < |sorted| && sorted[k] < x
        invariant 0 <= k <= |sorted|
        invariant forall j :: 0 <= j < k ==> sorted[j] < x
      {
        k := k + 1;
      }
      assert x !in sorted;
      sorted := sorted[..k] + [x] + sorted[k..];
      left := left - {x};
    }
  }

  // ------------------------------------------------------------------ tail_turns_within_budget

  function EntriesOf(rs: seq<Record>): seq<TurnEntry>
    requires forall i :: 0 <= i < |rs| ==> rs[i].turnId.Some?
  {
    seq(|rs|, i requires 0 <= i < |rs| => EntryOf(rs[i]))
  }

  /** The kept records, newest first, and what they carry. */
  ghost predicate Tailing(
    done: seq<Line>, budget: nat, seen: set<nat>, used: nat, turns: seq<TurnEntry>, sidecar: map<nat, seq<string>>)
  {
    && seen == Ids(Newest(done)) && turns == EntriesOf(Newest(done))
    && used == Sum(Newest(done)) && used <= budget
    && SidecarOf(sidecar, done, seen)
  }

  lemma TailTakes(l: Line, done: seq<Line>)
    ensures Newest([l] + done) ==
            if IsTurn(l) && l.record.turnId.value !in Ids(Newest(done)) then Newest(done) + [l.record] else Newest(done)
    ensures IsTurn(l) && l.record.turnId.value !in Ids(Newest(done)) ==>
              Ids(Newest([l] + done)) == Ids(Newest(done)) + {l.record.turnId.value} &&
              Sum(Newest([l] + done)) == Sum(Newest(done)) + l.record.tokens
  {
    assert ([l] + done)[1..] == done;
    if IsTurn(l) {
      IdsSnoc(Newest(done), l.record);
      SumSnoc(Newest(done), l.record);
    }
  }

  lemma TailSidecar(l: Line, done: seq<Line>, seen: set<nat>, sidecar: map<nat, seq<string>>)
    requires seen == Ids(Newest(done)) && SidecarOf(sidecar, done, seen)
    ensures
      var takes := IsTurn(l) && l.record.turnId.value !in seen;
      SidecarOf(
        if takes && l.record.attachments != [] then sidecar[l.record.turnId.value := l.record.attachments] else sidecar,
        [l] + done,
        if takes then seen + {l.record.turnId.value} else seen)
  {
    PrependAll(l, done);
    NewestIsLast(done);
    hide LastFor, Newest;
  }

  /** One line of the tail scan that does not cross the budget. */
  lemma TailLine(
    l: Line, done: seq<Line>, budget: nat, seen: set<nat>, used: nat, turns: seq<TurnEntry>,
    sidecar: map<nat, seq<string>>)
    requires Tailing(done, budget, seen, used, turns, sidecar)
    requires IsTurn(l) && l.record.turnId.value !in seen ==> used + l.record.tokens <= budget
    ensures
      var takes := IsTurn(l) && l.record.turnId.value !in seen;
      Tailing(
        [l] + done, budget,
        if takes then seen + {l.record.turnId.value} else seen,
        if takes then used + l.record.tokens else used,
        if takes then turns + [EntryOf(l.record)] else turns,
        if takes && l.record.attachments != [] then sidecar[l.record.turnId.value := l.record.attachments] else sidecar)
  {
    TailTakes(l, done);
    TailSidecar(l, done, seen, sidecar);
    hide Newest, SidecarOf;
  }

  ghost predicate TailAnswer(
    newest: seq<Record>, budget: nat, turns: seq<TurnEntry>, sidecar: map<nat, seq<string>>)
    requires forall i :: 0 <= i < |newest| ==> newest[i].turnId.Some?
  {
    && |turns| <= |newest| && LongestFit(newest, budget, |turns|)
    && (forall i :: 0 <= i < |turns| ==> turns[i] == EntryOf(newest[|turns| - 1 - i]))
    && (forall id: nat :: id in sidecar ==>
          exists i :: 0 <= i < |turns| && newest[i].turnId.value == id && newest[i].attachments != [])
    && (forall i :: 0 <= i < |turns| && newest[i].attachments != [] ==>
          newest[i].turnId.value in sidecar && sidecar[newest[i].turnId.value] == newest[i].attachments)
  }

  /**
   tail_turns_within_budget: of the distinct turns, newest first and each by its newest record, the
   longest run that fits the budget, handed back oldest first.
   */
  method TailTurnsWithinBudget(files: seq<File>, budget: nat)
    returns (turns: seq<TurnEntry>, sidecar: map<nat, seq<string>>)
    ensures TailAnswer(Newest(Flat(files)), budget, turns, sidecar)
    ensures forall t :: t in turns ==> Restored(Flat(files), t, sidecar)
  {
    hide Split, Tailing, Newest, Overflows, TailAnswer, Flat;
    turns, sidecar := [], map[];
    var used: nat, seen: set<nat> := 0, {};
    ghost var kept: set<nat> := {};
    ghost var done: seq<Line> := [];
    ghost var front: seq<Line> := [];
    var fi := |files|;
    TailStart(files, budget);
    var full := false;
    while fi > 0 && !full
      invariant 0 <= fi <= |files|
      invariant Split(files, fi, front, done) && Tailing(done, budget, kept, used, turns, sidecar)
      invariant if full then front != [] && Overflows(front[|front| - 1], kept, used, budget) else front == [] && seen == kept
      decreases fi
    {
      NextFile(files, fi, done);
      fi := fi - 1;
      front := LinesOf(files[fi]);
      if files[fi].None? { continue; }
      var lines := files[fi].value;
      var li := |lines|;
      assert lines[..li] == lines;
      while li > 0 && !full
        invariant 0 <= li <= |lines|
        invariant Split(files, fi, front, done) && Tailing(done, budget, kept, used, turns, sidecar)
        invariant if full then front != [] && Overflows(front[|front| - 1], kept, used, budget)
                  else front == lines[..li] && seen == kept
        decreases li
      {
        NextLine(files, fi, front, done);
        li := li - 1;
        var l := lines[li];
        assert front[..li] == lines[..li];
        if l.Rec? && l.record.kind.Turn? && l.record.turnId.Some? && l.record.turnId.value !in seen {
          var rec := l.record;
          var id := rec.turnId.value;
          seen := seen + {id};
          if used + rec.tokens > budget {
            full := true;
            CrossesBudget(l, kept, used, budget);
          } else {
            TailLine(l, done, budget, kept, used, turns, sidecar);
            used := used + rec.tokens;
            turns := turns + [EntryOf(rec)];
            if rec.attachments != [] { sidecar := sidecar[id := rec.attachments]; }
            done, front, kept := [l] + done, lines[..li], seen;
          }
        } else {
          TailLine(l, done, budget, kept, used, turns, sidecar);
          done, front := [l] + done, lines[..li];
        }
      }
    }
    TailStops(files, fi, front, done, budget, kept, used, turns, sidecar, full);
    ghost var newestFirst := turns;
    turns := Reverse(turns);
    TailReversed(Newest(Flat(files)), budget, newestFirst, turns, sidecar);
    TailCarry(Flat(files), budget, turns, sidecar);
  }

  /** In the log's own terms: each kept entry carries its last record. */
  lemma TailCarry(lines: seq<Line>, budget: nat, turns: seq<TurnEntry>, sidecar: map<nat, seq<string>>)
    requires TailAnswer(Newest(lines), budget, turns, sidecar)
    ensures forall t :: t in turns ==> Restored(lines, t, sidecar)
  {
    NewestIsLast(lines);
    var newest := Newest(lines);
    hide LastFor, Newest, LongestFit;
    forall t | t in turns ensures Restored(lines, t, sidecar) {
      var k :| 0 <= k < |turns| && turns[k] == t;
      var r := newest[|turns| - 1 - k];
      LastForIsNewest(lines, t.id);
      var i: nat :| NewestAt(lines, t.id, i) && lines[i].record == LastFor(lines, t.id).value;
    }
  }

  lemma TailStart(files: seq<File>, budget: nat)
    ensures Split(files, |files|, [], []) && Tailing([], budget, {}, 0, [], map[])
  {
    assert files[..|files|] == files;
  }

  /** A turn not yet kept whose estimate would cross the budget. */
  predicate Overflows(l: Line, kept: set<nat>, used: nat, budget: nat) {
    IsTurn(l) && l.record.turnId.value !in kept && used + l.record.tokens > budget
  }

  lemma CrossesBudget(l: Line, kept: set<nat>, used: nat, budget: nat)
    requires IsTurn(l) && l.record.turnId.value !in kept && used + l.record.tokens > budget
    ensures Overflows(l, kept, used, budget)
  {}

  /** The kept turns, still newest first, when the scan ends. */
  ghost predicate TailKept(newest: seq<Record>, budget: nat, turns: seq<TurnEntry>, sidecar: map<nat, seq<string>>)
    requires forall i :: 0 <= i < |newest| ==> newest[i].turnId.Some?
  {
    && |turns| <= |newest| && LongestFit(newest, budget, |turns|)
    && (forall i :: 0 <= i < |turns| ==> turns[i] == EntryOf(newest[i]))
    && (forall id: nat :: id in sidecar ==>
          exists i :: 0 <= i < |turns| && newest[i].turnId.value == id && newest[i].attachments != [])
    && (forall i :: 0 <= i < |turns| && newest[i].attachments != [] ==>
          newest[i].turnId.value in sidecar && sidecar[newest[i].turnId.value] == newest[i].attachments)
  }

  lemma TailReversed(
    newest: seq<Record>, budget: nat, ts: seq<TurnEntry>, turns: seq<TurnEntry>, sidecar: map<nat, seq<string>>)
    requires forall i :: 0 <= i < |newest| ==> newest[i].turnId.Some?
    requires TailKept(newest, budget, ts, sidecar)
    requires |turns| == |ts| && forall i :: 0 <= i < |ts| ==> turns[i] == ts[|ts| - 1 - i]
    ensures TailAnswer(newest, budget, turns, sidecar)
  {
    hide LongestFit;
  }

  /** One more record than the kept ones is over the budget: the kept prefix is the longest fit. */
  lemma FitsNoMore(rs: seq<Record>, newest: seq<Record>, r: Record, budget: nat)
    requires rs + [r] <= newest && Sum(rs) <= budget < Sum(rs) + r.tokens
    ensures rs <= newest && LongestFit(newest, budget, |rs|)
  {
    SumSnoc(rs, r);
    assert newest[..|rs|] == rs && newest[..|rs| + 1] == rs + [r];
  }

  /** Where the scan ended, the kept records are the longest fit of the whole log's. */
  lemma TailFits(files: seq<File>, fi: nat, front: seq<Line>, done: seq<Line>, budget: nat, full: bool)
    requires Split(files, fi, front, done) && Sum(Newest(done)) <= budget
    requires if full then front != [] && Overflows(front[|front| - 1], Ids(Newest(done)), Sum(Newest(done)), budget)
             else fi == 0 && front == []
    ensures Newest(done) <= Newest(Flat(files)) && LongestFit(Newest(Flat(files)), budget, |Newest(done)|)
  {
    hide Newest, Ids, Sum;
    var newest := Newest(Flat(files));
    if !full {
      assert files[..0] == [] && Flat(files) == done;
      assert newest[..|newest|] == newest;
    } else {
      var n := |front| - 1;
      var l := front[n];
      assert front == front[..n] + [l];
      var older := Flat(files[..fi]) + front[..n];
      assert Flat(files) == older + ([l] + done);
      NewestExtends(older, [l] + done);
      TailTakes(l, done);
      FitsNoMore(Newest(done), newest, l.record, budget);
    }
  }

  /** The attachments that go with the kept records. */
  lemma TailCarries(done: seq<Line>, sidecar: map<nat, seq<string>>)
    requires SidecarOf(sidecar, done, Ids(Newest(done)))
    ensures forall id: nat :: id in sidecar ==> exists i ::
              0 <= i < |Newest(done)| && Newest(done)[i].turnId.value == id && Newest(done)[i].attachments != []
    ensures forall i :: 0 <= i < |Newest(done)| && Newest(done)[i].attachments != [] ==>
              Newest(done)[i].turnId.value in sidecar &&
              sidecar[Newest(done)[i].turnId.value] == Newest(done)[i].attachments
  {
    NewestIsLast(done);
    hide LastFor;
    var rs := Newest(done);
    forall i | 0 <= i < |rs| && rs[i].attachments != []
      ensures rs[i].turnId.value in sidecar && sidecar[rs[i].turnId.value] == rs[i].attachments
    {
      assert Found(done, Ids(rs), rs[i].turnId.value);
    }
    forall id: nat | id in sidecar
      ensures exists i :: 0 <= i < |rs| && rs[i].turnId.value == id && rs[i].attachments != []
    {
      assert Found(done, Ids(rs), id);
      var i :| 0 <= i < |rs| && rs[i].turnId.value == id;
      assert LastFor(done, rs[i].turnId.value) == Some(rs[i]);
    }
  }

  /** A scan that ended, on the record that would cross the budget or at the start of the log, kept the longest fit. */
  lemma TailStops(
    files: seq<File>, fi: nat, front: seq<Line>, done: seq<Line>, budget: nat, kept: set<nat>, used: nat,
    turns: seq<TurnEntry>, sidecar: map<nat, seq<string>>, full: bool)
    requires Split(files, fi, front, done) && Tailing(done, budget, kept, used, turns, sidecar)
    requires if full then front != [] && Overflows(front[|front| - 1], kept, used, budget) else fi == 0 && front == []
    ensures TailKept(Newest(Flat(files)), budget, turns, sidecar)
  {
    TailFits(files, fi, front, done, budget, full);
    TailCarries(done, sidecar);
    hide LongestFit, Newest, SidecarOf, Ids, Flat;
    var newest := Newest(Flat(files));
    assert forall i :: 0 <= i < |turns| ==> newest[i] == Newest(done)[i];
  }

  // ------------------------------------------------------------------ the order of the rebuilt window

  /** Of two kept turns, the newest record of the higher stands after that of the lower. */
  ghost predicate KeptInLogOrder(lines: seq<Line>, turns: seq<TurnEntry>) {
    forall i, j, p: nat, q: nat ::
      (0 <= i < |turns| && 0 <= j < |turns| && turns[i].id < turns[j].id &&
       NewestAt(lines, turns[i].id, p) && NewestAt(lines, turns[j].id, q)) ==> p < q
  }

  /**
   The rebuilt window ascends by id exactly when its newest records strictly descend, newest first; in the
   log's own terms, exactly when no kept turn's newest record stands after that of a higher kept turn.
   */
  lemma TailAscendsExactly(lines: seq<Line>, budget: nat, turns: seq<TurnEntry>, sidecar: map<nat, seq<string>>)
    requires TailAnswer(Newest(lines), budget, turns, sidecar)
    ensures Ascending(turns) <==>
            forall i, j :: 0 <= i < j < |turns| ==> Newest(lines)[j].turnId.value < Newest(lines)[i].turnId.value
    ensures Ascending(turns) <==> KeptInLogOrder(lines, turns)
  {
    var rs, n := Newest(lines), |turns|;
    hide LongestFit, Newest;
    assert forall i :: 0 <= i < n ==> turns[i].id == rs[n - 1 - i].turnId.value && rs[i].turnId.value == turns[n - 1 - i].id;
    if Ascending(turns) {
      forall i, j | 0 <= i < j < n ensures rs[j].turnId.value < rs[i].turnId.value {
        assert turns[n - 1 - j].id < turns[n - 1 - i].id;
      }
      OrderedKeeps(lines, turns);
    }
    if KeptInLogOrder(lines, turns) { KeptAscends(lines, turns); }
  }

  /** `turns` reverses a prefix of the newest records. */
  ghost predicate Reversed(turns: seq<TurnEntry>, rs: seq<Record>) {
    |turns| <= |rs| && forall i :: 0 <= i < |turns| ==> rs[|turns| - 1 - i].turnId == Some(turns[i].id)
  }

  lemma OrderedKeeps(lines: seq<Line>, turns: seq<TurnEntry>)
    requires Reversed(turns, Newest(lines)) && Ascending(turns)
    ensures KeptInLogOrder(lines, turns)
  {
    var n := |turns|;
    forall i, j, p: nat, q: nat |
      0 <= i < n && 0 <= j < n && turns[i].id < turns[j].id &&
      NewestAt(lines, turns[i].id, p) && NewestAt(lines, turns[j].id, q)
      ensures p < q
    {
      assert i < j;
      NewestFollowsTheLog(lines, n - 1 - j, n - 1 - i, q, p);
    }
  }

  lemma KeptAscends(lines: seq<Line>, turns: seq<TurnEntry>)
    requires Reversed(turns, Newest(lines)) && KeptInLogOrder(lines, turns)
    ensures Ascending(turns)
  {
    var rs, n := Newest(lines), |turns|;
    NewestIsLast(lines);
    hide Newest, LastFor;
    forall i, j | 0 <= i < j < n ensures turns[i].id < turns[j].id {
      LastForIsNewest(lines, turns[i].id);
      LastForIsNewest(lines, turns[j].id);
      assert rs[n - 1 - j].turnId != rs[n - 1 - i].turnId;
      var p: nat :| NewestAt(lines, turns[i].id, p);
      var q: nat :| NewestAt(lines, turns[j].id, q);
      NewestFollowsTheLog(lines, n - 1 - j, n - 1 - i, q, p);
    }
  }

  /** A log in which a late repair of turn `a` puts the rebuilt window out of order. */
  lemma RepairReordersWindow(
    first: Record, second: Record, repair: Record, budget: nat, turns: seq<TurnEntry>, sidecar: map<nat, seq<string>>)
    requires first.kind.Turn? && second.kind.Turn? && repair.kind.Turn?
    requires first.turnId.Some? && second.turnId.Some? && repair.turnId == first.turnId
    requires first.turnId.value < second.turnId.value && repair.tokens + second.tokens <= budget
    requires TailAnswer(Newest([Rec(first), Rec(second), Rec(repair)]), budget, turns, sidecar)
    ensures turns == [EntryOf(second), EntryOf(repair)] && !Ascending(turns)
  {
    var lines := [Rec(first), Rec(second), Rec(repair)];
    assert lines[1..] == [Rec(second), Rec(repair)] && lines[2..] == [Rec(repair)] && lines[3..] == [];
    assert Newest([Rec(repair)]) == [repair];
    assert [Rec(second), Rec(repair)][1..] == [Rec(repair)];
    assert Newest(lines[1..]) == [repair, second];
    assert [repair, second][0].turnId.value in Ids([repair, second]);
    assert Newest(lines) == [repair, second];
    assert [repair, second][..1] == [repair] && [repair][1..] == [] && [repair, second][1..] == [second];
    assert [second][1..] == [] && [repair, second][..2] == [repair, second];
    assert Sum([repair]) == repair.tokens && Sum([repair, second]) == repair.tokens + second.tokens;
    assert [repair, second][..0] == [];
    hide Newest, Sum, Ids;
    assert |turns| == 2 && turns[1].id < turns[0].id;
  }

  method Reverse(ts: seq<TurnEntry>) returns (r: seq<TurnEntry>)
    ensures |r| == |ts| && forall i :: 0 <= i < |r| ==> r[i] == ts[|ts| - 1 - i]
  {
    r := [];
    for i := 0 to |ts|
      invariant |r| == i && forall j :: 0 <= j < i ==> r[j] == ts[i - 1 - j]
    {
      r := [ts[i]] + r;
    }
  }

  // ------------------------------------------------------------------ max_turn_id

  lemma {:induction false} NewestIdPrepend(older: seq<Line>, l: Line, done: seq<Line>)
    requires forall i :: 0 <= i < |done| ==> !IsTurn(done[i])
    ensures IsTurn(l) ==> NewestId(older + [l] + done) == l.record.turnId.value
    ensures older == [] && !IsTurn(l) ==> NewestId([l] + done) == 0
  {
    var all := older + [l] + done;
    if done == [] {
      assert all[..|all| - 1] == older;
      assert [l] + done == [l];
    } else {
      var n := |done| - 1;
      assert all[..|all| - 1] == older + [l] + done[..n];
      assert ([l] + done)[..n + 1] == [l] + done[..n];
      NewestIdPrepend(older, l, done[..n]);
    }
  }

  lemma {:induction false} NoTurnNoId(lines: seq<Line>)
    requires forall i :: 0 <= i < |lines| ==> !IsTurn(lines[i])
    ensures NewestId(lines) == 0
  {
    if lines != [] { NoTurnNoId(lines[..|lines| - 1]); }
  }

  /** max_turn_id: the id on the newest parseable turn record, whatever the others carry. */
  method MaxTurnId(files: seq<File>) returns (id: nat)
    ensures id == NewestId(Flat(files))
  {
    ghost var done: seq<Line> := [];
    var fi := |files|;
    assert files[..fi] == files;
    while fi > 0
      invariant 0 <= fi <= |files|
      invariant Split(files, fi, [], done)
      invariant forall i :: 0 <= i < |done| ==> !IsTurn(done[i])
    {
      NextFile(files, fi, done);
      fi := fi - 1;
      if files[fi].None? { continue; }
      var lines := files[fi].value;
      var li := |lines|;
      assert lines[..li] == lines;
      while li > 0
        invariant 0 <= li <= |lines|
        invariant Split(files, fi, lines[..li], done)
        invariant forall i :: 0 <= i < |done| ==> !IsTurn(done[i])
      {
        NextLine(files, fi, lines[..li], done);
        li := li - 1;
        var l := lines[li];
        assert lines[..li + 1][..li] == lines[..li];
        if l.Rec? && l.record.kind.Turn? && l.record.turnId.Some? {
          ghost var older := Flat(files[..fi]) + lines[..li];
          assert Flat(files) == older + [l] + done;
          NewestIdPrepend(older, l, done);
          return l.record.turnId.value;
        }
        done := [l] + done;
      }
    }
    assert files[..0] == [] && Flat(files) == done;
    NoTurnNoId(done);
    return 0;
  }
}
