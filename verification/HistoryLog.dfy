/**
 What the append-only history means: its files flattened into one list of lines, oldest
 first, and the newest record of each turn in that list.
 */
module HistoryLog {
  import opened Wrappers

  datatype Kind = Turn | System

  datatype Record = Record(kind: Kind, turnId: Option<nat>, messages: seq<string>, tokens: nat, attachments: seq<string>)

  /** One line of a file: blank, unparseable (torn or corrupt), or a record. */
  datatype Line = Blank | Bad | Rec(record: Record)

  /** A day's file; `None` cannot be read. */
  type File = Option<seq<Line>>

  /** A turn as a reader hands it on. */
  datatype TurnEntry = TurnEntry(id: nat, messages: seq<string>, tokens: nat)

  predicate IsTurn(l: Line) { l.Rec? && l.record.kind.Turn? && l.record.turnId.Some? }

  predicate IsTurnFor(l: Line, id: nat) { IsTurn(l) && l.record.turnId.value == id }

  function EntryOf(r: Record): TurnEntry
    requires r.turnId.Some?
  { TurnEntry(r.turnId.value, r.messages, r.tokens) }

  function LinesOf(f: File): seq<Line> { if f.Some? then f.value else [] }

  /** Every readable line, oldest first. */
  function Flat(files: seq<File>): seq<Line> {
    if files == [] then [] else LinesOf(files[0]) + Flat(files[1..])
  }

  // ------------------------------------------------------------------ the newest record of a turn

  function LastFor(lines: seq<Line>, id: nat): (r: Option<Record>)
    ensures r.Some? ==> r.value.turnId == Some(id)
  {
    if lines == [] then None
    else
      var later := LastFor(lines[1..], id);
      if later.Some? then later
      else if IsTurnFor(lines[0], id) then Some(lines[0].record)
      else None
  }

  /** `i` holds the last turn record for `id`. */
  ghost predicate NewestAt(lines: seq<Line>, id: nat, i: nat) {
    i < |lines| && IsTurnFor(lines[i], id) && forall j :: i < j < |lines| ==> !IsTurnFor(lines[j], id)
  }

  lemma {:induction false} LastForIsNewest(lines: seq<Line>, id: nat)
    ensures LastFor(lines, id).None? <==> forall i :: 0 <= i < |lines| ==> !IsTurnFor(lines[i], id)
    ensures LastFor(lines, id).Some? ==>
              exists i: nat :: NewestAt(lines, id, i) && lines[i].record == LastFor(lines, id).value
    ensures forall i: nat :: NewestAt(lines, id, i) ==> LastFor(lines, id) == Some(lines[i].record)
  {
    if lines != [] {
      var rest := lines[1..];
      LastForIsNewest(rest, id);
      assert forall j :: 0 < j < |lines| ==> lines[j] == rest[j - 1];
      if LastFor(rest, id).Some? {
        var i: nat :| NewestAt(rest, id, i) && rest[i].record == LastFor(rest, id).value;
        assert NewestAt(lines, id, i + 1);
      } else if IsTurnFor(lines[0], id) {
        assert NewestAt(lines, id, 0);
      }
      forall i: nat | NewestAt(lines, id, i) ensures LastFor(lines, id) == Some(lines[i].record) {
        if i > 0 { assert NewestAt(rest, id, i - 1); }
      }
    }
  }

  /** A turn carries what the last record of its id carries, its attachments in the sidecar beside it. */
  ghost predicate Restored(lines: seq<Line>, t: TurnEntry, sidecar: map<nat, seq<string>>) {
    exists i: nat ::
      && NewestAt(lines, t.id, i)
      && t.messages == lines[i].record.messages && t.tokens == lines[i].record.tokens
      && (t.id in sidecar <==> lines[i].record.attachments != [])
      && (t.id in sidecar ==> sidecar[t.id] == lines[i].record.attachments)
  }

  /** Older lines never change what the newer ones already settle. */
  lemma {:induction false} LastForSuffix(older: seq<Line>, newer: seq<Line>, id: nat)
    ensures LastFor(newer, id).Some? ==> LastFor(older + newer, id) == LastFor(newer, id)
    ensures LastFor(newer, id).None? ==> LastFor(older + newer, id) == LastFor(older, id)
  {
    if older == [] {
      assert older + newer == newer;
    } else {
      assert (older + newer)[1..] == older[1..] + newer;
      LastForSuffix(older[1..], newer, id);
    }
  }

  /** Appending a turn replaces that turn for every reader, whatever older records say, and no other turn. */
  lemma AppendReplacesOneTurn(lines: seq<Line>, r: Record, id: nat)
    requires r.kind.Turn? && r.turnId.Some?
    ensures LastFor(lines + [Rec(r)], r.turnId.value) == Some(r)
    ensures id != r.turnId.value ==> LastFor(lines + [Rec(r)], id) == LastFor(lines, id)
  {
    LastForSuffix(lines, [Rec(r)], r.turnId.value);
    LastForSuffix(lines, [Rec(r)], id);
  }

  function CountBad(lines: seq<Line>): nat {
    if lines == [] then 0 else (if lines[0].Bad? then 1 else 0) + CountBad(lines[1..])
  }

  /** One more line counts if and only if it is damaged, wherever it stands. */
  lemma {:induction false} CountBadExactly(before: seq<Line>, l: Line, after: seq<Line>)
    ensures CountBad(before + [l] + after) == CountBad(before + after) + if l.Bad? then 1 else 0
  {
    if before == [] {
      assert before + [l] + after == [l] + after && before + after == after;
    } else {
      assert (before + [l] + after)[1..] == before[1..] + [l] + after && (before + after)[1..] == before[1..] + after;
      CountBadExactly(before[1..], l, after);
    }
  }

  /** Every id of `ids` has a turn record in `lines`. */
  ghost predicate AllFound(lines: seq<Line>, ids: set<nat>) { forall id: nat :: id in ids ==> LastFor(lines, id).Some? }

  /** Where the newest-first scan for `ids` stops: right after the record that completes it, if one does. */
  ghost predicate StopsAt(lines: seq<Line>, ids: set<nat>, k: nat) {
    && k <= |lines|
    && (k > 0 ==> ids != {} && AllFound(lines[k..], ids))
    && (ids != {} && AllFound(lines[k..], ids) ==> forall m :: k < m <= |lines| ==> !AllFound(lines[m..], ids))
  }

  // ------------------------------------------------------------------ newest records in order

  /** The newest record of every turn, newest first. */
  function Newest(lines: seq<Line>): (r: seq<Record>)
    ensures forall i :: 0 <= i < |r| ==> r[i].turnId.Some?
  {
    if lines == [] then []
    else
      var later := Newest(lines[1..]);
      if IsTurn(lines[0]) && lines[0].record.turnId.value !in Ids(later) then later + [lines[0].record] else later
  }

  function Ids(rs: seq<Record>): set<nat>
    requires forall i :: 0 <= i < |rs| ==> rs[i].turnId.Some?
  {
    set i | 0 <= i < |rs| :: rs[i].turnId.value
  }

  lemma IdsSnoc(rs: seq<Record>, r: Record)
    requires r.turnId.Some? && forall i :: 0 <= i < |rs| ==> rs[i].turnId.Some?
    ensures Ids(rs + [r]) == Ids(rs) + {r.turnId.value}
  {
    var all := rs + [r];
    assert forall i :: 0 <= i < |rs| ==> all[i] == rs[i];
    assert all[|rs|] == r;
    forall x | x in Ids(rs) ensures x in Ids(all) {
      var i :| 0 <= i < |rs| && rs[i].turnId.value == x;
      assert all[i].turnId.value == x;
    }
  }

  /** `Newest` lists each turn once, by the record that wins for it. */
  lemma {:induction false} NewestIsLast(lines: seq<Line>)
    ensures forall i :: 0 <= i < |Newest(lines)| ==>
              LastFor(lines, Newest(lines)[i].turnId.value) == Some(Newest(lines)[i])
    ensures forall i, j :: 0 <= i < j < |Newest(lines)| ==> Newest(lines)[i].turnId != Newest(lines)[j].turnId
    ensures forall id: nat :: LastFor(lines, id).Some? <==> id in Ids(Newest(lines))
  {
    if lines != [] {
      var later := Newest(lines[1..]);
      NewestIsLast(lines[1..]);
      forall id: nat ensures LastFor(lines, id).Some? <==> id in Ids(Newest(lines)) {
        if IsTurn(lines[0]) && lines[0].record.turnId.value !in Ids(later) {
          IdsSnoc(later, lines[0].record);
        }
      }
      forall i | 0 <= i < |later| ensures later[i].turnId.value in Ids(later) {}
    }
  }

  lemma {:induction false} NewestExtends(older: seq<Line>, newer: seq<Line>)
    ensures Newest(newer) <= Newest(older + newer)
  {
    if older == [] {
      assert older + newer == newer;
    } else {
      assert (older + newer)[1..] == older[1..] + newer;
      NewestExtends(older[1..], newer);
    }
  }

  /** The newest-first list follows the log: of two turns, the one listed later has its newest record earlier. */
  lemma {:induction false} NewestFollowsTheLog(lines: seq<Line>, i: nat, j: nat, p: nat, q: nat)
    requires i < j < |Newest(lines)|
    requires NewestAt(lines, Newest(lines)[i].turnId.value, p) && NewestAt(lines, Newest(lines)[j].turnId.value, q)
    ensures q < p
  {
    var rest, later := lines[1..], Newest(lines[1..]);
    var a, b := Newest(lines)[i].turnId.value, Newest(lines)[j].turnId.value;
    NewestIsLast(rest);
    assert later[i].turnId.value in Ids(later);
    var p1 := NewestInRest(lines, a, p);
    if j < |later| {
      assert later[j].turnId.value in Ids(later);
      var q1 := NewestInRest(lines, b, q);
      NewestFollowsTheLog(rest, i, j, p1, q1);
    } else {
      LastForIsNewest(rest, b);
      assert forall k :: 0 < k < |lines| ==> lines[k] == rest[k - 1];
      assert NewestAt(lines, b, 0);
      NewestAtOnce(lines, b, 0, q);
    }
  }

  lemma NewestAtOnce(lines: seq<Line>, id: nat, p: nat, q: nat)
    requires NewestAt(lines, id, p) && NewestAt(lines, id, q)
    ensures p == q
  {}

  /** A turn with a record past the first line has its newest one there. */
  lemma NewestInRest(lines: seq<Line>, id: nat, p: nat) returns (p1: nat)
    requires lines != [] && LastFor(lines[1..], id).Some? && NewestAt(lines, id, p)
    ensures NewestAt(lines[1..], id, p1) && p == p1 + 1
  {
    LastForIsNewest(lines[1..], id);
    p1 :| NewestAt(lines[1..], id, p1);
    assert forall k :: 0 < k < |lines| ==> lines[k] == lines[1..][k - 1];
    NewestAtOnce(lines, id, p, p1 + 1);
  }

  function Sum(rs: seq<Record>): nat { if rs == [] then 0 else rs[0].tokens + Sum(rs[1..]) }

  lemma {:induction false} SumSnoc(rs: seq<Record>, r: Record)
    ensures Sum(rs + [r]) == Sum(rs) + r.tokens
  {
    if rs == [] {
      assert rs + [r] == [r];
    } else {
      assert (rs + [r])[1..] == rs[1..] + [r];
      SumSnoc(rs[1..], r);
    }
  }

  /** The longest run of newest records whose estimates fit the budget: the next one, if any, would cross it. */
  ghost predicate LongestFit(rs: seq<Record>, budget: nat, n: nat) {
    n <= |rs| && Sum(rs[..n]) <= budget && (n < |rs| ==> Sum(rs[..n + 1]) > budget)
  }

  lemma {:induction false} SumMonotone(rs: seq<Record>, n: nat, m: nat)
    requires n <= m <= |rs|
    ensures Sum(rs[..n]) <= Sum(rs[..m])
    decreases m
  {
    if n < m {
      assert rs[..m] == rs[..m - 1] + [rs[m - 1]];
      SumSnoc(rs[..m - 1], rs[m - 1]);
      SumMonotone(rs, n, m - 1);
    }
  }

  lemma LongestFitIsUnique(rs: seq<Record>, budget: nat, n: nat, m: nat)
    requires LongestFit(rs, budget, n) && LongestFit(rs, budget, m)
    ensures n == m
  {
    if n < m { SumMonotone(rs, n + 1, m); }
    if m < n { SumMonotone(rs, m + 1, n); }
  }

  // ------------------------------------------------------------------ the highest id

  /** The id on the newest turn record, 0 without one. */
  function NewestId(lines: seq<Line>): nat {
    if lines == [] then 0
    else if IsTurn(lines[|lines| - 1]) then lines[|lines| - 1].record.turnId.value
    else NewestId(lines[..|lines| - 1])
  }

  ghost predicate IsTurnId(lines: seq<Line>, id: nat) { exists i :: 0 <= i < |lines| && IsTurnFor(lines[i], id) }

  /** The highest id any turn record carries, 0 without one. */
  ghost predicate IsMaxId(lines: seq<Line>, m: nat) {
    && (forall id: nat :: IsTurnId(lines, id) ==> id <= m)
    && (IsTurnId(lines, m) || (m == 0 && forall id: nat :: !IsTurnId(lines, id)))
  }

  lemma {:induction false} NewestIdOccurs(lines: seq<Line>)
    ensures IsTurnId(lines, NewestId(lines)) || (NewestId(lines) == 0 && forall id: nat :: !IsTurnId(lines, id))
  {
    if lines != [] {
      var n := |lines| - 1;
      if IsTurn(lines[n]) {
        assert IsTurnFor(lines[n], NewestId(lines));
      } else {
        NewestIdOccurs(lines[..n]);
        if i :| 0 <= i < n && IsTurnFor(lines[..n][i], NewestId(lines)) { assert IsTurnFor(lines[i], NewestId(lines)); }
        forall id: nat | IsTurnId(lines, id) ensures IsTurnId(lines[..n], id) {
          var i :| 0 <= i < |lines| && IsTurnFor(lines[i], id);
          assert lines[..n][i] == lines[i];
        }
      }
    }
  }

  lemma NewestIdNeverPasses(lines: seq<Line>, m: nat)
    requires IsMaxId(lines, m)
    ensures NewestId(lines) <= m
  { NewestIdOccurs(lines); }

  lemma {:induction false} NewestIdAfter(lines: seq<Line>, more: seq<Line>)
    ensures NewestId(lines + more) == if exists i :: 0 <= i < |more| && IsTurn(more[i]) then NewestId(more) else NewestId(lines)
    decreases |more|
  {
    if more == [] {
      assert lines + more == lines;
    } else {
      var n := |more| - 1;
      assert (lines + more)[..|lines| + n] == lines + more[..n];
      if !IsTurn(more[n]) {
        NewestIdAfter(lines, more[..n]);
        if i :| 0 <= i < |more| && IsTurn(more[i]) { assert more[..n][i] == more[i]; }
        if i :| 0 <= i < n && IsTurn(more[..n][i]) { assert IsTurn(more[i]); }
      }
    }
  }

  lemma TurnIdsAfter(lines: seq<Line>, more: seq<Line>, id: nat)
    ensures IsTurnId(lines + more, id) <==> IsTurnId(lines, id) || IsTurnId(more, id)
  {
    var all := lines + more;
    if i :| 0 <= i < |all| && IsTurnFor(all[i], id) {
      if i < |lines| { assert IsTurnFor(lines[i], id); } else { assert IsTurnFor(more[i - |lines|], id); }
    }
    if i :| 0 <= i < |lines| && IsTurnFor(lines[i], id) { assert IsTurnFor(all[i], id); }
    if i :| 0 <= i < |more| && IsTurnFor(more[i], id) { assert IsTurnFor(all[|lines| + i], id); }
  }

  /** The guard a writer could check: after one more turn the newest id is the highest exactly when that turn's id is no lower than the highest before. */
  lemma NewestIsMaxAfterWrite(lines: seq<Line>, m: nat, r: Record)
    requires IsMaxId(lines, m) && r.kind.Turn? && r.turnId.Some?
    ensures IsMaxId(lines + [Rec(r)], NewestId(lines + [Rec(r)])) <==> m <= r.turnId.value
  {
    var all, t := lines + [Rec(r)], r.turnId.value;
    NewestIdAfter(lines, [Rec(r)]);
    assert IsTurn([Rec(r)][0]);
    forall id: nat ensures IsTurnId(all, id) <==> IsTurnId(lines, id) || id == t {
      TurnIdsAfter(lines, [Rec(r)], id);
      assert IsTurnFor([Rec(r)][0], id) <==> id == t;
    }
    hide IsTurnId, NewestId;
  }

  /** And for any log: exactly when the last turn written was no lower than every turn before it. */
  lemma NewestIdIsMaxExactly(older: seq<Line>, r: Record, tail: seq<Line>, m: nat)
    requires IsMaxId(older, m) && r.kind.Turn? && r.turnId.Some?
    requires forall i :: 0 <= i < |tail| ==> !IsTurn(tail[i])
    ensures
      var lines := older + [Rec(r)] + tail;
      NewestId(lines) == r.turnId.value && (IsMaxId(lines, NewestId(lines)) <==> m <= r.turnId.value)
  {
    var written := older + [Rec(r)];
    NewestIdAfter(older, [Rec(r)]);
    assert IsTurn([Rec(r)][0]);
    NewestIdAfter(written, tail);
    NewestIsMaxAfterWrite(older, m, r);
    forall id: nat ensures IsTurnId(written + tail, id) <==> IsTurnId(written, id) {
      TurnIdsAfter(written, tail, id);
    }
    hide IsTurnId, NewestId;
  }

  /** A late repair of an older turn hides the highest id: the next fresh id could repeat one in use. */
  lemma RepairHidesMax(lines: seq<Line>, m: nat, r: Record)
    requires IsMaxId(lines, m) && r.kind.Turn? && r.turnId.Some? && r.turnId.value < m
    ensures IsMaxId(lines + [Rec(r)], m) && NewestId(lines + [Rec(r)]) == r.turnId.value < m
  {
    var all := lines + [Rec(r)];
    var k :| 0 <= k < |lines| && IsTurnFor(lines[k], m);
    assert IsTurnFor(all[k], m);
    forall id: nat | IsTurnId(all, id) ensures id <= m {
      var i :| 0 <= i < |all| && IsTurnFor(all[i], id);
      if i < |lines| { assert IsTurnFor(lines[i], id); assert IsTurnId(lines, id); }
    }
  }
}
