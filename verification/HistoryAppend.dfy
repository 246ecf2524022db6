/**
 Appending to the history log, and when a reader will see it. The writer picks the file by
 the clock's date and appends to whatever the file ends in: a file left without its last
 newline joins that line to the next record, and the joined line parses as nothing.
 */
module HistoryAppend {
  import opened Wrappers
  import opened HistoryLog
  import opened HistoryReader

  /** One day's file; `torn` when its last line lacks the newline. */
  datatype Day = Day(date: nat, file: File, torn: bool) {
    predicate Valid() { torn && file.Some? ==> file.value != [] }

    /** What appending one record leaves. */
    function Grown(r: Record): Day
      requires Valid()
    {
      match file
      case None => this.(torn := false)
      case Some(lines) =>
        Day(date, Some(if torn then lines[..|lines| - 1] + [Bad] else lines + [Rec(r)]), false)
    }
  }

  /** The files in name order, one a date. */
  ghost predicate Valid(days: seq<Day>) {
    (forall i :: 0 <= i < |days| ==> days[i].Valid()) &&
    (forall i, j :: 0 <= i < j < |days| ==> days[i].date < days[j].date)
  }

  function Files(days: seq<Day>): seq<File> { seq(|days|, i requires 0 <= i < |days| => days[i].file) }

  /** How many of the files are dated before `date`. */
  function Before(days: seq<Day>, date: nat): (n: nat)
    ensures n <= |days|
  {
    if days == [] || days[0].date >= date then 0 else 1 + Before(days[1..], date)
  }

  predicate HasFile(days: seq<Day>, date: nat) {
    Before(days, date) < |days| && days[Before(days, date)].date == date
  }

  /** append: open today's file, or create it, and write one line. */
  function Appended(days: seq<Day>, date: nat, r: Record): seq<Day>
    requires Valid(days)
  {
    var n := Before(days, date);
    if HasFile(days, date) then days[n := days[n].Grown(r)]
    else days[..n] + [Day(date, Some([Rec(r)]), false)] + days[n..]
  }

  lemma {:induction false} BeforeSplits(days: seq<Day>, date: nat)
    requires Valid(days)
    ensures forall i :: 0 <= i < Before(days, date) ==> days[i].date < date
    ensures forall i :: Before(days, date) <= i < |days| ==> date <= days[i].date
  {
    if days != [] && days[0].date < date {
      BeforeSplits(days[1..], date);
      assert forall i :: 0 < i < |days| ==> days[i] == days[1..][i - 1];
    }
  }

  /** The log stays one file a date in name order. */
  lemma AppendKeepsOrder(days: seq<Day>, date: nat, r: Record)
    requires Valid(days)
    ensures Valid(Appended(days, date, r))
  { BeforeSplits(days, date); }

  // ------------------------------------------------------------------ what a reader sees

  /** The lines dated up to `date`, and the lines dated after it. */
  function Upto(days: seq<Day>, date: nat): seq<Line> { Flat(Files(days[..Reach(days, date)])) }

  function Later(days: seq<Day>, date: nat): seq<Line> { Flat(Files(days[Reach(days, date)..])) }

  function Reach(days: seq<Day>, date: nat): (n: nat)
    ensures n <= |days|
  { Before(days, date) + if HasFile(days, date) then 1 else 0 }

  /** The file the record would join, when it is there and unreadable, or ends in a torn line. */
  predicate Unreadable(days: seq<Day>, date: nat) { HasFile(days, date) && days[Before(days, date)].file.None? }

  predicate Torn(days: seq<Day>, date: nat) {
    HasFile(days, date) && days[Before(days, date)].torn && days[Before(days, date)].file.Some?
  }

  lemma {:induction false} FlatConcat(a: seq<File>, b: seq<File>)
    ensures Flat(a + b) == Flat(a) + Flat(b)
  {
    if a == [] {
      assert a + b == b;
    } else {
      assert (a + b)[1..] == a[1..] + b;
      FlatConcat(a[1..], b);
    }
  }

  lemma FlatAround(days: seq<Day>, n: nat)
    requires n <= |days|
    ensures Flat(Files(days)) == Flat(Files(days[..n])) + Flat(Files(days[n..]))
    ensures n < |days| ==> Flat(Files(days[..n + 1])) == Flat(Files(days[..n])) + LinesOf(days[n].file)
  {
    FlatConcat(Files(days[..n]), Files(days[n..]));
    assert Files(days) == Files(days[..n]) + Files(days[n..]);
    if n < |days| {
      FlatSnoc(Files(days[..n]), days[n].file);
      assert Files(days[..n + 1]) == Files(days[..n]) + [days[n].file];
    }
  }

  lemma TornIsLast(days: seq<Day>, date: nat)
    requires Valid(days) && Torn(days, date)
    ensures Upto(days, date) != []
  {
    FlatAround(days, Before(days, date));
  }

  /** What the lines dated up to `date` become. */
  function EarlyAfter(days: seq<Day>, date: nat, r: Record): seq<Line>
    requires Torn(days, date) ==> Upto(days, date) != []
  {
    var early := Upto(days, date);
    if Unreadable(days, date) then early
    else if Torn(days, date) then early[..|early| - 1] + [Bad]
    else early + [Rec(r)]
  }

  /** Where the record lands: after every line dated up to the clock's date, before every later one. */
  lemma AppendLands(days: seq<Day>, date: nat, r: Record)
    requires Valid(days)
    ensures Flat(Files(days)) == Upto(days, date) + Later(days, date)
    ensures Torn(days, date) ==> Upto(days, date) != []
    ensures Flat(Files(Appended(days, date, r))) == EarlyAfter(days, date, r) + Later(days, date)
  {
    FlatAround(days, Reach(days, date));
    if Torn(days, date) { TornIsLast(days, date); }
    hide Flat, Before;
    if HasFile(days, date) { LandsInFile(days, date, r); } else { LandsInNewFile(days, date, r); }
  }

  /** Replacing one file's day replaces its lines and nothing around them. */
  lemma FlatReplaced(days: seq<Day>, n: nat, day: Day)
    requires n < |days|
    ensures Flat(Files(days[n := day])) == Flat(Files(days[..n])) + LinesOf(day.file) + Flat(Files(days[n + 1..]))
  {
    var after := days[n := day];
    FlatAround(after, n + 1);
    FlatAround(after, n);
    hide Flat, Files;
    assert after[..n] == days[..n] && after[n + 1..] == days[n + 1..] && after[n] == day;
  }

  lemma EarlyInFile(days: seq<Day>, date: nat, r: Record)
    requires Valid(days) && HasFile(days, date) && (Torn(days, date) ==> Upto(days, date) != [])
    ensures
      var n := Before(days, date);
      EarlyAfter(days, date, r) == Flat(Files(days[..n])) + LinesOf(days[n].Grown(r).file)
  {
    var n := Before(days, date);
    var early, was := Flat(Files(days[..n])), LinesOf(days[n].file);
    FlatAround(days, n);
    GrowsByOne(days[n], r);
    hide Flat, Files, Before, Valid;
    assert Upto(days, date) == early + was;
    if days[n].file.None? {
      assert was == [];
    } else if days[n].torn {
      JoinTail(early, was);
    } else {
      assert early + was + [Rec(r)] == early + (was + [Rec(r)]);
    }
  }

  lemma LandsInFile(days: seq<Day>, date: nat, r: Record)
    requires Valid(days) && HasFile(days, date) && (Torn(days, date) ==> Upto(days, date) != [])
    ensures Flat(Files(Appended(days, date, r))) == EarlyAfter(days, date, r) + Later(days, date)
  {
    var n := Before(days, date);
    FlatReplaced(days, n, days[n].Grown(r));
    EarlyInFile(days, date, r);
    hide Flat, Files, Before, Valid, EarlyAfter;
  }

  lemma GrowsByOne(day: Day, r: Record)
    requires day.Valid()
    ensures
      var was := LinesOf(day.file);
      LinesOf(day.Grown(r).file) ==
      if day.file.None? then was else if day.torn then was[..|was| - 1] + [Bad] else was + [Rec(r)]
  {}

  lemma JoinTail(a: seq<Line>, b: seq<Line>)
    ensures b != [] ==> (a + b)[..|a + b| - 1] == a + b[..|b| - 1]
  {}

  lemma LandsInNewFile(days: seq<Day>, date: nat, r: Record)
    requires Valid(days) && !HasFile(days, date)
    ensures Flat(Files(Appended(days, date, r))) == EarlyAfter(days, date, r) + Later(days, date)
  {
    var n := Before(days, date);
    var after := Appended(days, date, r);
    FlatAround(after, n + 1);
    FlatAround(after, n);
    hide Flat, Before, Files;
    assert after[..n] == days[..n] && after[n + 1..] == days[n..];
  }

  /**
   When an appended turn wins: unless its file is unreadable or ended torn, every reader now takes
   this record for its turn, exactly when no file of a later date already holds that turn.
   */
  lemma AppendWinsExactly(days: seq<Day>, date: nat, r: Record, id: nat)
    requires Valid(days) && r.kind.Turn? && r.turnId.Some? && !Unreadable(days, date) && !Torn(days, date)
    ensures
      var log := Flat(Files(Appended(days, date, r)));
      && LastFor(log, r.turnId.value) ==
         (if LastFor(Later(days, date), r.turnId.value).Some? then LastFor(Later(days, date), r.turnId.value) else Some(r))
      && (id != r.turnId.value ==> LastFor(log, id) == LastFor(Flat(Files(days)), id))
  {
    AppendLands(days, date, r);
    var early, late := Upto(days, date), Later(days, date);
    var t := r.turnId.value;
    LastForSuffix(early + [Rec(r)], late, t);
    LastForSuffix(early + [Rec(r)], late, id);
    LastForSuffix(early, late, id);
    AppendReplacesOneTurn(early, r, id);
  }

  lemma {:induction false} DatesSpread(days: seq<Day>, i: nat, j: nat)
    requires Valid(days) && i <= j < |days|
    ensures days[i].date + (j - i) <= days[j].date
  {
    if i < j { DatesSpread(days, i, j - 1); }
  }

  /** On a clock that never steps back, the newest append always wins. */
  lemma ForwardClockWins(days: seq<Day>, date: nat, r: Record)
    requires Valid(days) && r.kind.Turn? && r.turnId.Some? && !Unreadable(days, date) && !Torn(days, date)
    requires forall i :: 0 <= i < |days| ==> days[i].date <= date
    ensures LastFor(Flat(Files(Appended(days, date, r))), r.turnId.value) == Some(r)
  {
    BeforeSplits(days, date);
    var n := Before(days, date);
    if n < |days| { DatesSpread(days, n, |days| - 1); }
    assert Reach(days, date) == |days|;
    assert days[|days|..] == [];
    AppendWinsExactly(days, date, r, 0);
  }

  /** A torn tail swallows the next record, and the record it tore is lost with it if it could still be read. */
  lemma TornTailSwallows(days: seq<Day>, date: nat, r: Record, id: nat)
    requires Valid(days) && Torn(days, date)
    ensures
      var early := Upto(days, date);
      early != [] &&
      LastFor(Flat(Files(Appended(days, date, r))), id) == LastFor(early[..|early| - 1] + Later(days, date), id)
  {
    AppendLands(days, date, r);
    var early, late := Upto(days, date), Later(days, date);
    var kept := early[..|early| - 1];
    LastForSuffix(kept + [Bad], late, id);
    LastForSuffix(kept, late, id);
    LastForSuffix(kept, [Bad], id);
  }

  ghost predicate HasTurn(lines: seq<Line>) { exists i :: 0 <= i < |lines| && IsTurn(lines[i]) }

  /**
   When max_turn_id is right after an append, by what the writer could check before it: with no turn in a
   later-dated file, exactly when the new id is no lower than the highest; with one, exactly when it was right
   already and the new id is no higher.
   */
  lemma AppendKeepsMaxExactly(days: seq<Day>, date: nat, r: Record, m: nat)
    requires Valid(days) && r.kind.Turn? && r.turnId.Some? && !Unreadable(days, date) && !Torn(days, date)
    requires IsMaxId(Flat(Files(days)), m)
    ensures
      var before, after := Flat(Files(days)), Flat(Files(Appended(days, date, r)));
      IsMaxId(after, NewestId(after)) <==>
      if HasTurn(Later(days, date)) then NewestId(before) == m && r.turnId.value <= m else m <= r.turnId.value
  {
    AppendLands(days, date, r);
    var early, late := Upto(days, date), Later(days, date);
    var before, after := Flat(Files(days)), Flat(Files(Appended(days, date, r)));
    hide Flat, Files, Upto, Later, Appended, Unreadable, Torn;
    assert before == early + late && after == early + [Rec(r)] + late;
    NewestIdAfter(early, late);
    NewestIdAfter(early + [Rec(r)], late);
    NewestIdAfter(early, [Rec(r)]);
    assert IsTurn([Rec(r)][0]);
    forall id: nat ensures IsTurnId(after, id) <==> IsTurnId(before, id) || id == r.turnId.value {
      TurnIdsAfter(early, late, id);
      TurnIdsAfter(early + [Rec(r)], late, id);
      TurnIdsAfter(early, [Rec(r)], id);
      assert IsTurnFor([Rec(r)][0], id) <==> id == r.turnId.value;
    }
    assert NewestId(after) == if HasTurn(late) then NewestId(before) else r.turnId.value;
    OneMoreId(before, after, m, r.turnId.value);
  }

  /** Two logs whose turn ids differ by one written id. */
  lemma OneMoreId(before: seq<Line>, after: seq<Line>, m: nat, t: nat)
    requires IsMaxId(before, m)
    requires forall id: nat :: IsTurnId(after, id) <==> IsTurnId(before, id) || id == t
    ensures IsMaxId(after, t) <==> m <= t
    ensures IsMaxId(after, NewestId(before)) <==> NewestId(before) == m && t <= m
  {
    NewestIdNeverPasses(before, m);
    NewestIdOccurs(before);
    hide IsTurnId, NewestId;
  }
}
