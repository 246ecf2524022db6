/**
 Context summaries as string algebra: one header in front, a range line that only an
 eviction writes, and a body that re-wrapping must not lose, stack or mistake.
 */
module Summary {
  import opened Wrappers

  function Header(): string { "[context summary — earlier turns condensed, not a request]" }

  function Marker(): string { "[evicted window]" }

  const BLANK: string := "\n\n"

  function TrimNewlines(t: string): string { if t != [] && t[0] == '\n' then TrimNewlines(t[1..]) else t }

  /** What follows the first blank line. */
  function AfterBlank(t: string): Option<string> {
    if |t| < 2 then None
    else if t[0] == '\n' && t[1] == '\n' then Some(t[2..])
    else AfterBlank(t[1..])
  }

  /** What a text behind the header holds once its newlines and its range line are gone. */
  function Peel(t: string): string {
    var u := TrimNewlines(t);
    if Marker() <= u then AfterBlank(u[|Marker()|..]).UnwrapOr("") else u
  }

  /** summary_body. */
  function Body(t: string): string { if Header() <= t then Peel(t[|Header()|..]) else t }

  function Wrap(body: string): string { Header() + BLANK + body }

  /** summary_record. */
  function Record(t: string): string { Wrap(Body(t)) }

  /** summary_record_with_range. */
  function RangedRecord(t: string, line: string): string {
    Wrap(Marker() + " " + line + BLANK + Body(t))
  }

  // ------------------------------------------------------------------ re-wrapping

  lemma {:induction false} TrimShortens(t: string)
    ensures |TrimNewlines(t)| <= |t|
    ensures TrimNewlines(t) == t <==> t == [] || t[0] != '\n'
    ensures TrimNewlines(t) != t ==> |TrimNewlines(t)| < |t|
    ensures TrimNewlines(TrimNewlines(t)) == TrimNewlines(t)
  {
    if t != [] && t[0] == '\n' { TrimShortens(t[1..]); }
  }

  lemma {:induction false} AfterBlankIsShorter(t: string)
    ensures AfterBlank(t).Some? ==> |AfterBlank(t).value| + 2 <= |t|
  {
    if |t| >= 2 && !(t[0] == '\n' && t[1] == '\n') { AfterBlankIsShorter(t[1..]); }
  }

  /** A body that re-wrapping leaves as it is. */
  predicate Settled(b: string) { (b == [] || b[0] != '\n') && !(Marker() <= b) }

  lemma PeelSettles(b: string)
    ensures Peel(b) == b <==> Settled(b)
    ensures Peel(b) != b ==> |Peel(b)| < |b|
  {
    TrimShortens(b);
    var u := TrimNewlines(b);
    if Marker() <= u { AfterBlankIsShorter(u[|Marker()|..]); }
  }

  /** Reading a wrapped text back peels exactly what was wrapped. */
  lemma BodyOfWrapped(b: string)
    ensures Body(Wrap(b)) == Peel(b)
  {
    hide Header;
    var r := Wrap(b);
    assert r[|Header()|..] == BLANK + b;
    assert (BLANK + b)[1..] == "\n" + b && ("\n" + b)[1..] == b;
    assert TrimNewlines(BLANK + b) == TrimNewlines(b);
  }

  /** For every text, wrapping its record again changes nothing or strictly shortens it, and changes nothing exactly when the body is settled. */
  lemma RewrapIsIdentityOrShorter(t: string)
    ensures Record(Record(t)) == Record(t) <==> Settled(Body(t))
    ensures Record(Record(t)) != Record(t) ==> |Record(Record(t))| < |Record(t)|
  {
    BodyOfWrapped(Body(t));
    PeelSettles(Body(t));
    hide Header, Body, Peel, Settled;
    WrapIsInjective(Body(t), Peel(Body(t)));
  }

  /**
   A text without the header comes back whole, whatever it opens with: its record is the header, a blank line
   and the text, a range adds one paragraph between them, and wrapping again changes nothing unless the text
   opens with a newline or the marker.
   */
  lemma FreshTextIsKeptWhole(t: string, line: string)
    requires !(Header() <= t)
    ensures Record(t) == Header() + BLANK + t
    ensures RangedRecord(t, line) == Header() + BLANK + Marker() + " " + line + BLANK + t
    ensures Record(Record(t)) == Record(t) <==> (t == [] || t[0] != '\n') && !(Marker() <= t)
  {
    RewrapIsIdentityOrShorter(t);
    hide Header, Marker;
    var inner := Marker() + " " + line + BLANK + t;
    assert Header() + BLANK + inner == Header() + BLANK + Marker() + " " + line + BLANK + t;
  }

  /** However many newlines stand between the header and a settled body, its record is the canonical one. */
  lemma SettledBodyIsKept(b: string, n: nat)
    requires Settled(b)
    ensures Record(Wrap(b)) == Wrap(b)
    ensures Record(Header() + seq(n, _ => '\n') + b) == Wrap(b)
  {
    BodyOfWrapped(b);
    PeelSettles(b);
    TrimsAll(b, n);
    hide Header;
    var nls := seq(n, _ => '\n');
    assert (Header() + nls + b)[|Header()|..] == nls + b;
  }

  lemma {:induction false} TrimsAll(b: string, n: nat)
    requires b == [] || b[0] != '\n'
    ensures TrimNewlines(seq(n, _ => '\n') + b) == b
  {
    var nls := seq(n, _ => '\n');
    if n == 0 {
      assert nls + b == b;
    } else {
      assert (nls + b)[1..] == seq(n - 1, _ => '\n') + b;
      TrimsAll(b, n - 1);
    }
  }

  /** The first blank line of `t` begins at `i`. */
  predicate FirstBlank(t: string, i: nat) {
    i + 1 < |t| && t[i] == '\n' && t[i + 1] == '\n' && forall j :: 0 <= j < i ==> t[j] != '\n' || t[j + 1] != '\n'
  }

  ghost predicate HasBlank(t: string) { exists k: nat :: FirstBlank(t, k) }

  lemma {:induction false} AfterBlankExactly(t: string, i: nat)
    ensures FirstBlank(t, i) ==> AfterBlank(t) == Some(t[i + 2..])
    ensures AfterBlank(t).Some? <==> HasBlank(t)
  {
    if |t| >= 2 && !(t[0] == '\n' && t[1] == '\n') {
      var rest := t[1..];
      if i > 0 {
        ShiftsBlank(t, i - 1);
        AfterBlankExactly(rest, i - 1);
        assert FirstBlank(t, i) ==> rest[i - 1 + 2..] == t[i + 2..];
      } else {
        AfterBlankExactly(rest, 0);
      }
      if k: nat :| FirstBlank(t, k) { ShiftsBlank(t, k - 1); }
      if k: nat :| FirstBlank(rest, k) { ShiftsBlank(t, k); }
    } else if |t| >= 2 {
      assert FirstBlank(t, 0);
    }
  }

  lemma ShiftsBlank(t: string, k: nat)
    requires |t| >= 2 && !(t[0] == '\n' && t[1] == '\n')
    ensures FirstBlank(t, k + 1) <==> FirstBlank(t[1..], k)
  {
    var rest := t[1..];
    if FirstBlank(rest, k) {
      forall j | 0 <= j < k + 1 ensures t[j] != '\n' || t[j + 1] != '\n' {
        if j > 0 { assert rest[j - 1] == t[j] && rest[j] == t[j + 1]; }
      }
    }
    if FirstBlank(t, k + 1) {
      forall j | 0 <= j < k ensures rest[j] != '\n' || rest[j + 1] != '\n' {
        assert rest[j] == t[j + 1] && rest[j + 1] == t[j + 2];
      }
    }
  }

  /** Behind the header and the marker, a record carries what follows its first blank line, and nothing without one. */
  lemma MarkedBodyExactly(rest: string, i: nat)
    ensures FirstBlank(rest, i) ==> Body(Header() + BLANK + Marker() + rest) == rest[i + 2..]
    ensures !HasBlank(rest) ==> Body(Header() + BLANK + Marker() + rest) == ""
  {
    AfterBlankExactly(rest, i);
    var inner := Marker() + rest;
    BodyOfWrapped(inner);
    TrimShortens(inner);
    assert inner[|Marker()|..] == rest;
    hide Header, Marker, FirstBlank;
    assert Header() + BLANK + Marker() + rest == Wrap(inner);
  }

  lemma WrapIsInjective(a: string, b: string)
    ensures Wrap(a) == Wrap(b) <==> a == b
  {
    hide Header;
    assert Wrap(a)[|Header()| + 2..] == a && Wrap(b)[|Header()| + 2..] == b;
  }

  function Rewrapped(t: string, n: nat): string { if n == 0 then t else Record(Rewrapped(t, n - 1)) }

  /** So wrapping over and over ends: after as many rounds as the body is long, nothing moves any more. */
  lemma RewrapEnds(t: string, n: nat)
    requires |Body(t)| <= n
    ensures Record(Rewrapped(t, n + 1)) == Rewrapped(t, n + 1)
  {
    BodyShrinks(t, n);
    RewrapIsIdentityOrShorter(Rewrapped(t, n));
  }

  lemma {:induction false} BodyShrinks(t: string, n: nat)
    ensures Settled(Body(Rewrapped(t, n))) || |Body(Rewrapped(t, n))| + n <= |Body(t)|
    ensures |Body(t)| <= n ==> Settled(Body(Rewrapped(t, n)))
  {
    hide Header, Body, Peel;
    if n > 0 {
      BodyShrinks(t, n - 1);
      var b := Body(Rewrapped(t, n - 1));
      BodyOfWrapped(b);
      PeelSettles(b);
    }
  }

  // ------------------------------------------------------------------ ranges

  /** A line that is one paragraph: no blank line in it and no newline at its end. */
  predicate OneParagraph(line: string) {
    (forall i :: 0 <= i < |line| - 1 ==> !(line[i] == '\n' && line[i + 1] == '\n')) &&
    (line == [] || line[|line| - 1] != '\n')
  }

  /** The text after the first blank line of `line` + blank + `body` is `body`, or it is longer. */
  lemma {:induction false} BlankEndsTheLine(line: string, body: string)
    ensures AfterBlank(line + BLANK + body).Some?
    ensures |body| <= |AfterBlank(line + BLANK + body).value|
    ensures AfterBlank(line + BLANK + body).value == body <==> OneParagraph(line)
    decreases |line|
  {
    var t := line + BLANK + body;
    if line == [] {
      assert t[2..] == body;
    } else {
      assert t[1..] == line[1..] + BLANK + body;
      BlankEndsTheLine(line[1..], body);
      if t[0] == '\n' && t[1] == '\n' {
        assert !OneParagraph(line) by { assert |line| == 1 || line[1] == t[1]; }
      } else {
        assert OneParagraph(line) ==> OneParagraph(line[1..]);
        if |line| > 1 && OneParagraph(line[1..]) {
          assert t[1] == line[1] && line[|line| - 1] == line[1..][|line| - 2];
          forall i | 0 <= i < |line| - 1 ensures !(line[i] == '\n' && line[i + 1] == '\n') {
            if i > 0 { assert line[1..][i - 1] == line[i] && line[1..][i] == line[i + 1]; }
          }
        }
      }
    }
  }

  lemma SpacedLine(line: string)
    ensures OneParagraph(" " + line) <==> OneParagraph(line)
  {
    var l := " " + line;
    assert forall i :: 0 <= i < |line| ==> l[i + 1] == line[i];
    if OneParagraph(l) {
      forall i | 0 <= i < |line| - 1 ensures !(line[i] == '\n' && line[i + 1] == '\n') {
        assert l[i + 1] == line[i] && l[i + 2] == line[i + 1];
      }
    }
    if OneParagraph(line) {
      forall i | 0 <= i < |l| - 1 ensures !(l[i] == '\n' && l[i + 1] == '\n') {
        if i > 0 { assert l[i] == line[i - 1] && l[i + 1] == line[i]; }
      }
    }
  }

  /** A ranged record gives back exactly the body it wrapped, for exactly the lines that are one paragraph. */
  lemma RangeIsPeeledExactly(t: string, line: string)
    ensures Body(RangedRecord(t, line)) == Body(t) <==> OneParagraph(line)
  {
    hide Header, OneParagraph;
    var b := Body(t);
    hide Body;
    var inner := Marker() + " " + line + BLANK + b;
    BodyOfWrapped(inner);
    TrimShortens(inner);
    assert inner[|Marker()|..] == (" " + line) + BLANK + b;
    BlankEndsTheLine(" " + line, b);
    SpacedLine(line);
  }

  // ------------------------------------------------------------------ the line of a real range

  function Digits(n: nat): string {
    if n < 10 then ["0123456789"[n]] else Digits(n / 10) + ["0123456789"[n % 10]]
  }

  predicate NoNewline(t: string) { '\n' !in t }

  lemma {:induction false} DigitsHaveNoNewline(n: nat)
    ensures NoNewline(Digits(n))
  {
    if n >= 10 { DigitsHaveNoNewline(n / 10); }
  }

  /** The turns a summary stands for, oldest first, and how many of the newest survive. */
  datatype SummaryRange = SummaryRange(turns: seq<nat>, kept: nat) {
    /** A range covers only the turns a call condensed. */
    predicate Covers() { kept < |turns| }

    function Line(): string
      requires Covers()
    {
      var total := |turns|;
      if kept == 0 then
        if total == 1 then Join(["The only turn (#", Digits(turns[0]), ") is condensed here."])
        else
          Join(["All ", Digits(total), " turns are condensed here; the first was #", Digits(turns[0]),
                " and the last #", Digits(turns[total - 1]), "."])
      else
        var first := Digits(turns[total - kept]);
        if kept == 1 then
          Join(["Everything before turn #", first, " is condensed here; the ", "newest turn follows in full."])
        else
          Join(["Everything before turn #", first, " is condensed here; the ", Digits(kept),
                " newest turns follow in full."])
    }
  }

  function Join(parts: seq<string>): string { if parts == [] then "" else parts[0] + Join(parts[1..]) }

  lemma {:induction false} JoinedHasNoNewline(parts: seq<string>)
    requires forall p :: p in parts ==> NoNewline(p)
    ensures NoNewline(Join(parts))
  {
    if parts != [] {
      assert NoNewline(parts[0]);
      JoinedHasNoNewline(parts[1..]);
    }
  }

  lemma LineHasNoNewline(r: SummaryRange)
    requires r.Covers()
    ensures NoNewline(r.Line())
  {
    forall n: nat ensures NoNewline(Digits(n)) { DigitsHaveNoNewline(n); }
    WordsHaveNoNewline();
    KeptWordsHaveNoNewline();
    SurvivorWordsHaveNoNewline();
    hide Digits, Join, NoNewline;
    var total := |r.turns|;
    if r.kept == 0 {
      if total == 1 {
        JoinedHasNoNewline(["The only turn (#", Digits(r.turns[0]), ") is condensed here."]);
      } else {
        JoinedHasNoNewline(
          ["All ", Digits(total), " turns are condensed here; the first was #", Digits(r.turns[0]),
           " and the last #", Digits(r.turns[total - 1]), "."]);
      }
    } else {
      var front, first := "Everything before turn #", Digits(r.turns[total - r.kept]);
      if r.kept == 1 {
        JoinedHasNoNewline([front, first, " is condensed here; the ", "newest turn follows in full."]);
      } else {
        JoinedHasNoNewline([front, first, " is condensed here; the ", Digits(r.kept), " newest turns follow in full."]);
      }
    }
  }

  lemma WordsHaveNoNewline()
    ensures NoNewline("The only turn (#") && NoNewline(") is condensed here.")
    ensures NoNewline("All ") && NoNewline(" turns are condensed here; the first was #")
    ensures NoNewline(" and the last #") && NoNewline(".")
  {}

  lemma KeptWordsHaveNoNewline()
    ensures NoNewline("Everything before turn #")
    ensures NoNewline(" is condensed here; the ")
  {}

  lemma SurvivorWordsHaveNoNewline()
    ensures NoNewline("newest turn follows in full.") && NoNewline(" newest turns follow in full.")
  {}

  // ------------------------------------------------------------------ the numbers a line states

  predicate IsDigit(ch: char) { '0' <= ch <= '9' }

  /** The digits a text opens with, and what they say. */
  function Leading(t: string): (ds: string)
    ensures ds <= t
  { if t == [] || !IsDigit(t[0]) then [] else [t[0]] + Leading(t[1..]) }

  function Number(ds: string): int
    decreases |ds|
  { if ds == [] then 0 else 10 * Number(ds[..|ds| - 1]) + (ds[|ds| - 1] as int - '0' as int) }

  /** Every number that stands in a text, in order. */
  function Numbers(t: string): seq<int>
    decreases |t|
  {
    if t == [] then []
    else if IsDigit(t[0]) then [Number(Leading(t))] + Numbers(t[|Leading(t)|..])
    else Numbers(t[1..])
  }

  lemma OneDigit(n: nat)
    requires n < 10
    ensures IsDigit("0123456789"[n]) && "0123456789"[n] as int - '0' as int == n
  {}

  lemma NumberSnoc(ds: string, ch: char)
    ensures Number(ds + [ch]) == 10 * Number(ds) + (ch as int - '0' as int)
    ensures Number([ch]) == ch as int - '0' as int
  {
    assert (ds + [ch])[..|ds|] == ds;
    assert [ch][..0] == [];
  }

  lemma {:induction false} DigitsReadBack(n: nat)
    ensures Number(Digits(n)) == n
    ensures Digits(n) != [] && forall i :: 0 <= i < |Digits(n)| ==> IsDigit(Digits(n)[i])
  {
    OneDigit(n % 10);
    hide Number;
    if n >= 10 {
      DigitsReadBack(n / 10);
      NumberSnoc(Digits(n / 10), "0123456789"[n % 10]);
    } else {
      NumberSnoc([], "0123456789"[n]);
    }
  }

  lemma {:induction false} LeadingStops(ds: string, rest: string)
    requires forall i :: 0 <= i < |ds| ==> IsDigit(ds[i])
    requires rest == [] || !IsDigit(rest[0])
    ensures Leading(ds + rest) == ds
  {
    if ds == [] {
      assert ds + rest == rest;
    } else {
      assert (ds + rest)[1..] == ds[1..] + rest;
      LeadingStops(ds[1..], rest);
    }
  }

  predicate NoDigit(t: string) { forall i :: 0 <= i < |t| ==> !IsDigit(t[i]) }

  lemma {:induction false} SkipsWord(w: string, rest: string)
    requires NoDigit(w)
    ensures Numbers(w + rest) == Numbers(rest)
  {
    if w == [] {
      assert w + rest == rest;
    } else {
      assert (w + rest)[1..] == w[1..] + rest;
      SkipsWord(w[1..], rest);
    }
  }

  lemma ReadsNumber(n: nat, rest: string)
    requires rest == [] || !IsDigit(rest[0])
    ensures Numbers(Digits(n) + rest) == [n] + Numbers(rest)
  {
    DigitsReadBack(n);
    LeadingStops(Digits(n), rest);
    assert (Digits(n) + rest)[|Digits(n)|..] == rest;
  }

  /** One word, one number, and whatever stands behind them. */
  lemma ReadsPart(w: string, n: nat, rest: string)
    requires NoDigit(w) && (rest == [] || !IsDigit(rest[0]))
    ensures Numbers(w + (Digits(n) + rest)) == [n] + Numbers(rest)
  {
    SkipsWord(w, Digits(n) + rest);
    ReadsNumber(n, rest);
  }

  lemma ReadsTail(w: string)
    requires NoDigit(w)
    ensures Numbers(w) == []
  {
    SkipsWord(w, "");
    assert w + "" == w;
  }

  lemma JoinsMore(a: string, more: seq<string>)
    ensures Join([a] + more) == a + Join(more)
  { assert ([a] + more)[1..] == more; }

  lemma JoinsThree(a: string, b: string, c: string)
    ensures Join([a, b, c]) == a + (b + c)
  {
    assert [a, b, c][1..] == [b, c] && [b, c][1..] == [c] && [c][1..] == [];
    assert Join([c]) == c;
  }

  lemma JoinsFive(a: string, b: string, c: string, d: string, e: string)
    ensures Join([a, b, c, d]) == a + (b + (c + d))
    ensures Join([a, b, c, d, e]) == a + (b + (c + (d + e)))
  {
    JoinsThree(b, c, d);
    JoinsThree(c, d, e);
    JoinsMore(a, [b, c, d]);
    JoinsMore(b, [c, d, e]);
    JoinsMore(a, [b] + [c, d, e]);
    hide Join;
    assert [a] + [b, c, d] == [a, b, c, d] && [a] + ([b] + [c, d, e]) == [a, b, c, d, e];
  }

  lemma JoinsSeven(a: string, b: string, c: string, d: string, e: string, f: string, g: string)
    ensures Join([a, b, c, d, e, f, g]) == a + (b + (c + (d + (e + (f + g)))))
  {
    JoinsFive(c, d, e, f, g);
    JoinsMore(b, [c, d, e, f, g]);
    JoinsMore(a, [b] + [c, d, e, f, g]);
    hide Join;
    assert [a] + ([b] + [c, d, e, f, g]) == [a, b, c, d, e, f, g];
  }

  // Lines of one, two and three numbers, their words left open.

  lemma ReadsOne(a: string, x: nat, b: string, c: string)
    requires NoDigit(a) && NoDigit(b) && NoDigit(c) && b != []
    ensures Numbers(Join([a, Digits(x), b])) == [x]
    ensures Numbers(Join([a, Digits(x), b, c])) == [x]
  {
    JoinsThree(a, Digits(x), b);
    JoinsFive(a, Digits(x), b, c, "");
    ReadsTail(b);
    ReadsPart(a, x, b);
    SkipsWord(b, c);
    ReadsTail(c);
    ReadsPart(a, x, b + c);
    hide Digits, Numbers, Join, NoDigit;
  }

  lemma ReadsTwo(a: string, x: nat, b: string, y: nat, c: string)
    requires NoDigit(a) && NoDigit(b) && NoDigit(c) && b != [] && c != []
    ensures Numbers(Join([a, Digits(x), b, Digits(y), c])) == [x, y]
  {
    JoinsFive(a, Digits(x), b, Digits(y), c);
    ReadsTail(c);
    ReadsPart(b, y, c);
    ReadsPart(a, x, b + (Digits(y) + c));
    hide Digits, Numbers, Join;
  }

  lemma ReadsThree(a: string, x: nat, b: string, y: nat, c: string, z: nat, d: string)
    requires NoDigit(a) && NoDigit(b) && NoDigit(c) && NoDigit(d) && b != [] && c != [] && d != []
    ensures Numbers(Join([a, Digits(x), b, Digits(y), c, Digits(z), d])) == [x, y, z]
  {
    JoinsSeven(a, Digits(x), b, Digits(y), c, Digits(z), d);
    ReadsTail(d);
    ReadsPart(c, z, d);
    ReadsPart(b, y, c + (Digits(z) + d));
    ReadsPart(a, x, b + (Digits(y) + (c + (Digits(z) + d))));
    hide Digits, Numbers, Join;
  }

  lemma WordsHaveNoDigit()
    ensures NoDigit("The only turn (#") && NoDigit(") is condensed here.")
    ensures NoDigit("All ") && NoDigit(" turns are condensed here; the first was #")
    ensures NoDigit(" and the last #") && NoDigit(".")
  {}

  lemma SurvivorWordsHaveNoDigit()
    ensures NoDigit("Everything before turn #") && NoDigit(" is condensed here; the ")
    ensures NoDigit("newest turn follows in full.") && NoDigit(" newest turns follow in full.")
  {}

  /**
   What a range line says of its turns: with survivors, the oldest of them and how many there are when more than
   one; without, how many turns went, the first and the last, or the only one.
   */
  lemma LineNamesTheRange(r: SummaryRange)
    requires r.Covers()
    ensures
      var total := |r.turns|;
      Numbers(r.Line()) ==
      if r.kept == 1 then [r.turns[total - 1]]
      else if r.kept > 1 then [r.turns[total - r.kept], r.kept]
      else if total == 1 then [r.turns[0]]
      else [total, r.turns[0], r.turns[total - 1]]
  {
    WordsHaveNoDigit();
    SurvivorWordsHaveNoDigit();
    hide Digits, Join, Numbers, NoDigit;
    var total := |r.turns|;
    if r.kept > 0 {
      var front, mid := "Everything before turn #", " is condensed here; the ";
      ReadsOne(front, r.turns[total - r.kept], mid, "newest turn follows in full.");
      ReadsTwo(front, r.turns[total - r.kept], mid, r.kept, " newest turns follow in full.");
    } else {
      ReadsOne("The only turn (#", r.turns[0], ") is condensed here.", ".");
      ReadsThree("All ", total, " turns are condensed here; the first was #", r.turns[0], " and the last #", r.turns[total - 1], ".");
    }
  }

  /** However summaries are evicted and carried, a range is stated once and never carried: only the body survives. */
  lemma RangeIsNeverCarried(t: string, r: SummaryRange, later: SummaryRange)
    requires r.Covers() && later.Covers()
    ensures Body(RangedRecord(t, r.Line())) == Body(t)
    ensures Record(RangedRecord(t, r.Line())) == Record(t)
    ensures RangedRecord(RangedRecord(t, r.Line()), later.Line()) == RangedRecord(t, later.Line())
  {
    LineHasNoNewline(r);
    assert OneParagraph(r.Line());
    RangeIsPeeledExactly(t, r.Line());
  }
}
