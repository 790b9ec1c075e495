/** Where the DDL scanners cut and match, by counting characters: a quote turns
    strings on and off, and only parentheses outside strings count. */
module DdlCounts {
  import opened Common
  import opened DdlText

  // ------------------------------------------------------------- the counts

  /** The quotes before `k`. */
  function QuotesBefore(s: string, k: nat): set<nat>
    requires k <= |s|
  {
    set i: nat | i < k && s[i] == QUOTE
  }

  /** Character `k` is outside every string: an even number of quotes precede it. */
  predicate Outside(s: string, k: nat)
    requires k <= |s|
  {
    |QuotesBefore(s, k)| % 2 == 0
  }

  /** The places before `k` where `c` is outside every string. */
  function Before(s: string, c: char, k: nat): set<nat>
    requires k <= |s|
  {
    set i: nat | i < k && s[i] == c && Outside(s, i)
  }

  /** As many opened as closed before `k`, and not in a string. */
  predicate AtTop(s: string, k: nat)
    requires k <= |s|
  {
    Outside(s, k) && |Before(s, '(', k)| == |Before(s, ')', k)|
  }

  // -------------------------------------------------- the scanners count so

  lemma QuotesStep(s: string, k: nat)
    requires k < |s|
    ensures |QuotesBefore(s, k + 1)| == |QuotesBefore(s, k)| + if s[k] == QUOTE then 1 else 0
  {
    assert QuotesBefore(s, k + 1) == QuotesBefore(s, k) + if s[k] == QUOTE then {k} else {};
  }

  lemma BeforeStep(s: string, c: char, k: nat)
    requires k < |s|
    ensures |Before(s, c, k + 1)| == |Before(s, c, k)| + if s[k] == c && Outside(s, k) then 1 else 0
  {
    assert Before(s, c, k + 1) == Before(s, c, k) + if s[k] == c && Outside(s, k) then {k} else {};
  }

  lemma StateStep(s: string, k: nat, st: State)
    requires k < |s|
    ensures StateAfter(s[..k + 1], st) == Next(StateAfter(s[..k], st), s[k])
  {
    assert s[..k + 1] == s[..k] + [s[k]];
    StateAfterConcat(s[..k], [s[k]], st);
  }

  /** A scanner is in a string after an odd number of quotes, and as deep as
      parentheses outside strings have been opened and not closed. */
  lemma {:induction false} ScannersCount(s: string, k: nat)
    requires k <= |s|
    ensures StateAfter(s[..k], TOP) == State(|Before(s, '(', k)| - |Before(s, ')', k)|, !Outside(s, k))
    decreases k
  {
    if k == 0 {
      assert s[..0] == "" && QuotesBefore(s, 0) == {} && Before(s, '(', 0) == {} && Before(s, ')', 0) == {};
    } else {
      ScannersCount(s, k - 1);
      StateStep(s, k - 1, TOP);
      QuotesStep(s, k - 1);
      BeforeStep(s, '(', k - 1);
      BeforeStep(s, ')', k - 1);
    }
  }

  /** What is in a string changes nothing for what comes after. */
  lemma {:induction false} StringsHide(q: string, st: State)
    requires QUOTE !in q && st.inString
    ensures StateAfter(q, st) == st
  {
    if q != "" {
      StringsHide(q[1..], st);
    }
  }

  /** So replacing the inside of a string leaves everything after it where it
      was, to every scanner. */
  lemma InsideIsIrrelevant(before: string, inside: string, other: string, after: string)
    requires StateAfter(before, TOP).inString && QUOTE !in inside && QUOTE !in other
    ensures StateAfter(before + inside + after, TOP) == StateAfter(before + other + after, TOP)
  {
    StringsHide(inside, StateAfter(before, TOP));
    StringsHide(other, StateAfter(before, TOP));
    StateAfterConcat(before, inside, TOP);
    StateAfterConcat(before, other, TOP);
    StateAfterConcat(before + inside, after, TOP);
    StateAfterConcat(before + other, after, TOP);
  }

  // ---------------------------------------------------------- where it cuts

  /** The places of the separators when the parts are joined, the first part
      starting at `from`. */
  function CutsOf(parts: seq<string>, from: nat): set<nat> {
    if |parts| <= 1 then {} else {from + |parts[0]|} + CutsOf(parts[1..], from + |parts[0]| + 1)
  }

  lemma {:induction false} PiecesCutFrom(s: string, sep: char, st: State, from: nat, k: nat)
    requires Plain(sep)
    ensures k in CutsOf(Pieces(s, sep, st), from) <==>
              from <= k < from + |s| && s[k - from] == sep && StateAfter(s[..k - from], st) == TOP
    decreases |s|
  {
    if s != "" {
      PiecesCutFrom(s[1..], sep, Next(st, s[0]), from + 1, k);
      var rest := Pieces(s[1..], sep, Next(st, s[0]));
      assert ([[s[0]] + rest[0]] + rest[1..])[1..] == rest[1..] && ([""] + rest)[1..] == rest;
      if from < k < from + |s| {
        assert s[..k - from][1..] == s[1..][..k - from - 1];
      }
    }
  }

  /** A text is cut exactly at the separators that no string and no open
      parenthesis hides. */
  lemma CutsExactly(s: string, sep: char, k: nat)
    requires Plain(sep)
    ensures k in CutsOf(Pieces(s, sep, TOP), 0) <==> k < |s| && s[k] == sep && AtTop(s, k)
    ensures Join(Pieces(s, sep, TOP), sep) == s
  {
    PiecesCutFrom(s, sep, TOP, 0, k);
    JoinOfPieces(s, sep, TOP);
    if k < |s| {
      ScannersCount(s, k);
    }
  }

  // -------------------------------------------------------- where it matches

  /** The first `(` and its match, by counting from it on: the first place where
      as many have been closed as opened, outside strings that start after it. */
  ghost predicate Encloses(s: string, start: nat, end: nat) {
    && FirstParen(s, start) && start < end < |s|
    && var t := s[start..];
       && (forall k :: 0 < k <= end - start ==> |Before(t, '(', k)| > |Before(t, ')', k)|)
       && |Before(t, '(', end - start + 1)| == |Before(t, ')', end - start + 1)|
  }

  lemma FromCounts(s: string, start: nat, k: nat)
    requires start <= k <= |s|
    ensures From(s, start, k).depth == |Before(s[start..], '(', k - start)| - |Before(s[start..], ')', k - start)|
  {
    assert s[start..k] == s[start..][..k - start];
    ScannersCount(s[start..], k - start);
  }

  /** The body that is extracted is what these two enclose. */
  lemma MatchesExactly(s: string, start: nat, end: nat)
    requires FirstParen(s, start)
    ensures Matches(s, start, end) <==> Encloses(s, start, end)
  {
    if start < end < |s| {
      forall k | start < k <= end + 1
        ensures From(s, start, k).depth == |Before(s[start..], '(', k - start)| - |Before(s[start..], ')', k - start)|
      {
        FromCounts(s, start, k);
      }
      assert forall k :: 0 < k <= end - start ==>
        From(s, start, start + k).depth == |Before(s[start..], '(', k)| - |Before(s[start..], ')', k)|;
    }
  }

  // ---------------------------------------------------------- what goes

  lemma {:induction false} SkipsTheLine(c: string, b: string)
    requires '\n' !in c && (b != "" ==> b[0] == '\n')
    ensures SkipLine(c + b) == b
    decreases |c|
  {
    if c == "" {
      assert c + b == b;
    } else {
      assert (c + b)[1..] == c[1..] + b;
      SkipsTheLine(c[1..], b);
    }
  }

  /** `a` has no comment, and what follows it does not end up in one with it. */
  predicate StandsAlone(a: string, inString: bool) {
    && CommentFree(a, inString) && !StateAfter(a, State(0, inString)).inString
    && (a == "" || a[|a| - 1] != '-')
  }

  lemma AloneAfterOne(a: string, inString: bool)
    requires a != "" && StandsAlone(a, inString)
    ensures StandsAlone(a[1..], if a[0] == QUOTE then !inString else inString)
  {
    var st := Next(State(0, inString), a[0]);
    StringStateIgnoresDepth(a[1..], st, State(0, st.inString));
  }

  lemma CopiesOne(a: string, t: string, inString: bool)
    requires a != "" && StandsAlone(a, inString) && (t != "" ==> t[0] != QUOTE)
    requires !(inString && a[0] == QUOTE && |a| > 1 && a[1] == QUOTE)
    ensures Clean(a + t, inString) == [a[0]] + Clean(a[1..] + t, if a[0] == QUOTE then !inString else inString)
  {
    assert (a + t)[1..] == a[1..] + t;
  }

  /** Text without a comment is copied as it is, whatever follows. */
  lemma {:induction false} PrefixIsCopied(a: string, t: string, inString: bool)
    requires StandsAlone(a, inString) && (t != "" ==> t[0] != QUOTE)
    ensures Clean(a + t, inString) == a + Clean(t, false)
    decreases |a|
  {
    if a == "" {
      assert a + t == t && a + Clean(t, false) == Clean(t, false);
    } else if inString && a[0] == QUOTE && |a| > 1 && a[1] == QUOTE {
      AloneAfterOne(a, inString);
      AloneAfterOne(a[1..], false);
      assert a[1..][1..] == a[2..] && (a + t)[2..] == a[2..] + t;
      PrefixIsCopied(a[2..], t, true);
      assert a == [QUOTE, QUOTE] + a[2..];
      assert [QUOTE, QUOTE] + (a[2..] + Clean(t, false)) == [QUOTE, QUOTE] + a[2..] + Clean(t, false);
    } else {
      AloneAfterOne(a, inString);
      CopiesOne(a, t, inString);
      PrefixIsCopied(a[1..], t, if a[0] == QUOTE then !inString else inString);
      assert a == [a[0]] + a[1..];
      assert [a[0]] + (a[1..] + Clean(t, false)) == [a[0]] + a[1..] + Clean(t, false);
    }
  }

  /** A comment goes, up to the end of its line and no further, and nothing
      before it does. */
  lemma CommentGoes(a: string, c: string, b: string)
    requires StandsAlone(a, false) && '\n' !in c && (b != "" ==> b[0] == '\n')
    ensures Clean(a + ("--" + c + b), false) == a + Clean(b, false)
  {
    PrefixIsCopied(a, "--" + c + b, false);
    SkipsTheLine("--" + c, b);
  }

  // ---------------------------------------------------------- what is kept

  /** The visible characters. */
  function Ink(s: string): string {
    if s == "" then "" else (if IsSpace(s[0]) then "" else [s[0]]) + Ink(s[1..])
  }

  lemma {:induction false} InkOfConcat(a: string, b: string)
    ensures Ink(a + b) == Ink(a) + Ink(b)
    decreases |a|
  {
    if a == "" {
      assert a + b == b;
    } else {
      assert (a + b)[1..] == a[1..] + b;
      InkOfConcat(a[1..], b);
    }
  }

  lemma {:induction false} InkOfStripLeft(s: string)
    ensures Ink(StripLeft(s)) == Ink(s)
  {
    if s != "" && IsSpace(s[0]) {
      InkOfStripLeft(s[1..]);
    }
  }

  lemma {:induction false} InkOfStripRight(s: string)
    ensures Ink(StripRight(s)) == Ink(s)
    decreases |s|
  {
    if s != "" && IsSpace(s[|s| - 1]) {
      InkOfStripRight(s[..|s| - 1]);
      InkOfConcat(s[..|s| - 1], [s[|s| - 1]]);
      assert s == s[..|s| - 1] + [s[|s| - 1]];
    }
  }

  /** Stripping loses nothing visible, and all of a blank text. */
  lemma InkOfStrip(s: string)
    ensures Ink(Strip(s)) == Ink(s) && (Strip(s) == "" <==> Ink(s) == "")
  {
    InkOfStripLeft(s);
    InkOfStripRight(StripLeft(s));
    StripTrims(s);
  }

  /** How many of the pieces are not blank. */
  function Visible(pieces: seq<string>): nat {
    if pieces == [] then 0 else (if Ink(pieces[0]) != "" then 1 else 0) + Visible(pieces[1..])
  }

  function Flat(parts: seq<string>): string {
    if parts == [] then "" else parts[0] + Flat(parts[1..])
  }

  lemma {:induction false} KeepStrippedKeepsInk(pieces: seq<string>)
    ensures Ink(Flat(KeepStripped(pieces))) == Ink(Flat(pieces))
    ensures |KeepStripped(pieces)| == Visible(pieces)
  {
    if pieces != [] {
      KeepStrippedKeepsInk(pieces[1..]);
      InkOfStrip(pieces[0]);
      InkOfConcat(pieces[0], Flat(pieces[1..]));
      var kept := KeepStripped(pieces[1..]);
      if Strip(pieces[0]) != "" {
        assert ([Strip(pieces[0])] + kept)[1..] == kept;
        InkOfConcat(Strip(pieces[0]), Flat(kept));
      }
    }
  }

  /** The statements are as many as the pieces with anything visible in them, and
      have all that is visible, in order. */
  lemma StatementsKeepInk(sql: string)
    ensures var pieces := Pieces(Clean(sql, false), ';', TOP);
            |Statements(sql)| == Visible(pieces) && Ink(Flat(Statements(sql))) == Ink(Flat(pieces))
  {
    KeepStrippedKeepsInk(Pieces(Clean(sql, false), ';', TOP));
  }

  lemma {:induction false} StripAllKeepsInk(pieces: seq<string>)
    ensures |StripAll(pieces)| == |pieces|
    ensures forall i :: 0 <= i < |pieces| ==> Trimmed(StripAll(pieces)[i]) && Ink(StripAll(pieces)[i]) == Ink(pieces[i])
  {
    if pieces != [] {
      StripAllKeepsInk(pieces[1..]);
      InkOfStrip(pieces[0]);
      StripTrims(pieces[0]);
      forall i | 1 <= i < |pieces| ensures StripAll(pieces)[i] == StripAll(pieces[1..])[i - 1] {
      }
    }
  }

  /** A clause list has a part for every piece, trimmed, blank ones included,
      but for a blank last one. */
  lemma PartsKeepInk(s: string, sep: char)
    ensures var parts, pieces := TopLevelParts(s, sep), Pieces(s, sep, TOP);
            && |parts| == |pieces| - (if Ink(pieces[|pieces| - 1]) == "" then 1 else 0)
            && forall i :: 0 <= i < |parts| ==> Trimmed(parts[i]) && Ink(parts[i]) == Ink(pieces[i])
  {
    var pieces := Pieces(s, sep, TOP);
    StripAllKeepsInk(pieces);
    InkOfStrip(StripAll(pieces)[|pieces| - 1]);
    StripOfTrimmed(StripAll(pieces)[|pieces| - 1]);
  }
}
