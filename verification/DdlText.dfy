/** What the DDL scanners compute, as functions on text, and what follows:
    splitting, comments, strings and parentheses. */
module DdlText {
  import opened Common

  const QUOTE := '\''

  /** Where a scanner is: how many parentheses deep, and whether in a string. */
  datatype State = State(depth: int, inString: bool)

  const TOP := State(0, false)

  /** One character further, toggling on every quote. */
  function Next(st: State, c: char): State {
    if c == QUOTE then st.(inString := !st.inString)
    else if st.inString then st
    else if c == '(' then st.(depth := st.depth + 1)
    else if c == ')' then st.(depth := st.depth - 1)
    else st
  }

  function StateAfter(s: string, st: State): State {
    if s == "" then st else StateAfter(s[1..], Next(st, s[0]))
  }

  lemma {:induction false} StateAfterConcat(s: string, t: string, st: State)
    ensures StateAfter(s + t, st) == StateAfter(t, StateAfter(s, st))
    decreases |s|
  {
    if s == "" {
      assert s + t == t;
    } else {
      assert (s + t)[1..] == s[1..] + t;
      StateAfterConcat(s[1..], t, Next(st, s[0]));
    }
  }

  // -------------------------------------------------------------- splitting

  predicate Plain(sep: char) {
    sep != QUOTE && sep != '(' && sep != ')' && !IsSpace(sep)
  }

  /** The pieces between separators outside strings and parentheses. */
  function Pieces(s: string, sep: char, st: State): (r: seq<string>)
    ensures r != []
  {
    if s == "" then [""]
    else if s[0] == sep && st == TOP then [""] + Pieces(s[1..], sep, st)
    else
      var rest := Pieces(s[1..], sep, Next(st, s[0]));
      [[s[0]] + rest[0]] + rest[1..]
  }

  function Join(parts: seq<string>, sep: char): string {
    if parts == [] then ""
    else if |parts| == 1 then parts[0]
    else parts[0] + [sep] + Join(parts[1..], sep)
  }

  /** No separator of `s` is outside strings and parentheses. */
  predicate Whole(s: string, sep: char, st: State) {
    s == "" || (!(s[0] == sep && st == TOP) && Whole(s[1..], sep, Next(st, s[0])))
  }

  lemma JoinPrepends(c: char, parts: seq<string>, sep: char)
    requires parts != []
    ensures Join([[c] + parts[0]] + parts[1..], sep) == [c] + Join(parts, sep)
  {
    var longer := [[c] + parts[0]] + parts[1..];
    assert longer[1..] == parts[1..];
    if |parts| > 1 {
      assert [c] + (parts[0] + [sep] + Join(parts[1..], sep)) == ([c] + parts[0]) + [sep] + Join(parts[1..], sep);
    }
  }

  /** Splitting loses nothing. */
  lemma {:induction false} JoinOfPieces(s: string, sep: char, st: State)
    ensures Join(Pieces(s, sep, st), sep) == s
  {
    if s != "" {
      if s[0] == sep && st == TOP {
        JoinOfPieces(s[1..], sep, st);
        assert Pieces(s, sep, st)[1..] == Pieces(s[1..], sep, st);
      } else {
        var rest := Pieces(s[1..], sep, Next(st, s[0]));
        JoinOfPieces(s[1..], sep, Next(st, s[0]));
        JoinPrepends(s[0], rest, sep);
      }
    }
  }

  /** What a list of pieces must be to come back from its join: no piece splits
      again, and every one but the last ends at the top. */
  ghost predicate Apart(parts: seq<string>, sep: char, st: State)
  {
    parts == []
    || (&& Whole(parts[0], sep, st)
        && (|parts| > 1 ==> StateAfter(parts[0], st) == TOP)
        && Apart(parts[1..], sep, TOP))
  }

  lemma {:induction false} PiecesAreApart(s: string, sep: char, st: State)
    requires Plain(sep)
    ensures Apart(Pieces(s, sep, st), sep, st)
  {
    if s != "" {
      if s[0] == sep && st == TOP {
        PiecesAreApart(s[1..], sep, st);
        assert Pieces(s, sep, st)[1..] == Pieces(s[1..], sep, st);
      } else {
        var rest := Pieces(s[1..], sep, Next(st, s[0]));
        PiecesAreApart(s[1..], sep, Next(st, s[0]));
        var first := [s[0]] + rest[0];
        assert first[1..] == rest[0];
        assert Pieces(s, sep, st)[1..] == rest[1..];
      }
    }
  }

  lemma {:induction false} PiecesOfWhole(s: string, sep: char, st: State)
    requires Whole(s, sep, st)
    ensures Pieces(s, sep, st) == [s]
  {
    if s != "" {
      PiecesOfWhole(s[1..], sep, Next(st, s[0]));
      assert [s[0]] + s[1..] == s;
    }
  }

  lemma {:induction false} PiecesCut(s: string, rest: string, sep: char, st: State)
    requires Plain(sep) && Whole(s, sep, st) && StateAfter(s, st) == TOP
    ensures Pieces(s + [sep] + rest, sep, st) == [s] + Pieces(rest, sep, TOP)
    decreases |s|
  {
    var whole := s + [sep] + rest;
    if s == "" {
      assert whole == [sep] + rest && whole[1..] == rest;
    } else {
      assert whole[1..] == s[1..] + [sep] + rest;
      PiecesCut(s[1..], rest, sep, Next(st, s[0]));
      var tail := Pieces(s[1..] + [sep] + rest, sep, Next(st, s[0]));
      assert tail[0] == s[1..] && tail[1..] == Pieces(rest, sep, TOP);
      assert [s[0]] + s[1..] == s;
    }
  }

  /** Joining pieces that are apart and splitting again gives them back. */
  lemma {:induction false} PiecesOfJoin(parts: seq<string>, sep: char)
    requires Plain(sep) && parts != [] && Apart(parts, sep, TOP)
    ensures Pieces(Join(parts, sep), sep, TOP) == parts
  {
    if |parts| == 1 {
      PiecesOfWhole(parts[0], sep, TOP);
    } else {
      PiecesOfJoin(parts[1..], sep);
      PiecesCut(parts[0], Join(parts[1..], sep), sep, TOP);
    }
  }

  // ---------------------------------------------------------------- comments

  predicate StartsComment(s: string) {
    |s| > 1 && s[0] == '-' && s[1] == '-'
  }

  /** From the start of a comment to the end of its line. */
  function SkipLine(s: string): (r: string)
    ensures |r| <= |s|
    ensures r != "" ==> r[0] == '\n'
    ensures StartsComment(s) ==> |r| < |s|
  {
    if s == "" || s[0] == '\n' then s else SkipLine(s[1..])
  }

  /** What the statement scanner copies: everything but comments. In a string,
      two quotes are one escaped quote. */
  function Clean(s: string, inString: bool): string
    decreases |s|
  {
    if s == "" then ""
    else if inString then
      if s[0] == QUOTE && |s| > 1 && s[1] == QUOTE then [QUOTE, QUOTE] + Clean(s[2..], true)
      else [s[0]] + Clean(s[1..], s[0] != QUOTE)
    else if StartsComment(s) then Clean(SkipLine(s), false)
    else [s[0]] + Clean(s[1..], s[0] == QUOTE)
  }

  /** No comment starts outside a string, by toggling on every quote. */
  predicate CommentFree(s: string, inString: bool) {
    s == ""
    || (!(StartsComment(s) && !inString) && CommentFree(s[1..], if s[0] == QUOTE then !inString else inString))
  }

  /** No comment survives the statement scanner. */
  lemma {:induction false} CleanIsCommentFree(s: string, inString: bool)
    ensures CommentFree(Clean(s, inString), inString)
    ensures Clean(s, false) != "" && s != "" && Clean(s, false)[0] == '-' ==> s[0] == '-'
    decreases |s|
  {
    if s != "" {
      if inString && s[0] == QUOTE && |s| > 1 && s[1] == QUOTE {
        CleanIsCommentFree(s[2..], true);
        var rest := Clean(s[2..], true);
        assert ([QUOTE, QUOTE] + rest)[1..] == [QUOTE] + rest && ([QUOTE] + rest)[1..] == rest;
      } else if inString {
        CleanIsCommentFree(s[1..], s[0] != QUOTE);
        assert ([s[0]] + Clean(s[1..], s[0] != QUOTE))[1..] == Clean(s[1..], s[0] != QUOTE);
      } else if StartsComment(s) {
        CleanIsCommentFree(SkipLine(s), false);
      } else {
        CleanIsCommentFree(s[1..], s[0] == QUOTE);
        assert ([s[0]] + Clean(s[1..], s[0] == QUOTE))[1..] == Clean(s[1..], s[0] == QUOTE);
      }
      if !StartsComment(s) && s[0] == '-' {
        CleanIsCommentFree(s[1..], false);
      }
    }
  }

  /** ... and it copies comment-free text as it is: on such text skipping an
      escaped pair and toggling twice come to the same. */
  lemma {:induction false} CleanKeepsCommentFree(s: string, inString: bool)
    requires CommentFree(s, inString)
    ensures Clean(s, inString) == s
    decreases |s|
  {
    if s != "" {
      if inString && s[0] == QUOTE && |s| > 1 && s[1] == QUOTE {
        assert s[1..][1..] == s[2..];
        CleanKeepsCommentFree(s[2..], true);
      } else {
        CleanKeepsCommentFree(s[1..], if s[0] == QUOTE then !inString else inString);
      }
    }
  }

  // ---------------------------------------------------- white space is inert

  lemma {:induction false} StripLeftIsInert(s: string, sep: char, st: State)
    ensures StateAfter(StripLeft(s), st) == StateAfter(s, st)
    ensures Whole(s, sep, st) ==> Whole(StripLeft(s), sep, st)
    ensures CommentFree(s, st.inString) ==> CommentFree(StripLeft(s), st.inString)
  {
    if s != "" && IsSpace(s[0]) {
      StripLeftIsInert(s[1..], sep, st);
    }
  }

  lemma {:induction false} PrefixStays(s: string, c: char, sep: char, st: State)
    ensures Whole(s + [c], sep, st) ==> Whole(s, sep, st)
    ensures CommentFree(s + [c], st.inString) ==> CommentFree(s, st.inString)
    decreases |s|
  {
    if s != "" {
      assert (s + [c])[1..] == s[1..] + [c];
      PrefixStays(s[1..], c, sep, Next(st, s[0]));
    }
  }

  lemma {:induction false} StripRightIsInert(s: string, sep: char, st: State)
    ensures StateAfter(StripRight(s), st) == StateAfter(s, st)
    ensures Whole(s, sep, st) ==> Whole(StripRight(s), sep, st)
    ensures CommentFree(s, st.inString) ==> CommentFree(StripRight(s), st.inString)
    decreases |s|
  {
    if s != "" && IsSpace(s[|s| - 1]) {
      var init, c := s[..|s| - 1], s[|s| - 1];
      assert s == init + [c];
      StateAfterConcat(init, [c], st);
      PrefixStays(init, c, sep, st);
      StripRightIsInert(init, sep, st);
    }
  }

  lemma StripIsInert(s: string, sep: char, st: State)
    ensures StateAfter(Strip(s), st) == StateAfter(s, st)
    ensures Whole(s, sep, st) ==> Whole(Strip(s), sep, st)
    ensures CommentFree(s, st.inString) ==> CommentFree(Strip(s), st.inString)
  {
    StripLeftIsInert(s, sep, st);
    StripRightIsInert(StripLeft(s), sep, st);
  }

  /** No white space at either end. */
  predicate Trimmed(s: string) {
    s != "" ==> !IsSpace(s[0]) && !IsSpace(s[|s| - 1])
  }

  lemma {:induction false} StripRightTrims(s: string)
    ensures StripRight(s) != "" ==> !IsSpace(StripRight(s)[|StripRight(s)| - 1]) && StripRight(s)[0] == s[0] && s != ""
    decreases |s|
  {
    if s != "" && IsSpace(s[|s| - 1]) {
      StripRightTrims(s[..|s| - 1]);
    }
  }

  lemma {:induction false} StripLeftTrims(s: string)
    ensures StripLeft(s) != "" ==> !IsSpace(StripLeft(s)[0])
  {
    if s != "" && IsSpace(s[0]) {
      StripLeftTrims(s[1..]);
    }
  }

  lemma StripTrims(s: string)
    ensures Trimmed(Strip(s))
  {
    StripLeftTrims(s);
    StripRightTrims(StripLeft(s));
  }

  lemma StripOfTrimmed(s: string)
    requires Trimmed(s)
    ensures Strip(s) == s
  {
  }

  // ----------------------------------------------------- splitting a SQL file

  function KeepStripped(parts: seq<string>): seq<string> {
    if parts == [] then []
    else if Strip(parts[0]) == "" then KeepStripped(parts[1..])
    else [Strip(parts[0])] + KeepStripped(parts[1..])
  }

  /** The statements of a file: comments out, split on top-level semicolons,
      stripped, empty ones dropped. */
  function Statements(sql: string): seq<string> {
    KeepStripped(Pieces(Clean(sql, false), ';', TOP))
  }

  /** What makes a list of statements come back from its join. */
  ghost predicate Separable(parts: seq<string>) {
    parts == []
    || (&& Whole(parts[0], ';', TOP) && CommentFree(parts[0], false) && Trimmed(parts[0]) && parts[0] != ""
        && (|parts| > 1 ==> StateAfter(parts[0], TOP) == TOP)
        && Separable(parts[1..]))
  }

  ghost predicate AllCommentFree(parts: seq<string>) {
    forall k :: 0 <= k < |parts| ==> CommentFree(parts[k], false)
  }

  /** Cutting comment-free text outside strings leaves comment-free pieces. */
  lemma {:induction false} PiecesAreCommentFree(s: string, sep: char, st: State)
    requires Plain(sep) && CommentFree(s, st.inString)
    ensures CommentFree(Pieces(s, sep, st)[0], st.inString)
    ensures forall k :: 1 <= k < |Pieces(s, sep, st)| ==> CommentFree(Pieces(s, sep, st)[k], false)
    ensures Pieces(s, sep, st)[0] != "" ==> s != "" && Pieces(s, sep, st)[0][0] == s[0]
  {
    if s != "" {
      if s[0] == sep && st == TOP {
        PiecesAreCommentFree(s[1..], sep, st);
      } else {
        PiecesAreCommentFree(s[1..], sep, Next(st, s[0]));
        var rest := Pieces(s[1..], sep, Next(st, s[0]));
        var first := [s[0]] + rest[0];
        assert first[1..] == rest[0];
      }
    }
  }

  lemma {:induction false} KeepStrippedIsSeparable(parts: seq<string>)
    requires Apart(parts, ';', TOP) && AllCommentFree(parts)
    ensures Separable(KeepStripped(parts))
  {
    if parts != [] {
      var kept := KeepStripped(parts[1..]);
      assert AllCommentFree(parts[1..]);
      KeepStrippedIsSeparable(parts[1..]);
      if Strip(parts[0]) != "" {
        StripIsInert(parts[0], ';', TOP);
        StripTrims(parts[0]);
        assert ([Strip(parts[0])] + kept)[1..] == kept;
        if kept != [] {
          assert parts[1..] != [];
        }
      }
    }
  }

  /** Every statement is trimmed and not empty, has no comment outside a string
      and no semicolon outside strings and parentheses, and every one but the
      last ends outside both. */
  lemma StatementsAreSeparable(sql: string)
    ensures Separable(Statements(sql))
  {
    CleanIsCommentFree(sql, false);
    PiecesAreApart(Clean(sql, false), ';', TOP);
    PiecesAreCommentFree(Clean(sql, false), ';', TOP);
    KeepStrippedIsSeparable(Pieces(Clean(sql, false), ';', TOP));
  }

  lemma {:induction false} SeparableIsApart(parts: seq<string>)
    requires Separable(parts)
    ensures Apart(parts, ';', TOP)
    ensures KeepStripped(parts) == parts
  {
    if parts != [] {
      SeparableIsApart(parts[1..]);
      StripOfTrimmed(parts[0]);
    }
  }

  lemma {:induction false} CommentFreeConcat(s: string, t: string, st: State)
    requires CommentFree(s, st.inString) && CommentFree(t, StateAfter(s, st).inString)
    requires t != "" ==> t[0] != '-'
    ensures CommentFree(s + t, st.inString)
    decreases |s|
  {
    if s == "" {
      assert s + t == t;
    } else {
      assert (s + t)[1..] == s[1..] + t;
      CommentFreeConcat(s[1..], t, Next(st, s[0]));
    }
  }

  lemma {:induction false} JoinIsCommentFree(parts: seq<string>)
    requires Separable(parts)
    ensures CommentFree(Join(parts, ';'), false)
  {
    if |parts| > 1 {
      JoinIsCommentFree(parts[1..]);
      var rest := [';'] + Join(parts[1..], ';');
      assert rest[1..] == Join(parts[1..], ';');
      CommentFreeConcat(parts[0], rest, TOP);
      assert parts[0] + rest == parts[0] + [';'] + Join(parts[1..], ';');
    }
  }

  /** The round trip, for every file: joining its statements with semicolons
      and splitting again gives the same statements. */
  lemma SplitJoinSplit(sql: string)
    ensures Statements(Join(Statements(sql), ';')) == Statements(sql)
  {
    var parts := Statements(sql);
    StatementsAreSeparable(sql);
    SeparableIsApart(parts);
    JoinIsCommentFree(parts);
    CleanKeepsCommentFree(Join(parts, ';'), false);
    if parts == [] {
      assert Pieces("", ';', TOP) == [""] && [""][1..] == [] && Strip("") == "";
    } else {
      PiecesOfJoin(parts, ';');
    }
  }

  // ------------------------------------- escaped quotes and toggled ones agree

  /** Whether the statement scanner is in a string as it comes to character `k`.
      It takes an escaped pair in one step, and stays in the string throughout;
      outside strings it skips comments. */
  function EscapedAt(s: string, inString: bool, k: nat): bool
    requires k <= |s|
    decreases |s|
  {
    if k == 0 then inString
    else if inString && s[0] == QUOTE && |s| > 1 && s[1] == QUOTE then
      if k == 1 then true else EscapedAt(s[2..], true, k - 2)
    else if !inString && StartsComment(s) then
      var skipped := |s| - |SkipLine(s)|;
      if k < skipped then false else EscapedAt(SkipLine(s), false, k - skipped)
    else EscapedAt(s[1..], if s[0] == QUOTE then !inString else inString, k - 1)
  }

  /** The same of a scanner that toggles on every quote. */
  function ToggledAt(s: string, inString: bool, k: nat): bool
    requires k <= |s|
  {
    StateAfter(s[..k], State(0, inString)).inString
  }

  /** The two kinds of scanner agree at every character of comment-free text
      that is not a quote. */
  lemma {:induction false} ScannersAgree(s: string, inString: bool, k: nat)
    requires CommentFree(s, inString) && k < |s| && s[k] != QUOTE
    ensures EscapedAt(s, inString, k) == ToggledAt(s, inString, k)
    decreases |s|
  {
    if k > 0 {
      var rest := s[1..];
      assert s[..k] == [s[0]] + rest[..k - 1];
      var next := if s[0] == QUOTE then !inString else inString;
      StringStateIgnoresDepth(rest[..k - 1], Next(State(0, inString), s[0]), State(0, next));
      assert s[..k][1..] == rest[..k - 1];
      if inString && s[0] == QUOTE && |s| > 1 && s[1] == QUOTE {
        assert k > 1 && rest[..k - 1][1..] == s[2..][..k - 2];
        StringStateIgnoresDepth(s[2..][..k - 2], Next(State(0, next), s[1]), State(0, true));
        ScannersAgree(s[2..], true, k - 2);
      } else {
        ScannersAgree(rest, next, k - 1);
      }
    }
  }

  lemma {:induction false} StringStateIgnoresDepth(s: string, a: State, b: State)
    requires a.inString == b.inString
    ensures StateAfter(s, a).inString == StateAfter(s, b).inString
  {
    if s != "" {
      StringStateIgnoresDepth(s[1..], Next(a, s[0]), Next(b, s[0]));
    }
  }

  // ------------------------------------------------------ splitting a clause list

  function StripAll(parts: seq<string>): seq<string> {
    if parts == [] then [] else [Strip(parts[0])] + StripAll(parts[1..])
  }

  /** `_split_top_level`: every part stripped and kept, an empty last one dropped. */
  function TopLevelParts(s: string, sep: char): seq<string> {
    var parts := StripAll(Pieces(s, sep, TOP));
    if parts != [] && parts[|parts| - 1] == "" then parts[..|parts| - 1] else parts
  }

  lemma {:induction false} StripAllIsApart(parts: seq<string>, sep: char)
    requires Apart(parts, sep, TOP)
    ensures Apart(StripAll(parts), sep, TOP) && |StripAll(parts)| == |parts|
    ensures StripAll(StripAll(parts)) == StripAll(parts)
  {
    if parts != [] {
      StripIsInert(parts[0], sep, TOP);
      StripTrims(parts[0]);
      StripOfTrimmed(Strip(parts[0]));
      StripAllIsApart(parts[1..], sep);
      assert StripAll(parts)[1..] == StripAll(parts[1..]);
    }
  }

  lemma {:induction false} ApartPrefix(parts: seq<string>, sep: char)
    requires parts != [] && Apart(parts, sep, TOP)
    ensures Apart(parts[..|parts| - 1], sep, TOP)
  {
    if |parts| > 1 {
      ApartPrefix(parts[1..], sep);
      assert parts[..|parts| - 1][1..] == parts[1..][..|parts| - 2];
    }
  }

  lemma {:induction false} StripAllPrefix(parts: seq<string>, n: nat)
    requires n <= |parts| && StripAll(parts) == parts
    ensures StripAll(parts[..n]) == parts[..n]
  {
    if n > 0 {
      assert StripAll(parts)[1..] == StripAll(parts[1..]);
      StripAllPrefix(parts[1..], n - 1);
      assert parts[..n][1..] == parts[1..][..n - 1];
    }
  }

  /** Joining the parts with the separator and splitting again gives the same
      parts exactly when there are none or the last is not empty. */
  lemma PartsComeBackExactlyWhen(s: string, sep: char)
    requires Plain(sep)
    ensures var parts := TopLevelParts(s, sep);
            TopLevelParts(Join(parts, sep), sep) == parts <==> parts == [] || parts[|parts| - 1] != ""
  {
    var all := StripAll(Pieces(s, sep, TOP));
    PiecesAreApart(s, sep, TOP);
    StripAllIsApart(Pieces(s, sep, TOP), sep);
    var parts := TopLevelParts(s, sep);
    if all[|all| - 1] == "" {
      ApartPrefix(all, sep);
      StripAllPrefix(all, |all| - 1);
    }
    if parts == [] {
      assert Pieces("", sep, TOP) == [""] && [""][1..] == [] && Strip("") == "";
      assert StripAll([""]) == [""];
    } else {
      PiecesOfJoin(parts, sep);
    }
  }

  // ------------------------------------------------------ a parenthesized body

  /** The first `(`. */
  predicate FirstParen(s: string, start: nat) {
    start < |s| && s[start] == '(' && forall k :: 0 <= k < start ==> s[k] != '('
  }

  /** How deep the scanner is just before `k`, from the first parenthesis on. */
  function From(s: string, start: nat, k: nat): State
    requires start <= k <= |s|
  {
    StateAfter(s[start..k], TOP)
  }

  /** `end` is the `)` that matches the `(` at `start`: in between the scanner
      is always inside, and there it gets out. */
  ghost predicate Matches(s: string, start: nat, end: nat) {
    && start < end < |s|
    && (forall k :: start < k <= end ==> From(s, start, k).depth > 0)
    && From(s, start, end + 1).depth == 0
  }

  lemma FromStep(s: string, start: nat, k: nat)
    requires start <= k < |s|
    ensures From(s, start, k + 1) == Next(From(s, start, k), s[k])
  {
    assert s[start..k + 1] == s[start..k] + [s[k]];
    StateAfterConcat(s[start..k], [s[k]], TOP);
  }

  /** There is at most one such place. */
  lemma MatchIsUnique(s: string, start: nat, end: nat, other: nat)
    requires Matches(s, start, end) && Matches(s, start, other)
    ensures end == other
  {
    assert From(s, start, end + 1).depth == 0 && From(s, start, other + 1).depth == 0;
  }

  lemma {:induction false} FirstWayOut(s: string, start: nat, n: nat) returns (end: nat)
    requires FirstParen(s, start) && start < n <= |s| && From(s, start, n).depth <= 0
    ensures Matches(s, start, end) && end < n
    decreases n
  {
    FromStep(s, start, start);
    assert s[start..start] == "" && From(s, start, start + 1) == State(1, false);
    FromStep(s, start, n - 1);
    if k :| start < k < n && From(s, start, k).depth <= 0 {
      end := FirstWayOut(s, start, k);
    } else {
      end := n - 1;
    }
  }

  /** A statement that ends at the top, as every statement but a file's last
      does, has a body whenever its first parenthesis is opened at the top. */
  lemma ClosedStatementHasBody(s: string, start: nat) returns (end: nat)
    requires FirstParen(s, start) && StateAfter(s[..start], TOP) == TOP && StateAfter(s, TOP) == TOP
    ensures Matches(s, start, end)
  {
    assert s == s[..start] + s[start..];
    StateAfterConcat(s[..start], s[start..], TOP);
    assert s[start..|s|] == s[start..];
    end := FirstWayOut(s, start, |s|);
  }

  lemma {:induction false} DepthShifts(s: string, st: State, extra: int)
    ensures StateAfter(s, State(st.depth + extra, st.inString))
              == State(StateAfter(s, st).depth + extra, StateAfter(s, st).inString)
  {
    if s != "" {
      DepthShifts(s[1..], Next(st, s[0]), extra);
    }
  }

  /** A body is balanced: scanned by itself it ends at the top. */
  lemma BodyIsBalanced(s: string, start: nat, end: nat)
    requires FirstParen(s, start) && Matches(s, start, end)
    ensures StateAfter(s[start + 1..end], TOP) == TOP
  {
    var body := s[start + 1..end];
    assert s[start..end] == [s[start]] + body && ([s[start]] + body)[1..] == body;
    assert From(s, start, end) == StateAfter(body, State(1, false));
    FromStep(s, start, end);
    assert From(s, start, end).depth > 0;
    DepthShifts(body, TOP, 1);
  }

  ghost predicate AllEndAtTop(parts: seq<string>) {
    forall k :: 0 <= k < |parts| ==> StateAfter(parts[k], TOP) == TOP
  }

  lemma {:induction false} LastPieceEnds(s: string, sep: char, st: State)
    requires Plain(sep)
    ensures var p := Pieces(s, sep, st);
            StateAfter(p[|p| - 1], if |p| == 1 then st else TOP) == StateAfter(s, st)
  {
    if s != "" {
      var p := Pieces(s, sep, st);
      if s[0] == sep && st == TOP {
        LastPieceEnds(s[1..], sep, st);
        assert p[|p| - 1] == Pieces(s[1..], sep, st)[|p| - 2];
      } else {
        var rest := Pieces(s[1..], sep, Next(st, s[0]));
        LastPieceEnds(s[1..], sep, Next(st, s[0]));
        if |p| == 1 {
          assert p[0][1..] == rest[0];
        }
      }
    }
  }

  lemma {:induction false} StrippedEndAtTop(parts: seq<string>, sep: char)
    requires parts != [] && Apart(parts, sep, TOP) && StateAfter(parts[|parts| - 1], TOP) == TOP
    ensures AllEndAtTop(StripAll(parts)) && |StripAll(parts)| == |parts|
  {
    StripIsInert(parts[0], sep, TOP);
    if |parts| > 1 {
      StrippedEndAtTop(parts[1..], sep);
    } else {
      assert StripAll(parts[1..]) == [];
    }
  }

  /** A column clause never straddles a string or a parenthesis: splitting a
      balanced body leaves balanced clauses. */
  lemma ClausesAreBalanced(body: string, sep: char)
    requires Plain(sep) && StateAfter(body, TOP) == TOP
    ensures AllEndAtTop(TopLevelParts(body, sep))
  {
    PiecesAreApart(body, sep, TOP);
    LastPieceEnds(body, sep, TOP);
    StrippedEndAtTop(Pieces(body, sep, TOP), sep);
  }
}
