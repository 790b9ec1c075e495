/** The three hand-written scanners of the DDL lint, each proved against the
    text functions in `DdlText`. */
module DdlLint {
  import opened Common
  import opened DdlText

  function PrependTo(buf: string, parts: seq<string>): seq<string>
    requires parts != []
  {
    [buf + parts[0]] + parts[1..]
  }

  lemma PrependNothing(parts: seq<string>)
    requires parts != []
    ensures PrependTo("", parts) == parts
  {
    assert "" + parts[0] == parts[0];
  }

  lemma PiecesStep(c: char, rest: string, sep: char, st: State, buf: string)
    ensures !(c == sep && st == TOP) ==>
              PrependTo(buf, Pieces([c] + rest, sep, st)) == PrependTo(buf + [c], Pieces(rest, sep, Next(st, c)))
    ensures c == sep && st == TOP ==> PrependTo(buf, Pieces([c] + rest, sep, st)) == [buf] + Pieces(rest, sep, st)
  {
    assert ([c] + rest)[1..] == rest;
    var p := Pieces(rest, sep, Next(st, c));
    assert buf + ([c] + p[0]) == (buf + [c]) + p[0];
    assert buf + "" == buf;
  }

  lemma {:induction false} KeepConcat(a: seq<string>, b: seq<string>)
    ensures KeepStripped(a + b) == KeepStripped(a) + KeepStripped(b)
    decreases |a|
  {
    if a == [] {
      assert a + b == b;
    } else {
      assert (a + b)[1..] == a[1..] + b;
      KeepConcat(a[1..], b);
    }
  }

  lemma {:induction false} SkipLineStep(sql: string, i: nat)
    requires i < |sql| && sql[i] != '\n'
    ensures SkipLine(sql[i..]) == SkipLine(sql[i + 1..])
  {
    assert sql[i..][1..] == sql[i + 1..];
  }

  /** What is still to come of the statements, given the buffer so far. */
  ghost function ToCome(sql: string, i: nat, inString: bool, depth: int, buf: string): seq<string>
    requires i <= |sql|
  {
    KeepStripped(PrependTo(buf, Pieces(Clean(sql[i..], inString), ';', State(depth, inString))))
  }

  lemma CopyOne(sql: string, i: nat, inString: bool, depth: int, buf: string)
    requires i < |sql| && !(inString && sql[i] == QUOTE && i + 1 < |sql| && sql[i + 1] == QUOTE)
    requires !(!inString && StartsComment(sql[i..])) && !(sql[i] == ';' && State(depth, inString) == TOP)
    ensures var st := Next(State(depth, inString), sql[i]);
            ToCome(sql, i, inString, depth, buf) == ToCome(sql, i + 1, st.inString, st.depth, buf + [sql[i]])
  {
    var c := sql[i];
    var st := Next(State(depth, inString), c);
    assert sql[i..][1..] == sql[i + 1..];
    assert Clean(sql[i..], inString) == [c] + Clean(sql[i + 1..], st.inString);
    PiecesStep(c, Clean(sql[i + 1..], st.inString), ';', State(depth, inString), buf);
  }

  lemma CopyPair(sql: string, i: nat, depth: int, buf: string)
    requires i + 1 < |sql| && sql[i] == QUOTE && sql[i + 1] == QUOTE
    ensures ToCome(sql, i, true, depth, buf) == ToCome(sql, i + 2, true, depth, buf + [QUOTE] + [QUOTE])
  {
    assert sql[i..][2..] == sql[i + 2..];
    var rest := Clean(sql[i + 2..], true);
    assert Clean(sql[i..], true) == [QUOTE] + ([QUOTE] + rest);
    PiecesStep(QUOTE, [QUOTE] + rest, ';', State(depth, true), buf);
    PiecesStep(QUOTE, rest, ';', State(depth, false), buf + [QUOTE]);
  }

  lemma CutHere(sql: string, i: nat, buf: string)
    requires i < |sql| && sql[i] == ';'
    ensures ToCome(sql, i, false, 0, buf) ==
      (if Strip(buf) != "" then [Strip(buf)] else []) + ToCome(sql, i + 1, false, 0, "")
  {
    assert sql[i..][1..] == sql[i + 1..];
    var rest := Clean(sql[i + 1..], false);
    assert Clean(sql[i..], false) == [';'] + rest;
    PiecesStep(';', rest, ';', TOP, buf);
    KeepConcat([buf], Pieces(rest, ';', TOP));
    KeepOne(buf);
    PrependNothing(Pieces(rest, ';', TOP));
  }

  lemma AllToCome(sql: string)
    ensures ToCome(sql, 0, false, 0, "") == Statements(sql)
  {
    assert sql[0..] == sql;
    PrependNothing(Pieces(Clean(sql, false), ';', TOP));
  }

  // ------------------------------------------------ where the scanner's strings are

  /** From `i` on, the scanner's own `inString` decides as the text does. */
  ghost predicate OnTrack(sql: string, i: nat, inString: bool)
    requires i <= |sql|
  {
    forall k :: i <= k <= |sql| ==> EscapedAt(sql, false, k) == EscapedAt(sql[i..], inString, k - i)
  }

  lemma StartsOnTrack(sql: string)
    ensures OnTrack(sql, 0, false)
  {
    assert sql[0..] == sql;
  }

  lemma OnTrackHere(sql: string, i: nat, inString: bool)
    requires i <= |sql| && OnTrack(sql, i, inString)
    ensures EscapedAt(sql, false, i) == inString
  {
  }

  lemma OnTrackOne(sql: string, i: nat, inString: bool)
    requires i < |sql| && OnTrack(sql, i, inString)
    requires !(inString && sql[i] == QUOTE && i + 1 < |sql| && sql[i + 1] == QUOTE)
               && !(!inString && StartsComment(sql[i..]))
    ensures OnTrack(sql, i + 1, if sql[i] == QUOTE then !inString else inString)
  {
    assert sql[i..][1..] == sql[i + 1..];
  }

  lemma OnTrackPair(sql: string, i: nat)
    requires i + 1 < |sql| && sql[i] == QUOTE && sql[i + 1] == QUOTE && OnTrack(sql, i, true)
    ensures EscapedAt(sql, false, i + 1) && OnTrack(sql, i + 2, true)
  {
    assert sql[i..][2..] == sql[i + 2..];
    forall k | i + 2 <= k <= |sql| ensures EscapedAt(sql, false, k) == EscapedAt(sql[i + 2..], true, k - (i + 2)) {
      assert EscapedAt(sql[i..], true, k - i) == EscapedAt(sql[i..][2..], true, k - i - 2);
    }
  }

  lemma OnTrackComment(sql: string, i: nat, j: nat)
    requires i < j <= |sql| && StartsComment(sql[i..]) && SkipLine(sql[i..]) == sql[j..] && OnTrack(sql, i, false)
    ensures forall k :: i <= k < j ==> !EscapedAt(sql, false, k)
    ensures OnTrack(sql, j, false)
  {
    assert |sql[i..]| - |SkipLine(sql[i..])| == j - i;
    forall k | i <= k < j ensures !EscapedAt(sql, false, k) {
      assert EscapedAt(sql, false, k) == EscapedAt(sql[i..], false, k - i);
    }
    forall k | j <= k <= |sql| ensures EscapedAt(sql, false, k) == EscapedAt(sql[j..], false, k - j) {
      assert EscapedAt(sql, false, k) == EscapedAt(sql[i..], false, k - i);
    }
  }

  // --------------------------------------------------------- the scanning loop

  /** The scan so far: what it has and what is to come are the statements, and
      `strings` is where it found itself in a string. */
  ghost predicate Scanning(sql: string, i: nat, inString: bool, depth: int, buf: string, statements: seq<string>,
                           strings: seq<bool>) {
    && i <= |sql| && statements + ToCome(sql, i, inString, depth, buf) == Statements(sql)
    && OnTrack(sql, i, inString)
    && |strings| == i && forall k :: 0 <= k < i ==> strings[k] == EscapedAt(sql, false, k)
  }

  lemma ScanStarts(sql: string)
    ensures Scanning(sql, 0, false, 0, "", [], [])
  {
    AllToCome(sql);
    StartsOnTrack(sql);
  }

  lemma ScanCopies(sql: string, i: nat, inString: bool, depth: int, buf: string, statements: seq<string>,
                   strings: seq<bool>)
    requires Scanning(sql, i, inString, depth, buf, statements, strings)
    requires i < |sql| && !(inString && sql[i] == QUOTE && i + 1 < |sql| && sql[i + 1] == QUOTE)
    requires !(!inString && StartsComment(sql[i..])) && !(sql[i] == ';' && State(depth, inString) == TOP)
    ensures var st := Next(State(depth, inString), sql[i]);
            Scanning(sql, i + 1, st.inString, st.depth, buf + [sql[i]], statements, strings + [inString])
  {
    CopyOne(sql, i, inString, depth, buf);
    OnTrackHere(sql, i, inString);
    OnTrackOne(sql, i, inString);
  }

  lemma ScanCopiesPair(sql: string, i: nat, depth: int, buf: string, statements: seq<string>, strings: seq<bool>)
    requires Scanning(sql, i, true, depth, buf, statements, strings)
    requires i + 1 < |sql| && sql[i] == QUOTE && sql[i + 1] == QUOTE
    ensures Scanning(sql, i + 2, true, depth, buf + [QUOTE] + [QUOTE], statements, strings + [true] + [true])
  {
    CopyPair(sql, i, depth, buf);
    OnTrackHere(sql, i, true);
    OnTrackPair(sql, i);
  }

  lemma ScanCuts(sql: string, i: nat, buf: string, statements: seq<string>, strings: seq<bool>)
    requires Scanning(sql, i, false, 0, buf, statements, strings) && i < |sql| && sql[i] == ';'
    ensures Scanning(sql, i + 1, false, 0, "", if Strip(buf) != "" then statements + [Strip(buf)] else statements,
                     strings + [false])
  {
    CutHere(sql, i, buf);
    OnTrackHere(sql, i, false);
    OnTrackOne(sql, i, false);
    var cut := if Strip(buf) != "" then [Strip(buf)] else [];
    assert statements + (cut + ToCome(sql, i + 1, false, 0, ""))
             == (statements + cut) + ToCome(sql, i + 1, false, 0, "");
    assert statements + [] == statements;
  }

  /** `_split_statements`. `strings` (ghost) is where the scanner's own
      `in_string` was set as it came to each character. */
  method SplitStatements(sql: string) returns (statements: seq<string>, ghost strings: seq<bool>)
    ensures statements == Statements(sql)
    ensures |strings| == |sql| && forall k :: 0 <= k < |sql| ==> strings[k] == EscapedAt(sql, false, k)
  {
    statements, strings := [], [];
    var buf, depth, inString, i := "", 0, false, 0;
    ScanStarts(sql);
    while i < |sql|
      invariant Scanning(sql, i, inString, depth, buf, statements, strings)
    {
      var ch := sql[i];
      if inString {
        if ch == QUOTE && i + 1 < |sql| && sql[i + 1] == QUOTE {
          ScanCopiesPair(sql, i, depth, buf, statements, strings);
          buf, strings := buf + [ch] + [sql[i + 1]], strings + [true] + [true];
          i := i + 2;
          continue;
        }
        ScanCopies(sql, i, inString, depth, buf, statements, strings);
        buf, strings := buf + [ch], strings + [inString];
        if ch == QUOTE {
          inString := false;
        }
        i := i + 1;
        continue;
      }
      if ch == '-' && i + 1 < |sql| && sql[i + 1] == '-' {
        i, strings := EndOfLine(sql, i, depth, buf, statements, strings);
        continue;
      }
      if ch == ';' && depth == 0 {
        ScanCuts(sql, i, buf, statements, strings);
        var stmt := Strip(buf);
        if stmt != "" {
          statements := statements + [stmt];
        }
        buf, strings := "", strings + [false];
        i := i + 1;
        continue;
      }
      ScanCopies(sql, i, inString, depth, buf, statements, strings);
      if ch == QUOTE {
        inString := true;
      } else if ch == '(' {
        depth := depth + 1;
      } else if ch == ')' {
        depth := depth - 1;
      }
      buf, strings := buf + [ch], strings + [false];
      i := i + 1;
    }
    NothingToCome(sql, inString, depth, buf);
    var tail := Strip(buf);
    if tail != "" {
      statements := statements + [tail];
    }
  }

  lemma KeepOne(buf: string)
    ensures KeepStripped([buf]) == if Strip(buf) != "" then [Strip(buf)] else []
  {
    assert [buf][1..] == [];
  }

  lemma NothingToCome(sql: string, inString: bool, depth: int, buf: string)
    ensures ToCome(sql, |sql|, inString, depth, buf) == if Strip(buf) != "" then [Strip(buf)] else []
  {
    assert sql[|sql|..] == "" && Pieces("", ';', State(depth, inString)) == [""] && buf + "" == buf;
    assert PrependTo(buf, [""]) == [buf];
    KeepOne(buf);
  }

  /** Where the comment at `start` ends. */
  method EndOfLine(sql: string, start: nat, ghost depth: int, ghost buf: string, ghost statements: seq<string>,
                   ghost strings0: seq<bool>)
      returns (i: nat, ghost strings: seq<bool>)
    requires Scanning(sql, start, false, depth, buf, statements, strings0)
    requires start < |sql| && StartsComment(sql[start..])
    ensures start < i <= |sql| && (i < |sql| ==> sql[i] == '\n') && '\n' !in sql[start..i]
    ensures Scanning(sql, i, false, depth, buf, statements, strings)
  {
    i, strings := start, strings0;
    while i < |sql| && sql[i] != '\n'
      invariant start <= i <= |sql| && '\n' !in sql[start..i]
      invariant SkipLine(sql[start..]) == SkipLine(sql[i..])
      invariant |strings| == i && strings[..start] == strings0 && forall k :: start <= k < i ==> !strings[k]
    {
      SkipLineStep(sql, i);
      i, strings := i + 1, strings + [false];
    }
    SkipLineEnds(sql, i);
    ScanSkips(sql, start, i, depth, buf, statements, strings0, strings);
  }

  lemma SkipLineEnds(sql: string, i: nat)
    requires i <= |sql| && (i < |sql| ==> sql[i] == '\n')
    ensures SkipLine(sql[i..]) == sql[i..]
  {
  }

  lemma ScanSkips(sql: string, i: nat, j: nat, depth: int, buf: string, statements: seq<string>, strings: seq<bool>,
                  strings': seq<bool>)
    requires Scanning(sql, i, false, depth, buf, statements, strings)
    requires i < j <= |sql| && StartsComment(sql[i..]) && SkipLine(sql[i..]) == sql[j..]
    requires |strings'| == j && strings'[..i] == strings && forall k :: i <= k < j ==> !strings'[k]
    ensures Scanning(sql, j, false, depth, buf, statements, strings')
  {
    OnTrackComment(sql, i, j);
    assert forall k :: 0 <= k < i ==> strings'[k] == strings[k];
  }

  // ------------------------------------------------------------ clause lists

  lemma {:induction false} StripAllConcat(a: seq<string>, b: seq<string>)
    ensures StripAll(a + b) == StripAll(a) + StripAll(b)
    decreases |a|
  {
    if a == [] {
      assert a + b == b;
    } else {
      assert (a + b)[1..] == a[1..] + b;
      StripAllConcat(a[1..], b);
    }
  }

  ghost function PartsToCome(s: string, i: nat, sep: char, st: State, buf: string): seq<string>
    requires i <= |s|
  {
    StripAll(PrependTo(buf, Pieces(s[i..], sep, st)))
  }

  lemma PartGrows(s: string, i: nat, sep: char, st: State, buf: string)
    requires i < |s| && !(s[i] == sep && st == TOP)
    ensures PartsToCome(s, i, sep, st, buf) == PartsToCome(s, i + 1, sep, Next(st, s[i]), buf + [s[i]])
  {
    assert s[i..] == [s[i]] + s[i + 1..];
    PiecesStep(s[i], s[i + 1..], sep, st, buf);
  }

  lemma PartEnds(s: string, i: nat, sep: char, buf: string)
    requires i < |s| && s[i] == sep
    ensures PartsToCome(s, i, sep, TOP, buf) == [Strip(buf)] + PartsToCome(s, i + 1, sep, TOP, "")
  {
    assert s[i..] == [s[i]] + s[i + 1..];
    PiecesStep(s[i], s[i + 1..], sep, TOP, buf);
    StripAllConcat([buf], Pieces(s[i + 1..], sep, TOP));
    PrependNothing(Pieces(s[i + 1..], sep, TOP));
    assert [buf][1..] == [] && StripAll([buf]) == [Strip(buf)];
  }

  lemma LastPart(s: string, sep: char, st: State, buf: string)
    ensures PartsToCome(s, |s|, sep, st, buf) == [Strip(buf)]
  {
    assert s[|s|..] == "" && Pieces("", sep, st) == [""];
    assert buf + "" == buf && PrependTo(buf, [""]) == [buf];
    assert [buf][1..] == [] && StripAll([buf]) == [Strip(buf)];
  }

  lemma ToggleStep(s: string, i: nat)
    requires i < |s|
    ensures StateAfter(s[..i + 1], TOP) == Next(StateAfter(s[..i], TOP), s[i])
  {
    assert s[..i + 1] == s[..i] + [s[i]];
    StateAfterConcat(s[..i], [s[i]], TOP);
  }

  /** The split so far, as for statements. */
  ghost predicate Parting(s: string, sep: char, i: nat, st: State, buf: string, parts: seq<string>,
                          strings: seq<bool>) {
    && i <= |s| && parts + PartsToCome(s, i, sep, st, buf) == StripAll(Pieces(s, sep, TOP))
    && StateAfter(s[..i], TOP) == st
    && |strings| == i && forall k :: 0 <= k < i ==> strings[k] == ToggledAt(s, false, k)
  }

  lemma PartStarts(s: string, sep: char)
    ensures Parting(s, sep, 0, TOP, "", [], [])
  {
    assert s[0..] == s && s[..0] == "";
    PrependNothing(Pieces(s, sep, TOP));
    assert [] + PartsToCome(s, 0, sep, TOP, "") == PartsToCome(s, 0, sep, TOP, "");
  }

  lemma ToggledHere(s: string, i: nat, st: State)
    requires i <= |s| && StateAfter(s[..i], TOP) == st
    ensures ToggledAt(s, false, i) == st.inString
  {
  }

  lemma PartCopies(s: string, sep: char, i: nat, st: State, buf: string, parts: seq<string>, strings: seq<bool>)
    requires Parting(s, sep, i, st, buf, parts, strings) && i < |s| && !(s[i] == sep && st == TOP)
    ensures Parting(s, sep, i + 1, Next(st, s[i]), buf + [s[i]], parts, strings + [st.inString])
  {
    PartGrows(s, i, sep, st, buf);
    ToggleStep(s, i);
    ToggledHere(s, i, st);
  }

  lemma PartCuts(s: string, sep: char, i: nat, buf: string, parts: seq<string>, strings: seq<bool>)
    requires Parting(s, sep, i, TOP, buf, parts, strings) && i < |s| && s[i] == sep && Plain(sep)
    ensures Parting(s, sep, i + 1, TOP, "", parts + [Strip(buf)], strings + [false])
  {
    PartEnds(s, i, sep, buf);
    ToggleStep(s, i);
    ToggledHere(s, i, TOP);
    assert parts + ([Strip(buf)] + PartsToCome(s, i + 1, sep, TOP, ""))
             == (parts + [Strip(buf)]) + PartsToCome(s, i + 1, sep, TOP, "");
  }

  /** `_split_top_level`. `strings` (ghost) is where its own `in_string` was set
      as it came to each character. */
  method SplitTopLevel(s: string, sep: char) returns (parts: seq<string>, ghost strings: seq<bool>)
    requires Plain(sep)
    ensures parts == TopLevelParts(s, sep)
    ensures |strings| == |s| && forall k :: 0 <= k < |s| ==> strings[k] == ToggledAt(s, false, k)
  {
    parts, strings := [], [];
    var buf, depth, inString := "", 0, false;
    PartStarts(s, sep);
    for i := 0 to |s|
      invariant Parting(s, sep, i, State(depth, inString), buf, parts, strings)
    {
      var ch := s[i];
      if !inString && ch == sep && depth == 0 {
        PartCuts(s, sep, i, buf, parts, strings);
        parts, strings := parts + [Strip(buf)], strings + [false];
        buf := "";
        continue;
      }
      PartCopies(s, sep, i, State(depth, inString), buf, parts, strings);
      buf, strings := buf + [ch], strings + [inString];
      if inString {
        if ch == QUOTE {
          inString := false;
        }
      } else if ch == QUOTE {
        inString := true;
      } else if ch == '(' {
        depth := depth + 1;
      } else if ch == ')' {
        depth := depth - 1;
      }
    }
    LastPart(s, sep, State(depth, inString), buf);
    var tail := Strip(buf);
    if tail != "" {
      parts := parts + [tail];
    }
  }

  // ------------------------------------------------------ a parenthesized body

  /** `_extract_paren_body`: the text between the first `(` and its match, and
      `None` (the source raises) exactly when there is no such pair. */
  method ExtractParenBody(statement: string) returns (body: Option<string>)
    ensures body.Some? ==> exists start: nat, end: nat :: FirstParen(statement, start) && Matches(statement, start, end)
                                               && body.value == statement[start + 1..end]
    ensures body == None ==> !exists start: nat, end: nat ::
              FirstParen(statement, start) && Matches(statement, start, end)
  {
    var start := 0;
    while start < |statement| && statement[start] != '('
      invariant start <= |statement| && forall k :: 0 <= k < start ==> statement[k] != '('
    {
      start := start + 1;
    }
    if start == |statement| {
      return None;
    }
    var depth, inString := 0, false;
    assert statement[start..start] == "";
    for i := start to |statement|
      invariant From(statement, start, i) == State(depth, inString)
      invariant forall k :: start < k <= i ==> From(statement, start, k).depth > 0
      invariant i == start ==> depth == 0 && !inString
    {
      var ch := statement[i];
      FromStep(statement, start, i);
      if inString {
        if ch == QUOTE {
          inString := false;
        }
        continue;
      }
      if ch == QUOTE {
        inString := true;
        continue;
      }
      if ch == '(' {
        depth := depth + 1;
      } else if ch == ')' {
        depth := depth - 1;
        if depth == 0 {
          assert Matches(statement, start, i);
          return Some(statement[start + 1..i]);
        }
      }
    }
    body := None;
    forall first: nat, end: nat | FirstParen(statement, first) ensures !Matches(statement, first, end) {
      assert first == start;
      if start < end < |statement| {
        assert From(statement, start, end + 1).depth > 0;
      }
    }
  }
}
