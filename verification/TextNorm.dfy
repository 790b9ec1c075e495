/** Normalization of the text that is indexed: drop NUL, normalize to NFC, fold
    curly quotes, strip variation selectors, collapse whitespace and trim. NFC
    is abstract here (section 3.11 of the Unicode Standard). */
module TextNorm {
  import opened Common

  const NUL: char := '\0'

  function FoldChar(c: char): char {
    if '\U{2018}' <= c <= '\U{201B}' then '\'' else if '\U{201C}' <= c <= '\U{201F}' then '"' else c
  }

  predicate IsSelector(c: char) {
    '\U{FE00}' <= c <= '\U{FE0F}'
  }

  function StripNul(s: string): string {
    if s == [] then [] else (if s[0] == NUL then [] else [s[0]]) + StripNul(s[1..])
  }

  function Fold(s: string): string {
    if s == [] then [] else [FoldChar(s[0])] + Fold(s[1..])
  }

  function StripSelectors(s: string): string {
    if s == [] then [] else (if IsSelector(s[0]) then [] else [s[0]]) + StripSelectors(s[1..])
  }

  /** The length of the whitespace run at the front. */
  function LeadingSpace(s: string): (n: nat)
    ensures n <= |s|
    ensures forall i :: 0 <= i < n ==> IsSpace(s[i])
    ensures n < |s| ==> !IsSpace(s[n])
  {
    if s == [] || !IsSpace(s[0]) then 0 else 1 + LeadingSpace(s[1..])
  }

  /** Every maximal run of whitespace becomes one space. */
  function Collapse(s: string): string
    decreases |s|
  {
    if s == [] then [] else if IsSpace(s[0]) then " " + Collapse(s[LeadingSpace(s)..]) else [s[0]] + Collapse(s[1..])
  }

  /** Everything after NFC. */
  function Tail(s: string): string {
    Strip(Collapse(StripSelectors(Fold(s))))
  }

  function NormalizeText(nfc: string -> string, s: string): string {
    Tail(nfc(StripNul(s)))
  }

  // -------------------------------------------------------------------- words

  /** The length of the word at the front. */
  function LeadingWord(s: string): (n: nat)
    ensures n <= |s|
    ensures forall i :: 0 <= i < n ==> !IsSpace(s[i])
    ensures n < |s| ==> IsSpace(s[n])
  {
    if s == [] || IsSpace(s[0]) then 0 else 1 + LeadingWord(s[1..])
  }

  /** The maximal runs of anything but whitespace. */
  function Words(s: string): seq<string>
    decreases |s|
  {
    if s == [] then []
    else if IsSpace(s[0]) then Words(s[1..])
    else [s[..LeadingWord(s)]] + Words(s[LeadingWord(s)..])
  }

  function JoinWords(words: seq<string>): string {
    if words == [] then [] else if |words| == 1 then words[0] else words[0] + " " + JoinWords(words[1..])
  }

  predicate IsWord(w: string) {
    w != [] && forall c :: c in w ==> !IsSpace(c)
  }

  predicate AllWords(words: seq<string>) {
    forall i :: 0 <= i < |words| ==> IsWord(words[i])
  }

  lemma {:induction false} WordsAreWords(s: string)
    ensures AllWords(Words(s))
    ensures forall i, c :: 0 <= i < |Words(s)| && c in Words(s)[i] ==> c in s
    decreases |s|
  {
    if s != [] {
      var n := if IsSpace(s[0]) then 1 else LeadingWord(s);
      WordsAreWords(s[n..]);
      assert s == s[..n] + s[n..];
      if n == LeadingWord(s) {
        assert Words(s) == [s[..n]] + Words(s[n..]);
      }
    }
  }

  lemma {:induction false} WordsSkipSpace(s: string)
    ensures Words(s) == Words(s[LeadingSpace(s)..])
  {
    if s == [] || !IsSpace(s[0]) {
      assert s[0..] == s;
    } else {
      WordsSkipSpace(s[1..]);
      assert s[LeadingSpace(s)..] == s[1..][LeadingSpace(s[1..])..];
    }
  }

  lemma {:induction false} CollapsePassesWord(word: string, rest: string)
    requires forall i :: 0 <= i < |word| ==> !IsSpace(word[i])
    ensures Collapse(word + rest) == word + Collapse(rest)
    decreases |word|
  {
    if word == [] {
      assert word + rest == rest;
    } else {
      CollapsePassesWord(word[1..], rest);
      assert (word + rest)[1..] == word[1..] + rest;
      calc {
        Collapse(word + rest);
        [word[0]] + Collapse(word[1..] + rest);
        [word[0]] + (word[1..] + Collapse(rest));
        word + Collapse(rest);
      }
    }
  }

  lemma CollapseKeepsWord(s: string)
    ensures Collapse(s) == s[..LeadingWord(s)] + Collapse(s[LeadingWord(s)..])
  {
    var n := LeadingWord(s);
    assert s == s[..n] + s[n..];
    CollapsePassesWord(s[..n], s[n..]);
  }

  lemma {:induction false} StripRightOfConcat(a: string, b: string)
    requires b != [] && !IsSpace(b[0])
    ensures StripRight(a + b) == a + StripRight(b)
    decreases |b|
  {
    if IsSpace(b[|b| - 1]) {
      StripRightOfConcat(a, b[..|b| - 1]);
      assert (a + b)[..|a + b| - 1] == a + b[..|b| - 1];
    }
  }

  lemma StripAfterWord(word: string, next: string)
    requires IsWord(word) && (next == [] || !IsSpace(next[0]))
    ensures StripRight(word + " " + next) == if next == [] then word else word + " " + StripRight(next)
  {
    if next == [] {
      assert word[|word| - 1] in word;
      assert word + " " + next == word + " " && (word + " ")[..|word|] == word;
    } else {
      StripRightOfConcat(word + " ", next);
    }
  }

  /** Past the word at the front comes one run of whitespace. */
  lemma PastTheWord(s: string, word: string, rest: string)
    requires IsWord(word) && s == word + rest && LeadingWord(s) == |word| && rest != []
    ensures var next := rest[LeadingSpace(rest)..];
      && Collapse(s) == word + " " + Collapse(next) && Words(s) == [word] + Words(next)
      && (next == [] || (!IsSpace(next[0]) && Collapse(next)[0] == next[0]))
  {
    assert s[..|word|] == word && s[|word|..] == rest && word[0] in word;
    CollapseKeepsWord(s);
    WordsSkipSpace(rest);
    var next := rest[LeadingSpace(rest)..];
    assert Collapse(s) == word + (" " + Collapse(next)) == word + " " + Collapse(next);
  }

  /** Text that starts with a word collapses, once trimmed, to its words. */
  lemma {:induction false} CollapsedFromWord(s: string)
    requires s == [] || !IsSpace(s[0])
    ensures StripRight(Collapse(s)) == JoinWords(Words(s))
    decreases |s|
  {
    if s == [] { return; }
    var word, rest := s[..LeadingWord(s)], s[LeadingWord(s)..];
    assert IsWord(word);
    if rest == [] {
      WordAlone(s);
    } else {
      var next := rest[LeadingSpace(rest)..];
      PastTheWord(s, word, rest);
      CollapsedFromWord(next);
      StripAfterWord(word, Collapse(next));
      JoinOneMore(word, Words(next));
    }
  }

  lemma WordAlone(word: string)
    requires IsWord(word) && LeadingWord(word) == |word|
    ensures StripRight(Collapse(word)) == word && JoinWords(Words(word)) == word
  {
    CollapseKeepsWord(word);
    assert word[..|word|] == word && word + [] == word;
    assert word[|word| - 1] in word && word[0] in word;
  }

  lemma JoinOneMore(word: string, words: seq<string>)
    ensures JoinWords([word] + words) == if words == [] then word else word + " " + JoinWords(words)
  {
    assert ([word] + words)[1..] == words;
  }

  /** The tail is what its documentation says: the words of the folded text,
      joined by single spaces. */
  lemma TailJoinsWords(s: string)
    ensures Tail(s) == JoinWords(Words(StripSelectors(Fold(s))))
  {
    var x := StripSelectors(Fold(s));
    var r := x[LeadingSpace(x)..];
    WordsSkipSpace(x);
    CollapsedFromWord(r);
    assert r == [] || Collapse(r)[0] == r[0];
    assert StripLeft(Collapse(r)) == Collapse(r);
    if x == [] || !IsSpace(x[0]) {
      assert r == x;
    } else {
      assert Collapse(x) == " " + Collapse(r) && Collapse(x)[1..] == Collapse(r);
    }
  }

  // -------------------------------------------------------- what the tail keeps

  const SINGLE_QUOTES := {'\U{2018}', '\U{2019}', '\U{201A}', '\U{201B}'}
  const DOUBLE_QUOTES := {'\U{201C}', '\U{201D}', '\U{201E}', '\U{201F}'}

  /** A search's view of a text: no white space, no variation selectors, and
      every quote straight. */
  function Letters(s: string): string {
    if s == [] then [] else Letter(s[0]) + Letters(s[1..])
  }

  function Letter(c: char): string {
    if IsSpace(c) || 0xFE00 <= c as int <= 0xFE0F then []
    else if c in SINGLE_QUOTES then ['\'']
    else if c in DOUBLE_QUOTES then ['"']
    else [c]
  }

  lemma LetterOfFolded(c: char)
    ensures Letter(c) == if IsSelector(FoldChar(c)) then [] else Letter(FoldChar(c))
  {
  }

  lemma {:induction false} LettersOfConcat(a: string, b: string)
    ensures Letters(a + b) == Letters(a) + Letters(b)
    decreases |a|
  {
    if a == [] {
      assert a + b == b;
    } else {
      assert (a + b)[1..] == a[1..] + b;
      LettersOfConcat(a[1..], b);
    }
  }

  lemma {:induction false} LettersOfFolded(s: string)
    ensures Letters(StripSelectors(Fold(s))) == Letters(s)
  {
    if s != [] {
      LettersOfFolded(s[1..]);
      LetterOfFolded(s[0]);
      assert Fold(s)[1..] == Fold(s[1..]);
      var rest := StripSelectors(Fold(s[1..]));
      assert ([FoldChar(s[0])] + rest)[1..] == rest && [] + rest == rest;
    }
  }

  lemma LettersJoined(word: string, words: seq<string>)
    ensures Letters(JoinWords([word] + words)) == Letters(word) + Letters(JoinWords(words))
  {
    JoinOneMore(word, words);
    if words == [] {
      assert Letters(word) + [] == Letters(word);
    } else {
      LettersOfConcat(word, " ");
      LettersOfConcat(word + " ", JoinWords(words));
      assert Letters(word) + Letters(" ") == Letters(word);
    }
  }

  lemma {:induction false} LettersOfWords(s: string)
    ensures Letters(JoinWords(Words(s))) == Letters(s)
    decreases |s|
  {
    if s != [] {
      if IsSpace(s[0]) {
        LettersOfWords(s[1..]);
      } else {
        var word, rest := s[..LeadingWord(s)], s[LeadingWord(s)..];
        LettersOfWords(rest);
        assert s == word + rest;
        LettersOfConcat(word, rest);
        LettersJoined(word, Words(rest));
      }
    }
  }

  lemma LetterOfClean(c: char)
    requires !IsSpace(c) && FoldChar(c) == c && !IsSelector(c)
    ensures Letter(c) == [c]
  {
  }

  lemma {:induction false} LettersOfClean(s: string)
    requires forall c :: c in s ==> !IsSpace(c) && FoldChar(c) == c && !IsSelector(c)
    ensures Letters(s) == s
  {
    if s != [] {
      assert forall c :: c in s[1..] ==> c in s;
      LettersOfClean(s[1..]);
      LetterOfClean(s[0]);
      assert s == [s[0]] + s[1..];
    }
  }

  /** The tail keeps a text's letters, all of them and in order, and nothing else
      but single spaces between words. */
  lemma TailKeepsLetters(s: string)
    ensures Letters(Tail(s)) == Letters(s)
    ensures forall i :: 0 <= i < |Words(Tail(s))| ==> Letters(Words(Tail(s))[i]) == Words(Tail(s))[i] != []
    ensures Tail(s) == JoinWords(Words(Tail(s)))
  {
    var x := StripSelectors(Fold(s));
    TailJoinsWords(s);
    LettersOfWords(x);
    LettersOfFolded(s);
    WordsAreWords(x);
    SplitOfJoin(Words(x));
    FoldedAndStripped(s);
    forall i | 0 <= i < |Words(x)| ensures Letters(Words(x)[i]) == Words(x)[i] != [] {
      assert IsWord(Words(x)[i]);
      LettersOfClean(Words(x)[i]);
    }
  }

  // -------------------------------------------------------------- idempotence

  predicate Clean(s: string) {
    forall c :: c in s ==> FoldChar(c) == c && !IsSelector(c)
  }

  lemma {:induction false} FoldedAndStripped(s: string)
    ensures Clean(StripSelectors(Fold(s)))
  {
    if s != [] {
      FoldedAndStripped(s[1..]);
      assert Fold(s)[1..] == Fold(s[1..]);
    }
  }

  lemma {:induction false} CleanIsKept(s: string)
    requires Clean(s)
    ensures Fold(s) == s && StripSelectors(s) == s
  {
    if s != [] {
      assert forall c :: c in s[1..] ==> c in s;
      CleanIsKept(s[1..]);
      assert s == [s[0]] + s[1..];
    }
  }

  lemma {:induction false} JoinedFrom(words: seq<string>)
    ensures forall c :: c in JoinWords(words) ==> c == ' ' || exists i :: 0 <= i < |words| && c in words[i]
  {
    if |words| >= 2 {
      JoinedFrom(words[1..]);
      forall c | c in JoinWords(words) ensures c == ' ' || exists i :: 0 <= i < |words| && c in words[i] {
        if c in JoinWords(words[1..]) && c != ' ' {
          var i :| 0 <= i < |words[1..]| && c in words[1..][i];
          assert c in words[i + 1];
        }
      }
    }
  }

  lemma {:induction false} LeadingWordOf(w: string, rest: string)
    requires IsWord(w) && (rest == [] || IsSpace(rest[0]))
    ensures LeadingWord(w + rest) == |w|
  {
    assert (w + rest)[0] in w;
    assert (w + rest)[1..] == w[1..] + rest;
    if |w| > 1 {
      LeadingWordOf(w[1..], rest);
    } else {
      assert (w + rest)[1..] == rest;
    }
  }

  /** Joining words and splitting again gives the same words. */
  lemma {:induction false} SplitOfJoin(words: seq<string>)
    requires AllWords(words)
    ensures Words(JoinWords(words)) == words
  {
    if words != [] {
      var w := words[0];
      assert IsWord(w) && w[0] in w;
      var rest := if |words| == 1 then "" else " " + JoinWords(words[1..]);
      SplitOfJoin(words[1..]);
      LeadingWordOf(w, rest);
      assert w + rest == JoinWords(words);
      assert (w + rest)[..|w|] == w && (w + rest)[|w|..] == rest;
      if |words| > 1 {
        assert rest[1..] == JoinWords(words[1..]);
        assert Words(rest) == words[1..];
      }
      assert words == [w] + words[1..];
    }
  }

  /** The tail changes nothing the second time. */
  lemma TailIsIdempotent(s: string)
    ensures Tail(Tail(s)) == Tail(s)
  {
    var x := StripSelectors(Fold(s));
    TailJoinsWords(s);
    FoldedAndStripped(s);
    WordsAreWords(x);
    JoinedFrom(Words(x));
    CleanIsKept(Tail(s));
    TailJoinsWords(Tail(s));
    SplitOfJoin(Words(x));
  }

  lemma {:induction false} NulStripped(s: string)
    ensures NUL !in StripNul(s) && (NUL !in s ==> StripNul(s) == s)
  {
    if s != [] {
      NulStripped(s[1..]);
      assert s == [s[0]] + s[1..];
    }
  }

  /** Nothing goes with a NUL, and nothing is cut off at one. */
  lemma {:induction false} NulAloneGoes(a: string, b: string)
    ensures StripNul(a + [NUL] + b) == StripNul(a) + StripNul(b)
    decreases |a|
  {
    if a == [] {
      assert (a + [NUL] + b)[1..] == b;
    } else {
      assert (a + [NUL] + b)[1..] == a[1..] + [NUL] + b;
      NulAloneGoes(a[1..], b);
    }
  }

  lemma {:induction false} FoldAddsNoNul(s: string)
    requires NUL !in s
    ensures NUL !in StripSelectors(Fold(s))
  {
    if s != [] {
      FoldAddsNoNul(s[1..]);
      assert Fold(s)[1..] == Fold(s[1..]);
    }
  }

  lemma TailAddsNoNul(s: string)
    requires NUL !in s
    ensures NUL !in Tail(s)
  {
    FoldAddsNoNul(s);
    TailJoinsWords(s);
    WordsAreWords(StripSelectors(Fold(s)));
    JoinedFrom(Words(StripSelectors(Fold(s))));
  }

  // ---------------------------------------------------------------------- NFC

  ghost predicate Stable(nfc: string -> string, s: string) {
    nfc(s) == s
  }

  /** Whitespace and quotes: no composition reaches across them. */
  predicate Inert(c: char) {
    IsSpace(c) || c == '\'' || c == '"' || FoldChar(c) != c
  }

  ghost predicate SplitsAt(nfc: string -> string, a: string, c: char, b: string) {
    Stable(nfc, a + [c] + b) <==> Stable(nfc, a) && Stable(nfc, [c]) && Stable(nfc, b)
  }

  /** It works separately on what lies between inert characters, of which the
      ASCII ones are in NFC. */
  ghost predicate Separates(nfc: string -> string) {
    && (forall a, c, b :: Inert(c) ==> SplitsAt(nfc, a, c, b))
    && Stable(nfc, "") && Stable(nfc, [' ']) && Stable(nfc, ['\'']) && Stable(nfc, ['"'])
  }

  /** Besides, it is idempotent, brings in no NUL, and leaves text the tail
      would not change in that form. */
  ghost predicate NfcAt(nfc: string -> string, s: string) {
    Stable(nfc, nfc(s)) && (NUL !in s ==> NUL !in nfc(s)) && (Tail(s) == s ==> Tail(nfc(s)) == nfc(s))
  }

  /** What is taken of NFC. */
  ghost predicate IsNfc(nfc: string -> string) {
    Separates(nfc) && forall s :: NfcAt(nfc, s)
  }

  /** Every inert character of the text is itself in NFC. */
  ghost predicate InertStable(nfc: string -> string, s: string) {
    forall c :: c in s && Inert(c) ==> Stable(nfc, [c])
  }

  lemma StableHasInertStable(nfc: string -> string, s: string)
    requires Separates(nfc) && Stable(nfc, s)
    ensures InertStable(nfc, s)
  {
    forall c | c in s && Inert(c) ensures Stable(nfc, [c]) {
      var i :| 0 <= i < |s| && s[i] == c;
      StableAround(nfc, s, i);
    }
  }

  lemma FoldsOne(nfc: string -> string, before: string, c: char, rest: string, folded: string)
    requires Separates(nfc) && FoldChar(c) != c && Stable(nfc, [c]) && (Stable(nfc, folded) <==> Stable(nfc, rest))
    ensures Stable(nfc, before + [FoldChar(c)] + folded) <==> Stable(nfc, before + [c] + rest)
  {
    assert SplitsAt(nfc, before, c, rest) && SplitsAt(nfc, before, FoldChar(c), folded);
  }

  /** Folding quotes neither makes nor breaks NFC. */
  lemma {:induction false} FoldKeepsStable(nfc: string -> string, before: string, s: string)
    requires Separates(nfc) && InertStable(nfc, s)
    ensures Stable(nfc, before + Fold(s)) <==> Stable(nfc, before + s)
    decreases |s|
  {
    if s != [] {
      var c, f := s[0], FoldChar(s[0]);
      assert before + s == before + [c] + s[1..] && before + Fold(s) == before + [f] + Fold(s[1..]);
      assert c in s && forall d :: d in s[1..] ==> d in s;
      if f == c {
        FoldKeepsStable(nfc, before + [c], s[1..]);
      } else {
        FoldKeepsStable(nfc, "", s[1..]);
        assert "" + s[1..] == s[1..] && "" + Fold(s[1..]) == Fold(s[1..]);
        FoldsOne(nfc, before, c, s[1..], Fold(s[1..]));
      }
    }
  }

  ghost predicate AllStable(nfc: string -> string, words: seq<string>) {
    forall i :: 0 <= i < |words| ==> Stable(nfc, words[i])
  }

  lemma WordsUnfold(s: string)
    requires s != []
    ensures LeadingWord(s) == |s| ==> Words(s) == [s]
    ensures LeadingWord(s) < |s| ==>
      Words(s) == (if LeadingWord(s) == 0 then [] else [s[..LeadingWord(s)]]) + Words(s[LeadingWord(s) + 1..])
  {
    var n := LeadingWord(s);
    assert s[..|s|] == s;
    if 0 < n < |s| {
      assert s[n..][1..] == s[n + 1..];
    }
  }

  /** Text is in NFC exactly when its words are. */
  lemma {:induction false} StableByWords(nfc: string -> string, s: string)
    requires Separates(nfc) && InertStable(nfc, s)
    ensures Stable(nfc, s) <==> AllStable(nfc, Words(s))
    decreases |s|
  {
    if s == [] { return; }
    WordsUnfold(s);
    var n := LeadingWord(s);
    if n == |s| {
      assert [s][0] == s;
    } else {
      var word, rest := s[..n], s[n + 1..];
      assert s[n] in s && forall c :: c in rest ==> c in s;
      StableByWords(nfc, rest);
      StableAround(nfc, s, n);
      if n == 0 {
        assert word == "" && Words(s) == Words(rest);
      } else {
        OneMoreStable(nfc, word, Words(rest));
      }
    }
  }

  lemma StableAround(nfc: string -> string, s: string, n: nat)
    requires Separates(nfc) && n < |s| && Inert(s[n])
    ensures Stable(nfc, s) <==> Stable(nfc, s[..n]) && Stable(nfc, [s[n]]) && Stable(nfc, s[n + 1..])
  {
    assert s == s[..n] + [s[n]] + s[n + 1..];
    assert SplitsAt(nfc, s[..n], s[n], s[n + 1..]);
  }

  lemma OneMoreStable(nfc: string -> string, word: string, words: seq<string>)
    ensures AllStable(nfc, [word] + words) <==> Stable(nfc, word) && AllStable(nfc, words)
  {
    assert ([word] + words)[0] == word;
    assert forall i :: 0 <= i < |words| ==> words[i] == ([word] + words)[i + 1];
  }

  lemma {:induction false} FoldAndStripCommute(s: string)
    ensures StripSelectors(Fold(s)) == Fold(StripSelectors(s))
    ensures forall c :: c in StripSelectors(s) ==> c in s
  {
    if s != [] {
      FoldAndStripCommute(s[1..]);
      assert Fold(s)[1..] == Fold(s[1..]);
      var x := StripSelectors(s[1..]);
      assert ([s[0]] + x)[1..] == x;
      assert [] + x == x;
      assert s == [s[0]] + s[1..];
    }
  }

  lemma {:induction false} FoldedFrom(s: string)
    ensures forall c :: c in Fold(s) ==> c in s || c == '\'' || c == '"'
  {
    if s != [] {
      FoldedFrom(s[1..]);
      assert s == [s[0]] + s[1..];
    }
  }

  /** Neither does folding the quotes change what is in NFC. */
  lemma FoldedKeepsNfc(nfc: string -> string, s: string)
    requires Separates(nfc) && Stable(nfc, s)
    ensures Stable(nfc, StripSelectors(Fold(s))) <==> Stable(nfc, StripSelectors(s))
    ensures InertStable(nfc, StripSelectors(Fold(s)))
  {
    var x, folded := StripSelectors(s), StripSelectors(Fold(s));
    StableHasInertStable(nfc, s);
    FoldAndStripCommute(s);
    FoldedFrom(x);
    FoldKeepsStable(nfc, "", x);
    assert "" + x == x && "" + folded == folded;
  }

  /** Nor does joining the words by single spaces. */
  lemma JoinedKeepsNfc(nfc: string -> string, s: string)
    requires Separates(nfc) && InertStable(nfc, StripSelectors(Fold(s)))
    ensures Stable(nfc, Tail(s)) <==> Stable(nfc, StripSelectors(Fold(s)))
  {
    var folded := StripSelectors(Fold(s));
    StableByWords(nfc, folded);
    TailJoinsWords(s);
    WordsAreWords(folded);
    JoinedFrom(Words(folded));
    SplitOfJoin(Words(folded));
    StableByWords(nfc, Tail(s));
  }

  /** Of the whole tail, only dropping the selectors can take text out of NFC. */
  lemma TailKeepsNfcExactlyWhen(nfc: string -> string, s: string)
    requires Separates(nfc) && Stable(nfc, s)
    ensures Stable(nfc, Tail(s)) <==> Stable(nfc, StripSelectors(s))
  {
    FoldedKeepsNfc(nfc, s);
    JoinedKeepsNfc(nfc, s);
  }

  /** Normalizing twice is normalizing once exactly when dropping the variation
      selectors from the NFC form of the input leaves text in NFC. In any case
      a third time changes nothing. */
  lemma IdempotentExactlyWhen(nfc: string -> string, s: string)
    requires IsNfc(nfc)
    ensures var once := NormalizeText(nfc, s); var twice := NormalizeText(nfc, once);
      && NUL !in once
      && (twice == once <==> Stable(nfc, StripSelectors(nfc(StripNul(s)))))
      && NormalizeText(nfc, twice) == twice
  {
    var once := NormalizeText(nfc, s);
    assert NfcAt(nfc, StripNul(s)) && NfcAt(nfc, once);
    NulStripped(s);
    TailAddsNoNul(nfc(StripNul(s)));
    TailIsIdempotent(nfc(StripNul(s)));
    TailKeepsNfcExactlyWhen(nfc, nfc(StripNul(s)));
    NulStripped(once);
    NulStripped(nfc(once));
  }

  /** So text without selectors in its NFC form is safe to normalize again. */
  lemma IdempotentWithoutSelectors(nfc: string -> string, s: string)
    requires IsNfc(nfc) && forall c :: c in nfc(StripNul(s)) ==> !IsSelector(c)
    ensures NormalizeText(nfc, NormalizeText(nfc, s)) == NormalizeText(nfc, s)
  {
    NothingToStrip(nfc(StripNul(s)));
    assert NfcAt(nfc, StripNul(s));
    IdempotentExactlyWhen(nfc, s);
  }

  lemma {:induction false} NothingToStrip(s: string)
    requires forall c :: c in s ==> !IsSelector(c)
    ensures StripSelectors(s) == s
  {
    if s != [] {
      assert s == [s[0]] + s[1..];
      NothingToStrip(s[1..]);
    }
  }

  /** The unconditional promise fails: a variation selector between two
      characters that compose, a letter and its accent for one, keeps them apart
      in the first pass only. */
  lemma NotIdempotentAcrossASelector(nfc: string -> string, letter: char, selector: char, mark: char, composed: char)
    requires IsSelector(selector) && NUL !in {letter, selector, mark, composed}
    requires forall c :: c in {letter, mark, composed} ==> !IsSpace(c) && FoldChar(c) == c && !IsSelector(c)
    requires nfc([letter, selector, mark]) == [letter, selector, mark] && nfc([letter, mark]) == [composed]
    ensures NormalizeText(nfc, [letter, selector, mark]) == [letter, mark]
    ensures NormalizeText(nfc, [letter, mark]) == [composed] != [letter, mark]
  {
    var apart, joined := [letter, selector, mark], [letter, mark];
    NulStripped(apart);
    NulStripped(joined);
    SelectorDrops([letter], selector, [mark]);
    assert [letter] + [selector] + [mark] == apart && [letter] + [mark] == joined;
    TailOfWord(joined);
    TailOfWord([composed]);
    CleanIsKept(joined);
    assert Tail(apart) == Strip(Collapse(joined)) == Tail(joined);
  }

  /** For one: `e`, U+FE0F, U+0301. */
  lemma NotAlwaysIdempotent(nfc: string -> string)
    requires nfc(['e', '\U{FE0F}', '\U{0301}']) == ['e', '\U{FE0F}', '\U{0301}']
    requires nfc(['e', '\U{0301}']) == ['\U{00E9}']
    ensures var once := NormalizeText(nfc, ['e', '\U{FE0F}', '\U{0301}']);
            NormalizeText(nfc, once) != once
  {
    NotIdempotentAcrossASelector(nfc, 'e', '\U{FE0F}', '\U{0301}', '\U{00E9}');
  }

  /** A selector leaves no trace. */
  lemma {:induction false} SelectorDrops(a: string, v: char, b: string)
    requires Clean(a) && Clean(b) && IsSelector(v)
    ensures StripSelectors(Fold(a + [v] + b)) == a + b
  {
    if a == [] {
      CleanIsKept(b);
      assert (a + [v] + b)[1..] == b && a + b == b;
      assert Fold(a + [v] + b)[1..] == Fold(b);
    } else {
      assert forall c :: c in a[1..] ==> c in a;
      SelectorDrops(a[1..], v, b);
      assert (a + [v] + b)[1..] == a[1..] + [v] + b;
      assert Fold(a + [v] + b)[1..] == Fold(a[1..] + [v] + b);
      assert a[0] in a && a + b == [a[0]] + (a[1..] + b);
    }
  }

  /** A clean word is its own tail. */
  lemma TailOfWord(w: string)
    requires IsWord(w) && Clean(w)
    ensures Tail(w) == w && JoinWords(Words(w)) == w
  {
    CleanIsKept(w);
    TailJoinsWords(w);
    assert JoinWords([w]) == w;
    SplitOfJoin([w]);
  }
}
