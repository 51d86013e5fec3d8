/**
  A declarative description of what the lexer computes, and the proofs that
  the lexer computes exactly that: each token is the longest prefix matching
  its kind's pattern, every kind earlier in the priority order matches no
  prefix there, the lexemes tile the input, and lexing fails exactly when
  the scan reaches a position where nothing matches.
 */
module LexerCorrectness {
  import opened Results
  import opened Tokens
  import opened Lexer

  /** n is the length of the longest non-empty prefix of s[i..] matching k. */
  ghost predicate Longest(k: Kind, s: string, i: nat, n: nat) {
    MatchesAt(k, s, i, n) && forall m: nat :: MatchesAt(k, s, i, m) ==> m <= n
  }

  /** No pattern at all matches a non-empty prefix of s[i..]. */
  ghost predicate Stuck(s: string, i: nat) {
    forall k :: NoMatchAt(k, s, i)
  }

  /**
    t is the token a priority-ordered, longest-match scanner takes at i: its
    lexeme is the text at i, the longest match of its kind, and no kind of
    higher priority matches there at all.
   */
  ghost predicate Chosen(s: string, i: nat, t: Token) {
    && t.kind != Eof
    && i + |t.lexeme| <= |s|
    && t.lexeme == s[i..i + |t.lexeme|]
    && Longest(t.kind, s, i, |t.lexeme|)
    && forall k {:trigger NoMatchAt(k, s, i)} :: Rank(k) < Rank(t.kind) ==> NoMatchAt(k, s, i)
  }

  /** The tokens toks are the chosen tokens scanning s from i up to exactly j. */
  ghost predicate Covers(s: string, i: nat, toks: seq<Token>, j: nat)
    decreases |toks|
  {
    if toks == [] then i == j <= |s|
    else i < |s| && Chosen(s, i, toks[0]) && Covers(s, i + |toks[0].lexeme|, toks[1..], j)
  }

  /** toks is a tokenization of all of s followed by the single EOF token. */
  ghost predicate Tokenization(s: string, toks: seq<Token>) {
    && |toks| > 0
    && toks[|toks| - 1] == EofToken
    && Covers(s, 0, toks[..|toks| - 1], |s|)
  }

  /** The lexemes of a token sequence, concatenated in order. */
  function Concat(toks: seq<Token>): string {
    if toks == [] then [] else toks[0].lexeme + Concat(toks[1..])
  }

  // ---------------------------------------------------------------------
  // Pattern matching: the anchored matchers find the longest match.
  // ---------------------------------------------------------------------

  /** Whatever prefix of s[i..] is a numeral starts with the digit run at i. */
  lemma NumeralPrefix(s: string, i: nat, m: nat)
    requires MatchesAt(Number, s, i, m)
    ensures DigitRun(s, i) > 0
    ensures m > DigitRun(s, i) ==>
      && i + DigitRun(s, i) + 1 < i + m
      && s[i + DigitRun(s, i)] == '.'
      && forall j :: i + DigitRun(s, i) < j < i + m ==> IsDigit(s[j])
  {
    var w := s[i..i + m];
    var d := DigitRun(s, i);
    assert IsDigit(w[0]) by {
      if !AllDigits(w, 0, |w|) {
        var p :| 0 < p < |w| - 1 && w[p] == '.' && AllDigits(w, 0, p) && AllDigits(w, p + 1, |w|);
      }
    }
    if !AllDigits(w, 0, |w|) {
      var p :| 0 < p < |w| - 1 && w[p] == '.' && AllDigits(w, 0, p) && AllDigits(w, p + 1, |w|);
      assert p == d by {
        assert w[p] == s[i + p];
      }
      forall j | i + d < j < i + m
        ensures IsDigit(s[j])
      {
        assert w[j - i] == s[j];
      }
    }
  }

  /** The greedy NUMBER matcher finds the longest numeral prefix, or reports none. */
  lemma {:induction false} MatchNumberIsLongest(s: string, i: nat)
    requires i <= |s|
    ensures MatchNumber(s, i).Some? ==> Longest(Number, s, i, MatchNumber(s, i).value)
    ensures MatchNumber(s, i).None? ==> NoMatchAt(Number, s, i)
  {
    var d := DigitRun(s, i);
    forall m: nat | MatchesAt(Number, s, i, m)
      ensures MatchNumber(s, i).Some? && m <= MatchNumber(s, i).value
    {
      NumeralPrefix(s, i, m);
      if m > d {
        var f := DigitRun(s, i + d + 1);
        assert IsDigit(s[i + d + 1]);
        assert MatchNumber(s, i) == Some(d + 1 + f);
      }
    }
    if d > 0 {
      var n := MatchNumber(s, i).value;
      var w := s[i..i + n];
      forall j | 0 <= j < |w| && j != d
        ensures IsDigit(w[j])
      {
        assert w[j] == s[i + j];
      }
      if n != d {
        assert w[d] == '.';
      }
      assert MatchesAt(Number, s, i, n);
    }
  }

  /** Every anchored matcher finds the longest prefix matching its kind, or reports none. */
  lemma MatchAtIsLongest(k: Kind, s: string, i: nat)
    requires i <= |s|
    ensures MatchAt(k, s, i).Some? ==> Longest(k, s, i, MatchAt(k, s, i).value)
    ensures MatchAt(k, s, i).None? <==> NoMatchAt(k, s, i)
  {
    if k == Number {
      MatchNumberIsLongest(s, i);
    } else if k != Eof {
      var w := Literal(k);
      if MatchAt(k, s, i).Some? {
        assert MatchesAt(k, s, i, |w|);
      }
    }
  }

  /** The token FirstMatch takes is the chosen one. */
  lemma FirstMatchIsChosen(s: string, i: nat)
    requires i <= |s| && FirstMatch(s, i).Some?
    ensures Chosen(s, i, FirstMatch(s, i).value)
  {
    FirstMatchIsFirst(s, i);
    forall k
      ensures MatchAt(k, s, i).None? <==> NoMatchAt(k, s, i)
      ensures MatchAt(k, s, i).Some? ==> Longest(k, s, i, MatchAt(k, s, i).value)
    {
      MatchAtIsLongest(k, s, i);
    }
  }

  /** FirstMatch finds nothing exactly where no pattern matches. */
  lemma FirstMatchNoneIsStuck(s: string, i: nat)
    requires i <= |s|
    ensures FirstMatch(s, i).None? <==> Stuck(s, i)
  {
    FirstMatchIsFirst(s, i);
    forall k
      ensures MatchAt(k, s, i).None? <==> NoMatchAt(k, s, i)
    {
      MatchAtIsLongest(k, s, i);
    }
  }

  /** At most one token is chosen at any position. */
  lemma ChosenIsUnique(s: string, i: nat, t: Token, u: Token)
    requires Chosen(s, i, t) && Chosen(s, i, u)
    ensures t == u
  {
    assert MatchesAt(t.kind, s, i, |t.lexeme|);
    assert MatchesAt(u.kind, s, i, |u.lexeme|);
    assert !NoMatchAt(t.kind, s, i) && !NoMatchAt(u.kind, s, i);
    assert Rank(t.kind) == Rank(u.kind);
  }

  /** Where a token is chosen, some pattern matches. */
  lemma ChosenIsNotStuck(s: string, i: nat, t: Token)
    requires Chosen(s, i, t)
    ensures !Stuck(s, i)
  {
    assert MatchesAt(t.kind, s, i, |t.lexeme|);
    assert !NoMatchAt(t.kind, s, i);
  }

  /** The chosen token at a position is exactly what FirstMatch returns there. */
  lemma ChosenIsFirstMatch(s: string, i: nat, t: Token)
    requires i <= |s|
    ensures Chosen(s, i, t) <==> FirstMatch(s, i) == Some(t)
  {
    var u := FirstMatch(s, i);
    FirstMatchNoneIsStuck(s, i);
    if u.Some? {
      FirstMatchIsChosen(s, i);
      if Chosen(s, i, t) {
        ChosenIsUnique(s, i, t, u.value);
      }
    } else if Chosen(s, i, t) {
      ChosenIsNotStuck(s, i, t);
    }
  }

  /** The tokens toks are what step takes, turn by turn, scanning s from i up to j. */
  ghost predicate Steps(step: Step, s: string, i: nat, toks: seq<Token>, j: nat)
    decreases |toks|
  {
    if toks == [] then i == j <= |s|
    else i < |s| && step(s, i) == Some(toks[0]) && Steps(step, s, i + |toks[0].lexeme|, toks[1..], j)
  }

  /** On the text s, step takes exactly the chosen token at every position. */
  ghost predicate PicksChosen(step: Step, s: string) {
    forall i: nat, t: Token {:trigger Chosen(s, i, t)} :: i <= |s| ==> (Chosen(s, i, t) <==> step(s, i) == Some(t))
  }

  /** FirstMatch takes exactly the chosen token everywhere. */
  lemma FirstMatchPicksChosen(s: string)
    ensures PicksChosen(FirstMatch, s)
  {
    forall i: nat, t: Token | i <= |s|
      ensures Chosen(s, i, t) <==> FirstMatch(s, i) == Some(t)
    {
      ChosenIsFirstMatch(s, i, t);
    }
  }

  /** The turns of a matcher that takes the chosen tokens are exactly the chosen tokens. */
  lemma {:induction false} StepsAreCovers(step: Step, s: string, i: nat, toks: seq<Token>, j: nat)
    requires PicksChosen(step, s)
    ensures Steps(step, s, i, toks, j) <==> Covers(s, i, toks, j)
    decreases |toks|
  {
    if toks != [] {
      StepsAreCovers(step, s, i + |toks[0].lexeme|, toks[1..], j);
    }
  }

  /** A scan that succeeds appends the turns it takes to the tokens so far, then EOF. */
  lemma {:induction false} ScanSucceeds(step: Step, s: string, index: nat, tokens: seq<Token>, r: seq<Token>)
    requires Advances(step) && index <= |s|
    requires Scan(step, s, index, tokens) == Success(r)
    ensures |tokens| < |r| && r[..|tokens|] == tokens && r[|r| - 1] == EofToken
    ensures Steps(step, s, index, r[|tokens|..|r| - 1], |s|)
    decreases |s| - index
  {
    if index == |s| {
      assert r == tokens + [EofToken];
      assert r[|tokens|..|r| - 1] == [];
    } else {
      var t := step(s, index).value;
      var tokens' := tokens + [t];
      ScanSucceeds(step, s, index + |t.lexeme|, tokens', r);
      assert r[..|tokens|] == r[..|tokens'|][..|tokens|] == tokens'[..|tokens|] == tokens;
      var rest := r[|tokens|..|r| - 1];
      assert rest[0] == r[..|tokens'|][|tokens|] == t;
      assert rest[1..] == r[|tokens'|..|r| - 1];
    }
  }

  /** A scan that fails stops where step finds nothing, after the turns it took. */
  lemma {:induction false} ScanFails(step: Step, s: string, index: nat, tokens: seq<Token>)
    returns (toks: seq<Token>)
    requires Advances(step) && index <= |s|
    requires Scan(step, s, index, tokens).Failure?
    ensures var p := Scan(step, s, index, tokens).error.position;
      p < |s| && step(s, p).None? && Steps(step, s, index, toks, p)
    decreases |s| - index
  {
    match step(s, index)
    case None =>
      toks := [];
    case Some(t) =>
      var rest := ScanFails(step, s, index + |t.lexeme|, tokens + [t]);
      toks := [t] + rest;
      assert toks[1..] == rest;
  }

  /** Turns that reach the end of the text are what the loop appends. */
  lemma {:induction false} ScanComplete(step: Step, s: string, index: nat, tokens: seq<Token>, rest: seq<Token>)
    requires Advances(step) && index <= |s|
    requires Steps(step, s, index, rest, |s|)
    ensures Scan(step, s, index, tokens) == Success(tokens + rest + [EofToken])
    decreases |rest|
  {
    if rest == [] {
      assert tokens + rest == tokens;
    } else {
      var t := rest[0];
      ScanComplete(step, s, index + |t.lexeme|, tokens + [t], rest[1..]);
      assert tokens + [t] + rest[1..] == tokens + rest;
    }
  }

  /** Turns that reach a position where step finds nothing make the scan fail there. */
  lemma {:induction false} ScanFailsWhenStuck(step: Step, s: string, index: nat, tokens: seq<Token>, rest: seq<Token>, p: nat)
    requires Advances(step) && index <= |s|
    requires Steps(step, s, index, rest, p) && p < |s| && step(s, p).None?
    ensures Scan(step, s, index, tokens) == Failure(LexError(p, s[p]))
    decreases |rest|
  {
    if rest != [] {
      var t := rest[0];
      ScanFailsWhenStuck(step, s, index + |t.lexeme|, tokens + [t], rest[1..], p);
    }
  }

  /** A successful lexer run yields a tokenization of the text. */
  lemma LexSuccessIsTokenization(s: string)
    requires Lex(s).Success?
    ensures Tokenization(s, Lex(s).value)
  {
    assert Advances(FirstMatch);
    FirstMatchPicksChosen(s);
    var r := Lex(s).value;
    ScanSucceeds(FirstMatch, s, 0, [], r);
    assert r[0..|r| - 1] == r[..|r| - 1];
    StepsAreCovers(FirstMatch, s, 0, r[..|r| - 1], |s|);
  }

  /** Turns of FirstMatch that reach the end of the text are what the lexer returns. */
  lemma StepsAreLexed(s: string, body: seq<Token>)
    requires Steps(FirstMatch, s, 0, body, |s|)
    ensures Lex(s) == Success(body + [EofToken])
  {
    assert Advances(FirstMatch);
    ScanComplete(FirstMatch, s, 0, [], body);
    assert [] + body == body;
  }

  /** Any tokenization of the text is what the lexer returns. */
  lemma TokenizationIsLexed(s: string, toks: seq<Token>)
    requires Tokenization(s, toks)
    ensures Lex(s) == Success(toks)
  {
    var body := toks[..|toks| - 1];
    FirstMatchPicksChosen(s);
    StepsAreCovers(FirstMatch, s, 0, body, |s|);
    StepsAreLexed(s, body);
    assert body + [EofToken] == toks;
  }

  /** The lexer succeeds with exactly the tokenization of the text. */
  lemma LexIsTokenization(s: string, toks: seq<Token>)
    ensures Lex(s) == Success(toks) <==> Tokenization(s, toks)
  {
    if Lex(s).Success? {
      LexSuccessIsTokenization(s);
    }
    if Tokenization(s, toks) {
      TokenizationIsLexed(s, toks);
    }
  }

  /**
    The lexer fails exactly when chosen tokens reach a position of the text
    where no pattern matches; the error names that position and character.
   */
  lemma LexFailsIffStuck(s: string, p: nat, c: char)
    ensures Lex(s) == Failure(LexError(p, c)) <==>
      p < |s| && c == s[p] && Stuck(s, p) && exists toks :: Covers(s, 0, toks, p)
  {
    assert Advances(FirstMatch);
    FirstMatchPicksChosen(s);
    if Lex(s) == Failure(LexError(p, c)) {
      var toks := ScanFails(FirstMatch, s, 0, []);
      StepsAreCovers(FirstMatch, s, 0, toks, p);
      FirstMatchNoneIsStuck(s, p);
    }
    if p < |s| && c == s[p] && Stuck(s, p) && exists toks :: Covers(s, 0, toks, p) {
      var toks :| Covers(s, 0, toks, p);
      StepsAreCovers(FirstMatch, s, 0, toks, p);
      FirstMatchNoneIsStuck(s, p);
      ScanFailsWhenStuck(FirstMatch, s, 0, [], toks, p);
    }
  }

  // ---------------------------------------------------------------------
  // Consequences: coverage and the single EOF.
  // ---------------------------------------------------------------------

  /**
    Whatever step takes is the text at that position and matches its kind's
    pattern; such a token is never EOF and never empty.
   */
  ghost predicate ReadsPatterns(step: Step) {
    forall s: string, i: nat {:trigger step(s, i)} :: i <= |s| && step(s, i).Some? ==>
      && i + |step(s, i).value.lexeme| <= |s|
      && step(s, i).value.lexeme == s[i..i + |step(s, i).value.lexeme|]
      && Matches(step(s, i).value.kind, step(s, i).value.lexeme)
  }

  /** Every token FirstMatch takes is the text there and matches its kind's pattern. */
  lemma FirstMatchReadsPatterns()
    ensures ReadsPatterns(FirstMatch)
  {
    forall s: string, i: nat | i <= |s| && FirstMatch(s, i).Some?
      ensures Matches(FirstMatch(s, i).value.kind, FirstMatch(s, i).value.lexeme)
    {
      FirstMatchIsFirst(s, i);
      MatchAtIsLongest(FirstMatch(s, i).value.kind, s, i);
    }
  }

  /** A token that matches its kind's pattern is neither EOF nor empty. */
  lemma MatchesIsProper(k: Kind, w: string)
    requires Matches(k, w)
    ensures k != Eof && w != []
  {
  }

  /**
    The turns of such a matcher over s[i..j] concatenate back to exactly that
    text, and each is a non-empty, non-EOF match of its kind's pattern.
   */
  lemma {:induction false} StepsTile(step: Step, s: string, i: nat, toks: seq<Token>, j: nat)
    requires ReadsPatterns(step)
    requires Steps(step, s, i, toks, j)
    ensures i <= j <= |s|
    ensures Concat(toks) == s[i..j]
    ensures forall q :: 0 <= q < |toks| ==>
      toks[q].kind != Eof && toks[q].lexeme != [] && Matches(toks[q].kind, toks[q].lexeme)
    decreases |toks|
  {
    if toks != [] {
      var t := toks[0];
      var k := i + |t.lexeme|;
      MatchesIsProper(t.kind, t.lexeme);
      StepsTile(step, s, k, toks[1..], j);
      assert s[i..j] == s[i..k] + s[k..j];
      forall q | 0 < q < |toks|
        ensures toks[q].kind != Eof && toks[q].lexeme != [] && Matches(toks[q].kind, toks[q].lexeme)
      {
        assert toks[q] == toks[1..][q - 1];
      }
    }
  }

  /**
    On success the lexemes of all tokens but the last concatenate to the
    input, each is a non-empty match of its kind's pattern, and the only EOF
    token is the last one.
   */
  lemma LexCoversInput(s: string)
    requires Lex(s).Success?
    ensures var toks := Lex(s).value;
      && |toks| > 0
      && Concat(toks[..|toks| - 1]) == s
      && toks[|toks| - 1] == EofToken
      && forall q :: 0 <= q < |toks| - 1 ==>
           toks[q].kind != Eof && toks[q].lexeme != [] && Matches(toks[q].kind, toks[q].lexeme)
  {
    assert Advances(FirstMatch);
    var toks := Lex(s).value;
    ScanSucceeds(FirstMatch, s, 0, [], toks);
    assert toks[0..|toks| - 1] == toks[..|toks| - 1];
    FirstMatchReadsPatterns();
    StepsTile(FirstMatch, s, 0, toks[..|toks| - 1], |s|);
    assert s[0..|s|] == s;
    forall q | 0 <= q < |toks| - 1
      ensures toks[q].kind != Eof && toks[q].lexeme != [] && Matches(toks[q].kind, toks[q].lexeme)
    {
      assert toks[q] == toks[..|toks| - 1][q];
    }
  }
}
