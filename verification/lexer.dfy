/**
  The lexer: scans the text left to right, at each position tries the token
  patterns in priority order, takes the first anchored match, and appends a
  terminal EOF token. Whitespace is not skipped: any character no pattern
  covers is a lexical error.
 */
module Lexer {
  import opened Results
  import opened Tokens

  /** The error raised at the first position where no pattern matches. */
  datatype LexError = LexError(position: nat, character: char)

  /** The decimal digits the NUMBER pattern accepts (ASCII only). */
  predicate IsDigit(c: char) {
    '0' <= c <= '9'
  }

  /** Every character of w[a..b] is a digit. */
  predicate AllDigits(w: string, a: nat, b: nat)
    requires a <= b <= |w|
  {
    forall j :: a <= j < b ==> IsDigit(w[j])
  }

  /**
    The NUMBER pattern as a language: one or more digits, optionally followed
    by a dot and one or more digits.
   */
  predicate IsNumeral(w: string) {
    && |w| > 0
    && (|| AllDigits(w, 0, |w|)
        || exists p :: 0 < p < |w| - 1 && w[p] == '.' && AllDigits(w, 0, p) && AllDigits(w, p + 1, |w|))
  }

  /** The language of each kind's pattern; EOF has no pattern. */
  predicate Matches(k: Kind, w: string) {
    match k
    case Number => IsNumeral(w)
    case Eof => false
    case _ => w == Literal(k)
  }

  /** The non-empty prefix of length n of s[i..] matches the pattern of k. */
  predicate MatchesAt(k: Kind, s: string, i: nat, n: nat) {
    0 < n && i + n <= |s| && Matches(k, s[i..i + n])
  }

  /** No non-empty prefix of s[i..] matches the pattern of k. */
  ghost predicate NoMatchAt(k: Kind, s: string, i: nat) {
    forall n :: !MatchesAt(k, s, i, n)
  }

  /** Length of the longest run of digits starting at i. */
  function DigitRun(s: string, i: nat): (n: nat)
    requires i <= |s|
    ensures i + n <= |s|
    ensures forall j :: i <= j < i + n ==> IsDigit(s[j])
    ensures i + n == |s| || !IsDigit(s[i + n])
    decreases |s| - i
  {
    if i < |s| && IsDigit(s[i]) then 1 + DigitRun(s, i + 1) else 0
  }

  /**
    Anchored greedy match of the NUMBER pattern at i: the digit run, then the
    fraction if a dot is followed by at least one digit. Returns the length.
   */
  function MatchNumber(s: string, i: nat): (r: Option<nat>)
    requires i <= |s|
    ensures r.Some? ==> 0 < r.value && i + r.value <= |s|
  {
    var d := DigitRun(s, i);
    if d == 0 then None
    else if i + d < |s| && s[i + d] == '.' && DigitRun(s, i + d + 1) > 0 then
      Some(d + 1 + DigitRun(s, i + d + 1))
    else Some(d)
  }

  /**
    Anchored match of a fixed text at i. Returns the length of the slice at
    i that spells w; there is no such slice exactly when it returns nothing.
   */
  function MatchLiteral(w: string, s: string, i: nat): (r: Option<nat>)
    requires i <= |s|
    ensures r.Some? ==> i + r.value <= |s| && s[i..i + r.value] == w
    ensures r.None? ==> forall j :: i <= j <= |s| ==> s[i..j] != w
  {
    if i + |w| <= |s| && s[i..i + |w|] == w then Some(|w|) else None
  }

  /** Anchored match of the pattern of k at position i (regex.match(text, i)). */
  function MatchAt(k: Kind, s: string, i: nat): (r: Option<nat>)
    requires i <= |s|
    ensures r.Some? ==> 0 < r.value && i + r.value <= |s|
  {
    match k
    case Number => MatchNumber(s, i)
    case Eof => None
    case _ => MatchLiteral(Literal(k), s, i)
  }

  /** Tries the kinds Priority[j..] in order and builds a token from the first match. */
  function FirstMatchFrom(s: string, i: nat, j: nat): (r: Option<Token>)
    requires i <= |s|
    ensures r.Some? ==> r.value.kind != Eof && j <= Rank(r.value.kind)
    ensures r.Some? ==> 0 < |r.value.lexeme| && i + |r.value.lexeme| <= |s|
    ensures r.Some? ==> r.value.lexeme == s[i..i + |r.value.lexeme|]
    decreases |Priority| - j
  {
    if j >= |Priority| then None
    else
      match MatchAt(Priority[j], s, i)
      case Some(n) => Some(Token(Priority[j], s[i..i + n]))
      case None => FirstMatchFrom(s, i, j + 1)
  }

  /** The token FirstMatchFrom builds is the match of its kind's pattern. */
  lemma {:induction false} FirstMatchFromMatches(s: string, i: nat, j: nat)
    requires i <= |s| && FirstMatchFrom(s, i, j).Some?
    ensures var t := FirstMatchFrom(s, i, j).value; MatchAt(t.kind, s, i) == Some(|t.lexeme|)
    decreases |Priority| - j
  {
    if MatchAt(Priority[j], s, i).None? {
      FirstMatchFromMatches(s, i, j + 1);
    }
  }

  /** Every kind FirstMatchFrom passes over, and every kind when it finds none, fails to match. */
  lemma {:induction false} FirstMatchFromSkips(s: string, i: nat, j: nat, k: Kind)
    requires i <= |s|
    requires j <= Rank(k)
    requires FirstMatchFrom(s, i, j).Some? ==> Rank(k) < Rank(FirstMatchFrom(s, i, j).value.kind)
    ensures MatchAt(k, s, i).None?
    decreases |Priority| - j
  {
    if j < |Priority| {
      PriorityIsRankOrder();
      if MatchAt(Priority[j], s, i).Some? {
        assert false;
      } else if Rank(k) != j {
        FirstMatchFromSkips(s, i, j + 1, k);
      }
    }
  }

  /**
    The token the lexer takes at position i, if any pattern matches there;
    past the end of the text nothing matches.
   */
  function FirstMatch(s: string, i: nat): (r: Option<Token>)
    ensures r.Some? ==> i <= |s| && r.value.kind != Eof
    ensures r.Some? ==> 0 < |r.value.lexeme| && i + |r.value.lexeme| <= |s|
    ensures r.Some? ==> r.value.lexeme == s[i..i + |r.value.lexeme|]
  {
    if i <= |s| then FirstMatchFrom(s, i, 0) else None
  }

  /**
    FirstMatch honours the priority order: every kind ranked before the one it
    returns fails to match, and when it returns nothing, every kind fails.
   */
  lemma FirstMatchIsFirst(s: string, i: nat)
    requires i <= |s|
    ensures FirstMatch(s, i).Some? ==>
      MatchAt(FirstMatch(s, i).value.kind, s, i) == Some(|FirstMatch(s, i).value.lexeme|)
    ensures FirstMatch(s, i).Some? ==>
      forall k :: Rank(k) < Rank(FirstMatch(s, i).value.kind) ==> MatchAt(k, s, i).None?
    ensures FirstMatch(s, i).None? ==> forall k :: MatchAt(k, s, i).None?
  {
    if FirstMatch(s, i).Some? {
      FirstMatchFromMatches(s, i, 0);
    }
    forall k | FirstMatch(s, i).Some? ==> Rank(k) < Rank(FirstMatch(s, i).value.kind)
      ensures MatchAt(k, s, i).None?
    {
      FirstMatchFromSkips(s, i, 0, k);
    }
  }

  /** A per-position matcher: the token it takes at a position of a text, if any. */
  type Step = (string, nat) -> Option<Token>

  /**
    A matcher fit to drive the scanning loop: whatever it takes at a position
    of the text is a non-empty piece of the rest of the text.
   */
  ghost predicate Advances(step: Step) {
    forall s: string, i: nat {:trigger step(s, i)} :: i <= |s| && step(s, i).Some? ==>
      0 < |step(s, i).value.lexeme| && i + |step(s, i).value.lexeme| <= |s|
  }

  /**
    The scanning loop, driven by the per-position matcher step: tokens holds
    what was scanned before index. At the end of the text EOF is appended;
    where step finds nothing, the scan fails and reports that character.
   */
  function Scan(step: Step, s: string, index: nat, tokens: seq<Token>): (r: Result<seq<Token>, LexError>)
    requires Advances(step) && index <= |s|
    ensures r.Failure? ==> index <= r.error.position < |s| && r.error.character == s[r.error.position]
    ensures r.Success? ==> |tokens| < |r.value| && r.value[|r.value| - 1] == EofToken
    decreases |s| - index
  {
    if index == |s| then Success(tokens + [EofToken])
    else
      match step(s, index)
      case None => Failure(LexError(index, s[index]))
      case Some(t) => Scan(step, s, index + |t.lexeme|, tokens + [t])
  }

  /** The lexer: the token sequence of the whole text, ending with EOF. */
  function Lex(s: string): (r: Result<seq<Token>, LexError>)
    ensures r.Failure? ==> r.error.position < |s| && r.error.character == s[r.error.position]
    ensures r.Success? ==> |r.value| > 0 && r.value[|r.value| - 1] == EofToken
  {
    assert Advances(FirstMatch);
    Scan(FirstMatch, s, 0, [])
  }
}
