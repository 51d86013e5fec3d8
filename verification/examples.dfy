/**
  Worked cases of the lexer and the parser on short inputs, including the
  inputs that end in an error and the one that never returns.
 */
module Examples {
  import opened Results
  import opened Tokens
  import opened Lexer
  import opened Ast
  import opened Grammar
  import opened Parser
  import opened ParserPrint
  import opened ParserCorrectness

  // ---------------------------------------------------------------------
  // Lexer steps.
  // ---------------------------------------------------------------------

  /** Once a matcher takes t at index, the scan goes on after t. */
  lemma ScanTakesStep(step: Step, s: string, index: nat, tokens: seq<Token>, t: Token)
    requires Advances(step) && index < |s| && step(s, index) == Some(t)
    ensures index + |t.lexeme| <= |s|
    ensures Scan(step, s, index, tokens) == Scan(step, s, index + |t.lexeme|, tokens + [t])
  {
  }

  /** Once the lexer's matcher takes t at index, the scan goes on after t. */
  lemma ScanTakes(s: string, index: nat, tokens: seq<Token>, t: Token)
    requires index < |s| && FirstMatch(s, index) == Some(t)
    ensures Advances(FirstMatch)
    ensures Scan(FirstMatch, s, index, tokens) == Scan(FirstMatch, s, index + |t.lexeme|, tokens + [t])
  {
    assert Advances(FirstMatch);
    ScanTakesStep(FirstMatch, s, index, tokens, t);
  }

  /** Where the matcher finds nothing, the scan fails at that character. */
  lemma ScanStops(s: string, index: nat, tokens: seq<Token>)
    requires index < |s| && FirstMatch(s, index).None?
    ensures Advances(FirstMatch)
    ensures Scan(FirstMatch, s, index, tokens) == Failure(LexError(index, s[index]))
  {
    assert Advances(FirstMatch);
  }

  /** A lone digit, not followed by a digit or by a dot and a digit, is a NUMBER token. */
  lemma OneDigit(s: string, i: nat)
    requires i < |s| && IsDigit(s[i])
    requires i + 1 == |s| || !IsDigit(s[i + 1])
    requires i + 2 >= |s| || s[i + 1] != '.' || !IsDigit(s[i + 2])
    ensures FirstMatch(s, i) == Some(Token(Number, [s[i]]))
  {
    assert DigitRun(s, i + 1) == 0;
    if i + 2 < |s| {
      assert DigitRun(s, i + 2) == 0 || s[i + 1] != '.';
    }
    assert s[i..i + 1] == [s[i]];
  }

  /** A character no pattern starts with stops the matcher. */
  lemma NoPatternAt(s: string, i: nat)
    requires i < |s| && !IsDigit(s[i])
    requires forall k :: k != Number && k != Eof ==> Literal(k)[0] != s[i]
    ensures FirstMatch(s, i).None?
  {
    forall k | k != Eof
      ensures MatchAt(k, s, i).None?
    {
    }
    NothingFrom(s, i, 0);
  }

  /** FirstMatchFrom finds nothing when no kind from Priority[j] on matches. */
  lemma {:induction false} NothingFrom(s: string, i: nat, j: nat)
    requires i <= |s|
    requires forall k :: k != Eof ==> MatchAt(k, s, i).None?
    ensures FirstMatchFrom(s, i, j).None?
    decreases |Priority| - j
  {
    if j < |Priority| {
      assert MatchAt(Priority[j], s, i).None?;
      NothingFrom(s, i, j + 1);
    }
  }

  /** The empty text is the EOF token alone. */
  lemma LexEmpty()
    ensures Lex("") == Success([EofToken])
  {
    assert Advances(FirstMatch);
    assert [] + [EofToken] == [EofToken];
  }

  /** A single digit is a NUMBER token and EOF. */
  lemma LexDigit()
    ensures Lex("7") == Success([Token(Number, "7"), EofToken])
  {
    var s := "7";
    OneDigit(s, 0);
    ScanTakes(s, 0, [], Token(Number, "7"));
    assert [] + [Token(Number, "7")] + [EofToken] == [Token(Number, "7"), EofToken];
  }

  /** An unknown character fails the lexer at its position. */
  lemma LexUnknown()
    ensures Lex("2@3") == Failure(LexError(1, '@'))
  {
    var s := "2@3";
    OneDigit(s, 0);
    ScanTakes(s, 0, [], Token(Number, "2"));
    NoPatternAt(s, 1);
    ScanStops(s, 1, [Token(Number, "2")]);
  }

  /** A dot with no digit after it is not part of a number, and nothing else matches it. */
  lemma LexTrailingDot()
    ensures Lex("2.") == Failure(LexError(1, '.'))
  {
    var s := "2.";
    OneDigit(s, 0);
    ScanTakes(s, 0, [], Token(Number, "2"));
    NoPatternAt(s, 1);
    ScanStops(s, 1, [Token(Number, "2")]);
  }

  /** Whitespace is not skipped: a blank is a lexical error. */
  lemma LexBlank()
    ensures Lex(" 1") == Failure(LexError(0, ' '))
  {
    NoPatternAt(" 1", 0);
    ScanStops(" 1", 0, []);
  }

  // ---------------------------------------------------------------------
  // Parser steps.
  // ---------------------------------------------------------------------

  /** A leaf for the NUMBER token at the current index. */
  function Leaf(toks: seq<Token>, i: nat): Ast
    requires i < |toks|
  {
    Node(toks[i].lexeme, [])
  }

  /** A NUMBER not followed by * or / is a whole T. */
  lemma NumberTerm(toks: seq<Token>, st: State)
    requires Ready(toks, st) && toks[st.pos].kind == Number && st.pos + 1 < |toks|
    requires toks[st.pos + 1].kind != Multiply && toks[st.pos + 1].kind != Divide
    ensures ParseT(toks, st) == Done(Parsed(Leaf(toks, st.pos), State(st.pos + 1, st.log + [TToFTPrime, FNumber, TPrimeEmpty])))
  {
    var sF := Log(st, TToFTPrime);
    assert Match(toks, Log(sF, FNumber), Number).value == (toks[st.pos].lexeme, State(st.pos + 1, sF.log + [FNumber]));
    var f := Parsed(Leaf(toks, st.pos), State(st.pos + 1, sF.log + [FNumber]));
    StepT(toks, st, f);
    StopTPrime(toks, f.ast, f.state);
    assert f.state.log + [TPrimeEmpty] == st.log + [TToFTPrime, FNumber, TPrimeEmpty];
  }

  // ---------------------------------------------------------------------
  // Parser cases.
  // ---------------------------------------------------------------------

  /** A single number: the tree is its leaf and the log is the five steps the parser prints. */
  lemma ParseNumber()
    ensures Parse([Token(Number, "2"), EofToken])
         == Done(Analysis(Node("2", []), [EToTEPrime, TToFTPrime, FNumber, TPrimeEmpty, EPrimeEmpty]))
  {
    var toks := [Token(Number, "2"), EofToken];
    var s0 := State(0, []);
    NumberTerm(toks, Log(s0, EToTEPrime));
    var t := ParseT(toks, Log(s0, EToTEPrime)).value;
    StepE(toks, s0, t);
    StopEPrime(toks, t.ast, t.state);
    assert t.state.log + [EPrimeEmpty] == [EToTEPrime, TToFTPrime, FNumber, TPrimeEmpty, EPrimeEmpty];
  }

  /** The log of a single number, as the lines the parser prints. */
  lemma ParseNumberLog()
    ensures Parse([Token(Number, "2"), EofToken]).Done?
    ensures Labels(Parse([Token(Number, "2"), EofToken]).value.derivation)
         == ["E -> T E'", "T -> F T'", "F -> NUMBER", "T' -> ε", "E' -> ε"]
  {
    ParseNumber();
    LabelsOfE();
    LabelsOfT();
    LabelsOfF();
  }

  /** 1 - 2 - 3 groups to the left: (1 - 2) - 3. */
  lemma ParseLeftAssociative()
    ensures var toks := [Token(Number, "1"), Token(Minus, "-"), Token(Number, "2"),
                         Token(Minus, "-"), Token(Number, "3"), EofToken];
      && Parse(toks).Done?
      && Parse(toks).value.ast == Node("-", [Node("-", [Node("1", []), Node("2", [])]), Node("3", [])])
  {
    var toks := [Token(Number, "1"), Token(Minus, "-"), Token(Number, "2"),
                 Token(Minus, "-"), Token(Number, "3"), EofToken];
    var s0 := State(0, []);
    NumberTerm(toks, Log(s0, EToTEPrime));
    var t1 := ParseT(toks, Log(s0, EToTEPrime)).value;
    StepE(toks, s0, t1);
    var s1 := State(2, t1.state.log + [EPrimeMinus]);
    NumberTerm(toks, s1);
    var t2 := ParseT(toks, s1).value;
    StepEPrime(toks, t1.ast, t1.state, EPrimeMinus, t2);
    var n12 := Node("-", [t1.ast, t2.ast]);
    var s2 := State(4, t2.state.log + [EPrimeMinus]);
    NumberTerm(toks, s2);
    var t3 := ParseT(toks, s2).value;
    StepEPrime(toks, n12, t2.state, EPrimeMinus, t3);
    StopEPrime(toks, Node("-", [n12, t3.ast]), t3.state);
  }

  /** In 2 + 3 * 4 the product binds tighter: 2 + (3 * 4). */
  lemma ParsePrecedenceCase()
    ensures var toks := [Token(Number, "2"), Token(Plus, "+"), Token(Number, "3"),
                         Token(Multiply, "*"), Token(Number, "4"), EofToken];
      && Parse(toks).Done?
      && Parse(toks).value.ast == Node("+", [Node("2", []), Node("*", [Node("3", []), Node("4", [])])])
  {
    var toks := [Token(Number, "2"), Token(Plus, "+"), Token(Number, "3"),
                 Token(Multiply, "*"), Token(Number, "4"), EofToken];
    var s0 := State(0, []);
    NumberTerm(toks, Log(s0, EToTEPrime));
    var t1 := ParseT(toks, Log(s0, EToTEPrime)).value;
    StepE(toks, s0, t1);
    var s1 := State(2, t1.state.log + [EPrimePlus]);
    var t2 := ProductOfNumbers(toks, s1);
    StepEPrime(toks, t1.ast, t1.state, EPrimePlus, t2);
    StopEPrime(toks, Node("+", [t1.ast, t2.ast]), t2.state);
  }

  /** Parentheses override precedence: ( 2 + 3 ) * 4 is (2 + 3) * 4. */
  lemma ParseParenthesised()
    ensures var toks := [Token(LParen, "("), Token(Number, "2"), Token(Plus, "+"), Token(Number, "3"),
                         Token(RParen, ")"), Token(Multiply, "*"), Token(Number, "4"), EofToken];
      && Parse(toks).Done?
      && Parse(toks).value.ast == Node("*", [Node("+", [Node("2", []), Node("3", [])]), Node("4", [])])
  {
    var toks := [Token(LParen, "("), Token(Number, "2"), Token(Plus, "+"), Token(Number, "3"),
                 Token(RParen, ")"), Token(Multiply, "*"), Token(Number, "4"), EofToken];
    var s0 := State(0, []);
    var sT := Log(s0, EToTEPrime);
    var sF := Log(sT, TToFTPrime);
    var e := SumInParens(toks, State(1, sF.log + [FParen]));
    StepParen(toks, sF, e);
    var f := Parsed(e.ast, State(5, e.state.log));
    StepT(toks, sT, f);
    var sR := State(6, f.state.log + [TPrimeTimes]);
    assert Match(toks, Log(sR, FNumber), Number).value == ("4", State(7, sR.log + [FNumber]));
    var r := Parsed(Node("4", []), State(7, sR.log + [FNumber]));
    StepTPrime(toks, f.ast, f.state, TPrimeTimes, r);
    var n := Node("*", [f.ast, r.ast]);
    StopTPrime(toks, n, r.state);
    var t := Parsed(n, State(7, r.state.log + [TPrimeEmpty]));
    StepE(toks, s0, t);
    StopEPrime(toks, t.ast, t.state);
  }

  /** The E of 2 + 3 inside the parentheses of ParseParenthesised, stopping on the ). */
  lemma SumInParens(toks: seq<Token>, st: State) returns (e: Parsed)
    requires toks == [Token(LParen, "("), Token(Number, "2"), Token(Plus, "+"), Token(Number, "3"),
                      Token(RParen, ")"), Token(Multiply, "*"), Token(Number, "4"), EofToken]
    requires st.pos == 1
    ensures ParseE(toks, st) == Done(e)
    ensures e.ast == Node("+", [Node("2", []), Node("3", [])]) && e.state.pos == 4
  {
    NumberTerm(toks, Log(st, EToTEPrime));
    var t1 := ParseT(toks, Log(st, EToTEPrime)).value;
    StepE(toks, st, t1);
    var s1 := State(3, t1.state.log + [EPrimePlus]);
    NumberTerm(toks, s1);
    var t2 := ParseT(toks, s1).value;
    StepEPrime(toks, t1.ast, t1.state, EPrimePlus, t2);
    var n := Node("+", [t1.ast, t2.ast]);
    StopEPrime(toks, n, t2.state);
    e := Parsed(n, State(4, t2.state.log + [EPrimeEmpty]));
  }

  /** The T of 3 * 4 followed by EOF in the stream of ParsePrecedenceCase. */
  lemma ProductOfNumbers(toks: seq<Token>, st: State) returns (t: Parsed)
    requires toks == [Token(Number, "2"), Token(Plus, "+"), Token(Number, "3"),
                      Token(Multiply, "*"), Token(Number, "4"), EofToken]
    requires st.pos == 2
    ensures ParseT(toks, st) == Done(t)
    ensures t.ast == Node("*", [Node("3", []), Node("4", [])]) && t.state.pos == 5
  {
    var sF := Log(st, TToFTPrime);
    assert Match(toks, Log(sF, FNumber), Number).value == ("3", State(3, sF.log + [FNumber]));
    var f := Parsed(Node("3", []), State(3, sF.log + [FNumber]));
    StepT(toks, st, f);
    var sR := State(4, f.state.log + [TPrimeTimes]);
    assert Match(toks, Log(sR, FNumber), Number).value == ("4", State(5, sR.log + [FNumber]));
    var r := Parsed(Node("4", []), State(5, sR.log + [FNumber]));
    StepTPrime(toks, f.ast, f.state, TPrimeTimes, r);
    var n := Node("*", [f.ast, r.ast]);
    StopTPrime(toks, n, r.state);
    t := Parsed(n, State(5, r.state.log + [TPrimeEmpty]));
  }

  /**
    2 ^ 3: F takes the 2 and nothing consumes the ^, so the parse fails at
    the check for EOF, on the ^.
   */
  lemma ParsePowerAfterNumber()
    ensures Parse([Token(Number, "2"), Token(Caret, "^"), Token(Number, "3"), EofToken]) == Failed(Unexpected(Caret))
  {
    var toks := [Token(Number, "2"), Token(Caret, "^"), Token(Number, "3"), EofToken];
    var s0 := State(0, []);
    NumberTerm(toks, Log(s0, EToTEPrime));
    var t := ParseT(toks, Log(s0, EToTEPrime)).value;
    StepE(toks, s0, t);
    StopEPrime(toks, t.ast, t.state);
    ParseRejectsTrailing(toks, Parsed(t.ast, State(t.state.pos, t.state.log + [EPrimeEmpty])));
  }

  /** 5 !: the same, failing on the !. */
  lemma ParseFactorialAfterNumber()
    ensures Parse([Token(Number, "5"), Token(Factorial, "!"), EofToken]) == Failed(Unexpected(Factorial))
  {
    var toks := [Token(Number, "5"), Token(Factorial, "!"), EofToken];
    var s0 := State(0, []);
    NumberTerm(toks, Log(s0, EToTEPrime));
    var t := ParseT(toks, Log(s0, EToTEPrime)).value;
    StepE(toks, s0, t);
    StopEPrime(toks, t.ast, t.state);
    ParseRejectsTrailing(toks, Parsed(t.ast, State(t.state.pos, t.state.log + [EPrimeEmpty])));
  }

  /** ^ 2: F is entered on the ^, and the parse never returns. */
  lemma ParseLeadingPower()
    ensures Parse([Token(Caret, "^"), Token(Number, "2"), EofToken]).Diverges?
  {
    var toks := [Token(Caret, "^"), Token(Number, "2"), EofToken];
    var s0 := State(0, []);
    assert ParseF(toks, Log(Log(s0, EToTEPrime), TToFTPrime)).Diverges?;
    assert ParseT(toks, Log(s0, EToTEPrime)).Diverges?;
    assert ParseE(toks, s0).Diverges?;
  }

  /** ( 1 ) 2: the parenthesised expression ends before the 2, which fails the check for EOF. */
  lemma ParseJuxtaposed()
    ensures Parse([Token(LParen, "("), Token(Number, "1"), Token(RParen, ")"), Token(Number, "2"), EofToken])
         == Failed(Unexpected(Number))
  {
    var toks := [Token(LParen, "("), Token(Number, "1"), Token(RParen, ")"), Token(Number, "2"), EofToken];
    var s0 := State(0, []);
    var sT := Log(s0, EToTEPrime);
    var sF := Log(sT, TToFTPrime);
    var s1 := State(1, sF.log + [FParen]);
    NumberTerm(toks, Log(s1, EToTEPrime));
    var t := ParseT(toks, Log(s1, EToTEPrime)).value;
    StepE(toks, s1, t);
    StopEPrime(toks, t.ast, t.state);
    var e := Parsed(t.ast, State(t.state.pos, t.state.log + [EPrimeEmpty]));
    StepParen(toks, sF, e);
    var f := Parsed(e.ast, State(3, e.state.log));
    StepT(toks, sT, f);
    StopTPrime(toks, f.ast, f.state);
    var t0 := Parsed(f.ast, State(3, f.state.log + [TPrimeEmpty]));
    StepE(toks, s0, t0);
    StopEPrime(toks, t0.ast, t0.state);
    ParseRejectsTrailing(toks, Parsed(t0.ast, State(3, t0.state.log + [EPrimeEmpty])));
  }

  /** 2 +: the T after + starts on EOF, which no F rule starts with. */
  lemma ParseMissingOperand()
    ensures Parse([Token(Number, "2"), Token(Plus, "+"), EofToken]) == Failed(Unexpected(Eof))
  {
    var toks := [Token(Number, "2"), Token(Plus, "+"), EofToken];
    var s0 := State(0, []);
    NumberTerm(toks, Log(s0, EToTEPrime));
    var t := ParseT(toks, Log(s0, EToTEPrime)).value;
    StepE(toks, s0, t);
    var s1 := State(2, t.state.log + [EPrimePlus]);
    assert ParseF(toks, Log(s1, TToFTPrime)) == Failed(Unexpected(Eof));
    assert ParseT(toks, s1) == Failed(Unexpected(Eof));
    assert Match(toks, Log(t.state, EPrimePlus), Plus).value.1 == s1;
    assert ParseEPrime(toks, t.ast, t.state) == Failed(Unexpected(Eof));
  }
}
