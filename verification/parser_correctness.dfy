/**
  What a whole parse guarantees, for token streams as the lexer returns
  them: on success the expression reaches exactly the closing EOF, the log
  is a leftmost derivation of the whole input from E made of grammar
  productions, with one F -> NUMBER per NUMBER token, and the tree keeps
  the operators and operands of the input in order. Printing a tree and
  parsing the result gives the tree back.
 */
module ParserCorrectness {
  import opened Results
  import opened Tokens
  import opened Ast
  import opened Grammar
  import opened GrammarCount
  import opened Parser
  import opened ParserDerivation
  import opened ParserYield
  import opened ParserShape
  import opened ParserLog
  import opened ParserPrint
  import opened ParserCounts
  import opened Lexer
  import opened LexerCorrectness

  /** EOF ends the stream and occurs nowhere else. */
  predicate EofOnlyLast(toks: seq<Token>) {
    ValidStream(toks) && forall q :: 0 <= q < |toks| - 1 ==> toks[q].kind != Eof
  }

  /** Every stream the lexer returns has its only EOF at the end. */
  lemma LexedEofOnlyLast(s: string)
    requires Lex(s).Success?
    ensures EofOnlyLast(Lex(s).value)
  {
    LexCoversInput(s);
  }

  /**
    When a parse succeeds, the expression parsed from the first token has
    stopped on EOF: it has used every token but EOF, and the tree and log
    are those of the expression.
   */
  lemma ParseReachesEof(toks: seq<Token>)
    requires EofOnlyLast(toks) && Parse(toks).Done?
    ensures ParseE(toks, State(0, [])).Done?
    ensures ParseE(toks, State(0, [])).value.state.pos == |toks| - 1
    ensures Parse(toks).value == Analysis(ParseE(toks, State(0, [])).value.ast, ParseE(toks, State(0, [])).value.state.log)
  {
  }

  /** A parse fails when the expression stops before EOF, on the token it stopped at. */
  lemma ParseRejectsTrailing(toks: seq<Token>, e: Parsed)
    requires ValidStream(toks) && ParseE(toks, State(0, [])) == Done(e)
    requires toks[e.state.pos].kind != Eof
    ensures Parse(toks) == Failed(Unexpected(toks[e.state.pos].kind))
  {
  }

  /**
    The log of a successful parse is a leftmost derivation, from E, of the
    terminals of every token but the final EOF, and each of its steps is a
    production of the grammar other than F -> F ^ F and F -> F !.
   */
  lemma ParseDerivesInput(toks: seq<Token>)
    requires EofOnlyLast(toks) && Parse(toks).Done?
    ensures Derive([Variable(E)], Parse(toks).value.derivation) == Some(Terminals(toks[..|toks| - 1]))
    ensures AppliedFrom(Parse(toks).value.derivation, 0)
    ensures forall q :: 0 <= q < |Parse(toks).value.derivation| ==> Parse(toks).value.derivation[q] in Productions
  {
    ParseReachesEof(toks);
    var e := ParseE(toks, State(0, [])).value;
    var st := State(0, []);
    DeriveE(toks, st);
    assert e.state.log[|st.log|..] == e.state.log;
    assert toks[st.pos..e.state.pos] == toks[..|toks| - 1];
    LogE(toks, st);
  }

  /** The log of a successful parse applies F -> NUMBER once per NUMBER token. */
  lemma ParseCountsNumbers(toks: seq<Token>)
    requires EofOnlyLast(toks) && Parse(toks).Done?
    ensures Uses(Parse(toks).value.derivation, FNumber) == CountKind(toks[..|toks| - 1], Number)
  {
    ParseDerivesInput(toks);
    var start := [Variable(E)];
    assert start[0] != Terminal(Number) && start[1..] == [];
    NumberPerToken(start, Parse(toks).value.derivation, toks[..|toks| - 1]);
  }

  /**
    The tree of a successful parse is well formed; its operators, functions
    and numbers, read in order, are the input's tokens without parentheses
    and EOF, and its leaves are the NUMBER lexemes in input order.
   */
  lemma ParseKeepsTokens(toks: seq<Token>)
    requires EofOnlyLast(toks) && Parse(toks).Done?
    ensures Wf(Parse(toks).value.ast)
    ensures Kinds(Parse(toks).value.ast) == Stripped(toks, 0, |toks| - 1)
    ensures Leaves(Parse(toks).value.ast) == Numbers(toks, 0, |toks| - 1)
  {
    ParseReachesEof(toks);
    var e := ParseE(toks, State(0, [])).value;
    WfE(toks, State(0, []));
    KindsE(toks, State(0, []));
    LeavesE(toks, State(0, []));
  }

  /**
    The tree of a successful parse has one leaf per NUMBER token and one
    binary node per + - * / token of the input.
   */
  lemma ParseCountsNodes(toks: seq<Token>)
    requires EofOnlyLast(toks) && Parse(toks).Done?
    ensures |Leaves(Parse(toks).value.ast)| == CountKind(toks[..|toks| - 1], Number)
    ensures BinaryCount(Parse(toks).value.ast) == OperatorTokens(toks[..|toks| - 1])
  {
    ParseKeepsTokens(toks);
    var n := |toks| - 1;
    assert toks[0..n] == toks[..n];
    NumbersCount(toks, 0, n);
    StrippedOperators(toks, 0, n);
    BinaryCountIsOperators(Parse(toks).value.ast);
  }

  /**
    Without parentheses, the tree of a successful parse is a left-nested
    chain of + and - over left-nested chains of * and / over factors: the
    usual precedence, and left associativity within each level.
   */
  lemma ParsePrecedence(toks: seq<Token>)
    requires EofOnlyLast(toks) && Parse(toks).Done?
    requires forall q :: 0 <= q < |toks| ==> toks[q].kind != LParen
    ensures ExprShape(Parse(toks).value.ast)
  {
    ParseReachesEof(toks);
    var e := ParseE(toks, State(0, [])).value;
    ShapeE(toks, State(0, []));
  }

  /** Parsing a printed well-formed tree followed by EOF gives the tree back. */
  lemma ParsePrinted(a: Ast)
    requires Wf(a)
    ensures Parse(Print(a) + [EofToken]).Done?
    ensures Parse(Print(a) + [EofToken]).value.ast == a
  {
    var toks := Print(a) + [EofToken];
    assert toks[0..|Print(a)|] == Print(a);
    var e := PrintParsesExpr(a, toks, State(0, []));
  }
}
