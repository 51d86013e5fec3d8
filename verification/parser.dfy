/**
  The recursive-descent parser: one function per nonterminal, threading the
  position of the current token and the derivation log, as the Parser
  object's index and derivation_steps fields do.

  The two F alternatives that start with F itself (F -> F ^ F and F -> F !)
  are chosen when the current token is ^ or !, and then call the F parser
  again on the very same state: that recursion never ends. It is modelled
  as the outcome Diverges.
 */
module Parser {
  import opened Tokens
  import opened Ast
  import opened Grammar

  /** The two syntax errors: a token of the wrong kind, and a token no rule starts with. */
  datatype ParseError = Expected(expected: Kind, found: Kind) | Unexpected(found: Kind)

  /** How a parsing function ends: with a value, with a syntax error, or never. */
  datatype Outcome<+R> = Done(value: R) | Failed(error: ParseError) | Diverges {
    predicate IsFailure() {
      !Done?
    }

    function PropagateFailure<U>(): Outcome<U>
      requires !Done?
    {
      if Failed? then Failed(error) else Diverges
    }

    function Extract(): R
      requires Done?
    {
      value
    }
  }

  /** The parser's state: the index of the current token and the derivation log so far. */
  datatype State = State(pos: nat, log: seq<Production>)

  /** A tree and the state after it. */
  datatype Parsed = Parsed(ast: Ast, state: State)

  /** What a successful parse returns: the tree and the derivation log. */
  datatype Analysis = Analysis(ast: Ast, derivation: seq<Production>)

  /** A token stream as the lexer produces it: non-empty, ending with EOF. */
  predicate ValidStream(toks: seq<Token>) {
    |toks| > 0 && toks[|toks| - 1].kind == Eof
  }

  /** The parser can run in state st: the stream is valid and the index is on a token. */
  predicate Ready(toks: seq<Token>, st: State) {
    ValidStream(toks) && st.pos < |toks|
  }

  /** The kind of the current token. */
  function CurrentKind(toks: seq<Token>, st: State): Kind
    requires Ready(toks, st)
  {
    toks[st.pos].kind
  }

  /** Appends one production to the log; the index stays. */
  function Log(st: State, p: Production): (r: State)
    ensures r.pos == st.pos && r.log == st.log + [p]
  {
    State(st.pos, st.log + [p])
  }

  /**
    Moves to the next token. The index is then still on a token whenever
    the current one was not EOF, so the source's bounds check always passes.
   */
  function Advance(toks: seq<Token>, st: State): (r: State)
    requires Ready(toks, st) && CurrentKind(toks, st) != Eof
    ensures Ready(toks, r) && r.pos == st.pos + 1 && r.log == st.log
  {
    State(st.pos + 1, st.log)
  }

  /**
    Consumes the current token if it has kind k and returns its text;
    otherwise reports the kind expected and the kind found.
   */
  function Match(toks: seq<Token>, st: State, k: Kind): (r: Outcome<(string, State)>)
    requires Ready(toks, st) && k != Eof
    ensures r.Done? <==> CurrentKind(toks, st) == k
    ensures r.Done? ==> r.value.0 == toks[st.pos].lexeme && r.value.1 == State(st.pos + 1, st.log)
    ensures r.Done? ==> Ready(toks, r.value.1)
    ensures !r.Done? ==> r == Failed(Expected(k, CurrentKind(toks, st)))
  {
    if CurrentKind(toks, st) == k then Done((toks[st.pos].lexeme, Advance(toks, st)))
    else Failed(Expected(k, CurrentKind(toks, st)))
  }

  /** E -> T E' */
  function ParseE(toks: seq<Token>, st: State): (r: Outcome<Parsed>)
    requires Ready(toks, st)
    ensures r.Done? ==> st.pos < r.value.state.pos && Ready(toks, r.value.state)
    ensures r.Done? ==> st.log < r.value.state.log
    decreases |toks| - st.pos, 2
  {
    var t :- ParseT(toks, Log(st, EToTEPrime));
    ParseEPrime(toks, t.ast, t.state)
  }

  /** E' -> + T E' | - T E' | ε, building left-nested nodes over left. */
  function ParseEPrime(toks: seq<Token>, left: Ast, st: State): (r: Outcome<Parsed>)
    requires Ready(toks, st)
    ensures r.Done? ==> st.pos <= r.value.state.pos && Ready(toks, r.value.state)
    ensures r.Done? ==> st.log < r.value.state.log
    decreases |toks| - st.pos, 0
  {
    var k := CurrentKind(toks, st);
    if k == Plus || k == Minus then
      var m := Match(toks, Log(st, if k == Plus then EPrimePlus else EPrimeMinus), k).value;
      var right :- ParseT(toks, m.1);
      ParseEPrime(toks, Node(Literal(k), [left, right.ast]), right.state)
    else
      Done(Parsed(left, Log(st, EPrimeEmpty)))
  }

  /** T -> F T' */
  function ParseT(toks: seq<Token>, st: State): (r: Outcome<Parsed>)
    requires Ready(toks, st)
    ensures r.Done? ==> st.pos < r.value.state.pos && Ready(toks, r.value.state)
    ensures r.Done? ==> st.log < r.value.state.log
    decreases |toks| - st.pos, 1
  {
    var f :- ParseF(toks, Log(st, TToFTPrime));
    ParseTPrime(toks, f.ast, f.state)
  }

  /** T' -> * F T' | / F T' | ε, building left-nested nodes over left. */
  function ParseTPrime(toks: seq<Token>, left: Ast, st: State): (r: Outcome<Parsed>)
    requires Ready(toks, st)
    ensures r.Done? ==> st.pos <= r.value.state.pos && Ready(toks, r.value.state)
    ensures r.Done? ==> st.log < r.value.state.log
    decreases |toks| - st.pos, 0
  {
    var k := CurrentKind(toks, st);
    if k == Multiply || k == Divide then
      var m := Match(toks, Log(st, if k == Multiply then TPrimeTimes else TPrimeDivide), k).value;
      var right :- ParseF(toks, m.1);
      ParseTPrime(toks, Node(Literal(k), [left, right.ast]), right.state)
    else
      Done(Parsed(left, Log(st, TPrimeEmpty)))
  }

  /**
    F -> ( E ) | NUMBER | sin F | cos F | F ^ F | F !, chosen by the current
    token. The last two recurse on the same state and never return.
   */
  function ParseF(toks: seq<Token>, st: State): (r: Outcome<Parsed>)
    requires Ready(toks, st)
    ensures r.Done? ==> st.pos < r.value.state.pos && Ready(toks, r.value.state)
    ensures r.Done? ==> st.log < r.value.state.log
    decreases |toks| - st.pos, 0
  {
    match CurrentKind(toks, st)
    case LParen =>
      var m := Match(toks, Log(st, FParen), LParen).value;
      var e :- ParseE(toks, m.1);
      var c :- Match(toks, e.state, RParen);
      Done(Parsed(e.ast, c.1))
    case Number =>
      var m := Match(toks, Log(st, FNumber), Number).value;
      Done(Parsed(Node(m.0, []), m.1))
    case Sin =>
      var m := Match(toks, Log(st, FSin), Sin).value;
      var c :- ParseF(toks, m.1);
      Done(Parsed(Node("sin", [c.ast]), c.state))
    case Cos =>
      var m := Match(toks, Log(st, FCos), Cos).value;
      var c :- ParseF(toks, m.1);
      Done(Parsed(Node("cos", [c.ast]), c.state))
    case Caret => Diverges
    case Factorial => Diverges
    case k => Failed(Unexpected(k))
  }

  /** Parses a whole token stream: an expression, which must be followed by EOF. */
  function Parse(toks: seq<Token>): (r: Outcome<Analysis>)
    requires ValidStream(toks)
    ensures r.Done? ==> |r.value.derivation| > 0 && r.value.derivation[0] == EToTEPrime
  {
    var e :- ParseE(toks, State(0, []));
    var k := CurrentKind(toks, e.state);
    if k != Eof then Failed(Unexpected(k)) else Done(Analysis(e.ast, e.state.log))
  }

  // ---------------------------------------------------------------------
  // One step of each parsing function, for a known outcome of its callee.
  // ---------------------------------------------------------------------

  /** E -> T E' once T has parsed. */
  lemma StepE(toks: seq<Token>, st: State, t: Parsed)
    requires Ready(toks, st) && ParseT(toks, Log(st, EToTEPrime)) == Done(t)
    ensures ParseE(toks, st) == ParseEPrime(toks, t.ast, t.state)
  {
  }

  /** T -> F T' once F has parsed. */
  lemma StepT(toks: seq<Token>, st: State, f: Parsed)
    requires Ready(toks, st) && ParseF(toks, Log(st, TToFTPrime)) == Done(f)
    ensures ParseT(toks, st) == ParseTPrime(toks, f.ast, f.state)
  {
  }

  /** E' -> ε: any token but + and - ends the chain. */
  lemma StopEPrime(toks: seq<Token>, left: Ast, st: State)
    requires Ready(toks, st) && CurrentKind(toks, st) != Plus && CurrentKind(toks, st) != Minus
    ensures ParseEPrime(toks, left, st) == Done(Parsed(left, State(st.pos, st.log + [EPrimeEmpty])))
  {
  }

  /** T' -> ε: any token but * and / ends the chain. */
  lemma StopTPrime(toks: seq<Token>, left: Ast, st: State)
    requires Ready(toks, st) && CurrentKind(toks, st) != Multiply && CurrentKind(toks, st) != Divide
    ensures ParseTPrime(toks, left, st) == Done(Parsed(left, State(st.pos, st.log + [TPrimeEmpty])))
  {
  }

  /** E' -> + T E' and E' -> - T E' once the T after the operator has parsed. */
  lemma StepEPrime(toks: seq<Token>, left: Ast, st: State, p: Production, right: Parsed)
    requires Ready(toks, st) && (CurrentKind(toks, st) == Plus || CurrentKind(toks, st) == Minus)
    requires p == if CurrentKind(toks, st) == Plus then EPrimePlus else EPrimeMinus
    requires ParseT(toks, State(st.pos + 1, st.log + [p])) == Done(right)
    ensures ParseEPrime(toks, left, st)
         == ParseEPrime(toks, Node(Literal(CurrentKind(toks, st)), [left, right.ast]), right.state)
  {
    assert Match(toks, Log(st, p), CurrentKind(toks, st)).value.1 == State(st.pos + 1, st.log + [p]);
  }

  /** T' -> * F T' and T' -> / F T' once the F after the operator has parsed. */
  lemma StepTPrime(toks: seq<Token>, left: Ast, st: State, p: Production, right: Parsed)
    requires Ready(toks, st) && (CurrentKind(toks, st) == Multiply || CurrentKind(toks, st) == Divide)
    requires p == if CurrentKind(toks, st) == Multiply then TPrimeTimes else TPrimeDivide
    requires ParseF(toks, State(st.pos + 1, st.log + [p])) == Done(right)
    ensures ParseTPrime(toks, left, st)
         == ParseTPrime(toks, Node(Literal(CurrentKind(toks, st)), [left, right.ast]), right.state)
  {
    assert Match(toks, Log(st, p), CurrentKind(toks, st)).value.1 == State(st.pos + 1, st.log + [p]);
  }

  /** F -> ( E ) once E has parsed and a closing parenthesis follows. */
  lemma StepParen(toks: seq<Token>, st: State, e: Parsed)
    requires Ready(toks, st) && CurrentKind(toks, st) == LParen
    requires ParseE(toks, State(st.pos + 1, st.log + [FParen])) == Done(e)
    requires e.state.pos < |toks| && toks[e.state.pos].kind == RParen
    ensures ParseF(toks, st) == Done(Parsed(e.ast, State(e.state.pos + 1, e.state.log)))
  {
    assert Match(toks, Log(st, FParen), LParen).value.1 == State(st.pos + 1, st.log + [FParen]);
    assert Match(toks, e.state, RParen).value.1 == State(e.state.pos + 1, e.state.log);
  }

  /**
    A chain step of E' that returned: the production logged for the
    operator, the T parsed after it, and the rest of the chain over the new
    node.
   */
  lemma UnfoldEPrime(toks: seq<Token>, left: Ast, st: State) returns (p: Production, right: Parsed)
    requires Ready(toks, st) && (CurrentKind(toks, st) == Plus || CurrentKind(toks, st) == Minus)
    requires ParseEPrime(toks, left, st).Done?
    ensures p == if CurrentKind(toks, st) == Plus then EPrimePlus else EPrimeMinus
    ensures ParseT(toks, State(st.pos + 1, st.log + [p])) == Done(right)
    ensures ParseEPrime(toks, left, st)
         == ParseEPrime(toks, Node(Literal(CurrentKind(toks, st)), [left, right.ast]), right.state)
  {
    p := if CurrentKind(toks, st) == Plus then EPrimePlus else EPrimeMinus;
    assert Match(toks, Log(st, p), CurrentKind(toks, st)).value.1 == State(st.pos + 1, st.log + [p]);
    right := ParseT(toks, State(st.pos + 1, st.log + [p])).value;
  }

  /**
    A chain step of T' that returned: the production logged for the
    operator, the F parsed after it, and the rest of the chain over the new
    node.
   */
  lemma UnfoldTPrime(toks: seq<Token>, left: Ast, st: State) returns (p: Production, right: Parsed)
    requires Ready(toks, st) && (CurrentKind(toks, st) == Multiply || CurrentKind(toks, st) == Divide)
    requires ParseTPrime(toks, left, st).Done?
    ensures p == if CurrentKind(toks, st) == Multiply then TPrimeTimes else TPrimeDivide
    ensures ParseF(toks, State(st.pos + 1, st.log + [p])) == Done(right)
    ensures ParseTPrime(toks, left, st)
         == ParseTPrime(toks, Node(Literal(CurrentKind(toks, st)), [left, right.ast]), right.state)
  {
    p := if CurrentKind(toks, st) == Multiply then TPrimeTimes else TPrimeDivide;
    assert Match(toks, Log(st, p), CurrentKind(toks, st)).value.1 == State(st.pos + 1, st.log + [p]);
    right := ParseF(toks, State(st.pos + 1, st.log + [p])).value;
  }
}
