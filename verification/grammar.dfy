/**
  The expression grammar the parser follows, its productions as they are
  named in the derivation log, and leftmost derivations: the reference the
  parser's log is checked against.
 */
module Grammar {
  import opened Results
  import opened Tokens

  /** The nonterminals E, E', T, T' and F. */
  datatype NonTerminal = E | EPrime | T | TPrime | F

  /** A grammar symbol: a token kind or a nonterminal. */
  datatype Symbol = Terminal(kind: Kind) | Variable(name: NonTerminal)

  /** A production: a nonterminal and the symbols it is rewritten to. */
  datatype Production = Production(lhs: NonTerminal, rhs: seq<Symbol>)

  const EToTEPrime: Production := Production(E, [Variable(T), Variable(EPrime)])
  const EPrimePlus: Production := Production(EPrime, [Terminal(Plus), Variable(T), Variable(EPrime)])
  const EPrimeMinus: Production := Production(EPrime, [Terminal(Minus), Variable(T), Variable(EPrime)])
  const EPrimeEmpty: Production := Production(EPrime, [])
  const TToFTPrime: Production := Production(T, [Variable(F), Variable(TPrime)])
  const TPrimeTimes: Production := Production(TPrime, [Terminal(Multiply), Variable(F), Variable(TPrime)])
  const TPrimeDivide: Production := Production(TPrime, [Terminal(Divide), Variable(F), Variable(TPrime)])
  const TPrimeEmpty: Production := Production(TPrime, [])
  const FParen: Production := Production(F, [Terminal(LParen), Variable(E), Terminal(RParen)])
  const FNumber: Production := Production(F, [Terminal(Number)])
  const FSin: Production := Production(F, [Terminal(Sin), Variable(F)])
  const FCos: Production := Production(F, [Terminal(Cos), Variable(F)])
  const FPower: Production := Production(F, [Variable(F), Terminal(Caret), Variable(F)])
  const FFactorial: Production := Production(F, [Variable(F), Terminal(Factorial)])

  /** The grammar table: every production, grouped by nonterminal. */
  const Productions: seq<Production> := [
    EToTEPrime,
    EPrimePlus, EPrimeMinus, EPrimeEmpty,
    TToFTPrime,
    TPrimeTimes, TPrimeDivide, TPrimeEmpty,
    FParen, FNumber, FSin, FCos, FPower, FFactorial
  ]

  /** How a nonterminal is written in the log. */
  function NonTerminalName(n: NonTerminal): string {
    match n
    case E => "E"
    case EPrime => "E'"
    case T => "T"
    case TPrime => "T'"
    case F => "F"
  }

  /** How a symbol is written in the log: NUMBER by name, other tokens by their text. */
  function SymbolName(x: Symbol): string {
    match x
    case Variable(n) => NonTerminalName(n)
    case Terminal(k) => if k == Number then "NUMBER" else if k == Eof then "EOF" else Literal(k)
  }

  /** The symbols of a right-hand side, separated by single spaces. */
  function JoinSymbols(xs: seq<Symbol>): string
    decreases |xs|
  {
    if xs == [] then ""
    else if |xs| == 1 then SymbolName(xs[0])
    else SymbolName(xs[0]) + " " + JoinSymbols(xs[1..])
  }

  /** The log line of a production: "lhs -> rhs", with ε for the empty right-hand side. */
  function Label(p: Production): string {
    NonTerminalName(p.lhs) + " -> " + (if p.rhs == [] then "ε" else JoinSymbols(p.rhs))
  }

  /** The log lines of a sequence of productions. */
  function Labels(ps: seq<Production>): (r: seq<string>)
    ensures |r| == |ps|
    ensures forall q :: 0 <= q < |ps| ==> r[q] == Label(ps[q])
  {
    if ps == [] then [] else [Label(ps[0])] + Labels(ps[1..])
  }

  /** A right-hand side of two symbols, written out. */
  lemma JoinPair(x: Symbol, y: Symbol)
    ensures JoinSymbols([x, y]) == SymbolName(x) + " " + SymbolName(y)
  {
    assert [x, y][1..] == [y];
  }

  /** A right-hand side of three symbols, written out. */
  lemma JoinTriple(x: Symbol, y: Symbol, z: Symbol)
    ensures JoinSymbols([x, y, z]) == SymbolName(x) + " " + (SymbolName(y) + " " + SymbolName(z))
  {
    assert [x, y, z][1..] == [y, z];
    JoinPair(y, z);
  }

  /** The log lines of E and E' are the parser's own strings. */
  lemma LabelsOfE()
    ensures Label(EToTEPrime) == "E -> T E'"
    ensures Label(EPrimePlus) == "E' -> + T E'" && Label(EPrimeMinus) == "E' -> - T E'"
    ensures Label(EPrimeEmpty) == "E' -> ε"
  {
    JoinPair(Variable(T), Variable(EPrime));
    JoinTriple(Terminal(Plus), Variable(T), Variable(EPrime));
    JoinTriple(Terminal(Minus), Variable(T), Variable(EPrime));
  }

  /** The log lines of T and T' are the parser's own strings. */
  lemma LabelsOfT()
    ensures Label(TToFTPrime) == "T -> F T'"
    ensures Label(TPrimeTimes) == "T' -> * F T'" && Label(TPrimeDivide) == "T' -> / F T'"
    ensures Label(TPrimeEmpty) == "T' -> ε"
  {
    JoinPair(Variable(F), Variable(TPrime));
    JoinTriple(Terminal(Multiply), Variable(F), Variable(TPrime));
    JoinTriple(Terminal(Divide), Variable(F), Variable(TPrime));
  }

  /** The log lines of the F productions that start with a token are the parser's own strings. */
  lemma LabelsOfF()
    ensures Label(FParen) == "F -> ( E )" && Label(FNumber) == "F -> NUMBER"
    ensures Label(FSin) == "F -> sin F" && Label(FCos) == "F -> cos F"
  {
    JoinTriple(Terminal(LParen), Variable(E), Terminal(RParen));
    JoinPair(Terminal(Sin), Variable(F));
    JoinPair(Terminal(Cos), Variable(F));
  }

  /** The log lines of the F productions that start with F are the parser's own strings. */
  lemma LabelsOfPostfix()
    ensures Label(FPower) == "F -> F ^ F" && Label(FFactorial) == "F -> F !"
  {
    JoinTriple(Variable(F), Terminal(Caret), Variable(F));
    JoinPair(Variable(F), Terminal(Factorial));
  }

  // ---------------------------------------------------------------------
  // Leftmost derivations.
  // ---------------------------------------------------------------------

  /** Every symbol of the form is a terminal. */
  predicate AllTerminals(form: seq<Symbol>) {
    forall q :: 0 <= q < |form| ==> form[q].Terminal?
  }

  /**
    One leftmost step: the leftmost nonterminal of the form, which must be
    the left-hand side of p, is replaced by p's right-hand side.
   */
  function Rewrite(form: seq<Symbol>, p: Production): (r: Option<seq<Symbol>>)
    decreases |form|
  {
    if form == [] then None
    else if form[0].Terminal? then
      match Rewrite(form[1..], p)
      case None => None
      case Some(f) => Some([form[0]] + f)
    else if form[0].name == p.lhs then Some(p.rhs + form[1..])
    else None
  }

  /** The form reached by applying the productions of log as leftmost steps, in order. */
  function Derive(form: seq<Symbol>, log: seq<Production>): Option<seq<Symbol>>
    decreases |log|
  {
    if log == [] then Some(form)
    else
      match Rewrite(form, log[0])
      case None => None
      case Some(f) => Derive(f, log[1..])
  }

  /** The terminals a token sequence spells. */
  function Terminals(toks: seq<Token>): (r: seq<Symbol>)
    ensures |r| == |toks| && AllTerminals(r)
    ensures forall q :: 0 <= q < |toks| ==> r[q] == Terminal(toks[q].kind)
  {
    if toks == [] then [] else [Terminal(toks[0].kind)] + Terminals(toks[1..])
  }

  /** A leftmost step inside a form is unaffected by what follows the form. */
  lemma {:induction false} RewriteBefore(form: seq<Symbol>, v: seq<Symbol>, p: Production)
    requires Rewrite(form, p).Some?
    ensures Rewrite(form + v, p) == Some(Rewrite(form, p).value + v)
    decreases |form|
  {
    assert (form + v)[0] == form[0];
    if form[0].Terminal? {
      RewriteBefore(form[1..], v, p);
      assert (form + v)[1..] == form[1..] + v;
      assert [form[0]] + (Rewrite(form[1..], p).value + v) == [form[0]] + Rewrite(form[1..], p).value + v;
    } else {
      assert (form + v)[1..] == form[1..] + v;
      assert p.rhs + (form[1..] + v) == p.rhs + form[1..] + v;
    }
  }

  /** A leftmost step inside a form is unaffected by terminals before the form. */
  lemma {:induction false} RewriteAfter(u: seq<Symbol>, form: seq<Symbol>, p: Production)
    requires AllTerminals(u) && Rewrite(form, p).Some?
    ensures Rewrite(u + form, p) == Some(u + Rewrite(form, p).value)
    decreases |u|
  {
    if u == [] {
      assert u + form == form;
      assert u + Rewrite(form, p).value == Rewrite(form, p).value;
    } else {
      RewriteAfter(u[1..], form, p);
      assert (u + form)[0] == u[0] && (u + form)[1..] == u[1..] + form;
      assert [u[0]] + (u[1..] + Rewrite(form, p).value) == u + Rewrite(form, p).value;
    }
  }

  /** A derivation carries over into any context with only terminals before it. */
  lemma {:induction false} DeriveInContext(u: seq<Symbol>, form: seq<Symbol>, v: seq<Symbol>, log: seq<Production>)
    requires AllTerminals(u) && Derive(form, log).Some?
    ensures Derive(u + form + v, log) == Some(u + Derive(form, log).value + v)
    decreases |log|
  {
    if log != [] {
      var f := Rewrite(form, log[0]).value;
      RewriteBefore(form, v, log[0]);
      RewriteAfter(u, form + v, log[0]);
      assert u + (form + v) == u + form + v;
      assert u + (f + v) == u + f + v;
      DeriveInContext(u, f, v, log[1..]);
    }
  }

  /** Applying two logs one after the other is applying their concatenation. */
  lemma {:induction false} DeriveAppend(form: seq<Symbol>, l1: seq<Production>, l2: seq<Production>)
    ensures Derive(form, l1 + l2) ==
      match Derive(form, l1)
      case None => None
      case Some(f) => Derive(f, l2)
    decreases |l1|
  {
    if l1 != [] {
      assert (l1 + l2)[0] == l1[0];
      assert (l1 + l2)[1..] == l1[1..] + l2;
      match Rewrite(form, l1[0])
      case None =>
      case Some(f) => DeriveAppend(f, l1[1..], l2);
    } else {
      assert l1 + l2 == l2;
    }
  }

  /**
    A production whose right-hand side is terminals followed by two
    nonterminals derives, after derivations of those two, the terminals
    followed by what they derived.
   */
  lemma ComposePair(p: Production, pre: seq<Symbol>, a: NonTerminal, b: NonTerminal,
                    la: seq<Production>, lb: seq<Production>, wa: seq<Symbol>, wb: seq<Symbol>)
    requires p.rhs == pre + [Variable(a), Variable(b)] && AllTerminals(pre) && AllTerminals(wa)
    requires Derive([Variable(a)], la) == Some(wa) && Derive([Variable(b)], lb) == Some(wb)
    ensures Derive([Variable(p.lhs)], [p] + (la + lb)) == Some(pre + wa + wb)
  {
    var log := [p] + (la + lb);
    var start := [Variable(p.lhs)];
    assert log[0] == p && log[1..] == la + lb;
    assert start[0].name == p.lhs && start[1..] == [] && p.rhs + start[1..] == p.rhs;
    assert Rewrite(start, p) == Some(p.rhs);
    assert Derive(start, log) == Derive(p.rhs, la + lb);
    DeriveAppend(p.rhs, la, lb);
    DeriveInContext(pre, [Variable(a)], [Variable(b)], la);
    assert pre + [Variable(a)] + [Variable(b)] == p.rhs;
    DeriveInContext(pre + wa, [Variable(b)], [], lb);
    assert AllTerminals(pre + wa);
    assert pre + wa + [Variable(b)] + [] == pre + wa + [Variable(b)];
    assert pre + wa + wb + [] == pre + wa + wb;
  }

  /**
    A production whose right-hand side is one nonterminal between terminals
    derives, after a derivation of that nonterminal, the terminals around
    what it derived.
   */
  lemma ComposeWrap(p: Production, pre: seq<Symbol>, a: NonTerminal, post: seq<Symbol>,
                    la: seq<Production>, wa: seq<Symbol>)
    requires p.rhs == pre + [Variable(a)] + post && AllTerminals(pre)
    requires Derive([Variable(a)], la) == Some(wa)
    ensures Derive([Variable(p.lhs)], [p] + la) == Some(pre + wa + post)
  {
    var log := [p] + la;
    var start := [Variable(p.lhs)];
    assert log[0] == p && log[1..] == la;
    assert start[0].name == p.lhs && start[1..] == [] && p.rhs + start[1..] == p.rhs;
    assert Rewrite(start, p) == Some(p.rhs);
    DeriveInContext(pre, [Variable(a)], post, la);
  }

  /** A production with no nonterminal on its right derives its right-hand side in one step. */
  lemma ComposeLeaf(p: Production)
    ensures Derive([Variable(p.lhs)], [p]) == Some(p.rhs)
  {
    var start := [Variable(p.lhs)];
    assert [p][0] == p && [p][1..] == [];
    assert start[0].name == p.lhs && start[1..] == [] && p.rhs + start[1..] == p.rhs;
    assert Rewrite(start, p) == Some(p.rhs);
  }

  /** The terminals of adjacent token runs are the terminals of the joined run. */
  lemma TerminalsAppend(a: seq<Token>, b: seq<Token>)
    ensures Terminals(a + b) == Terminals(a) + Terminals(b)
  {
    assert |Terminals(a + b)| == |Terminals(a) + Terminals(b)|;
    forall q | 0 <= q < |a + b|
      ensures Terminals(a + b)[q] == (Terminals(a) + Terminals(b))[q]
    {
      if q >= |a| {
        assert (a + b)[q] == b[q - |a|];
      }
    }
  }
}
