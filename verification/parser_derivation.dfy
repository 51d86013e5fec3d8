/**
  The derivation log is a leftmost derivation: what a parsing function
  appends to the log, applied as leftmost steps to its nonterminal, yields
  exactly the terminals of the tokens it consumed. The log is therefore a
  leftmost derivation of the input in the grammar, one production per step.
 */
module ParserDerivation {
  import opened Results
  import opened Tokens
  import opened Ast
  import opened Grammar
  import opened Parser

  /** What was appended to a log between two of its prefixes splits at the middle one. */
  lemma LogSplit(a: seq<Production>, b: seq<Production>, c: seq<Production>)
    requires a <= b <= c
    ensures c[|a|..] == b[|a|..] + c[|b|..]
  {
  }

  /** A log that starts with p applies p first. */
  lemma DeriveFirst(form: seq<Symbol>, p: Production, rest: seq<Production>, log: seq<Production>)
    requires log == [p] + rest
    ensures Derive(form, log) ==
      match Rewrite(form, p)
      case None => None
      case Some(f) => Derive(f, rest)
  {
    assert log[0] == p && log[1..] == rest;
  }

  /** The tokens from i to k are those from i to j followed by those from j to k. */
  lemma TerminalsSplit(toks: seq<Token>, i: nat, j: nat, k: nat)
    requires i <= j <= k <= |toks|
    ensures Terminals(toks[i..k]) == Terminals(toks[i..j]) + Terminals(toks[j..k])
  {
    assert toks[i..k] == toks[i..j] + toks[j..k];
    TerminalsAppend(toks[i..j], toks[j..k]);
  }

  /**
    Two sub-derivations chained behind production p: p was logged while the
    terminals pre were consumed, then a and b derived the next two runs.
   */
  lemma ChainPair(p: Production, pre: seq<Symbol>, a: NonTerminal, b: NonTerminal,
                  toks: seq<Token>, s0: State, s1: State, s2: State, s3: State)
    requires p.rhs == pre + [Variable(a), Variable(b)] && AllTerminals(pre)
    requires s1.log == s0.log + [p] && s1.log <= s2.log <= s3.log
    requires s0.pos <= s1.pos <= s2.pos <= s3.pos <= |toks|
    requires Terminals(toks[s0.pos..s1.pos]) == pre
    requires Derive([Variable(a)], s2.log[|s1.log|..]) == Some(Terminals(toks[s1.pos..s2.pos]))
    requires Derive([Variable(b)], s3.log[|s2.log|..]) == Some(Terminals(toks[s2.pos..s3.pos]))
    ensures Derive([Variable(p.lhs)], s3.log[|s0.log|..]) == Some(Terminals(toks[s0.pos..s3.pos]))
  {
    var la := s2.log[|s1.log|..];
    var lb := s3.log[|s2.log|..];
    LogSplit(s1.log, s2.log, s3.log);
    assert s3.log[|s0.log|..] == [p] + (la + lb);
    ComposePair(p, pre, a, b, la, lb, Terminals(toks[s1.pos..s2.pos]), Terminals(toks[s2.pos..s3.pos]));
    TerminalsSplit(toks, s0.pos, s1.pos, s2.pos);
    TerminalsSplit(toks, s0.pos, s2.pos, s3.pos);
    assert pre + Terminals(toks[s1.pos..s2.pos]) == Terminals(toks[s0.pos..s2.pos]);
  }

  /**
    One sub-derivation wrapped by production p: p was logged while pre was
    consumed, a derived the next run, then the terminals post were consumed.
   */
  lemma ChainWrap(p: Production, pre: seq<Symbol>, a: NonTerminal, post: seq<Symbol>,
                  toks: seq<Token>, s0: State, s1: State, s2: State, s3: State)
    requires p.rhs == pre + [Variable(a)] + post && AllTerminals(pre)
    requires s1.log == s0.log + [p] && s1.log <= s2.log && s3.log == s2.log
    requires s0.pos <= s1.pos <= s2.pos <= s3.pos <= |toks|
    requires Terminals(toks[s0.pos..s1.pos]) == pre && Terminals(toks[s2.pos..s3.pos]) == post
    requires Derive([Variable(a)], s2.log[|s1.log|..]) == Some(Terminals(toks[s1.pos..s2.pos]))
    ensures Derive([Variable(p.lhs)], s3.log[|s0.log|..]) == Some(Terminals(toks[s0.pos..s3.pos]))
  {
    var la := s2.log[|s1.log|..];
    LogSplit(s0.log, s1.log, s2.log);
    assert s3.log[|s0.log|..] == [p] + la;
    ComposeWrap(p, pre, a, post, la, Terminals(toks[s1.pos..s2.pos]));
    TerminalsSplit(toks, s0.pos, s1.pos, s2.pos);
    TerminalsSplit(toks, s0.pos, s2.pos, s3.pos);
  }

  /** A production logged while exactly its terminals were consumed. */
  lemma ChainLeaf(p: Production, toks: seq<Token>, s0: State, s1: State)
    requires s1.log == s0.log + [p]
    requires s0.pos <= s1.pos <= |toks| && Terminals(toks[s0.pos..s1.pos]) == p.rhs
    ensures Derive([Variable(p.lhs)], s1.log[|s0.log|..]) == Some(Terminals(toks[s0.pos..s1.pos]))
  {
    assert s1.log[|s0.log|..] == [p];
    ComposeLeaf(p);
  }

  /** The terminal of the single token at i. */
  lemma OneTerminal(toks: seq<Token>, i: nat)
    requires i < |toks|
    ensures Terminals(toks[i..i + 1]) == [Terminal(toks[i].kind)]
  {
  }

  /** E: the log appended derives the consumed tokens from E. */
  lemma {:induction false} DeriveE(toks: seq<Token>, st: State)
    requires Ready(toks, st) && ParseE(toks, st).Done?
    ensures var st' := ParseE(toks, st).value.state;
      Derive([Variable(E)], st'.log[|st.log|..]) == Some(Terminals(toks[st.pos..st'.pos]))
    decreases |toks| - st.pos, 2, 0
  {
    var st1 := Log(st, EToTEPrime);
    var t := ParseT(toks, st1).value;
    DeriveT(toks, st1);
    DeriveEPrime(toks, t.ast, t.state);
    ChainPair(EToTEPrime, [], T, EPrime, toks, st, st1, t.state, ParseE(toks, st).value.state);
  }

  /** E': the log appended derives the consumed tokens from E'. */
  lemma {:induction false} DeriveEPrime(toks: seq<Token>, left: Ast, st: State)
    requires Ready(toks, st) && ParseEPrime(toks, left, st).Done?
    ensures var st' := ParseEPrime(toks, left, st).value.state;
      Derive([Variable(EPrime)], st'.log[|st.log|..]) == Some(Terminals(toks[st.pos..st'.pos]))
    decreases |toks| - st.pos, 0, 0
  {
    var k := CurrentKind(toks, st);
    if k == Plus || k == Minus {
      var p := if k == Plus then EPrimePlus else EPrimeMinus;
      var st1 := Match(toks, Log(st, p), k).value.1;
      var right := ParseT(toks, st1).value;
      var node := Node(Literal(k), [left, right.ast]);
      DeriveT(toks, st1);
      DeriveEPrime(toks, node, right.state);
      OneTerminal(toks, st.pos);
      ChainPair(p, [Terminal(k)], T, EPrime, toks, st, st1, right.state, ParseEPrime(toks, left, st).value.state);
    } else {
      ChainLeaf(EPrimeEmpty, toks, st, Log(st, EPrimeEmpty));
    }
  }

  /** T: the log appended derives the consumed tokens from T. */
  lemma {:induction false} DeriveT(toks: seq<Token>, st: State)
    requires Ready(toks, st) && ParseT(toks, st).Done?
    ensures var st' := ParseT(toks, st).value.state;
      Derive([Variable(T)], st'.log[|st.log|..]) == Some(Terminals(toks[st.pos..st'.pos]))
    decreases |toks| - st.pos, 1, 0
  {
    var st1 := Log(st, TToFTPrime);
    var f := ParseF(toks, st1).value;
    DeriveF(toks, st1);
    DeriveTPrime(toks, f.ast, f.state);
    ChainPair(TToFTPrime, [], F, TPrime, toks, st, st1, f.state, ParseT(toks, st).value.state);
  }

  /** T': the log appended derives the consumed tokens from T'. */
  lemma {:induction false} DeriveTPrime(toks: seq<Token>, left: Ast, st: State)
    requires Ready(toks, st) && ParseTPrime(toks, left, st).Done?
    ensures var st' := ParseTPrime(toks, left, st).value.state;
      Derive([Variable(TPrime)], st'.log[|st.log|..]) == Some(Terminals(toks[st.pos..st'.pos]))
    decreases |toks| - st.pos, 0, 0
  {
    var k := CurrentKind(toks, st);
    if k == Multiply || k == Divide {
      var p := if k == Multiply then TPrimeTimes else TPrimeDivide;
      var st1 := Match(toks, Log(st, p), k).value.1;
      var right := ParseF(toks, st1).value;
      var node := Node(Literal(k), [left, right.ast]);
      DeriveF(toks, st1);
      DeriveTPrime(toks, node, right.state);
      OneTerminal(toks, st.pos);
      ChainPair(p, [Terminal(k)], F, TPrime, toks, st, st1, right.state, ParseTPrime(toks, left, st).value.state);
    } else {
      ChainLeaf(TPrimeEmpty, toks, st, Log(st, TPrimeEmpty));
    }
  }

  /** F: the log appended derives the consumed tokens from F. */
  lemma {:induction false} DeriveF(toks: seq<Token>, st: State)
    requires Ready(toks, st) && ParseF(toks, st).Done?
    ensures var st' := ParseF(toks, st).value.state;
      Derive([Variable(F)], st'.log[|st.log|..]) == Some(Terminals(toks[st.pos..st'.pos]))
    decreases |toks| - st.pos, 0, 1
  {
    var k := CurrentKind(toks, st);
    if k == LParen {
      DeriveParen(toks, st);
    } else if k == Number {
      OneTerminal(toks, st.pos);
      ChainLeaf(FNumber, toks, st, ParseF(toks, st).value.state);
    } else {
      DeriveFunction(toks, st);
    }
  }

  /** F -> ( E ): the parenthesised case of DeriveF. */
  lemma {:induction false} DeriveParen(toks: seq<Token>, st: State)
    requires Ready(toks, st) && CurrentKind(toks, st) == LParen && ParseF(toks, st).Done?
    ensures var st' := ParseF(toks, st).value.state;
      Derive([Variable(F)], st'.log[|st.log|..]) == Some(Terminals(toks[st.pos..st'.pos]))
    decreases |toks| - st.pos, 0, 0
  {
    var st1 := Match(toks, Log(st, FParen), LParen).value.1;
    var st2 := ParseE(toks, st1).value.state;
    DeriveE(toks, st1);
    OneTerminal(toks, st.pos);
    OneTerminal(toks, st2.pos);
    ChainWrap(FParen, [Terminal(LParen)], E, [Terminal(RParen)], toks, st, st1, st2, ParseF(toks, st).value.state);
  }

  /** F -> sin F and F -> cos F: the function case of DeriveF. */
  lemma {:induction false} DeriveFunction(toks: seq<Token>, st: State)
    requires Ready(toks, st) && (CurrentKind(toks, st) == Sin || CurrentKind(toks, st) == Cos)
    requires ParseF(toks, st).Done?
    ensures var st' := ParseF(toks, st).value.state;
      Derive([Variable(F)], st'.log[|st.log|..]) == Some(Terminals(toks[st.pos..st'.pos]))
    decreases |toks| - st.pos, 0, 0
  {
    var k := CurrentKind(toks, st);
    var p := if k == Sin then FSin else FCos;
    var st1 := Match(toks, Log(st, p), k).value.1;
    var st' := ParseF(toks, st).value.state;
    DeriveF(toks, st1);
    OneTerminal(toks, st.pos);
    ChainWrap(p, [Terminal(k)], F, [], toks, st, st1, st', st');
  }
}
