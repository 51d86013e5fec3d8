/**
  The derivation log of a parse that returns holds only grammar
  productions, and never F -> F ^ F or F -> F !: those are chosen only on
  the way into a parse that does not return.
 */
module ParserLog {
  import opened Tokens
  import opened Ast
  import opened Grammar
  import opened GrammarCount
  import opened Parser

  /**
    A log grown by p and then by two runs of applied productions holds
    applied productions from where it stood before p.
   */
  lemma Chain(p: Production, l0: seq<Production>, l1: seq<Production>, l2: seq<Production>, l3: seq<Production>)
    requires p in Applied && l1 == l0 + [p] && l1 <= l2 <= l3
    requires AppliedFrom(l2, |l1|) && AppliedFrom(l3, |l2|)
    ensures AppliedFrom(l3, |l0|)
  {
    forall q | |l0| <= q < |l3|
      ensures l3[q] in Applied
    {
      if q < |l1| {
        assert l3[q] == l1[q] == p;
      } else if q < |l2| {
        assert l3[q] == l2[q];
      }
    }
  }

  /** E: the log appended holds applied productions. */
  lemma {:induction false} LogE(toks: seq<Token>, st: State)
    requires Ready(toks, st) && ParseE(toks, st).Done?
    ensures AppliedFrom(ParseE(toks, st).value.state.log, |st.log|)
    decreases |toks| - st.pos, 2, 0
  {
    var st1 := Log(st, EToTEPrime);
    var t := ParseT(toks, st1).value;
    LogT(toks, st1);
    LogEPrime(toks, t.ast, t.state);
    Chain(EToTEPrime, st.log, st1.log, t.state.log, ParseE(toks, st).value.state.log);
  }

  /** E': the log appended holds applied productions. */
  lemma {:induction false} LogEPrime(toks: seq<Token>, left: Ast, st: State)
    requires Ready(toks, st) && ParseEPrime(toks, left, st).Done?
    ensures AppliedFrom(ParseEPrime(toks, left, st).value.state.log, |st.log|)
    decreases |toks| - st.pos, 0, 0
  {
    var k := CurrentKind(toks, st);
    var st' := ParseEPrime(toks, left, st).value.state;
    if k == Plus || k == Minus {
      var p := if k == Plus then EPrimePlus else EPrimeMinus;
      var st1 := Match(toks, Log(st, p), k).value.1;
      var right := ParseT(toks, st1).value;
      LogT(toks, st1);
      LogEPrime(toks, Node(Literal(k), [left, right.ast]), right.state);
      Chain(p, st.log, st1.log, right.state.log, st'.log);
    } else {
      Chain(EPrimeEmpty, st.log, st'.log, st'.log, st'.log);
    }
  }

  /** T: the log appended holds applied productions. */
  lemma {:induction false} LogT(toks: seq<Token>, st: State)
    requires Ready(toks, st) && ParseT(toks, st).Done?
    ensures AppliedFrom(ParseT(toks, st).value.state.log, |st.log|)
    decreases |toks| - st.pos, 1, 0
  {
    var st1 := Log(st, TToFTPrime);
    var f := ParseF(toks, st1).value;
    LogF(toks, st1);
    LogTPrime(toks, f.ast, f.state);
    Chain(TToFTPrime, st.log, st1.log, f.state.log, ParseT(toks, st).value.state.log);
  }

  /** T': the log appended holds applied productions. */
  lemma {:induction false} LogTPrime(toks: seq<Token>, left: Ast, st: State)
    requires Ready(toks, st) && ParseTPrime(toks, left, st).Done?
    ensures AppliedFrom(ParseTPrime(toks, left, st).value.state.log, |st.log|)
    decreases |toks| - st.pos, 0, 0
  {
    var k := CurrentKind(toks, st);
    var st' := ParseTPrime(toks, left, st).value.state;
    if k == Multiply || k == Divide {
      var p := if k == Multiply then TPrimeTimes else TPrimeDivide;
      var st1 := Match(toks, Log(st, p), k).value.1;
      var right := ParseF(toks, st1).value;
      LogF(toks, st1);
      LogTPrime(toks, Node(Literal(k), [left, right.ast]), right.state);
      Chain(p, st.log, st1.log, right.state.log, st'.log);
    } else {
      Chain(TPrimeEmpty, st.log, st'.log, st'.log, st'.log);
    }
  }

  /** F: the log appended holds applied productions. */
  lemma {:induction false} LogF(toks: seq<Token>, st: State)
    requires Ready(toks, st) && ParseF(toks, st).Done?
    ensures AppliedFrom(ParseF(toks, st).value.state.log, |st.log|)
    decreases |toks| - st.pos, 0, 1
  {
    var k := CurrentKind(toks, st);
    var st' := ParseF(toks, st).value.state;
    if k == LParen {
      var st1 := Match(toks, Log(st, FParen), LParen).value.1;
      LogE(toks, st1);
      Chain(FParen, st.log, st1.log, ParseE(toks, st1).value.state.log, st'.log);
    } else if k == Number {
      Chain(FNumber, st.log, st'.log, st'.log, st'.log);
    } else {
      LogFunction(toks, st);
    }
  }

  /** F -> sin F and F -> cos F: the function case of LogF. */
  lemma {:induction false} LogFunction(toks: seq<Token>, st: State)
    requires Ready(toks, st) && (CurrentKind(toks, st) == Sin || CurrentKind(toks, st) == Cos)
    requires ParseF(toks, st).Done?
    ensures AppliedFrom(ParseF(toks, st).value.state.log, |st.log|)
    decreases |toks| - st.pos, 0, 0
  {
    var k := CurrentKind(toks, st);
    var p := if k == Sin then FSin else FCos;
    var st1 := Match(toks, Log(st, p), k).value.1;
    var st' := ParseF(toks, st).value.state;
    LogF(toks, st1);
    Chain(p, st.log, st1.log, st'.log, st'.log);
  }
}
