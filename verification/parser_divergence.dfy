/**
  Where the parser diverges. F chooses F -> F ^ F or F -> F ! when its
  current token is ^ or !, and the F parser it then calls sits on that
  same token again, forever. A parse that never ends has therefore reached
  an F whose current token is ^ or !: on input without those tokens every
  parsing function returns a tree or a syntax error.
 */
module ParserDivergence {
  import opened Tokens
  import opened Ast
  import opened Grammar
  import opened Parser

  /** An F started on ^ or ! diverges. */
  lemma DivergesAtPostfix(toks: seq<Token>, st: State)
    requires Ready(toks, st) && IsPostfix(CurrentKind(toks, st))
    ensures ParseF(toks, st).Diverges?
  {
  }

  /** E: a divergence is caused by a ^ or ! at or after the start. */
  lemma {:induction false} DivergesE(toks: seq<Token>, st: State) returns (q: nat)
    requires Ready(toks, st) && ParseE(toks, st).Diverges?
    ensures st.pos <= q < |toks| && IsPostfix(toks[q].kind)
    decreases |toks| - st.pos, 2, 0
  {
    var st1 := Log(st, EToTEPrime);
    match ParseT(toks, st1)
    case Done(t) =>
      q := DivergesEPrime(toks, t.ast, t.state);
    case Failed(_) =>
      assert false;
    case Diverges =>
      q := DivergesT(toks, st1);
  }

  /** E': a divergence is caused by a ^ or ! at or after the start. */
  lemma {:induction false} DivergesEPrime(toks: seq<Token>, left: Ast, st: State) returns (q: nat)
    requires Ready(toks, st) && ParseEPrime(toks, left, st).Diverges?
    ensures st.pos <= q < |toks| && IsPostfix(toks[q].kind)
    decreases |toks| - st.pos, 0, 0
  {
    var k := CurrentKind(toks, st);
    if k == Plus || k == Minus {
      var st1 := Match(toks, Log(st, if k == Plus then EPrimePlus else EPrimeMinus), k).value.1;
      match ParseT(toks, st1)
      case Done(right) =>
        q := DivergesEPrime(toks, Node(Literal(k), [left, right.ast]), right.state);
      case Failed(_) =>
        assert false;
      case Diverges =>
        q := DivergesT(toks, st1);
    } else {
      assert false;
    }
  }

  /** T: a divergence is caused by a ^ or ! at or after the start. */
  lemma {:induction false} DivergesT(toks: seq<Token>, st: State) returns (q: nat)
    requires Ready(toks, st) && ParseT(toks, st).Diverges?
    ensures st.pos <= q < |toks| && IsPostfix(toks[q].kind)
    decreases |toks| - st.pos, 1, 0
  {
    var st1 := Log(st, TToFTPrime);
    match ParseF(toks, st1)
    case Done(f) =>
      q := DivergesTPrime(toks, f.ast, f.state);
    case Failed(_) =>
      assert false;
    case Diverges =>
      q := DivergesF(toks, st1);
  }

  /** T': a divergence is caused by a ^ or ! at or after the start. */
  lemma {:induction false} DivergesTPrime(toks: seq<Token>, left: Ast, st: State) returns (q: nat)
    requires Ready(toks, st) && ParseTPrime(toks, left, st).Diverges?
    ensures st.pos <= q < |toks| && IsPostfix(toks[q].kind)
    decreases |toks| - st.pos, 0, 0
  {
    var k := CurrentKind(toks, st);
    if k == Multiply || k == Divide {
      var st1 := Match(toks, Log(st, if k == Multiply then TPrimeTimes else TPrimeDivide), k).value.1;
      match ParseF(toks, st1)
      case Done(right) =>
        q := DivergesTPrime(toks, Node(Literal(k), [left, right.ast]), right.state);
      case Failed(_) =>
        assert false;
      case Diverges =>
        q := DivergesF(toks, st1);
    } else {
      assert false;
    }
  }

  /** F: a divergence is caused by a ^ or ! at or after the start. */
  lemma {:induction false} DivergesF(toks: seq<Token>, st: State) returns (q: nat)
    requires Ready(toks, st) && ParseF(toks, st).Diverges?
    ensures st.pos <= q < |toks| && IsPostfix(toks[q].kind)
    decreases |toks| - st.pos, 0, 1
  {
    var k := CurrentKind(toks, st);
    if k == LParen {
      var st1 := Match(toks, Log(st, FParen), LParen).value.1;
      match ParseE(toks, st1)
      case Done(e) =>
        assert false;
      case Failed(_) =>
        assert false;
      case Diverges =>
        q := DivergesE(toks, st1);
    } else if k == Sin || k == Cos {
      var st1 := Match(toks, Log(st, if k == Sin then FSin else FCos), k).value.1;
      match ParseF(toks, st1)
      case Done(c) =>
        assert false;
      case Failed(_) =>
        assert false;
      case Diverges =>
        q := DivergesF(toks, st1);
    } else {
      q := st.pos;
    }
  }

  /** A whole parse diverges only on a stream holding ^ or !. */
  lemma DivergesParse(toks: seq<Token>) returns (q: nat)
    requires ValidStream(toks) && Parse(toks).Diverges?
    ensures q < |toks| && IsPostfix(toks[q].kind)
  {
    match ParseE(toks, State(0, []))
    case Done(e) =>
      assert false;
    case Failed(_) =>
      assert false;
    case Diverges =>
      q := DivergesE(toks, State(0, []));
  }

  /** Without ^ and !, every parse ends, with a tree or a syntax error. */
  lemma ParseEnds(toks: seq<Token>)
    requires ValidStream(toks) && forall q :: 0 <= q < |toks| ==> !IsPostfix(toks[q].kind)
    ensures !Parse(toks).Diverges?
  {
    if Parse(toks).Diverges? {
      var q := DivergesParse(toks);
    }
  }
}
