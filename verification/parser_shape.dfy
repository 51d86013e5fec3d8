/**
  Precedence and associativity. On input without parentheses the tree of
  E is a left-nested chain of + and - nodes over terms, the tree of T a
  left-nested chain of * and / nodes over factors, and the tree of F a
  number under sin and cos nodes: * and / bind tighter than + and -, and
  operators of one level group to the left.
 */
module ParserShape {
  import opened Tokens
  import opened Ast
  import opened Grammar
  import opened Parser

  /** No opening parenthesis occurs in toks from i on. */
  predicate NoParenFrom(toks: seq<Token>, i: nat) {
    forall q :: i <= q < |toks| ==> toks[q].kind != LParen
  }

  /** E: an expression tree. */
  lemma {:induction false} ShapeE(toks: seq<Token>, st: State)
    requires Ready(toks, st) && ParseE(toks, st).Done? && NoParenFrom(toks, st.pos)
    ensures ExprShape(ParseE(toks, st).value.ast)
    decreases |toks| - st.pos, 2
  {
    var t := ParseT(toks, Log(st, EToTEPrime)).value;
    ShapeT(toks, Log(st, EToTEPrime));
    ShapeWidens(t.ast);
    ShapeEPrime(toks, t.ast, t.state);
  }

  /** E': over an expression, an expression tree. */
  lemma {:induction false} ShapeEPrime(toks: seq<Token>, left: Ast, st: State)
    requires Ready(toks, st) && ParseEPrime(toks, left, st).Done? && NoParenFrom(toks, st.pos)
    requires ExprShape(left)
    ensures ExprShape(ParseEPrime(toks, left, st).value.ast)
    decreases |toks| - st.pos, 0
  {
    var k := CurrentKind(toks, st);
    if k == Plus || k == Minus {
      var st1 := Match(toks, Log(st, if k == Plus then EPrimePlus else EPrimeMinus), k).value.1;
      var right := ParseT(toks, st1).value;
      ShapeT(toks, st1);
      ShapeSteps(k, left, right.ast);
      ShapeEPrime(toks, Node(Literal(k), [left, right.ast]), right.state);
    }
  }

  /** T: a term tree. */
  lemma {:induction false} ShapeT(toks: seq<Token>, st: State)
    requires Ready(toks, st) && ParseT(toks, st).Done? && NoParenFrom(toks, st.pos)
    ensures TermShape(ParseT(toks, st).value.ast)
    decreases |toks| - st.pos, 1
  {
    var f := ParseF(toks, Log(st, TToFTPrime)).value;
    ShapeF(toks, Log(st, TToFTPrime));
    ShapeWidens(f.ast);
    ShapeTPrime(toks, f.ast, f.state);
  }

  /** T': over a term, a term tree. */
  lemma {:induction false} ShapeTPrime(toks: seq<Token>, left: Ast, st: State)
    requires Ready(toks, st) && ParseTPrime(toks, left, st).Done? && NoParenFrom(toks, st.pos)
    requires TermShape(left)
    ensures TermShape(ParseTPrime(toks, left, st).value.ast)
    decreases |toks| - st.pos, 0
  {
    var k := CurrentKind(toks, st);
    if k == Multiply || k == Divide {
      var st1 := Match(toks, Log(st, if k == Multiply then TPrimeTimes else TPrimeDivide), k).value.1;
      var right := ParseF(toks, st1).value;
      ShapeF(toks, st1);
      ShapeSteps(k, left, right.ast);
      ShapeTPrime(toks, Node(Literal(k), [left, right.ast]), right.state);
    }
  }

  /** F: a factor tree. */
  lemma {:induction false} ShapeF(toks: seq<Token>, st: State)
    requires Ready(toks, st) && ParseF(toks, st).Done? && NoParenFrom(toks, st.pos)
    ensures FactorShape(ParseF(toks, st).value.ast)
    decreases |toks| - st.pos, 0
  {
    var k := CurrentKind(toks, st);
    if k == Sin || k == Cos {
      var st1 := Match(toks, Log(st, if k == Sin then FSin else FCos), k).value.1;
      ShapeF(toks, st1);
    }
  }
}
