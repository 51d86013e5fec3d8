/**
  The inverse of the parser: a printer that writes a well-formed tree back
  as tokens, every binary node inside its own parentheses. Parsing what it
  prints gives the tree back, whatever follows on the stream.
 */
module ParserPrint {
  import opened Tokens
  import opened Ast
  import opened Grammar
  import opened Parser

  /** The tokens of a tree: a NUMBER per leaf, sin and cos before their argument, binary nodes parenthesised. */
  function Print(a: Ast): (r: seq<Token>)
    ensures |r| > 0
    decreases a
  {
    if |a.children| == 2 then
      [Token(LParen, "(")] + Print(a.children[0]) + [Token(BinaryKind(a.value), a.value)]
        + Print(a.children[1]) + [Token(RParen, ")")]
    else if |a.children| == 1 then [Token(UnaryKind(a.value), a.value)] + Print(a.children[0])
    else [Token(Number, a.value)]
  }

  /** The tokens x occur in toks starting at i. */
  predicate At(toks: seq<Token>, i: nat, x: seq<Token>) {
    i + |x| <= |toks| && toks[i..i + |x|] == x
  }

  /** Occurrences split along a concatenation. */
  lemma AtSplit(toks: seq<Token>, i: nat, x: seq<Token>, y: seq<Token>)
    requires At(toks, i, x + y)
    ensures At(toks, i, x) && At(toks, i + |x|, y)
  {
    assert toks[i..i + |x|] == (x + y)[..|x|];
    assert toks[i + |x|..i + |x| + |y|] == (x + y)[|x|..];
  }

  /** An occurrence of one token is that token. */
  lemma AtOne(toks: seq<Token>, i: nat, t: Token)
    requires At(toks, i, [t])
    ensures i < |toks| && toks[i] == t
  {
    assert toks[i..i + 1][0] == toks[i];
  }

  /** A printed binary node, its concatenation grouped from the right. */
  lemma PrintBinary(a: Ast, lp: seq<Token>, p0: seq<Token>, op: seq<Token>, p1: seq<Token>, rp: seq<Token>)
    requires |a.children| == 2
    requires lp == [Token(LParen, "(")] && op == [Token(BinaryKind(a.value), a.value)] && rp == [Token(RParen, ")")]
    requires p0 == Print(a.children[0]) && p1 == Print(a.children[1])
    ensures Print(a) == lp + (p0 + (op + (p1 + rp)))
  {
    assert Print(a) == lp + p0 + op + p1 + rp;
  }

  /** Where the parts of a printed binary node sit, for operands printed as n0 and n1 tokens. */
  lemma AtBinary(toks: seq<Token>, i: nat, a: Ast, n0: nat, n1: nat)
    requires |a.children| == 2 && At(toks, i, Print(a))
    requires n0 == |Print(a.children[0])| && n1 == |Print(a.children[1])|
    ensures |Print(a)| == n0 + n1 + 3 && i + n0 + n1 + 3 <= |toks|
    ensures toks[i] == Token(LParen, "(")
    ensures At(toks, i + 1, Print(a.children[0]))
    ensures toks[i + 1 + n0] == Token(BinaryKind(a.value), a.value)
    ensures At(toks, i + 2 + n0, Print(a.children[1]))
    ensures toks[i + 2 + n0 + n1] == Token(RParen, ")")
  {
    var lp := [Token(LParen, "(")];
    var op := [Token(BinaryKind(a.value), a.value)];
    var rp := [Token(RParen, ")")];
    var p0 := Print(a.children[0]);
    var p1 := Print(a.children[1]);
    var r3 := p1 + rp;
    var r2 := op + r3;
    var r1 := p0 + r2;
    PrintBinary(a, lp, p0, op, p1, rp);
    AtSplit(toks, i, lp, r1);
    AtSplit(toks, i + 1, p0, r2);
    AtSplit(toks, i + 1 + n0, op, r3);
    AtSplit(toks, i + 2 + n0, p1, rp);
    AtOne(toks, i, lp[0]);
    AtOne(toks, i + 1 + n0, op[0]);
    AtOne(toks, i + 2 + n0 + n1, rp[0]);
  }

  /** Where the parts of a printed one-child node sit. */
  lemma AtUnary(toks: seq<Token>, i: nat, a: Ast)
    requires |a.children| == 1 && At(toks, i, Print(a))
    ensures && toks[i] == Token(UnaryKind(a.value), a.value)
            && At(toks, i + 1, Print(a.children[0]))
            && |Print(a)| == |Print(a.children[0])| + 1
  {
    var f := [Token(UnaryKind(a.value), a.value)];
    assert Print(a) == f + Print(a.children[0]);
    AtSplit(toks, i, f, Print(a.children[0]));
    AtOne(toks, i, f[0]);
  }

  // ---------------------------------------------------------------------
  // The round trip.
  // ---------------------------------------------------------------------

  /**
    F parses a printed well-formed tree back into that tree and stops right
    after it, whatever follows.
   */
  lemma {:induction false} PrintParsesF(a: Ast, toks: seq<Token>, st: State)
    requires Wf(a) && Ready(toks, st)
    requires At(toks, st.pos, Print(a)) && st.pos + |Print(a)| < |toks|
    ensures ParseF(toks, st).Done?
    ensures ParseF(toks, st).value.ast == a
    ensures ParseF(toks, st).value.state.pos == st.pos + |Print(a)|
    decreases a, 4
  {
    if |a.children| == 2 {
      PrintParsesPair(a, toks, st);
    } else if |a.children| == 1 {
      PrintParsesUnary(a, toks, st);
    } else {
      AtOne(toks, st.pos, Token(Number, a.value));
    }
  }

  /** The binary case of PrintParsesF. */
  lemma {:induction false} PrintParsesPair(a: Ast, toks: seq<Token>, st: State)
    requires Wf(a) && |a.children| == 2 && Ready(toks, st)
    requires At(toks, st.pos, Print(a)) && st.pos + |Print(a)| < |toks|
    ensures ParseF(toks, st).Done?
    ensures ParseF(toks, st).value.ast == a
    ensures ParseF(toks, st).value.state.pos == st.pos + |Print(a)|
    decreases a, 3
  {
    var n0 := |Print(a.children[0])|;
    var n1 := |Print(a.children[1])|;
    AtBinary(toks, st.pos, a, n0, n1);
    var f := PrintParsesBinary(a, toks, n0, n1, st);
  }

  /** The sin and cos case of PrintParsesF. */
  lemma {:induction false} PrintParsesUnary(a: Ast, toks: seq<Token>, st: State)
    requires Wf(a) && |a.children| == 1 && Ready(toks, st)
    requires At(toks, st.pos, Print(a)) && st.pos + |Print(a)| < |toks|
    ensures ParseF(toks, st).Done?
    ensures ParseF(toks, st).value.ast == a
    ensures ParseF(toks, st).value.state.pos == st.pos + |Print(a)|
    decreases a, 3
  {
    var c := a.children[0];
    AtUnary(toks, st.pos, a);
    var k := UnaryKind(a.value);
    PrintParsesF(c, toks, State(st.pos + 1, st.log + [if k == Sin then FSin else FCos]));
  }

  /** The binary case of PrintParsesF: the parenthesised operator node, its parts at their places. */
  lemma {:induction false} PrintParsesBinary(a: Ast, toks: seq<Token>, n0: nat, n1: nat, st: State)
    returns (f: Parsed)
    requires Wf(a) && |a.children| == 2
    requires n0 == |Print(a.children[0])| && n1 == |Print(a.children[1])|
    requires ValidStream(toks) && st.pos + n0 + n1 + 3 < |toks|
    requires toks[st.pos].kind == LParen
    requires At(toks, st.pos + 1, Print(a.children[0]))
    requires toks[st.pos + 1 + n0] == Token(BinaryKind(a.value), a.value)
    requires At(toks, st.pos + 2 + n0, Print(a.children[1]))
    requires toks[st.pos + 2 + n0 + n1].kind == RParen
    ensures ParseF(toks, st) == Done(f)
    ensures f.ast == a && f.state.pos == st.pos + n0 + n1 + 3
    decreases a, 2
  {
    var st1 := State(st.pos + 1, st.log + [FParen]);
    var e := PrintParsesE(a, toks, st.pos, n0, n1, st1);
    StepParen(toks, st, e);
    f := Parsed(a, State(e.state.pos + 1, e.state.log));
  }

  /**
    E, started just inside the parentheses of a printed binary node at i,
    parses the operator node and stops at the closing parenthesis.
   */
  lemma {:induction false} PrintParsesE(a: Ast, toks: seq<Token>, i: nat, n0: nat, n1: nat, st1: State)
    returns (e: Parsed)
    requires Wf(a) && |a.children| == 2
    requires n0 == |Print(a.children[0])| && n1 == |Print(a.children[1])|
    requires ValidStream(toks) && st1.pos == i + 1 && i + n0 + n1 + 3 < |toks|
    requires At(toks, i + 1, Print(a.children[0]))
    requires toks[i + 1 + n0] == Token(BinaryKind(a.value), a.value)
    requires At(toks, i + 2 + n0, Print(a.children[1]))
    requires toks[i + 2 + n0 + n1].kind == RParen
    ensures ParseE(toks, st1) == Done(e)
    ensures e.ast == a && e.state.pos == i + 2 + n0 + n1
    decreases a, 1
  {
    var k := BinaryKind(a.value);
    assert Literal(k) == a.value;
    var sT := Log(st1, EToTEPrime);
    var sF := Log(sT, TToFTPrime);
    PrintParsesF(a.children[0], toks, sF);
    var f0 := ParseF(toks, sF).value;
    StepT(toks, sT, f0);
    if k == Plus || k == Minus {
      e := PrintParsesSum(a, k, toks, i, n0, n1, st1, f0);
    } else {
      e := PrintParsesProduct(a, k, toks, i, n0, n1, st1, f0);
    }
  }

  /** PrintParsesE for + and -: T stops before the operator and E' takes it. */
  lemma {:induction false} PrintParsesSum(a: Ast, k: Kind, toks: seq<Token>, i: nat, n0: nat, n1: nat, st1: State, f0: Parsed)
    returns (e: Parsed)
    requires |a.children| == 2 && Wf(a.children[1]) && (k == Plus || k == Minus) && Literal(k) == a.value
    requires n1 == |Print(a.children[1])|
    requires ValidStream(toks) && st1.pos == i + 1 && i + n0 + n1 + 3 < |toks|
    requires toks[i + 1 + n0].kind == k && toks[i + 2 + n0 + n1].kind == RParen
    requires At(toks, i + 2 + n0, Print(a.children[1]))
    requires f0.ast == a.children[0] && f0.state.pos == i + 1 + n0
    requires ParseT(toks, Log(st1, EToTEPrime)) == ParseTPrime(toks, f0.ast, f0.state)
    ensures ParseE(toks, st1) == Done(e)
    ensures e.ast == a && e.state.pos == i + 2 + n0 + n1
    decreases a, 0
  {
    StopTPrime(toks, f0.ast, f0.state);
    var sT := State(i + 1 + n0, f0.state.log + [TPrimeEmpty]);
    var t := Parsed(f0.ast, sT);
    StepE(toks, st1, t);
    var p := if k == Plus then EPrimePlus else EPrimeMinus;
    var sR := State(i + 2 + n0, sT.log + [p]);
    var r := PrintParsesTerm(a.children[1], toks, sR);
    assert sR == State(sT.pos + 1, sT.log + [p]);
    assert r.state.pos == i + 2 + n0 + n1;
    BinaryParts(a);
    e := SumTail(toks, f0.ast, sT, k, p, r, a);
  }

  /** E' after a left operand: it takes the operator and the printed right operand, then stops. */
  lemma SumTail(toks: seq<Token>, left: Ast, st: State, k: Kind, p: Production, r: Parsed, a: Ast)
    returns (e: Parsed)
    requires Ready(toks, st) && toks[st.pos].kind == k && (k == Plus || k == Minus)
    requires p == if k == Plus then EPrimePlus else EPrimeMinus
    requires ParseT(toks, State(st.pos + 1, st.log + [p])) == Done(r)
    requires a == Node(Literal(k), [left, r.ast])
    requires r.state.pos < |toks| && toks[r.state.pos].kind == RParen
    ensures ParseEPrime(toks, left, st) == Done(e)
    ensures e.ast == a && e.state.pos == r.state.pos
  {
    StepEPrime(toks, left, st, p, r);
    StopEPrime(toks, a, r.state);
    e := Parsed(a, State(r.state.pos, r.state.log + [EPrimeEmpty]));
  }

  /** PrintParsesE for * and /: T' takes the operator and E' ends at once. */
  lemma {:induction false} PrintParsesProduct(a: Ast, k: Kind, toks: seq<Token>, i: nat, n0: nat, n1: nat, st1: State, f0: Parsed)
    returns (e: Parsed)
    requires |a.children| == 2 && Wf(a.children[1]) && (k == Multiply || k == Divide) && Literal(k) == a.value
    requires n1 == |Print(a.children[1])|
    requires ValidStream(toks) && st1.pos == i + 1 && i + n0 + n1 + 3 < |toks|
    requires toks[i + 1 + n0].kind == k && toks[i + 2 + n0 + n1].kind == RParen
    requires At(toks, i + 2 + n0, Print(a.children[1]))
    requires f0.ast == a.children[0] && f0.state.pos == i + 1 + n0
    requires ParseT(toks, Log(st1, EToTEPrime)) == ParseTPrime(toks, f0.ast, f0.state)
    ensures ParseE(toks, st1) == Done(e)
    ensures e.ast == a && e.state.pos == i + 2 + n0 + n1
    decreases a, 0
  {
    var p := if k == Multiply then TPrimeTimes else TPrimeDivide;
    var m := State(i + 2 + n0, f0.state.log + [p]);
    PrintParsesF(a.children[1], toks, m);
    var r := ParseF(toks, m).value;
    BinaryParts(a);
    var t := ProductTail(toks, f0.ast, f0.state, k, p, r, a);
    StepE(toks, st1, t);
    StopEPrime(toks, a, t.state);
    e := Parsed(a, State(t.state.pos, t.state.log + [EPrimeEmpty]));
  }

  /** T' after a left operand: it takes the operator and the printed right operand, then stops. */
  lemma ProductTail(toks: seq<Token>, left: Ast, st: State, k: Kind, p: Production, r: Parsed, a: Ast)
    returns (t: Parsed)
    requires Ready(toks, st) && toks[st.pos].kind == k && (k == Multiply || k == Divide)
    requires p == if k == Multiply then TPrimeTimes else TPrimeDivide
    requires ParseF(toks, State(st.pos + 1, st.log + [p])) == Done(r)
    requires a == Node(Literal(k), [left, r.ast])
    requires r.state.pos < |toks| && toks[r.state.pos].kind == RParen
    ensures ParseTPrime(toks, left, st) == Done(t)
    ensures t.ast == a && t.state.pos == r.state.pos
  {
    StepTPrime(toks, left, st, p, r);
    StopTPrime(toks, a, r.state);
    t := Parsed(a, State(r.state.pos, r.state.log + [TPrimeEmpty]));
  }

  /**
    T parses a printed tree and stops after it, when the token that follows
    is not * or /: the closing parenthesis after the right operand of + or -,
    or the end of the stream.
   */
  lemma {:induction false} PrintParsesTerm(c: Ast, toks: seq<Token>, st: State) returns (r: Parsed)
    requires Wf(c) && Ready(toks, st)
    requires At(toks, st.pos, Print(c)) && st.pos + |Print(c)| < |toks|
    requires toks[st.pos + |Print(c)|].kind != Multiply && toks[st.pos + |Print(c)|].kind != Divide
    ensures ParseT(toks, st) == Done(r)
    ensures r.ast == c && r.state.pos == st.pos + |Print(c)|
    decreases c, 5
  {
    var sF := Log(st, TToFTPrime);
    PrintParsesF(c, toks, sF);
    var f := ParseF(toks, sF).value;
    StepT(toks, st, f);
    assert f.state.pos == st.pos + |Print(c)|;
    StopTPrime(toks, c, f.state);
    r := Parsed(c, State(f.state.pos, f.state.log + [TPrimeEmpty]));
  }

  /** E parses a printed tree and stops after it, when no operator follows. */
  lemma PrintParsesExpr(a: Ast, toks: seq<Token>, st: State) returns (e: Parsed)
    requires Wf(a) && Ready(toks, st)
    requires At(toks, st.pos, Print(a)) && st.pos + |Print(a)| < |toks|
    requires !IsBinaryOp(toks[st.pos + |Print(a)|].kind)
    ensures ParseE(toks, st) == Done(e)
    ensures e.ast == a && e.state.pos == st.pos + |Print(a)|
  {
    var t := PrintParsesTerm(a, toks, State(st.pos, st.log + [EToTEPrime]));
    StepE(toks, st, t);
    StopEPrime(toks, a, t.state);
    e := Parsed(a, State(t.state.pos, t.state.log + [EPrimeEmpty]));
  }
}
