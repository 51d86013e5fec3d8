/**
  What the parser's tree stands for. Read in order, it spells the kinds of
  the tokens the parser consumed with the parentheses dropped (they are
  implicit in the tree's structure), its leaves are the consumed NUMBER
  lexemes in order, and it is well formed.
 */
module ParserYield {
  import opened Tokens
  import opened Ast
  import opened Grammar
  import opened Parser

  // ---------------------------------------------------------------------
  // Per-token images of a token range.
  // ---------------------------------------------------------------------

  /** The images under f of the tokens toks[i..j], concatenated in order. */
  function Collect<T>(f: Token -> seq<T>, toks: seq<Token>, i: nat, j: nat): seq<T>
    requires i <= j <= |toks|
    decreases j - i
  {
    if i == j then [] else f(toks[i]) + Collect(f, toks, i + 1, j)
  }

  /** The kind of a token, or nothing for a parenthesis. */
  function StrippedOne(t: Token): seq<Kind> {
    if IsParen(t.kind) then [] else [t.kind]
  }

  /** The lexeme of a NUMBER token, or nothing for any other token. */
  function NumbersOne(t: Token): seq<string> {
    if t.kind == Number then [t.lexeme] else []
  }

  /** The kinds of the tokens toks[i..j], parentheses dropped. */
  function Stripped(toks: seq<Token>, i: nat, j: nat): seq<Kind>
    requires i <= j <= |toks|
  {
    Collect(StrippedOne, toks, i, j)
  }

  /** The lexemes of the NUMBER tokens among toks[i..j], in order. */
  function Numbers(toks: seq<Token>, i: nat, j: nat): seq<string>
    requires i <= j <= |toks|
  {
    Collect(NumbersOne, toks, i, j)
  }

  /** Collect over a range is Collect over its two halves. */
  lemma {:induction false} CollectSplit<T>(f: Token -> seq<T>, toks: seq<Token>, i: nat, j: nat, k: nat)
    requires i <= j <= k <= |toks|
    ensures Collect(f, toks, i, k) == Collect(f, toks, i, j) + Collect(f, toks, j, k)
    decreases j - i
  {
    if i == j {
      assert [] + Collect(f, toks, j, k) == Collect(f, toks, j, k);
    } else {
      CollectSplit(f, toks, i + 1, j, k);
      var h := f(toks[i]);
      var x := Collect(f, toks, i + 1, j);
      var y := Collect(f, toks, j, k);
      assert Collect(f, toks, i, k) == h + (x + y);
      assert Collect(f, toks, i, j) == h + x;
      assert h + (x + y) == h + x + y;
    }
  }

  /** Collect over one token is that token's image. */
  lemma CollectOne<T>(f: Token -> seq<T>, toks: seq<Token>, i: nat)
    requires i < |toks|
    ensures Collect(f, toks, i, i + 1) == f(toks[i])
  {
    assert f(toks[i]) + [] == f(toks[i]);
  }

  /** Collect over an empty range adds nothing. */
  lemma CollectNothing<T>(f: Token -> seq<T>, toks: seq<Token>, i: nat, l: seq<T>)
    requires i <= |toks|
    ensures l + Collect(f, toks, i, i) == l
  {
    assert l + [] == l;
  }

  /**
    A sequence x for toks[i..j], extended by an image y for toks[j..k],
    is the image of toks[i..k].
   */
  lemma CollectThen<T>(f: Token -> seq<T>, toks: seq<Token>, i: nat, j: nat, k: nat, x: seq<T>, y: seq<T>)
    requires i <= j <= k <= |toks|
    requires x == Collect(f, toks, i, j) && y == x + Collect(f, toks, j, k)
    ensures y == Collect(f, toks, i, k)
  {
    CollectSplit(f, toks, i, j, k);
  }

  /**
    A binary node n over l and the image r of toks[i + 1..j], with the
    operator token at i in between, extended by the image of toks[j..k],
    is l followed by the image of toks[i..k].
   */
  lemma CollectBinary<T>(f: Token -> seq<T>, toks: seq<Token>, i: nat, j: nat, k: nat,
                         l: seq<T>, r: seq<T>, n: seq<T>, a: seq<T>)
    requires i < j <= k <= |toks|
    requires r == Collect(f, toks, i + 1, j) && n == l + f(toks[i]) + r && a == n + Collect(f, toks, j, k)
    ensures a == l + Collect(f, toks, i, k)
  {
    CollectSplit(f, toks, i, j, k);
    var o := f(toks[i]);
    var c := Collect(f, toks, j, k);
    assert Collect(f, toks, i, j) == o + r;
    assert a == l + o + r + c;
    assert Collect(f, toks, i, k) == o + r + c;
    assert l + o + r + c == l + (o + r + c);
  }

  /** Tokens at i and j with no image add nothing around toks[i + 1..j]. */
  lemma CollectParen<T>(f: Token -> seq<T>, toks: seq<Token>, i: nat, j: nat)
    requires i < j < |toks| && f(toks[i]) == [] && f(toks[j]) == []
    ensures Collect(f, toks, i, j + 1) == Collect(f, toks, i + 1, j)
  {
    CollectSplit(f, toks, i + 1, j, j + 1);
    CollectOne(f, toks, j);
    var c := Collect(f, toks, i + 1, j);
    assert c + [] == c;
    assert Collect(f, toks, i, j + 1) == [] + Collect(f, toks, i + 1, j + 1);
    assert [] + c == c;
  }

  /**
    The tokens of a binary step: the operator token of kind k at i, then the
    operand's tokens up to j, then the rest of the chain up to m. A node
    spelling kl, k and the operand's kinds kr, extended by the kinds of the
    rest, spells kl followed by the kinds of all of them.
   */
  lemma KindsBinary(toks: seq<Token>, i: nat, j: nat, m: nat, k: Kind, kl: seq<Kind>, kr: seq<Kind>, kn: seq<Kind>, result: seq<Kind>)
    requires i < j <= m <= |toks| && toks[i].kind == k && IsBinaryOp(k)
    requires kr == Stripped(toks, i + 1, j) && kn == kl + [k] + kr
    requires result == kn + Stripped(toks, j, m)
    ensures result == kl + Stripped(toks, i, m)
  {
    assert StrippedOne(toks[i]) == [k];
    CollectBinary(StrippedOne, toks, i, j, m, kl, kr, kn, result);
  }

  /** The leaves of a binary step: those of left, then the NUMBER lexemes of toks[i..m]. */
  lemma LeavesBinary(toks: seq<Token>, i: nat, j: nat, m: nat, k: Kind, left: Ast, right: Ast, result: Ast)
    requires i < j <= m <= |toks| && toks[i].kind == k && IsBinaryOp(k)
    requires Leaves(right) == Numbers(toks, i + 1, j)
    requires Leaves(result) == Leaves(Node(Literal(k), [left, right])) + Numbers(toks, j, m)
    ensures Leaves(result) == Leaves(left) + Numbers(toks, i, m)
  {
    BinaryLeaves(Literal(k), left, right);
    assert NumbersOne(toks[i]) == [];
    CollectBinary(NumbersOne, toks, i, j, m, Leaves(left), Leaves(right), Leaves(Node(Literal(k), [left, right])), Leaves(result));
  }

  // ---------------------------------------------------------------------
  // The tree spells the kinds consumed.
  // ---------------------------------------------------------------------

  /** E: the tree spells the kinds consumed. */
  lemma {:induction false} KindsE(toks: seq<Token>, st: State)
    requires Ready(toks, st) && ParseE(toks, st).Done?
    ensures var r := ParseE(toks, st).value; Kinds(r.ast) == Stripped(toks, st.pos, r.state.pos)
    decreases |toks| - st.pos, 2, 0
  {
    var t := ParseT(toks, Log(st, EToTEPrime)).value;
    var r := ParseE(toks, st).value;
    KindsT(toks, Log(st, EToTEPrime));
    KindsEPrime(toks, t.ast, t.state);
    CollectThen(StrippedOne, toks, st.pos, t.state.pos, r.state.pos, Kinds(t.ast), Kinds(r.ast));
  }

  /** E': the tree spells left followed by the kinds consumed. */
  lemma {:induction false} KindsEPrime(toks: seq<Token>, left: Ast, st: State)
    requires Ready(toks, st) && ParseEPrime(toks, left, st).Done?
    ensures var r := ParseEPrime(toks, left, st).value; Kinds(r.ast) == Kinds(left) + Stripped(toks, st.pos, r.state.pos)
    decreases |toks| - st.pos, 0, 0
  {
    var k := CurrentKind(toks, st);
    if k == Plus || k == Minus {
      var p, right := UnfoldEPrime(toks, left, st);
      var n := Node(Literal(k), [left, right.ast]);
      var r := ParseEPrime(toks, n, right.state).value;
      KindsT(toks, State(st.pos + 1, st.log + [p]));
      KindsEPrime(toks, n, right.state);
      BinaryNode(k, left, right.ast);
      KindsBinary(toks, st.pos, right.state.pos, r.state.pos, k, Kinds(left), Kinds(right.ast), Kinds(n), Kinds(r.ast));
    } else {
      CollectNothing(StrippedOne, toks, st.pos, Kinds(left));
    }
  }

  /** T: the tree spells the kinds consumed. */
  lemma {:induction false} KindsT(toks: seq<Token>, st: State)
    requires Ready(toks, st) && ParseT(toks, st).Done?
    ensures var r := ParseT(toks, st).value; Kinds(r.ast) == Stripped(toks, st.pos, r.state.pos)
    decreases |toks| - st.pos, 1, 0
  {
    var f := ParseF(toks, Log(st, TToFTPrime)).value;
    var r := ParseT(toks, st).value;
    KindsF(toks, Log(st, TToFTPrime));
    KindsTPrime(toks, f.ast, f.state);
    CollectThen(StrippedOne, toks, st.pos, f.state.pos, r.state.pos, Kinds(f.ast), Kinds(r.ast));
  }

  /** T': the tree spells left followed by the kinds consumed. */
  lemma {:induction false} KindsTPrime(toks: seq<Token>, left: Ast, st: State)
    requires Ready(toks, st) && ParseTPrime(toks, left, st).Done?
    ensures var r := ParseTPrime(toks, left, st).value; Kinds(r.ast) == Kinds(left) + Stripped(toks, st.pos, r.state.pos)
    decreases |toks| - st.pos, 0, 0
  {
    var k := CurrentKind(toks, st);
    if k == Multiply || k == Divide {
      var p, right := UnfoldTPrime(toks, left, st);
      var n := Node(Literal(k), [left, right.ast]);
      var r := ParseTPrime(toks, n, right.state).value;
      KindsF(toks, State(st.pos + 1, st.log + [p]));
      KindsTPrime(toks, n, right.state);
      BinaryNode(k, left, right.ast);
      KindsBinary(toks, st.pos, right.state.pos, r.state.pos, k, Kinds(left), Kinds(right.ast), Kinds(n), Kinds(r.ast));
    } else {
      CollectNothing(StrippedOne, toks, st.pos, Kinds(left));
    }
  }

  /** F: the tree spells the kinds consumed. */
  lemma {:induction false} KindsF(toks: seq<Token>, st: State)
    requires Ready(toks, st) && ParseF(toks, st).Done?
    ensures var r := ParseF(toks, st).value; Kinds(r.ast) == Stripped(toks, st.pos, r.state.pos)
    decreases |toks| - st.pos, 0, 1
  {
    var k := CurrentKind(toks, st);
    if k == LParen {
      KindsParen(toks, st);
    } else if k == Number {
      CollectOne(StrippedOne, toks, st.pos);
    } else {
      KindsFunction(toks, st);
    }
  }

  /** F -> ( E ): the parenthesised case of KindsF. */
  lemma {:induction false} KindsParen(toks: seq<Token>, st: State)
    requires Ready(toks, st) && CurrentKind(toks, st) == LParen && ParseF(toks, st).Done?
    ensures var r := ParseF(toks, st).value; Kinds(r.ast) == Stripped(toks, st.pos, r.state.pos)
    decreases |toks| - st.pos, 0, 0
  {
    var st1 := Match(toks, Log(st, FParen), LParen).value.1;
    var e := ParseE(toks, st1).value;
    KindsE(toks, st1);
    CollectParen(StrippedOne, toks, st.pos, e.state.pos);
  }

  /** F -> sin F and F -> cos F: the function case of KindsF. */
  lemma {:induction false} KindsFunction(toks: seq<Token>, st: State)
    requires Ready(toks, st) && (CurrentKind(toks, st) == Sin || CurrentKind(toks, st) == Cos)
    requires ParseF(toks, st).Done?
    ensures var r := ParseF(toks, st).value; Kinds(r.ast) == Stripped(toks, st.pos, r.state.pos)
    decreases |toks| - st.pos, 0, 0
  {
    var k := CurrentKind(toks, st);
    var st1 := Match(toks, Log(st, if k == Sin then FSin else FCos), k).value.1;
    var c := ParseF(toks, st1).value;
    KindsF(toks, st1);
    UnaryNode(k, c.ast);
    assert Stripped(toks, st.pos, c.state.pos) == StrippedOne(toks[st.pos]) + Stripped(toks, st1.pos, c.state.pos);
  }

  // ---------------------------------------------------------------------
  // The leaves are the NUMBER lexemes consumed.
  // ---------------------------------------------------------------------

  /** E: the leaves are the NUMBER lexemes consumed. */
  lemma {:induction false} LeavesE(toks: seq<Token>, st: State)
    requires Ready(toks, st) && ParseE(toks, st).Done?
    ensures var r := ParseE(toks, st).value; Leaves(r.ast) == Numbers(toks, st.pos, r.state.pos)
    decreases |toks| - st.pos, 2, 0
  {
    var t := ParseT(toks, Log(st, EToTEPrime)).value;
    var r := ParseE(toks, st).value;
    LeavesT(toks, Log(st, EToTEPrime));
    LeavesEPrime(toks, t.ast, t.state);
    CollectThen(NumbersOne, toks, st.pos, t.state.pos, r.state.pos, Leaves(t.ast), Leaves(r.ast));
  }

  /** E': the leaves are those of left followed by the NUMBER lexemes consumed. */
  lemma {:induction false} LeavesEPrime(toks: seq<Token>, left: Ast, st: State)
    requires Ready(toks, st) && ParseEPrime(toks, left, st).Done?
    ensures var r := ParseEPrime(toks, left, st).value; Leaves(r.ast) == Leaves(left) + Numbers(toks, st.pos, r.state.pos)
    decreases |toks| - st.pos, 0, 0
  {
    var k := CurrentKind(toks, st);
    if k == Plus || k == Minus {
      var p, right := UnfoldEPrime(toks, left, st);
      var n := Node(Literal(k), [left, right.ast]);
      var r := ParseEPrime(toks, n, right.state).value;
      LeavesT(toks, State(st.pos + 1, st.log + [p]));
      LeavesEPrime(toks, n, right.state);
      LeavesBinary(toks, st.pos, right.state.pos, r.state.pos, k, left, right.ast, r.ast);
    } else {
      CollectNothing(NumbersOne, toks, st.pos, Leaves(left));
    }
  }

  /** T: the leaves are the NUMBER lexemes consumed. */
  lemma {:induction false} LeavesT(toks: seq<Token>, st: State)
    requires Ready(toks, st) && ParseT(toks, st).Done?
    ensures var r := ParseT(toks, st).value; Leaves(r.ast) == Numbers(toks, st.pos, r.state.pos)
    decreases |toks| - st.pos, 1, 0
  {
    var f := ParseF(toks, Log(st, TToFTPrime)).value;
    var r := ParseT(toks, st).value;
    LeavesF(toks, Log(st, TToFTPrime));
    LeavesTPrime(toks, f.ast, f.state);
    CollectThen(NumbersOne, toks, st.pos, f.state.pos, r.state.pos, Leaves(f.ast), Leaves(r.ast));
  }

  /** T': the leaves are those of left followed by the NUMBER lexemes consumed. */
  lemma {:induction false} LeavesTPrime(toks: seq<Token>, left: Ast, st: State)
    requires Ready(toks, st) && ParseTPrime(toks, left, st).Done?
    ensures var r := ParseTPrime(toks, left, st).value; Leaves(r.ast) == Leaves(left) + Numbers(toks, st.pos, r.state.pos)
    decreases |toks| - st.pos, 0, 0
  {
    var k := CurrentKind(toks, st);
    if k == Multiply || k == Divide {
      var p, right := UnfoldTPrime(toks, left, st);
      var n := Node(Literal(k), [left, right.ast]);
      var r := ParseTPrime(toks, n, right.state).value;
      LeavesF(toks, State(st.pos + 1, st.log + [p]));
      LeavesTPrime(toks, n, right.state);
      LeavesBinary(toks, st.pos, right.state.pos, r.state.pos, k, left, right.ast, r.ast);
    } else {
      CollectNothing(NumbersOne, toks, st.pos, Leaves(left));
    }
  }

  /** F: the leaves are the NUMBER lexemes consumed. */
  lemma {:induction false} LeavesF(toks: seq<Token>, st: State)
    requires Ready(toks, st) && ParseF(toks, st).Done?
    ensures var r := ParseF(toks, st).value; Leaves(r.ast) == Numbers(toks, st.pos, r.state.pos)
    decreases |toks| - st.pos, 0, 1
  {
    var k := CurrentKind(toks, st);
    if k == LParen {
      LeavesParen(toks, st);
    } else if k == Number {
      CollectOne(NumbersOne, toks, st.pos);
    } else {
      LeavesFunction(toks, st);
    }
  }

  /** F -> ( E ): the parenthesised case of LeavesF. */
  lemma {:induction false} LeavesParen(toks: seq<Token>, st: State)
    requires Ready(toks, st) && CurrentKind(toks, st) == LParen && ParseF(toks, st).Done?
    ensures var r := ParseF(toks, st).value; Leaves(r.ast) == Numbers(toks, st.pos, r.state.pos)
    decreases |toks| - st.pos, 0, 0
  {
    var st1 := Match(toks, Log(st, FParen), LParen).value.1;
    var e := ParseE(toks, st1).value;
    LeavesE(toks, st1);
    CollectParen(NumbersOne, toks, st.pos, e.state.pos);
  }

  /** F -> sin F and F -> cos F: the function case of LeavesF. */
  lemma {:induction false} LeavesFunction(toks: seq<Token>, st: State)
    requires Ready(toks, st) && (CurrentKind(toks, st) == Sin || CurrentKind(toks, st) == Cos)
    requires ParseF(toks, st).Done?
    ensures var r := ParseF(toks, st).value; Leaves(r.ast) == Numbers(toks, st.pos, r.state.pos)
    decreases |toks| - st.pos, 0, 0
  {
    var k := CurrentKind(toks, st);
    var st1 := Match(toks, Log(st, if k == Sin then FSin else FCos), k).value.1;
    var c := ParseF(toks, st1).value;
    LeavesF(toks, st1);
    UnaryLeaves(if k == Sin then "sin" else "cos", c.ast);
    assert Numbers(toks, st.pos, c.state.pos) == [] + Numbers(toks, st1.pos, c.state.pos);
  }

  // ---------------------------------------------------------------------
  // The tree is well formed.
  // ---------------------------------------------------------------------

  /** E: the tree is well formed. */
  lemma {:induction false} WfE(toks: seq<Token>, st: State)
    requires Ready(toks, st) && ParseE(toks, st).Done?
    ensures Wf(ParseE(toks, st).value.ast)
    decreases |toks| - st.pos, 2, 0
  {
    var t := ParseT(toks, Log(st, EToTEPrime)).value;
    WfT(toks, Log(st, EToTEPrime));
    WfEPrime(toks, t.ast, t.state);
  }

  /** E': the tree is well formed when left is. */
  lemma {:induction false} WfEPrime(toks: seq<Token>, left: Ast, st: State)
    requires Ready(toks, st) && ParseEPrime(toks, left, st).Done?
    ensures Wf(left) ==> Wf(ParseEPrime(toks, left, st).value.ast)
    decreases |toks| - st.pos, 0, 0
  {
    var k := CurrentKind(toks, st);
    if k == Plus || k == Minus {
      var p, right := UnfoldEPrime(toks, left, st);
      WfT(toks, State(st.pos + 1, st.log + [p]));
      BinaryNode(k, left, right.ast);
      WfEPrime(toks, Node(Literal(k), [left, right.ast]), right.state);
    }
  }

  /** T: the tree is well formed. */
  lemma {:induction false} WfT(toks: seq<Token>, st: State)
    requires Ready(toks, st) && ParseT(toks, st).Done?
    ensures Wf(ParseT(toks, st).value.ast)
    decreases |toks| - st.pos, 1, 0
  {
    var f := ParseF(toks, Log(st, TToFTPrime)).value;
    WfF(toks, Log(st, TToFTPrime));
    WfTPrime(toks, f.ast, f.state);
  }

  /** T': the tree is well formed when left is. */
  lemma {:induction false} WfTPrime(toks: seq<Token>, left: Ast, st: State)
    requires Ready(toks, st) && ParseTPrime(toks, left, st).Done?
    ensures Wf(left) ==> Wf(ParseTPrime(toks, left, st).value.ast)
    decreases |toks| - st.pos, 0, 0
  {
    var k := CurrentKind(toks, st);
    if k == Multiply || k == Divide {
      var p, right := UnfoldTPrime(toks, left, st);
      WfF(toks, State(st.pos + 1, st.log + [p]));
      BinaryNode(k, left, right.ast);
      WfTPrime(toks, Node(Literal(k), [left, right.ast]), right.state);
    }
  }

  /** F: the tree is well formed. */
  lemma {:induction false} WfF(toks: seq<Token>, st: State)
    requires Ready(toks, st) && ParseF(toks, st).Done?
    ensures Wf(ParseF(toks, st).value.ast)
    decreases |toks| - st.pos, 0, 1
  {
    var k := CurrentKind(toks, st);
    if k == LParen {
      WfE(toks, Match(toks, Log(st, FParen), LParen).value.1);
    } else if k == Sin || k == Cos {
      var st1 := Match(toks, Log(st, if k == Sin then FSin else FCos), k).value.1;
      WfF(toks, st1);
      UnaryNode(k, ParseF(toks, st1).value.ast);
    }
  }
}
