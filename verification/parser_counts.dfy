/**
  Counting nodes of the parser's tree against the tokens it consumed: a
  well-formed tree has one binary node per + - * / kind it spells, and a
  token range spells one such kind per operator token and one leaf per
  NUMBER token.
 */
module ParserCounts {
  import opened Tokens
  import opened Ast
  import opened GrammarCount
  import opened ParserYield

  /** The number of binary operator kinds in a sequence of kinds. */
  function OperatorKinds(ks: seq<Kind>): nat
    decreases |ks|
  {
    if ks == [] then 0 else (if IsBinaryOp(ks[0]) then 1 else 0) + OperatorKinds(ks[1..])
  }

  /** The number of + - * / tokens in a token sequence. */
  function OperatorTokens(toks: seq<Token>): nat
    decreases |toks|
  {
    if toks == [] then 0 else (if IsBinaryOp(toks[0].kind) then 1 else 0) + OperatorTokens(toks[1..])
  }

  /** Operator kinds of a concatenation add up. */
  lemma {:induction false} OperatorKindsAppend(a: seq<Kind>, b: seq<Kind>)
    ensures OperatorKinds(a + b) == OperatorKinds(a) + OperatorKinds(b)
    decreases |a|
  {
    if a == [] {
      assert a + b == b;
    } else {
      assert (a + b)[0] == a[0] && (a + b)[1..] == a[1..] + b;
      OperatorKindsAppend(a[1..], b);
    }
  }

  /** A well-formed tree has one binary node per operator kind it spells. */
  lemma {:induction false} BinaryCountIsOperators(a: Ast)
    requires Wf(a)
    ensures BinaryCount(a) == OperatorKinds(Kinds(a))
    decreases a
  {
    if |a.children| == 2 {
      var l := a.children[0];
      var r := a.children[1];
      BinaryCountIsOperators(l);
      BinaryCountIsOperators(r);
      OperatorKindsAppend(Kinds(l), [BinaryKind(a.value)]);
      OperatorKindsAppend(Kinds(l) + [BinaryKind(a.value)], Kinds(r));
      assert OperatorKinds([BinaryKind(a.value)]) == 1;
    } else if |a.children| == 1 {
      var c := a.children[0];
      BinaryCountIsOperators(c);
      OperatorKindsAppend([UnaryKind(a.value)], Kinds(c));
      assert OperatorKinds([UnaryKind(a.value)]) == 0;
    } else {
      assert OperatorKinds([Number]) == 0;
    }
  }

  /** Dropping parentheses keeps every operator token. */
  lemma {:induction false} StrippedOperators(toks: seq<Token>, i: nat, j: nat)
    requires i <= j <= |toks|
    ensures OperatorKinds(Stripped(toks, i, j)) == OperatorTokens(toks[i..j])
    decreases j - i
  {
    if i < j {
      StrippedOperators(toks, i + 1, j);
      var h := StrippedOne(toks[i]);
      OperatorKindsAppend(h, Stripped(toks, i + 1, j));
      assert toks[i..j][0] == toks[i] && toks[i..j][1..] == toks[i + 1..j];
      assert OperatorKinds(h) == if IsBinaryOp(toks[i].kind) then 1 else 0;
    }
  }

  /** A token range holds one NUMBER lexeme per NUMBER token. */
  lemma {:induction false} NumbersCount(toks: seq<Token>, i: nat, j: nat)
    requires i <= j <= |toks|
    ensures |Numbers(toks, i, j)| == CountKind(toks[i..j], Number)
    decreases j - i
  {
    if i < j {
      NumbersCount(toks, i + 1, j);
      assert toks[i..j][0] == toks[i] && toks[i..j][1..] == toks[i + 1..j];
    }
  }
}
