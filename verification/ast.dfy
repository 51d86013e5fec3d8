/**
  The syntax tree the parser builds: a node holds a value (an operator's text
  or a number's lexeme) and an ordered list of children, exactly as the
  ASTNode record does.
 */
module Ast {
  import opened Tokens

  /** A syntax tree node: its value and its children, in order. */
  datatype Ast = Node(value: string, children: seq<Ast>)

  /** The operator kind a two-child node stands for. */
  function BinaryKind(v: string): (k: Kind)
    ensures IsBinaryOp(k)
  {
    if v == "+" then Plus
    else if v == "-" then Minus
    else if v == "*" then Multiply
    else Divide
  }

  /** The function kind a one-child node stands for. */
  function UnaryKind(v: string): (k: Kind)
    ensures k == Sin || k == Cos
  {
    if v == "sin" then Sin else Cos
  }

  /**
    The trees the parser can return: number leaves, the four binary
    operators with two children, and sin and cos with one child.
   */
  predicate Wf(a: Ast)
    decreases a
  {
    || a.children == []
    || (&& |a.children| == 2
        && a.value in {"+", "-", "*", "/"}
        && Wf(a.children[0]) && Wf(a.children[1]))
    || (&& |a.children| == 1
        && a.value in {"sin", "cos"}
        && Wf(a.children[0]))
  }

  /**
    The token kinds a tree stands for, read in order: the left operand, the
    operator, the right operand; a function name before its argument; a
    NUMBER for each leaf.
   */
  function Kinds(a: Ast): seq<Kind>
    decreases a
  {
    if |a.children| == 2 then Kinds(a.children[0]) + [BinaryKind(a.value)] + Kinds(a.children[1])
    else if |a.children| == 1 then [UnaryKind(a.value)] + Kinds(a.children[0])
    else [Number]
  }

  /** The values of the leaves, left to right. */
  function Leaves(a: Ast): seq<string>
    decreases a
  {
    if |a.children| == 2 then Leaves(a.children[0]) + Leaves(a.children[1])
    else if |a.children| == 1 then Leaves(a.children[0])
    else [a.value]
  }

  /** Number of nodes with two children. */
  function BinaryCount(a: Ast): nat
    decreases a
  {
    if |a.children| == 2 then BinaryCount(a.children[0]) + 1 + BinaryCount(a.children[1])
    else if |a.children| == 1 then BinaryCount(a.children[0])
    else 0
  }

  /** A two-child node is its value over its two children. */
  lemma BinaryParts(a: Ast)
    requires |a.children| == 2
    ensures a == Node(a.value, [a.children[0], a.children[1]])
  {
    assert a.children == [a.children[0], a.children[1]];
  }

  /** The node the parser builds for a binary operator token of kind k: its kinds. */
  lemma BinaryNode(k: Kind, left: Ast, right: Ast)
    requires IsBinaryOp(k)
    ensures var n := Node(Literal(k), [left, right]);
      && Kinds(n) == Kinds(left) + [k] + Kinds(right)
      && (Wf(left) && Wf(right) ==> Wf(n))
  {
    assert BinaryKind(Literal(k)) == k;
  }

  /** The node the parser builds for a binary operator token: its leaves. */
  lemma BinaryLeaves(v: string, left: Ast, right: Ast)
    ensures Leaves(Node(v, [left, right])) == Leaves(left) + [] + Leaves(right)
  {
    assert Leaves(left) + [] == Leaves(left);
  }

  /** The node the parser builds for a sin or cos token of kind k. */
  lemma UnaryNode(k: Kind, c: Ast)
    requires k == Sin || k == Cos
    ensures var n := Node(if k == Sin then "sin" else "cos", [c]);
      && Kinds(n) == [k] + Kinds(c)
      && (Wf(c) ==> Wf(n))
  {
  }

  /** A one-child node has the leaves of its child. */
  lemma UnaryLeaves(v: string, c: Ast)
    ensures Leaves(Node(v, [c])) == [] + Leaves(c)
  {
    assert [] + Leaves(c) == Leaves(c);
  }

  /**
    The shapes a parenthesis-free expression takes, one per nonterminal: an
    expression is a left-nested chain of + and - over terms, a term a
    left-nested chain of * and / over factors, a factor a number under any
    number of sin and cos.
   */
  predicate ExprShape(a: Ast)
    decreases a
  {
    if |a.children| == 2 && a.value in {"+", "-"} then ExprShape(a.children[0]) && TermShape(a.children[1])
    else TermShape(a)
  }

  predicate TermShape(a: Ast)
    decreases a
  {
    if |a.children| == 2 && a.value in {"*", "/"} then TermShape(a.children[0]) && FactorShape(a.children[1])
    else FactorShape(a)
  }

  predicate FactorShape(a: Ast)
    decreases a
  {
    || a.children == []
    || (|a.children| == 1 && a.value in {"sin", "cos"} && FactorShape(a.children[0]))
  }

  /** How the nodes the parser builds fit the shapes. */
  lemma ShapeSteps(k: Kind, left: Ast, right: Ast)
    requires IsBinaryOp(k)
    ensures (k == Plus || k == Minus) && ExprShape(left) && TermShape(right) ==>
      ExprShape(Node(Literal(k), [left, right]))
    ensures (k == Multiply || k == Divide) && TermShape(left) && FactorShape(right) ==>
      TermShape(Node(Literal(k), [left, right]))
  {
  }

  /** A factor is a term and a term is an expression. */
  lemma ShapeWidens(a: Ast)
    ensures FactorShape(a) ==> TermShape(a)
    ensures TermShape(a) ==> ExprShape(a)
  {
  }
}
