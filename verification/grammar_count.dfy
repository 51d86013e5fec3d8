/**
  Counting NUMBER terminals through a derivation: every leftmost step adds
  the NUMBER terminals of the right-hand side it applies, and among the
  productions the parser can apply only F -> NUMBER has one. So a log that
  derives a word applies F -> NUMBER once per NUMBER in the word.
 */
module GrammarCount {
  import opened Results
  import opened Tokens
  import opened Grammar

  /** The productions the parser applies and returns from: all but F -> F ^ F and F -> F !. */
  const Applied: set<Production> := {
    EToTEPrime, EPrimePlus, EPrimeMinus, EPrimeEmpty,
    TToFTPrime, TPrimeTimes, TPrimeDivide, TPrimeEmpty,
    FParen, FNumber, FSin, FCos
  }

  /** Every production of the log from index i on is one the parser applies. */
  predicate AppliedFrom(log: seq<Production>, i: nat) {
    forall q :: i <= q < |log| ==> log[q] in Applied
  }

  /** The number of NUMBER terminals in a form. */
  function NumberCount(form: seq<Symbol>): nat
    decreases |form|
  {
    if form == [] then 0
    else (if form[0] == Terminal(Number) then 1 else 0) + NumberCount(form[1..])
  }

  /** The NUMBER terminals the right-hand sides of a log add up to. */
  function Weight(log: seq<Production>): nat
    decreases |log|
  {
    if log == [] then 0 else NumberCount(log[0].rhs) + Weight(log[1..])
  }

  /** How many times production p occurs in the log. */
  function Uses(log: seq<Production>, p: Production): nat
    decreases |log|
  {
    if log == [] then 0 else (if log[0] == p then 1 else 0) + Uses(log[1..], p)
  }

  /** The number of tokens of kind k in a token sequence. */
  function CountKind(toks: seq<Token>, k: Kind): nat
    decreases |toks|
  {
    if toks == [] then 0 else (if toks[0].kind == k then 1 else 0) + CountKind(toks[1..], k)
  }

  /** NUMBER terminals of a concatenation add up. */
  lemma {:induction false} NumberCountAppend(a: seq<Symbol>, b: seq<Symbol>)
    ensures NumberCount(a + b) == NumberCount(a) + NumberCount(b)
    decreases |a|
  {
    if a == [] {
      assert a + b == b;
    } else {
      assert (a + b)[0] == a[0] && (a + b)[1..] == a[1..] + b;
      NumberCountAppend(a[1..], b);
    }
  }

  /** A leftmost step adds the NUMBER terminals of the right-hand side it applies. */
  lemma {:induction false} RewriteCount(form: seq<Symbol>, p: Production)
    requires Rewrite(form, p).Some?
    ensures NumberCount(Rewrite(form, p).value) == NumberCount(form) + NumberCount(p.rhs)
    decreases |form|
  {
    if form[0].Terminal? {
      RewriteCount(form[1..], p);
      var f := Rewrite(form[1..], p).value;
      NumberCountAppend([form[0]], f);
      NumberCountAppend([form[0]], form[1..]);
      assert [form[0]] + form[1..] == form;
    } else {
      NumberCountAppend(p.rhs, form[1..]);
      NumberCountAppend([form[0]], form[1..]);
      assert [form[0]] + form[1..] == form;
    }
  }

  /** A derivation adds the NUMBER terminals of all the right-hand sides it applies. */
  lemma {:induction false} DeriveCount(form: seq<Symbol>, log: seq<Production>)
    requires Derive(form, log).Some?
    ensures NumberCount(Derive(form, log).value) == NumberCount(form) + Weight(log)
    decreases |log|
  {
    if log != [] {
      RewriteCount(form, log[0]);
      DeriveCount(Rewrite(form, log[0]).value, log[1..]);
    }
  }

  /** A form without the NUMBER terminal has no NUMBER terminals to count. */
  lemma {:induction false} NoNumberCount(form: seq<Symbol>)
    requires Terminal(Number) !in form
    ensures NumberCount(form) == 0
    decreases |form|
  {
    if form != [] {
      assert form[0] != Terminal(Number) && Terminal(Number) !in form[1..];
      NoNumberCount(form[1..]);
    }
  }

  /** Of the productions the parser applies, only F -> NUMBER has a NUMBER on its right. */
  lemma AppliedWeight(p: Production)
    requires p in Applied
    ensures NumberCount(p.rhs) == if p == FNumber then 1 else 0
  {
    if p == FNumber {
      assert p.rhs[0] == Terminal(Number) && p.rhs[1..] == [];
    } else {
      NoNumberCount(p.rhs);
    }
  }

  /** For a log of applied productions, the weight counts the uses of F -> NUMBER. */
  lemma {:induction false} WeightIsUses(log: seq<Production>)
    requires AppliedFrom(log, 0)
    ensures Weight(log) == Uses(log, FNumber)
    decreases |log|
  {
    if log != [] {
      AppliedWeight(log[0]);
      assert AppliedFrom(log[1..], 0) by {
        forall q | 0 <= q < |log[1..]|
          ensures log[1..][q] in Applied
        {
          assert log[1..][q] == log[q + 1];
        }
      }
      WeightIsUses(log[1..]);
    }
  }

  /** The NUMBER terminals of a token sequence are its NUMBER tokens. */
  lemma {:induction false} TerminalsCount(toks: seq<Token>)
    ensures NumberCount(Terminals(toks)) == CountKind(toks, Number)
    decreases |toks|
  {
    if toks != [] {
      TerminalsCount(toks[1..]);
      var w := Terminals(toks);
      assert w[0] == Terminal(toks[0].kind);
      assert w[1..] == Terminals(toks[1..]);
    }
  }

  /**
    A log of applied productions that derives a token sequence from a form
    without NUMBER applies F -> NUMBER once per NUMBER token.
   */
  lemma NumberPerToken(form: seq<Symbol>, log: seq<Production>, toks: seq<Token>)
    requires NumberCount(form) == 0 && AppliedFrom(log, 0)
    requires Derive(form, log) == Some(Terminals(toks))
    ensures Uses(log, FNumber) == CountKind(toks, Number)
  {
    DeriveCount(form, log);
    WeightIsUses(log);
    TerminalsCount(toks);
  }
}
