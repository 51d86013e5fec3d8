# Arithmetic expression lexer and recursive-descent parser, in Dafny

This project models the core of `comp.py`, a small compiler front end for
arithmetic expressions, and proves properties of the model:

- **The lexer** turns a string into `(kind, lexeme)` tokens. At every
  position it tries the eleven patterns of the token table in their fixed
  order: NUMBER, `+`, `-`, `*`, `/`, `^`, `!`, `sin`, `cos`, `(`, `)`. It
  takes the first that matches and consumes the whole match. It stops with
  an "unexpected character" error at the first position where nothing
  matches. On success it appends a single `EOF` token.
- **The syntax tree** (`ASTNode`) is a value string and an ordered list of
  children.
- **The parser** is the recursive-descent `Parser` class.
  - It has one method per nonterminal of the grammar
    `E -> T E'`, `E' -> + T E' | - T E' | ε`, `T -> F T'`,
    `T' -> * F T' | / F T' | ε`, `F -> ( E ) | NUMBER | sin F | cos F | F ^ F | F !`.
  - It builds left-nested `+ - * /` nodes and records every production it
    applies in a derivation log.
  - `parse` requires the expression to be followed by `EOF`.

The parser's index and log are threaded through pure functions as a
`State` value. A parsing function ends in one of three ways:

- `Done` with a tree and the new state;
- `Failed` with a syntax error: `Expected(kind, found)` from `match`, or
  `Unexpected(found)` from `parse_F` and `parse`;
- `Diverges`.

`Diverges` is what the source does on `^` and `!`. `parse_F` chooses
`F -> F ^ F` or `F -> F !` when the current token is `^` or `!`, and then
calls itself on the same token without consuming anything. That recursion
never returns a result. The same shape of grammar also means that `^` and
`!` are never looked for after a complete factor. So `2^3` and `5!` are
rejected at the final EOF check, as the source does.

Modules:

- `Tokens`: token kinds, the priority order, and the fixed pattern texts.
- `Lexer`: the anchored matchers, the first-match step and the scanning
  loop.
- `LexerCorrectness`: a declarative description of the tokenization, and
  proofs that the lexer computes exactly it.
- `Ast`: the tree, well-formedness, and what a tree spells.
- `Grammar`: the grammar table as data, the log lines, and leftmost
  derivations.
- `GrammarCount`: counting NUMBERs through a derivation.
- `Parser`: the parsing functions.
- `ParserDerivation`, `ParserYield`, `ParserShape`, `ParserLog`,
  `ParserCounts`, `ParserDivergence` and `ParserPrint`: per-nonterminal
  proofs about the parser.
- `ParserCorrectness`: whole-parse theorems.
- `Examples`: small concrete inputs, worked through by proof.

## Model

| member | source | states |
|---|---|---|
| Tokens.Rank | comp.py:6-18 | Every kind but EOF has a position in the order the token table is tried, and the kind at that position is itself. EOF comes after all of them. |
| Tokens.PriorityIsRankOrder | comp.py:6-18 | The priority order lists each kind exactly at its rank, so the order is a ranking with no repeats. |
| Tokens.Literal | comp.py:8-17 | Each fixed pattern (operators, `sin`, `cos`, parentheses) matches one non-empty text. |
| Lexer.DigitRun | comp.py:7 | The maximal run of digits starting at i: all digits, and followed by a non-digit or the end. |
| Lexer.MatchNumber | comp.py:7 | An anchored NUMBER match is non-empty and lies inside the input. |
| Lexer.MatchLiteral | comp.py:8-17 | A fixed pattern's match at i is a slice of the input that spells its text; when there is none, no slice starting at i spells it. |
| Lexer.MatchAt | comp.py:35-36 | `regex.match(expression, index)` for the pattern of one kind: a match is non-empty and inside the input; EOF has no pattern. What the match is, is stated by `LexerCorrectness.MatchAtIsLongest`. |
| Lexer.FirstMatchFrom | comp.py:34-39 | The inner loop over the patterns from one rank on: the token it builds is of a kind at that rank or later, never EOF, and its text is the non-empty slice of the input at the position. |
| Lexer.FirstMatch | comp.py:33-39 | The token taken at a position is a non-empty, non-EOF slice of the input starting at that position. |
| Lexer.FirstMatchIsFirst | comp.py:33-39 | The kind taken matches at that position, and every kind earlier in the order does not. When nothing is taken, no kind matches. |
| Lexer.Scan | comp.py:31-42 | The scanning loop: on failure the error names a position it reached and the character there; on success the tokens end with EOF. |
| Lexer.Lex | comp.py:28-43 | An error names a position of the input and the character at it; a token list always ends with EOF. |
| LexerCorrectness.MatchNumberIsLongest | comp.py:7 | The NUMBER matcher returns the longest prefix matching `\d+(\.\d+)?`, and nothing exactly when no prefix matches. |
| LexerCorrectness.MatchAtIsLongest | comp.py:7-17 | For every kind, the matcher returns the longest matching prefix, and nothing exactly when no prefix matches. |
| LexerCorrectness.FirstMatchNoneIsStuck | comp.py:33-40 | The lexer finds no token at a position exactly when no pattern matches any prefix there. |
| LexerCorrectness.ChosenIsUnique | comp.py:33-39 | At a position at most one token is the longest match of the first matching kind. |
| LexerCorrectness.ChosenIsFirstMatch | comp.py:33-39 | The token the lexer takes is exactly the longest match of the first kind in the order that matches, in both directions. |
| LexerCorrectness.LexIsTokenization | comp.py:28-43 | The lexer returns a token list exactly when that list is the priority-ordered, longest-match tokenization of the whole input, followed by EOF. |
| LexerCorrectness.LexFailsIffStuck | comp.py:31-41 | The lexer fails with position p and character c exactly when the chosen tokens reach p, no pattern matches at p, and c is the character there. |
| LexerCorrectness.LexCoversInput | comp.py:29-42 | On success the lexemes before EOF concatenate to the input, and each is a non-empty match of its kind's pattern. EOF occurs once, at the end. |
| GrammarCount.NumberPerToken | comp.py:20-26 | A derivation made of the productions the parser applies, starting from a form without NUMBER, uses F -> NUMBER once per NUMBER terminal it derives. |
| Grammar.LabelsOfE | comp.py:77-95 | The log lines of E and E' are the strings the parser appends. |
| Grammar.LabelsOfT | comp.py:99-117 | The log lines of T and T' are the strings the parser appends. |
| Grammar.LabelsOfF | comp.py:122-139 | The log lines of F -> ( E ), NUMBER, sin F and cos F are the strings the parser appends. |
| Grammar.LabelsOfPostfix | comp.py:142-148 | The log lines of F -> F ^ F and F -> F ! are the strings the parser appends. |
| Parser.Advance | comp.py:63-66 | Moving past a token other than EOF lands on a token, one further on, and leaves the log unchanged. |
| Parser.Match | comp.py:68-74 | Succeeds exactly when the current token has the requested kind. It then returns that token's lexeme and moves on by one; otherwise it reports the kind expected and the kind found. |
| Parser.ParseE | comp.py:76-79 | A returning E consumes at least one token, stays on a token, and only appends to the log. |
| Parser.ParseEPrime | comp.py:81-96 | A returning E' never moves back, stays on a token, and appends to the log. |
| Parser.ParseT | comp.py:98-101 | A returning T consumes at least one token, stays on a token, and only appends to the log. |
| Parser.ParseTPrime | comp.py:103-118 | A returning T' never moves back, stays on a token, and appends to the log. |
| Parser.ParseF | comp.py:120-153 | A returning F consumes at least one token, stays on a token, and only appends to the log. |
| Parser.Parse | comp.py:155-159 | The log of a successful parse is non-empty and starts with E -> T E'. |
| ParserDerivation.DeriveE | comp.py:76-79 | The productions E appends derive, leftmost from E, exactly the tokens it consumed. |
| ParserDerivation.DeriveEPrime | comp.py:81-96 | The productions E' appends derive, leftmost from E', exactly the tokens it consumed. |
| ParserDerivation.DeriveT | comp.py:98-101 | The productions T appends derive, leftmost from T, exactly the tokens it consumed. |
| ParserDerivation.DeriveTPrime | comp.py:103-118 | The productions T' appends derive, leftmost from T', exactly the tokens it consumed. |
| ParserDerivation.DeriveF | comp.py:120-153 | The productions F appends derive, leftmost from F, exactly the tokens it consumed. |
| ParserYield.KindsE | comp.py:76-79 | The tree of E spells, in order, the kinds of the tokens it consumed, without parentheses. |
| ParserYield.KindsEPrime | comp.py:81-96 | The tree of E' spells the tree it was given, then the kinds it consumed. |
| ParserYield.KindsT | comp.py:98-101 | The tree of T spells, in order, the kinds of the tokens it consumed, without parentheses. |
| ParserYield.KindsTPrime | comp.py:103-118 | The tree of T' spells the tree it was given, then the kinds it consumed. |
| ParserYield.KindsF | comp.py:120-153 | The tree of F spells, in order, the kinds of the tokens it consumed, without parentheses. |
| ParserYield.LeavesE | comp.py:76-79 | The leaves of the tree of E are the NUMBER lexemes it consumed, in order. |
| ParserYield.LeavesEPrime | comp.py:81-96 | The leaves of the tree of E' are those of the tree it was given, then the NUMBER lexemes it consumed. |
| ParserYield.LeavesT | comp.py:98-101 | The leaves of the tree of T are the NUMBER lexemes it consumed, in order. |
| ParserYield.LeavesTPrime | comp.py:103-118 | The leaves of the tree of T' are those of the tree it was given, then the NUMBER lexemes it consumed. |
| ParserYield.LeavesF | comp.py:120-153 | The leaves of the tree of F are the NUMBER lexemes it consumed, in order. |
| ParserYield.WfE | comp.py:76-79 | E returns a well-formed tree: numbers are leaves, `+ - * /` have two children, `sin` and `cos` have one. |
| ParserYield.WfEPrime | comp.py:81-96 | E' keeps a well-formed tree well formed. |
| ParserYield.WfT | comp.py:98-101 | T returns a well-formed tree. |
| ParserYield.WfTPrime | comp.py:103-118 | T' keeps a well-formed tree well formed. |
| ParserYield.WfF | comp.py:120-153 | F returns a well-formed tree. |
| ParserShape.ShapeE | comp.py:76-79 | Without parentheses, E returns a left-nested chain of `+`/`-` over terms. |
| ParserShape.ShapeEPrime | comp.py:81-96 | E' extends a `+`/`-` chain to the left-nested chain over the next terms. |
| ParserShape.ShapeT | comp.py:98-101 | Without parentheses, T returns a left-nested chain of `*`/`/` over factors. |
| ParserShape.ShapeTPrime | comp.py:103-118 | T' extends a `*`/`/` chain to the left-nested chain over the next factors. |
| ParserShape.ShapeF | comp.py:120-153 | Without parentheses, F returns a number under any number of `sin` and `cos`. |
| ParserLog.LogE | comp.py:76-79 | Everything E appends to the log is a production other than F -> F ^ F and F -> F !. |
| ParserLog.LogEPrime | comp.py:81-96 | Everything E' appends to the log is a production other than F -> F ^ F and F -> F !. |
| ParserLog.LogT | comp.py:98-101 | Everything T appends to the log is a production other than F -> F ^ F and F -> F !. |
| ParserLog.LogTPrime | comp.py:103-118 | Everything T' appends to the log is a production other than F -> F ^ F and F -> F !. |
| ParserLog.LogF | comp.py:120-153 | Everything a returning F appends to the log is a production other than F -> F ^ F and F -> F !. |
| ParserDivergence.DivergesAtPostfix | comp.py:141-151 | F started on `^` or `!` never returns. |
| ParserDivergence.DivergesE | comp.py:76-79 | If E does not return, a `^` or `!` occurs at or after its start. |
| ParserDivergence.DivergesEPrime | comp.py:81-96 | If E' does not return, a `^` or `!` occurs at or after its start. |
| ParserDivergence.DivergesT | comp.py:98-101 | If T does not return, a `^` or `!` occurs at or after its start. |
| ParserDivergence.DivergesTPrime | comp.py:103-118 | If T' does not return, a `^` or `!` occurs at or after its start. |
| ParserDivergence.DivergesF | comp.py:120-153 | If F does not return, a `^` or `!` occurs at or after its start. |
| ParserDivergence.DivergesParse | comp.py:155-159 | A parse that does not return has a `^` or `!` in its input. |
| ParserDivergence.ParseEnds | comp.py:141-151 | On input without `^` and `!`, every parse ends, with a tree or a syntax error. |
| ParserPrint.PrintParsesF | comp.py:120-153 | F parses the fully parenthesised printing of any well-formed tree back into that tree, and stops right after it. |
| ParserPrint.PrintParsesTerm | comp.py:98-118 | T parses a printed tree back into it when no `*` or `/` follows. |
| ParserPrint.PrintParsesExpr | comp.py:76-96 | E parses a printed tree back into it when no operator follows. |
| ParserCounts.BinaryCountIsOperators | comp.py:45-48 | A well-formed tree has one two-child node per operator kind it spells. |
| ParserCorrectness.LexedEofOnlyLast | comp.py:42 | Every token list the lexer returns ends with EOF and has no other EOF. |
| ParserCorrectness.ParseReachesEof | comp.py:155-159 | A parse succeeds only when E stops exactly on the final EOF; its result is E's tree and log. |
| ParserCorrectness.ParseRejectsTrailing | comp.py:156-158 | If E stops on a token other than EOF, the parse fails with "unexpected token" naming that token's kind. |
| ParserCorrectness.ParseDerivesInput | comp.py:76-159 | The log of a successful parse is a leftmost derivation from E of all input tokens before EOF. Every entry is a grammar production other than F -> F ^ F and F -> F !. |
| ParserCorrectness.ParseCountsNumbers | comp.py:127-130 | The log of a successful parse contains F -> NUMBER exactly once per NUMBER token of the input. |
| ParserCorrectness.ParseKeepsTokens | comp.py:76-159 | The tree of a successful parse is well formed. Read in order, it spells the input's tokens without parentheses. Its leaves are the input's NUMBER lexemes, in order. |
| ParserCorrectness.ParseCountsNodes | comp.py:81-130 | The tree of a successful parse has one leaf per NUMBER token and one two-child node per `+ - * /` token. |
| ParserCorrectness.ParsePrecedence | comp.py:81-118 | Without parentheses, a successful parse groups `*`/`/` below `+`/`-`, with both levels associating to the left. |
| ParserCorrectness.ParsePrinted | comp.py:155-159 | Parsing the printed form of any well-formed tree, followed by EOF, succeeds and gives the tree back. |
| Examples.LexEmpty | comp.py:31-43 | The empty string lexes to the EOF token alone. |
| Examples.LexDigit | comp.py:7 | "7" lexes to NUMBER "7" and EOF. |
| Examples.LexUnknown | comp.py:40-41 | "2@3" fails at position 1 on '@'. |
| Examples.LexTrailingDot | comp.py:7 | "2." fails at position 1 on '.': the fraction needs a digit after the dot. |
| Examples.LexBlank | comp.py:40-41 | " 1" fails at position 0: there is no whitespace pattern. |
| Examples.ParseNumber | comp.py:76-159 | The tokens of a lone number parse to a leaf with the log E -> T E', T -> F T', F -> NUMBER, T' -> ε, E' -> ε. |
| Examples.ParseNumberLog | comp.py:76-159 | The log of a lone number's tokens, printed as the parser's strings, is the five lines from "E -> T E'" to "E' -> ε". |
| Examples.ParseLeftAssociative | comp.py:81-96 | The tokens of 1-2-3 parse to -(-(1,2),3). |
| Examples.ParsePrecedenceCase | comp.py:81-118 | The tokens of 2+3*4 parse to +(2,*(3,4)). |
| Examples.ParseParenthesised | comp.py:98-125 | The tokens of (2+3)*4 parse to *(+(2,3),4): the parenthesised sum is one factor. |
| Examples.ParsePowerAfterNumber | comp.py:155-158 | The tokens of 2^3 fail at the EOF check, on the `^`. |
| Examples.ParseFactorialAfterNumber | comp.py:155-158 | The tokens of 5! fail at the EOF check, on the `!`. |
| Examples.ParseLeadingPower | comp.py:141-146 | The tokens of ^2 never finish parsing. |
| Examples.ParseJuxtaposed | comp.py:155-158 | The tokens of (1)2 fail at the EOF check, on the second number. |
| Examples.ParseMissingOperand | comp.py:152-153 | The tokens of 2+ fail in F with "unexpected token EOF". |

## Left out

- `main` (comp.py:174-198): the Streamlit user interface, input and
  display, which are I/O.
- `visualize_ast` (comp.py:161-172): Graphviz rendering keyed on object
  identity, which immutable values do not have.
- `ASTNode.__repr__` (comp.py:50-54): debug printing only.
- Numeric evaluation: the source never evaluates the tree, and the model
  does not either.
- Regular-expression engine details:
  - The patterns are hand-coded anchored matchers with the same matches.
  - The source's `\d` also matches non-ASCII Unicode digits; the model's
    NUMBER accepts ASCII `0`-`9` only.
  - Re-compiling each pattern on every iteration has no observable effect.
- Error messages are data (`LexError(position, character)`,
  `Expected(kind, found)`, `Unexpected(found)`) rather than the formatted
  exception strings. The lexer's message shows only the character; the
  model also keeps its position.
- The `^`/`!` non-termination is the outcome `Diverges`. The log entries
  the source appends on the way into that recursion, and the
  `RecursionError` that Python eventually raises, are not modelled.
- Python's recursion limit on deeply nested but valid input is not
  modelled: the model's recursion depth is unbounded.
- Parser.ParseE: every parsing function requires a token list that is
  non-empty and ends with EOF, as the lexer always returns. The source
  accepts any non-empty list. On a list without a final EOF its `advance`
  keeps the last token current, and the parse then misbehaves; that case
  is not modelled.
- ParserCorrectness.ParseReachesEof: the whole-parse theorems assume EOF
  occurs only at the end. `LexedEofOnlyLast` proves that of every lexer
  output.
- Digit-and-dot runs: such a run is not always one NUMBER. "1.2.3"
  lexes NUMBER "1.2" and then fails at the second '.', and "." alone
  fails. The model follows this behaviour of the code.
- ParserPrint.PrintParsesF: the round trip is stated for the fully
  parenthesised printing of a tree. Printings with fewer parentheses are
  not covered.
