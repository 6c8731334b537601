// The bracket matcher of `extractArrayData` in scripts/suggestAlternatives.js:
// from just after the opening '[' of an array declaration it counts '[' and
// ']' until the depth returns to 0, jumping over quoted strings and comments.
//
// `ScanFrom` follows the code's jumps; `Run` is a reference automaton that
// reads one character at a time and counts brackets only in code, and the
// two are proved to agree.

module BracketScan {
  predicate IsQuote(ch: char)
  {
    ch == '"' || ch == '\''
  }

  /** `content[i] === '/' && content[i+1] === '/'`; reading past the end gives `undefined`. */
  predicate StartsLineComment(c: string, i: nat)
  {
    i + 1 < |c| && c[i] == '/' && c[i + 1] == '/'
  }

  predicate StartsBlockComment(c: string, i: nat)
  {
    i + 1 < |c| && c[i] == '/' && c[i + 1] == '*'
  }

  /** A quote `q` at `j` closes the string unless a backslash precedes it. */
  predicate ClosesQuote(c: string, j: nat, q: char)
    requires 1 <= j < |c|
  {
    c[j] == q && c[j - 1] != '\\'
  }

  /** The position of the quote that closes a string whose text starts at `j`; |c| when it is never closed. */
  function QuoteEnd(c: string, j: nat, q: char): (k: nat)
    requires 1 <= j <= |c|
    ensures j <= k <= |c|
    ensures k < |c| ==> ClosesQuote(c, k, q)
    ensures forall m :: j <= m < k ==> !ClosesQuote(c, m, q)
    decreases |c| - j
  {
    if j == |c| then j
    else if ClosesQuote(c, j, q) then j
    else QuoteEnd(c, j + 1, q)
  }

  /** The position of the first newline at or after `j`; |c| when there is none. */
  function LineEnd(c: string, j: nat): (k: nat)
    requires j <= |c|
    ensures j <= k <= |c|
    ensures k < |c| ==> c[k] == '\n'
    ensures forall m :: j <= m < k ==> c[m] != '\n'
    decreases |c| - j
  {
    if j == |c| then j
    else if c[j] == '\n' then j
    else LineEnd(c, j + 1)
  }

  /** The position of the first `*` followed by `/` at or after `j`; |c| when there is none. */
  function BlockEnd(c: string, j: nat): (k: nat)
    requires j <= |c|
    ensures j <= k <= |c|
    ensures k < |c| ==> k + 1 < |c| && c[k] == '*' && c[k + 1] == '/'
    ensures forall m :: j <= m < k ==> !(c[m] == '*' && m + 1 < |c| && c[m + 1] == '/')
    decreases |c| - j
  {
    if j == |c| then j
    else if c[j] == '*' && j + 1 < |c| && c[j + 1] == '/' then j
    else BlockEnd(c, j + 1)
  }

  /**
   * The scan from position `i` at bracket depth `depth`, jumping the way the
   * code does: a string resumes after its closing quote, a line comment
   * after its newline, a block comment after its `*` and `/`. The result is
   * the position of the ']' that brings the depth to 0, or -1.
   */
  function ScanFrom(c: string, i: nat, depth: int): int
    decreases |c| + 2 - i
  {
    if i >= |c| then -1
    else if IsQuote(c[i]) then ScanFrom(c, QuoteEnd(c, i + 1, c[i]) + 1, depth)
    else if StartsLineComment(c, i) then ScanFrom(c, LineEnd(c, i) + 1, depth)
    else if StartsBlockComment(c, i) then ScanFrom(c, BlockEnd(c, i + 2) + 2, depth)
    else if c[i] == '[' then ScanFrom(c, i + 1, depth + 1)
    else if c[i] == ']' then (if depth - 1 == 0 then i else ScanFrom(c, i + 1, depth - 1))
    else ScanFrom(c, i + 1, depth)
  }

  /** A found position holds a ']' at or after the start. */
  lemma {:induction false} ScanFromFound(c: string, i: nat, depth: int)
    ensures var r := ScanFrom(c, i, depth);
      r == -1 || (i <= r < |c| && c[r] == ']')
    decreases |c| + 2 - i
  {
    if i < |c| {
      if IsQuote(c[i]) {
        ScanFromFound(c, QuoteEnd(c, i + 1, c[i]) + 1, depth);
      } else if StartsLineComment(c, i) {
        ScanFromFound(c, LineEnd(c, i) + 1, depth);
      } else if StartsBlockComment(c, i) {
        ScanFromFound(c, BlockEnd(c, i + 2) + 2, depth);
      } else if c[i] == '[' {
        ScanFromFound(c, i + 1, depth + 1);
      } else if c[i] == ']' {
        if depth - 1 != 0 {
          ScanFromFound(c, i + 1, depth - 1);
        }
      } else {
        ScanFromFound(c, i + 1, depth);
      }
    }
  }

  // ---------------------------------------------------------------------
  // The reference automaton

  /** Where the reader is: in code, in a string opened by `q`, or in or around a comment. */
  datatype Mode = Code | Quoted(q: char) | LineComment | BlockOpening | BlockComment | BlockClosing

  /** One character at a time; brackets count only in `Code`. */
  function Run(c: string, i: nat, m: Mode, depth: int): int
    decreases |c| - i
  {
    if i >= |c| then -1
    else
      match m
      case Code =>
        if IsQuote(c[i]) then Run(c, i + 1, Quoted(c[i]), depth)
        else if StartsLineComment(c, i) then Run(c, i + 1, LineComment, depth)
        else if StartsBlockComment(c, i) then Run(c, i + 1, BlockOpening, depth)
        else if c[i] == '[' then Run(c, i + 1, Code, depth + 1)
        else if c[i] == ']' then (if depth - 1 == 0 then i else Run(c, i + 1, Code, depth - 1))
        else Run(c, i + 1, Code, depth)
      case Quoted(q) =>
        if i > 0 && ClosesQuote(c, i, q) then Run(c, i + 1, Code, depth) else Run(c, i + 1, m, depth)
      case LineComment =>
        if c[i] == '\n' then Run(c, i + 1, Code, depth) else Run(c, i + 1, LineComment, depth)
      case BlockOpening =>
        Run(c, i + 1, BlockComment, depth)
      case BlockComment =>
        if c[i] == '*' && i + 1 < |c| && c[i + 1] == '/' then Run(c, i + 1, BlockClosing, depth)
        else Run(c, i + 1, BlockComment, depth)
      case BlockClosing =>
        Run(c, i + 1, Code, depth)
  }

  /** Reading a string character by character resumes in code just after its closing quote. */
  lemma {:induction false} QuotedRun(c: string, j: nat, q: char, depth: int)
    requires 1 <= j <= |c|
    ensures Run(c, j, Quoted(q), depth) == Run(c, QuoteEnd(c, j, q) + 1, Code, depth)
    decreases |c| - j
  {
    if j < |c| && !ClosesQuote(c, j, q) {
      QuotedRun(c, j + 1, q, depth);
    }
  }

  /** Reading a line comment resumes in code just after its newline. */
  lemma {:induction false} LineCommentRun(c: string, j: nat, depth: int)
    requires j <= |c|
    ensures Run(c, j, LineComment, depth) == Run(c, LineEnd(c, j) + 1, Code, depth)
    decreases |c| - j
  {
    if j < |c| && c[j] != '\n' {
      LineCommentRun(c, j + 1, depth);
    }
  }

  /** Reading a block comment resumes in code just after its `*` and `/`. */
  lemma {:induction false} BlockCommentRun(c: string, j: nat, depth: int)
    requires j <= |c|
    ensures Run(c, j, BlockComment, depth) == Run(c, BlockEnd(c, j) + 2, Code, depth)
    decreases |c| - j
  {
    if j < |c| && !(c[j] == '*' && j + 1 < |c| && c[j + 1] == '/') {
      BlockCommentRun(c, j + 1, depth);
    }
  }

  /** The jumping scan and the character automaton find the same bracket. */
  lemma {:induction false} ScanFromIsRun(c: string, i: nat, depth: int)
    ensures ScanFrom(c, i, depth) == Run(c, i, Code, depth)
    decreases |c| + 2 - i
  {
    if i < |c| {
      if IsQuote(c[i]) {
        QuotedRun(c, i + 1, c[i], depth);
        ScanFromIsRun(c, QuoteEnd(c, i + 1, c[i]) + 1, depth);
      } else if StartsLineComment(c, i) {
        assert LineEnd(c, i) == LineEnd(c, i + 1);
        LineCommentRun(c, i + 1, depth);
        ScanFromIsRun(c, LineEnd(c, i) + 1, depth);
      } else if StartsBlockComment(c, i) {
        assert Run(c, i + 1, BlockOpening, depth) == Run(c, i + 2, BlockComment, depth);
        BlockCommentRun(c, i + 2, depth);
        ScanFromIsRun(c, BlockEnd(c, i + 2) + 2, depth);
      } else if c[i] == '[' {
        ScanFromIsRun(c, i + 1, depth + 1);
      } else if c[i] == ']' {
        if depth - 1 != 0 {
          ScanFromIsRun(c, i + 1, depth - 1);
        }
      } else {
        ScanFromIsRun(c, i + 1, depth);
      }
    }
  }

  /** Text with no quotes, slashes or brackets leaves the scan where it was. */
  lemma {:induction false} PlainTextIgnored(c: string, i: nat, j: nat, depth: int)
    requires i <= j <= |c|
    requires forall m :: i <= m < j ==> !IsQuote(c[m]) && c[m] != '/' && c[m] != '[' && c[m] != ']'
    ensures ScanFrom(c, i, depth) == ScanFrom(c, j, depth)
    decreases j - i
  {
    if i < j {
      PlainTextIgnored(c, i + 1, j, depth);
    }
  }

  // ---------------------------------------------------------------------
  // The scanning loops

  /** The inner loop over a string: stops at the closing quote, or at the end. */
  method SkipString(content: string, start: nat, quote: char) returns (i: nat)
    requires 1 <= start <= |content|
    ensures i == QuoteEnd(content, start, quote)
  {
    i := start;
    while i < |content|
      invariant start <= i <= |content|
      invariant QuoteEnd(content, i, quote) == QuoteEnd(content, start, quote)
    {
      if content[i] == quote && content[i - 1] != '\\' {
        break;
      }
      i := i + 1;
    }
  }

  /** The inner loop over a line comment: stops at the newline, or at the end. */
  method SkipLineComment(content: string, start: nat) returns (i: nat)
    requires start <= |content|
    ensures i == LineEnd(content, start)
  {
    i := start;
    while i < |content| && content[i] != '\n'
      invariant start <= i <= |content|
      invariant LineEnd(content, i) == LineEnd(content, start)
    {
      i := i + 1;
    }
  }

  /** The inner loop over a block comment: stops at the `*` of its end, or at the end. */
  method SkipBlockComment(content: string, start: nat) returns (i: nat)
    requires start <= |content|
    ensures i == BlockEnd(content, start)
  {
    i := start;
    while i < |content| && !(content[i] == '*' && i + 1 < |content| && content[i + 1] == '/')
      invariant start <= i <= |content|
      invariant BlockEnd(content, i) == BlockEnd(content, start)
    {
      i := i + 1;
    }
  }

  /**
   * The `for` loop of `extractArrayData`, started just after the '[' at
   * `openPos`: the position of the matching ']', or -1 when there is none.
   */
  method FindClosingBracket(content: string, openPos: nat) returns (closePos: int)
    ensures closePos == ScanFrom(content, openPos + 1, 1)
    ensures closePos == Run(content, openPos + 1, Code, 1)
    ensures closePos == -1 || (openPos < closePos < |content| && content[closePos] == ']')
  {
    ghost var goal := ScanFrom(content, openPos + 1, 1);
    var bracketCount := 1;
    closePos := -1;
    var i := openPos + 1;
    while i < |content|
      invariant openPos + 1 <= i
      invariant ScanFrom(content, i, bracketCount) == goal
      decreases |content| + 2 - i
    {
      if content[i] == '"' || content[i] == '\'' {
        var quote := content[i];
        i := SkipString(content, i + 1, quote);
        i := i + 1;
        continue;
      }
      if i + 1 < |content| && content[i] == '/' && content[i + 1] == '/' {
        i := SkipLineComment(content, i);
        i := i + 1;
        continue;
      }
      if i + 1 < |content| && content[i] == '/' && content[i + 1] == '*' {
        i := SkipBlockComment(content, i + 2);
        i := i + 1;
        i := i + 1;
        continue;
      }
      if content[i] == '[' {
        bracketCount := bracketCount + 1;
      } else if content[i] == ']' {
        bracketCount := bracketCount - 1;
        if bracketCount == 0 {
          closePos := i;
          break;
        }
      }
      i := i + 1;
    }
    ScanFromIsRun(content, openPos + 1, 1);
    ScanFromFound(content, openPos + 1, 1);
  }
}
