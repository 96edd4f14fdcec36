/** The inner loops of the comment strippers and statement splitters of
    `internal/db/mysql/sqlclass.go` and `internal/db/sqlite/sqlclass.go`. */
module ScannerLoops {
  import opened Text
  import opened SqlLexer

  method SkipLineComment(s: string, i: nat) returns (j: nat)
    requires i <= |s|
    ensures j == LineEnd(s, i)
  {
    j := i;
    while j < |s| && s[j] != '\n'
      invariant i <= j <= |s| && LineEnd(s, j) == LineEnd(s, i)
    {
      j := j + 1;
    }
  }

  method SkipBlockComment(s: string, i: nat) returns (j: nat)
    requires i <= |s|
    ensures j == BlockEnd(s, i)
  {
    j := i;
    while j + 1 < |s| && !(s[j] == '*' && s[j + 1] == '/')
      invariant i <= j <= |s| && BlockEnd(s, j) == BlockEnd(s, i)
    {
      j := j + 1;
    }
  }

  /** Text in quotes where a backslash protects the next character. */
  method CopyEscaped(ghost d: Dialect, s: string, i0: nat, quote: char, b0: string) returns (i: nat, b: string)
    requires i0 <= |s|
    requires Escapes(d, quote) && quote != '['
    ensures i == QuoteEnd(d, quote, s, i0) && b == b0 + s[i0..i]
  {
    i, b := i0, b0;
    while i < |s|
      invariant i0 <= i <= |s| && b == b0 + s[i0..i]
      invariant QuoteEnd(d, quote, s, i) == QuoteEnd(d, quote, s, i0)
    {
      if s[i] == '\\' && i + 1 < |s| {
        SliceGrow(b0, s, i0, i);
        b := b + [s[i]];
        SliceGrow(b0, s, i0, i + 1);
        b := b + [s[i + 1]];
        i := i + 2;
        continue;
      }
      SliceGrow(b0, s, i0, i);
      b := b + [s[i]];
      if s[i] == quote {
        i := i + 1;
        break;
      }
      i := i + 1;
    }
  }

  /** Text in quotes where a doubled quote stands for itself. */
  method CopyDoubled(ghost d: Dialect, s: string, i0: nat, quote: char, b0: string) returns (i: nat, b: string)
    requires i0 <= |s|
    requires Doubles(d, quote)
    ensures i == QuoteEnd(d, quote, s, i0) && b == b0 + s[i0..i]
  {
    i, b := i0, b0;
    while i < |s|
      invariant i0 <= i <= |s| && b == b0 + s[i0..i]
      invariant QuoteEnd(d, quote, s, i) == QuoteEnd(d, quote, s, i0)
    {
      if s[i] == quote && i + 1 < |s| && s[i + 1] == quote {
        SliceGrow(b0, s, i0, i);
        b := b + [s[i]];
        SliceGrow(b0, s, i0, i + 1);
        b := b + [s[i + 1]];
        i := i + 2;
        continue;
      }
      SliceGrow(b0, s, i0, i);
      b := b + [s[i]];
      if s[i] == quote {
        i := i + 1;
        break;
      }
      i := i + 1;
    }
  }

  /** A name in brackets, which nothing protects. */
  method CopyBrackets(ghost d: Dialect, s: string, i0: nat, b0: string) returns (i: nat, b: string)
    requires i0 <= |s|
    ensures i == QuoteEnd(d, '[', s, i0) && b == b0 + s[i0..i]
  {
    i, b := i0, b0;
    while i < |s|
      invariant i0 <= i <= |s| && b == b0 + s[i0..i]
      invariant QuoteEnd(d, '[', s, i) == QuoteEnd(d, '[', s, i0)
    {
      SliceGrow(b0, s, i0, i);
      b := b + [s[i]];
      if s[i] == ']' {
        i := i + 1;
        break;
      }
      i := i + 1;
    }
  }
}
