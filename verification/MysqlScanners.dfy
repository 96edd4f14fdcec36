/** `internal/db/mysql/sqlclass.go`: the two scanners in front of the classifier. */
module MysqlScanners {
  import opened Text
  import opened SqlLexer
  import opened ScannerLoops

  method StripComments(s: string) returns (b: string)
    ensures b == Strip(MYSQL, Normal, s)
  {
    hide Next, Strip, StripsTo, LineEnd, BlockEnd, QuoteEnd;
    b := [];
    var i := 0;
    ghost var out := Strip(MYSQL, Normal, s);
    StripsToStrip(MYSQL, Normal, s, [], out);
    while i < |s|
      invariant 0 <= i <= |s|
      invariant StripsTo(MYSQL, Normal, s[i..], b, out)
    {
      var c := s[i];
      if c == '-' && i + 1 < |s| && s[i + 1] == '-' {
        var j := SkipLineComment(s, i + 2);
        StripLineComment(MYSQL, s, i, b, out);
        i := j;
      } else if c == '/' && i + 1 < |s| && s[i + 1] == '*' {
        var j := SkipBlockComment(s, i + 2);
        StripBlockComment(MYSQL, s, i, b, out);
        i := j + 2;
        if i > |s| {
          i := |s|;
        }
      } else if c == '\'' || c == '"' {
        StripQuotedToken(MYSQL, s, i, b, out);
        b := b + [c];
        var quote := c;
        i, b := CopyEscaped(MYSQL, s, i + 1, quote, b);
      } else if c == '`' {
        StripQuotedToken(MYSQL, s, i, b, out);
        b := b + [c];
        i, b := CopyDoubled(MYSQL, s, i + 1, '`', b);
      } else {
        StripPlain(MYSQL, s, i, b, out);
        b := b + [c];
        i := i + 1;
      }
    }
    assert s[i..] == [];
    StripsToStrip(MYSQL, Normal, [], b, out);
    StripNothing(MYSQL);
  }

  method SplitTopLevel(s: string) returns (parts: seq<string>)
    ensures parts == Statements(Bare(MYSQL), GoSpaces, s)
  {
    hide Next, FirstCut, Segments, StatementsOnto, Statements, QuoteEnd;
    parts := [];
    var cur := [];
    var i := 0;
    StatementsOntoIsStatements(Bare(MYSQL), GoSpaces, s);
    assert s[0..] == s;
    while i < |s|
      invariant 0 <= i <= |s|
      invariant parts + StatementsOnto(Bare(MYSQL), GoSpaces, Normal, s[i..], cur)
          == Statements(Bare(MYSQL), GoSpaces, s)
    {
      var c := s[i];
      StatementsNormal(Bare(MYSQL), GoSpaces, s, i, cur);
      if c == '\'' || c == '"' {
        cur := cur + [c];
        var quote := c;
        StatementsQuoted(Bare(MYSQL), GoSpaces, quote, s, i + 1, cur);
        i, cur := CopyEscaped(Bare(MYSQL), s, i + 1, quote, cur);
      } else if c == '`' {
        cur := cur + [c];
        StatementsQuoted(Bare(MYSQL), GoSpaces, '`', s, i + 1, cur);
        i, cur := CopyDoubled(Bare(MYSQL), s, i + 1, '`', cur);
      } else if c == ';' {
        Moved(parts, Kept(GoSpaces, cur), StatementsOnto(Bare(MYSQL), GoSpaces, Normal, s[i + 1..], []));
        var t := Trim(GoSpaces, cur);
        if t != [] {
          parts := parts + [t];
        }
        cur := [];
        i := i + 1;
      } else {
        cur := cur + [c];
        i := i + 1;
      }
    }
    StatementsEnd(Bare(MYSQL), GoSpaces, s, cur);
    var t := Trim(GoSpaces, cur);
    if t != [] {
      parts := parts + [t];
    }
  }
}
