/** `internal/db/sqlite/sqlclass.go`: the same two scanners for SQLite, where a doubled
    quote stands for itself, a backslash is an ordinary character and `[` quotes a name. */
module SqliteScanners {
  import opened Text
  import opened SqlLexer
  import opened ScannerLoops

  method StripComments(s: string) returns (b: string)
    ensures b == Strip(SQLITE, Normal, s)
  {
    hide Next, Strip, StripsTo, LineEnd, BlockEnd, QuoteEnd;
    b := [];
    var i := 0;
    ghost var out := Strip(SQLITE, Normal, s);
    StripsToStrip(SQLITE, Normal, s, [], out);
    while i < |s|
      invariant 0 <= i <= |s|
      invariant StripsTo(SQLITE, Normal, s[i..], b, out)
    {
      var c := s[i];
      if c == '-' && i + 1 < |s| && s[i + 1] == '-' {
        var j := SkipLineComment(s, i + 2);
        StripLineComment(SQLITE, s, i, b, out);
        i := j;
      } else if c == '/' && i + 1 < |s| && s[i + 1] == '*' {
        var j := SkipBlockComment(s, i + 2);
        StripBlockComment(SQLITE, s, i, b, out);
        i := j + 2;
        if i > |s| {
          i := |s|;
        }
      } else if c == '\'' || c == '"' {
        StripQuotedToken(SQLITE, s, i, b, out);
        b := b + [c];
        var quote := c;
        i, b := CopyDoubled(SQLITE, s, i + 1, quote, b);
      } else if c == '`' {
        StripQuotedToken(SQLITE, s, i, b, out);
        b := b + [c];
        i, b := CopyDoubled(SQLITE, s, i + 1, '`', b);
      } else if c == '[' {
        StripQuotedToken(SQLITE, s, i, b, out);
        b := b + [c];
        i, b := CopyBrackets(SQLITE, s, i + 1, b);
      } else {
        StripPlain(SQLITE, s, i, b, out);
        b := b + [c];
        i := i + 1;
      }
    }
    assert s[i..] == [];
    StripsToStrip(SQLITE, Normal, [], b, out);
    StripNothing(SQLITE);
  }

  method SplitTopLevel(s: string) returns (parts: seq<string>)
    ensures parts == Statements(Bare(SQLITE), GoSpaces, s)
  {
    hide Next, FirstCut, Segments, StatementsOnto, Statements, QuoteEnd;
    parts := [];
    var cur := [];
    var i := 0;
    StatementsOntoIsStatements(Bare(SQLITE), GoSpaces, s);
    assert s[0..] == s;
    while i < |s|
      invariant 0 <= i <= |s|
      invariant parts + StatementsOnto(Bare(SQLITE), GoSpaces, Normal, s[i..], cur)
          == Statements(Bare(SQLITE), GoSpaces, s)
    {
      var c := s[i];
      StatementsNormal(Bare(SQLITE), GoSpaces, s, i, cur);
      if c == '\'' || c == '"' {
        cur := cur + [c];
        var quote := c;
        StatementsQuoted(Bare(SQLITE), GoSpaces, quote, s, i + 1, cur);
        i, cur := CopyDoubled(Bare(SQLITE), s, i + 1, quote, cur);
      } else if c == '`' {
        cur := cur + [c];
        StatementsQuoted(Bare(SQLITE), GoSpaces, '`', s, i + 1, cur);
        i, cur := CopyDoubled(Bare(SQLITE), s, i + 1, '`', cur);
      } else if c == '[' {
        cur := cur + [c];
        StatementsQuoted(Bare(SQLITE), GoSpaces, '[', s, i + 1, cur);
        i, cur := CopyBrackets(Bare(SQLITE), s, i + 1, cur);
      } else if c == ';' {
        Moved(parts, Kept(GoSpaces, cur), StatementsOnto(Bare(SQLITE), GoSpaces, Normal, s[i + 1..], []));
        var t := Trim(GoSpaces, cur);
        if t != [] {
          parts := parts + [t];
        }
        cur := [];
        i := i + 1;
      } else {
        cur := cur + [c];
        i := i + 1;
      }
    }
    StatementsEnd(Bare(SQLITE), GoSpaces, s, cur);
    var t := Trim(GoSpaces, cur);
    if t != [] {
      parts := parts + [t];
    }
  }
}
