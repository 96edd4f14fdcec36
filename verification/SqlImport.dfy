/** `internal/api/sql_import.go`: cutting a script into statements and running them. */
module SqlImport {
  import opened Text
  import opened SqlLexer

  /** The statements still to come, for the lexer that this scanner follows. */
  function Pending(m: Mode, s: string, cur: string): seq<string> {
    StatementsOnto(IMPORT, SqlSpaces, m, s, cur)
  }

  method SplitSQL(text: string) returns (out: seq<string>)
    ensures out == Statements(IMPORT, SqlSpaces, text)
  {
    hide Next, FirstCut, Segments;
    out := [];
    var cur := [];
    var inSingle, inDouble, inBacktick := false, false, false;
    var inLine, inBlock := false, false;
    var i := 0;
    StatementsOntoIsStatements(IMPORT, SqlSpaces, text);
    ghost var m := Normal;
    while i < |text|
      invariant 0 <= i <= |text|
      invariant inSingle == (m == Quoted('\'')) && inDouble == (m == Quoted('"')) && inBacktick == (m == Quoted('`'))
      invariant inLine == (m == LineRemark) && inBlock == (m == BlockRemark)
      invariant m.Quoted? ==> inSingle || inDouble || inBacktick
      invariant Statements(IMPORT, SqlSpaces, text) == out + Pending(m, text[i..], cur)
    {
      var c := text[i];
      var n := if i + 1 < |text| then text[i + 1] else '\0';
      if inLine {
        PendingInLine(text, i, cur);
        cur := cur + [c];
        if c == '\n' {
          inLine, m := false, Normal;
        }
      } else if inBlock {
        PendingInBlock(text, i, cur);
        cur := cur + [c];
        if c == '*' && n == '/' {
          cur := cur + [n];
          i := i + 1;
          inBlock, m := false, Normal;
        }
      } else if inSingle {
        PendingInString(m, text, i, cur);
        cur := cur + [c];
        if c == '\\' && n != '\0' {
          cur := cur + [n];
          i := i + 1;
        } else if c == '\'' {
          inSingle, m := false, Normal;
        }
      } else if inDouble {
        PendingInString(m, text, i, cur);
        cur := cur + [c];
        if c == '\\' && n != '\0' {
          cur := cur + [n];
          i := i + 1;
        } else if c == '"' {
          inDouble, m := false, Normal;
        }
      } else if inBacktick {
        PendingInBacktick(text, i, cur);
        cur := cur + [c];
        if c == '`' {
          inBacktick, m := false, Normal;
        }
      } else if c == '-' && n == '-' {
        PendingLineOpens(text, i, cur);
        inLine, m := true, LineRemark;
        cur := cur + [c];
      } else if c == '/' && n == '*' {
        PendingBlockOpens(text, i, cur);
        inBlock, m := true, BlockRemark;
        cur := cur + [c];
      } else {
        PendingNormal(text, i, cur);
        if c == '\'' {
          inSingle, m := true, Quoted(c);
          cur := cur + [c];
        } else if c == '"' {
          inDouble, m := true, Quoted(c);
          cur := cur + [c];
        } else if c == '`' {
          inBacktick, m := true, Quoted(c);
          cur := cur + [c];
        } else if c == ';' {
          var statement := TrimSQL(cur);
          if |statement| > 0 {
            out := out + [statement];
          }
          cur := [];
        } else {
          cur := cur + [c];
        }
      }
      i := i + 1;
    }
    assert text[i..] == [];
    var statement := TrimSQL(cur);
    if |statement| > 0 {
      out := out + [statement];
    }
  }

  lemma PendingOne(m: Mode, text: string, i: nat, cur: string)
    requires i < |text| && Next(IMPORT, m, text[i..]).n == 1
    ensures var st := Next(IMPORT, m, text[i..]);
            Pending(m, text[i..], cur) ==
            if st.kind == Cut then Kept(SqlSpaces, cur) + Pending(Normal, text[i + 1..], [])
            else Pending(st.mode, text[i + 1..], cur + [text[i]])
  {
    StatementsOne(IMPORT, SqlSpaces, m, text, i, cur);
  }

  /** Inside `'` or `"`.  Before NUL the lexer takes a backslash and the NUL at once,
      while the scanner, which reads NUL as "no next character", takes them one by one. */
  lemma PendingInString(m: Mode, text: string, i: nat, cur: string)
    requires i < |text| && (m == Quoted('\'') || m == Quoted('"'))
    ensures Pending(m, text[i..], cur) ==
            if text[i] == '\\' && i + 1 < |text| && text[i + 1] != '\0'
            then Pending(m, text[i + 2..], cur + [text[i]] + [text[i + 1]])
            else Pending(if text[i] == m.open then Normal else m, text[i + 1..], cur + [text[i]])
  {
    if text[i] == '\\' && i + 1 < |text| {
      StatementsTwo(IMPORT, SqlSpaces, m, text, i, cur);
      if text[i + 1] == '\0' {
        PendingOne(m, text, i + 1, cur + [text[i]]);
      }
    } else {
      PendingOne(m, text, i, cur);
    }
  }

  lemma PendingInLine(text: string, i: nat, cur: string)
    requires i < |text|
    ensures Pending(LineRemark, text[i..], cur) ==
            Pending(if text[i] == '\n' then Normal else LineRemark, text[i + 1..], cur + [text[i]])
  {
    PendingOne(LineRemark, text, i, cur);
  }

  lemma PendingInBacktick(text: string, i: nat, cur: string)
    requires i < |text|
    ensures Pending(Quoted('`'), text[i..], cur) ==
            Pending(if text[i] == '`' then Normal else Quoted('`'), text[i + 1..], cur + [text[i]])
  {
    PendingOne(Quoted('`'), text, i, cur);
  }

  lemma PendingNormal(text: string, i: nat, cur: string)
    requires i < |text| && !At2(text[i..], '-', '-') && !At2(text[i..], '/', '*')
    ensures Pending(Normal, text[i..], cur) ==
            if text[i] == ';' then Kept(SqlSpaces, cur) + Pending(Normal, text[i + 1..], [])
            else Pending(if Opens(IMPORT, text[i]) then Quoted(text[i]) else Normal, text[i + 1..], cur + [text[i]])
  {
    StatementsNormal(IMPORT, SqlSpaces, text, i, cur);
  }

  lemma PendingInBlock(text: string, i: nat, cur: string)
    requires i < |text|
    ensures Pending(BlockRemark, text[i..], cur) ==
            if text[i] == '*' && i + 1 < |text| && text[i + 1] == '/'
            then Pending(Normal, text[i + 2..], cur + [text[i]] + [text[i + 1]])
            else Pending(BlockRemark, text[i + 1..], cur + [text[i]])
  {
    if text[i] == '*' && i + 1 < |text| && text[i + 1] == '/' {
      StatementsTwo(IMPORT, SqlSpaces, BlockRemark, text, i, cur);
    } else {
      PendingOne(BlockRemark, text, i, cur);
    }
  }

  lemma PendingLineOpens(text: string, i: nat, cur: string)
    requires i + 1 < |text| && text[i] == '-' && text[i + 1] == '-'
    ensures Pending(Normal, text[i..], cur) == Pending(LineRemark, text[i + 1..], cur + [text[i]])
  {
    StatementsTwo(IMPORT, SqlSpaces, Normal, text, i, cur);
    PendingOne(LineRemark, text, i + 1, cur + [text[i]]);
  }

  /** The scanner takes the slash alone and meets the star again inside the comment, where
      a slash right after it closes the comment. */
  lemma PendingBlockOpens(text: string, i: nat, cur: string)
    requires i + 1 < |text| && text[i] == '/' && text[i + 1] == '*'
    ensures Pending(Normal, text[i..], cur) == Pending(BlockRemark, text[i + 1..], cur + [text[i]])
  {
    if i + 2 < |text| && text[i + 2] == '/' {
      StatementsTwo(IMPORT, SqlSpaces, BlockRemark, text, i + 1, cur + [text[i]]);
      assert cur + text[i..][..3] == cur + [text[i]] + [text[i + 1]] + [text[i + 2]];
      assert text[i..][3..] == text[i + 3..];
    } else {
      StatementsTwo(IMPORT, SqlSpaces, Normal, text, i, cur);
      PendingOne(BlockRemark, text, i + 1, cur + [text[i]]);
    }
  }

  method TrimSQL(b: string) returns (r: string)
    ensures r == Trim(SqlSpaces, b)
  {
    var start, end := 0, |b|;
    while start < end && IsSpace(SqlSpaces, b[start])
      invariant 0 <= start <= end
      invariant AllSpace(SqlSpaces, b[..start])
    {
      start := start + 1;
    }
    while end > start && IsSpace(SqlSpaces, b[end - 1])
      invariant start <= end <= |b|
      invariant AllSpace(SqlSpaces, b[end..])
    {
      end := end - 1;
    }
    assert b == b[..start] + b[start..end] + b[end..];
    TrimUnique(SqlSpaces, b[..start], b[start..end], b[end..]);
    return b[start..end];
  }
}
