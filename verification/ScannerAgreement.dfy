/** `splitSQL` and the classifier's `stripComments` + `splitTopLevel` were written apart.
    When do they see the same statements in a script? */
module ScannerAgreement {
  import opened Text
  import opened SqlLexer
  import opened SqlLaws

  // ---------- one lexer against the other ----------

  /** The guard of the one branch in which the two differ: a block comment opens with slash,
      star, slash, and one scanner takes the star for its closer too. */
  predicate OpensHasty(m: Mode, s: string) {
    m == Normal && |s| >= 3 && s[0] == '/' && s[1] == '*' && s[2] == '/'
  }

  /** No block comment of the text opens with slash, star, slash. */
  predicate Careful(m: Mode, s: string)
    decreases |s|
  {
    s == [] || (!OpensHasty(m, s) && var st := Next(MYSQL, m, s); Careful(st.mode, s[st.n..]))
  }

  datatype Piece = Piece(text: string, kind: Kind, mode: Mode)

  function Lex(d: Dialect, m: Mode, s: string): seq<Piece>
    decreases |s|
  {
    if s == [] then []
    else var st := Next(d, m, s); [Piece(s[..st.n], st.kind, st.mode)] + Lex(d, st.mode, s[st.n..])
  }

  lemma NextAgrees(m: Mode, s: string)
    requires s != []
    ensures Next(IMPORT, m, s) == Next(MYSQL, m, s) <==> !OpensHasty(m, s)
    ensures OpensHasty(m, s) ==> Next(IMPORT, m, s).n == 3 && Next(MYSQL, m, s).n == 2
  {
  }

  /** The two lexers read a text alike, piece by piece, exactly when it is careful. */
  lemma {:induction false} LexersAgreeExactly(m: Mode, s: string)
    ensures Lex(IMPORT, m, s) == Lex(MYSQL, m, s) <==> Careful(m, s)
    decreases |s|
  {
    if s != [] {
      NextAgrees(m, s);
      hide Next;
      var a, b := Next(IMPORT, m, s), Next(MYSQL, m, s);
      var la, lb := Lex(IMPORT, m, s), Lex(MYSQL, m, s);
      if a == b {
        LexersAgreeExactly(b.mode, s[b.n..]);
        assert la[1..] == Lex(IMPORT, a.mode, s[a.n..]) && lb[1..] == Lex(MYSQL, b.mode, s[b.n..]);
      } else {
        assert |la[0].text| == 3 && |lb[0].text| == 2;
      }
    }
  }

  lemma {:induction false} CutAgrees(m: Mode, s: string)
    requires Careful(m, s)
    ensures FirstCut(IMPORT, m, s) == FirstCut(MYSQL, m, s)
    decreases |s|
  {
    if s != [] {
      NextAgrees(m, s);
      hide Next;
      var st := Next(MYSQL, m, s);
      if st.kind != Cut {
        CutAgrees(st.mode, s[st.n..]);
      }
    }
  }

  lemma {:induction false} CarefulAfterCut(m: Mode, s: string)
    requires Careful(m, s) && FirstCut(MYSQL, m, s) < |s|
    ensures Careful(Normal, s[FirstCut(MYSQL, m, s) + 1..])
    decreases |s|
  {
    hide Next, FirstCut;
    FirstCutStep(MYSQL, m, s);
    var st, k := Next(MYSQL, m, s), FirstCut(MYSQL, m, s);
    if st.kind != Cut {
      CarefulAfterCut(st.mode, s[st.n..]);
      assert s[st.n..][k - st.n + 1..] == s[k + 1..];
    }
  }

  lemma {:induction false} SegmentsAgree(s: string)
    requires Careful(Normal, s)
    ensures Segments(IMPORT, Normal, s) == Segments(MYSQL, Normal, s)
    decreases |s|
  {
    hide Next, FirstCut, Careful;
    CutAgrees(Normal, s);
    var k := FirstCut(MYSQL, Normal, s);
    if k < |s| {
      CarefulAfterCut(Normal, s);
      SegmentsAgree(s[k + 1..]);
    }
  }

  // ---------- stripping before cutting is cutting before stripping ----------

  /** The mode of a text whose comments are gone. */
  function Outside(m: Mode): Mode {
    if m.Quoted? then m else Normal
  }

  /** A piece that is kept is read in the stripped text as it was in the whole text. */
  lemma NextBare(d: Dialect, m: Mode, s: string, rest: string)
    requires s != [] && Next(d, m, s).kind != Remark
    requires |s| == Next(d, m, s).n ==> rest == []
    ensures var st := Next(d, m, s);
            Next(Bare(d), Outside(m), s[..st.n] + rest) == Step(st.n, st.kind, Outside(st.mode))
  {
  }

  lemma RemarkOutside(d: Dialect, m: Mode, s: string)
    requires s != [] && Next(d, m, s).kind == Remark
    ensures Outside(Next(d, m, s).mode) == Outside(m)
  {
  }

  /** What is left of the text before its first cut. */
  function StripToCut(d: Dialect, m: Mode, s: string): string {
    Strip(d, m, s[..FirstCut(d, m, s)])
  }

  lemma StripToCutStep(d: Dialect, m: Mode, s: string)
    requires s != [] && Next(d, m, s).kind != Cut
    ensures var st := Next(d, m, s);
            var rest := StripToCut(d, st.mode, s[st.n..]);
            StripToCut(d, m, s) == if st.kind == Remark then rest else s[..st.n] + rest
  {
    hide Next, FirstCut, Strip;
    var st, k := Next(d, m, s), FirstCut(d, m, s);
    FirstCutStep(d, m, s);
    NextLocal(d, m, s, k);
    StripStep(d, m, s[..k]);
    PrefixSlices(s, st.n, k);
  }

  lemma CutStripped(d: Dialect, m: Mode, s: string)
    requires s != [] && Next(d, m, s).kind == Cut
    ensures FirstCut(d, m, s) == 0 && FirstCut(Bare(d), Outside(m), Strip(d, m, s)) == 0
    ensures Strip(d, m, s) == ";" + Strip(d, Normal, s[1..]) && StripToCut(d, m, s) == []
  {
    CutMode(d, m, s);
    CutHere(Bare(d), Strip(d, Normal, s[1..]));
    assert s[..1] == ";" && s[..0] == [];
  }

  lemma CutOfCode(d: Dialect, m: Mode, s: string)
    requires s != [] && Next(d, m, s).kind == Code
    ensures var st := Next(d, m, s);
            FirstCut(Bare(d), Outside(m), Strip(d, m, s)) ==
            st.n + FirstCut(Bare(d), Outside(st.mode), Strip(d, st.mode, s[st.n..]))
  {
    hide Next, FirstCut;
    var st := Next(d, m, s);
    var rest := Strip(d, st.mode, s[st.n..]);
    assert s[st.n..] == [] ==> rest == [];
    NextBare(d, m, s, rest);
    FirstCutStep(Bare(d), Outside(m), s[..st.n] + rest);
    SliceConcatPast(s[..st.n], rest, 0);
  }

  /** The first cut of the stripped text is what is left of the text before its first cut. */
  lemma {:induction false} CutOfStripped(d: Dialect, m: Mode, s: string)
    ensures FirstCut(Bare(d), Outside(m), Strip(d, m, s)) == |StripToCut(d, m, s)|
    decreases |s|
  {
    if s != [] {
      hide *;
      var st := Next(d, m, s);
      if st.kind == Cut {
        CutStripped(d, m, s);
      } else {
        CutOfStripped(d, st.mode, s[st.n..]);
        StripStep(d, m, s);
        StripToCutStep(d, m, s);
        if st.kind == Remark {
          RemarkOutside(d, m, s);
        } else {
          CutOfCode(d, m, s);
        }
      }
    }
  }

  lemma {:induction false} StripAtCut(d: Dialect, m: Mode, s: string)
    requires FirstCut(d, m, s) < |s|
    ensures Strip(d, m, s) == StripToCut(d, m, s) + (";" + Strip(d, Normal, s[FirstCut(d, m, s) + 1..]))
    decreases |s|
  {
    hide *;
    FirstCutStep(d, m, s);
    var st, k := Next(d, m, s), FirstCut(d, m, s);
    var tail := ";" + Strip(d, Normal, s[k + 1..]);
    if st.kind == Cut {
      CutStripped(d, m, s);
      assert [] + tail == tail;
    } else {
      StripStep(d, m, s);
      StripToCutStep(d, m, s);
      StripAtCut(d, st.mode, s[st.n..]);
      DropDrop(s, st.n, k - st.n + 1);
      ConcatAssoc(s[..st.n], StripToCut(d, st.mode, s[st.n..]), tail);
    }
  }

  function MapStrip(d: Dialect, c: Cuts): Cuts {
    match c
    case Last(x) => Last(Strip(d, Normal, x))
    case More(x, rest) => More(Strip(d, Normal, x), MapStrip(d, rest))
  }

  /** Cutting the stripped text gives the stripped segments of the text. */
  lemma {:induction false} SegmentsOfStripped(d: Dialect, s: string)
    ensures Segments(Bare(d), Normal, Strip(d, Normal, s)) == MapStrip(d, Segments(d, Normal, s))
    decreases |s|
  {
    hide Next, FirstCut, Strip;
    CutOfStripped(d, Normal, s);
    var k := FirstCut(d, Normal, s);
    if k == |s| {
      assert s[..k] == s;
    } else {
      StripAtCut(d, Normal, s);
      SegmentsOfStripped(d, s[k + 1..]);
      var t, x := Strip(d, Normal, s), Strip(d, Normal, s[..k]);
      SliceConcatPast(x, ";" + Strip(d, Normal, s[k + 1..]), 0);
      SliceConcatPast(x, ";" + Strip(d, Normal, s[k + 1..]), 1);
      assert (";" + Strip(d, Normal, s[k + 1..]))[1..] == Strip(d, Normal, s[k + 1..]) && x + [] == x;
    }
  }

  // ---------- trimming before and after ----------

  /** White space behind a text can only add white space to what is left of it. */
  lemma {:induction false} StripPadRight(d: Dialect, m: Mode, s: string, pad: string) returns (kept: string)
    requires AllSpace(GoSpaces, pad)
    ensures Strip(d, m, s + pad) == Strip(d, m, s) + kept && AllSpace(GoSpaces, kept)
    decreases |s|
  {
    if s == [] {
      kept := StripPad(d, m, pad);
      assert s + pad == pad && [] + kept == kept;
    } else if Next(d, m, s + pad) == Next(d, m, s) {
      hide Next, Strip;
      var st := Next(d, m, s);
      StripStep(d, m, s);
      StripStep(d, m, s + pad);
      SliceConcat(s, pad, st.n);
      kept := StripPadRight(d, st.mode, s[st.n..], pad);
      ConcatAssoc(s[..st.n], Strip(d, st.mode, s[st.n..]), kept);
    } else {
      SeamAtPad(d, m, s, pad);
      kept := StripPad(d, m, pad[1..]);
      StripStep(d, m, s + pad);
      StripStep(d, m, s);
      hide *;
      SliceConcatPast(s, pad, 1);
      assert pad[..1] == [pad[0]];
      assert s[..1] == s && s[1..] == [] && s + [] == s;
      ConcatAssoc(s, [pad[0]], kept);
      kept := [pad[0]] + kept;
    }
  }

  /** The one step that white space behind the text can change: a backslash inside quotes. */
  lemma SeamAtPad(d: Dialect, m: Mode, s: string, pad: string)
    requires s != [] && AllSpace(GoSpaces, pad) && Next(d, m, s + pad) != Next(d, m, s)
    ensures pad != [] && |s| == 1
    ensures Next(d, m, s) == Step(1, Code, m) && Next(d, m, s + pad) == Step(2, Code, m)
    ensures Strip(d, m, []) == []
  {
    assert s + [] == s;
  }

  lemma {:induction false} StripPad(d: Dialect, m: Mode, pad: string) returns (kept: string)
    requires AllSpace(GoSpaces, pad)
    ensures Strip(d, m, pad) == kept && AllSpace(GoSpaces, kept)
    decreases |pad|
  {
    kept := Strip(d, m, pad);
    if pad != [] {
      var st := Next(d, m, pad);
      var rest := StripPad(d, st.mode, pad[st.n..]);
      StripStep(d, m, pad);
      hide Next, Strip;
    }
  }

  lemma {:induction false} StripPadLeft(d: Dialect, pad: string, s: string)
    requires AllSpace(GoSpaces, pad)
    ensures Strip(d, Normal, pad + s) == pad + Strip(d, Normal, s)
  {
    if pad == [] {
      assert pad + s == s && [] + Strip(d, Normal, s) == Strip(d, Normal, s);
    } else {
      hide Next, Strip;
      SpaceStep(d, pad, s);
      StripStep(d, Normal, pad + s);
      SliceConcat(pad, s, 1);
      StripPadLeft(d, pad[1..], s);
      assert pad == pad[..1] + pad[1..];
      ConcatAssoc(pad[..1], pad[1..], Strip(d, Normal, s));
    }
  }

  /** `trimSQL` before stripping is undone by `TrimSpace` after it. */
  lemma KeptStrip(d: Dialect, x: string)
    ensures Kept(GoSpaces, Strip(d, Normal, Trim(SqlSpaces, x))) == Kept(GoSpaces, Strip(d, Normal, x))
  {
    hide Next, Strip, Trim;
    var l, r := TrimParts(SqlSpaces, x);
    var t := Trim(SqlSpaces, x);
    WiderSpaces(SqlSpaces, l);
    WiderSpaces(SqlSpaces, r);
    ConcatAssoc(l, t, r);
    StripPadLeft(d, l, t + r);
    var kept := StripPadRight(d, Normal, t, r);
    ConcatAssoc(l, Strip(d, Normal, t), kept);
    KeptPadded(GoSpaces, l, Strip(d, Normal, t), kept);
  }

  // ---------- the two ways to read a script ----------

  /** What the classifier keeps of statements that `splitSQL` cut: each stripped and
      trimmed, those that were only comments left out. */
  function CodeOf(statements: seq<string>): seq<string> {
    if statements == [] then []
    else Kept(GoSpaces, Strip(MYSQL, Normal, statements[0])) + CodeOf(statements[1..])
  }

  lemma {:induction false} CodeOfAppend(a: seq<string>, b: seq<string>)
    ensures CodeOf(a + b) == CodeOf(a) + CodeOf(b)
  {
    hide Strip, Kept;
    if a == [] {
      assert a + b == b;
    } else {
      assert (a + b)[1..] == a[1..] + b;
      CodeOfAppend(a[1..], b);
    }
  }

  lemma CodeOfKept(x: string)
    ensures CodeOf(Kept(SqlSpaces, x)) == Kept(GoSpaces, Strip(MYSQL, Normal, x))
  {
    KeptStrip(MYSQL, x);
    var t := Trim(SqlSpaces, x);
    assert Strip(MYSQL, Normal, []) == [] && Kept(GoSpaces, []) == [];
    hide Strip, Trim;
    if t != [] {
      assert [t][1..] == [];
      assert CodeOf([t]) == Kept(GoSpaces, Strip(MYSQL, Normal, t)) + CodeOf([]);
    }
  }

  lemma {:induction false} CodeOfSegments(c: Cuts)
    ensures CodeOf(NonBlank(SqlSpaces, c)) == NonBlank(GoSpaces, MapStrip(MYSQL, c))
  {
    hide Strip, Kept, CodeOf;
    match c
    case Last(x) => CodeOfKept(x);
    case More(x, rest) =>
      CodeOfKept(x);
      CodeOfSegments(rest);
      CodeOfAppend(Kept(SqlSpaces, x), NonBlank(SqlSpaces, rest));
  }

  /** Unless a comment opens with slash, star, slash, stripping the comments of a script
      and cutting it gives what cutting it and stripping each statement gives. */
  lemma ScannersAgree(t: string)
    requires Careful(Normal, t)
    ensures Statements(Bare(MYSQL), GoSpaces, Strip(MYSQL, Normal, t)) == CodeOf(Statements(IMPORT, SqlSpaces, t))
  {
    hide Strip, Kept, Segments, NonBlank, CodeOf, Careful;
    SegmentsOfStripped(MYSQL, t);
    SegmentsAgree(t);
    CodeOfSegments(Segments(MYSQL, Normal, t));
  }

  lemma ExampleStripped()
    ensures Strip(MYSQL, Normal, "/*/;a") == [] && Strip(MYSQL, Normal, "/*/") == [] && Strip(MYSQL, Normal, "a") == "a"
  {
    assert "/*/;a"[2..] == "/;a" && "/;a"[1..] == ";a" && ";a"[1..] == "a" && "a"[1..] == [];
    assert Strip(MYSQL, BlockRemark, "/;a") == [] by {
      assert Strip(MYSQL, BlockRemark, ";a") == [];
    }
    assert "/*/"[2..] == "/" && "/"[1..] == [];
    assert Strip(MYSQL, BlockRemark, "/") == [];
  }

  lemma ExampleCut()
    ensures FirstCut(IMPORT, Normal, "/*/;a") == 3 && FirstCut(IMPORT, Normal, "a") == 1
  {
    hide FirstCut;
    assert "/*/;a"[3..] == ";a" && "a"[1..] == [];
    FirstCutStep(IMPORT, Normal, "/*/;a");
    FirstCutStep(IMPORT, Normal, ";a");
    FirstCutStep(IMPORT, Normal, "a");
    NoCut();
  }

  lemma NoCut()
    ensures FirstCut(IMPORT, Normal, []) == 0
  {
  }

  lemma ExampleStatements()
    ensures Statements(IMPORT, SqlSpaces, "/*/;a") == ["/*/"] + ["a"]
  {
    hide Next, FirstCut, Segments;
    ExampleCut();
    var t := "/*/;a";
    assert t[..3] == "/*/" && t[4..] == "a" && "a"[..1] == "a";
    StatementsStep(IMPORT, SqlSpaces, t);
    StatementsStep(IMPORT, SqlSpaces, "a");
  }

  /** The guard is needed: here one scanner sees a statement and the other sees none. */
  lemma ScannersDisagree()
    ensures !Careful(Normal, "/*/;a")
    ensures Statements(Bare(MYSQL), GoSpaces, Strip(MYSQL, Normal, "/*/;a")) == []
    ensures CodeOf(Statements(IMPORT, SqlSpaces, "/*/;a")) == ["a"]
  {
    ExampleStatements();
    ExampleStripped();
    StatementsStep(Bare(MYSQL), GoSpaces, []);
    CodeOfAppend(["/*/"], ["a"]);
    hide Next, FirstCut, Strip, Statements;
    assert ["/*/"][1..] == [] && ["a"][1..] == [];
  }
}
