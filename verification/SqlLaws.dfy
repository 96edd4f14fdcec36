/** What cutting and stripping mean: conservation, composition and uniqueness, for every
    dialect of the lexer. */
module SqlLaws {
  import opened Text
  import opened SqlLexer

  /** Text without a top-level semicolon, after which a semicolon would be one. */
  predicate Closed(d: Dialect, s: string) {
    End(d, Normal, s) == Normal && FirstCut(d, Normal, s) == |s|
  }

  /** Side by side, the two texts do not form a comment opener at the seam. */
  predicate Seam(a: string, b: string) {
    a == [] || b == [] ||
    (!(a[|a| - 1] == '-' && b[0] == '-') && !(a[|a| - 1] == '/' && b[0] == '*'))
  }

  /** The text that the segments were cut from. */
  function Rejoin(c: Cuts): string {
    match c
    case Last(x) => x
    case More(x, rest) => x + ";" + Rejoin(rest)
  }

  function Chain(a: Cuts, b: Cuts): Cuts {
    match a
    case Last(x) => More(x, b)
    case More(x, rest) => More(x, Chain(rest, b))
  }

  /** Nothing is lost: the segments, joined by the semicolons between them, are the text. */
  lemma {:induction false} SegmentsConserve(d: Dialect, m: Mode, s: string)
    ensures Rejoin(Segments(d, m, s)) == s
    decreases |s|
  {
    hide Next;
    var k := FirstCut(d, m, s);
    if k < |s| {
      SegmentsConserve(d, Normal, s[k + 1..]);
      assert s == s[..k] + ";" + s[k + 1..];
    }
  }

  /** The next step does not see what follows a text that ends in normal mode. */
  lemma NextAppend(d: Dialect, m: Mode, a: string, b: string)
    requires a != [] && End(d, m, a) == Normal && Seam(a, b)
    ensures Next(d, m, a + b) == Next(d, m, a)
  {
    var st := Next(d, m, a);
    if st.n == |a| {
      assert a[st.n..] == [];
      assert st.mode == Normal;
    }
  }

  lemma {:induction false} EndAppend(d: Dialect, m: Mode, a: string, b: string)
    requires End(d, m, a) == Normal && Seam(a, b)
    ensures End(d, m, a + b) == End(d, Normal, b)
    decreases |a|
  {
    hide Next;
    if a == [] {
      assert a + b == b;
    } else {
      NextAppend(d, m, a, b);
      var st := Next(d, m, a);
      SliceConcat(a, b, st.n);
      EndAppend(d, st.mode, a[st.n..], b);
    }
  }

  lemma {:induction false} StripAppend(d: Dialect, m: Mode, a: string, b: string)
    requires End(d, m, a) == Normal && Seam(a, b)
    ensures Strip(d, m, a + b) == Strip(d, m, a) + Strip(d, Normal, b)
    decreases |a|
  {
    hide Next;
    if a == [] {
      assert a + b == b;
    } else {
      NextAppend(d, m, a, b);
      var st := Next(d, m, a);
      SliceConcat(a, b, st.n);
      StripAppend(d, st.mode, a[st.n..], b);
    }
  }

  lemma {:induction false} CutAppend(d: Dialect, m: Mode, a: string, b: string)
    requires End(d, m, a) == Normal && Seam(a, b)
    ensures var k := FirstCut(d, m, a);
            FirstCut(d, m, a + b) == if k < |a| then k else k + FirstCut(d, Normal, b)
    decreases |a|
  {
    hide Next;
    if a == [] {
      assert a + b == b;
    } else {
      NextAppend(d, m, a, b);
      var st := Next(d, m, a);
      SliceConcat(a, b, st.n);
      CutAppend(d, st.mode, a[st.n..], b);
    }
  }

  /** Behind a top-level semicolon the text starts afresh. */
  lemma {:induction false} EndAfterCut(d: Dialect, m: Mode, s: string)
    requires FirstCut(d, m, s) < |s|
    ensures End(d, Normal, s[FirstCut(d, m, s) + 1..]) == End(d, m, s)
    decreases |s|
  {
    hide Next;
    var st := Next(d, m, s);
    if st.kind != Cut {
      EndAfterCut(d, st.mode, s[st.n..]);
    }
  }

  /** After normal mode a semicolon cuts. */
  lemma {:induction false} CutAfter(d: Dialect, a: string, b: string)
    requires End(d, Normal, a) == Normal
    ensures Segments(d, Normal, a + ";" + b) == Chain(Segments(d, Normal, a), Segments(d, Normal, b))
    decreases |a|
  {
    hide Next, End, FirstCut;
    var k := FirstCut(d, Normal, a);
    CutPosition(d, a, b);
    CutSlices(a, b, k);
    if k < |a| {
      EndAfterCut(d, Normal, a);
      CutAfter(d, a[k + 1..], b);
    }
  }

  lemma CutSlices(a: string, b: string, k: nat)
    requires k <= |a|
    ensures var t := a + ";" + b;
            t[..k] == a[..k] && if k < |a| then t[k + 1..] == a[k + 1..] + ";" + b else t[k + 1..] == b
  {
  }

  lemma CutHere(d: Dialect, b: string)
    ensures FirstCut(d, Normal, ";" + b) == 0
  {
  }

  lemma CutPosition(d: Dialect, a: string, b: string)
    requires End(d, Normal, a) == Normal
    ensures FirstCut(d, Normal, a + ";" + b) == FirstCut(d, Normal, a)
  {
    CutHere(d, b);
    hide Next, FirstCut, End;
    assert a + ";" + b == a + (";" + b);
    CutAppend(d, Normal, a, ";" + b);
  }

  /** The step of a text that does not end in normal mode, when a semicolon follows it. */
  lemma AbsorbStep(d: Dialect, m: Mode, a: string, b: string)
    requires a != [] && End(d, m, a) != Normal
    ensures var st, st' := Next(d, m, a), Next(d, m, a + (";" + b));
            st' == st || (st.n == |a| && st'.n == |a| + 1 && st'.kind != Cut)
  {
    var st := Next(d, m, a);
    if st.n == |a| {
      assert a[st.n..] == [];
    }
  }

  lemma AbsorbHere(d: Dialect, m: Mode, b: string)
    requires m != Normal
    ensures FirstCut(d, m, [] + (";" + b)) > 0
  {
  }

  /** After any other mode the semicolon is part of what the mode is about. */
  lemma {:induction false} Absorb(d: Dialect, m: Mode, a: string, b: string)
    requires End(d, m, a) != Normal && FirstCut(d, m, a) == |a|
    ensures FirstCut(d, m, a + (";" + b)) > |a|
    decreases |a|
  {
    if a == [] {
      AbsorbHere(d, m, b);
    } else {
      var t := a + (";" + b);
      hide *;
      AbsorbStep(d, m, a, b);
      EndStep(d, m, a);
      FirstCutStep(d, m, a);
      FirstCutStep(d, m, t);
      var st := Next(d, m, a);
      if Next(d, m, t) == st {
        SliceConcat(a, ";" + b, st.n);
        Absorb(d, st.mode, a[st.n..], b);
      }
    }
  }

  lemma EndStep(d: Dialect, m: Mode, s: string)
    requires s != []
    ensures var st := Next(d, m, s); End(d, m, s) == End(d, st.mode, s[st.n..])
  {
  }

  // ---------- the segments are the only way to read the text ----------

  /** Every segment but the last is closed, and the last has no top-level semicolon. */
  predicate Honest(d: Dialect, c: Cuts) {
    match c
    case Last(x) => FirstCut(d, Normal, x) == |x|
    case More(x, rest) => Closed(d, x) && Honest(d, rest)
  }

  lemma {:induction false} PrefixClosed(d: Dialect, m: Mode, s: string)
    requires FirstCut(d, m, s) < |s|
    ensures var k := FirstCut(d, m, s);
            FirstCut(d, m, s[..k]) == k && End(d, m, s[..k]) == Normal
    decreases |s|
  {
    hide Next, FirstCut, End;
    var st, k := Next(d, m, s), FirstCut(d, m, s);
    FirstCutStep(d, m, s);
    if st.kind == Cut {
      CutMode(d, m, s);
      assert s[..k] == [];
      EmptyClosed(d);
    } else {
      PrefixClosed(d, st.mode, s[st.n..]);
      PrefixSlices(s, st.n, k);
      NextLocal(d, m, s, k);
      FirstCutStep(d, m, s[..k]);
      EndStep(d, m, s[..k]);
    }
  }

  lemma EmptyClosed(d: Dialect)
    ensures FirstCut(d, Normal, []) == 0 && End(d, Normal, []) == Normal
  {
  }

  lemma CutMode(d: Dialect, m: Mode, s: string)
    requires s != [] && Next(d, m, s).kind == Cut
    ensures m == Normal
  {
  }

  lemma {:induction false} SegmentsHonest(d: Dialect, s: string)
    ensures Honest(d, Segments(d, Normal, s))
    decreases |s|
  {
    hide Next, FirstCut, End;
    var k := FirstCut(d, Normal, s);
    if k < |s| {
      PrefixClosed(d, Normal, s);
      SegmentsHonest(d, s[k + 1..]);
    }
  }

  lemma {:induction false} HonestIsSegments(d: Dialect, c: Cuts)
    requires Honest(d, c)
    ensures Segments(d, Normal, Rejoin(c)) == c
  {
    hide Next, FirstCut, End;
    match c
    case Last(x) =>
    case More(x, rest) =>
      HonestIsSegments(d, rest);
      CutAfter(d, x, Rejoin(rest));
  }

  /** A script has exactly one reading as closed segments with semicolons between them. */
  lemma SegmentsUnique(d: Dialect, s: string, c: Cuts)
    ensures c == Segments(d, Normal, s) <==> Rejoin(c) == s && Honest(d, c)
  {
    SegmentsConserve(d, Normal, s);
    SegmentsHonest(d, s);
    if Rejoin(c) == s && Honest(d, c) {
      HonestIsSegments(d, c);
    }
  }

  // ---------- when two scripts can be joined by a semicolon ----------

  lemma {:induction false} NonBlankChain(w: Spaces, a: Cuts, b: Cuts)
    ensures NonBlank(w, Chain(a, b)) == NonBlank(w, a) + NonBlank(w, b)
  {
    hide Kept;
    match a
    case Last(x) =>
    case More(x, rest) => NonBlankChain(w, rest, b);
  }

  lemma StatementsJoin(d: Dialect, w: Spaces, a: string, b: string)
    requires End(d, Normal, a) == Normal
    ensures Statements(d, w, a + ";" + b) == Statements(d, w, a) + Statements(d, w, b)
  {
    CutAfter(d, a, b);
    NonBlankChain(w, Segments(d, Normal, a), Segments(d, Normal, b));
  }

  /** What a step finds does not depend on text beyond the character after it. */
  lemma NextStable(d: Dialect, m: Mode, a: string, b: string)
    requires a != [] && Next(d, m, a).n < |a|
    ensures Next(d, m, a + b) == Next(d, m, a)
  {
  }

  lemma {:induction false} CutStable(d: Dialect, m: Mode, a: string, b: string)
    requires FirstCut(d, m, a) < |a|
    ensures FirstCut(d, m, a + b) == FirstCut(d, m, a)
    decreases |a|
  {
    var st := Next(d, m, a);
    if st.kind == Cut {
      CutMode(d, m, a);
    } else {
      hide Next;
      NextStable(d, m, a, b);
      SliceConcat(a, b, st.n);
      CutStable(d, st.mode, a[st.n..], b);
    }
  }

  lemma KeptSemicolon(w: Spaces, x: string)
    ensures Kept(w, x + ";") != Kept(w, x)
  {
    var l, r := TrimParts(w, x);
    var t := Trim(w, x);
    if t == [] {
      assert x + ";" == x + ";" + [] && x == l + r;
      TrimUnique(w, x, ";", []);
    } else {
      assert x + ";" == l + (t + r + ";") + [];
      assert (t + r + ";")[0] == t[0];
      TrimUnique(w, l, t + r + ";", []);
    }
  }

  lemma Cancel(x: seq<string>, y: seq<string>, z: seq<string>)
    ensures x + y == x + z <==> y == z
  {
    assert (x + y)[|x|..] == y && (x + z)[|x|..] == z;
  }

  lemma {:induction false} Swallowed(d: Dialect, w: Spaces, a: string)
    requires End(d, Normal, a) != Normal
    ensures Statements(d, w, a + ";") != Statements(d, w, a)
    decreases |a|
  {
    hide Next, FirstCut, End, Kept, Segments, NonBlank, Statements;
    var t, k := a + ";", FirstCut(d, Normal, a);
    StatementsStep(d, w, a);
    StatementsStep(d, w, t);
    if k < |a| {
      CutStable(d, Normal, a, ";");
      EndAfterCut(d, Normal, a);
      Swallowed(d, w, a[k + 1..]);
      SliceConcat(a, ";", k);
      SliceConcat(a, ";", k + 1);
      Cancel(Kept(w, a[..k]), Statements(d, w, t[k + 1..]), Statements(d, w, a[k + 1..]));
    } else {
      assert a + (";" + []) == t;
      Absorb(d, Normal, a, []);
      assert FirstCut(d, Normal, t) == |t| && t[..|t|] == t && a[..k] == a;
      assert Kept(w, t) + [] == Kept(w, t) && Kept(w, a) + [] == Kept(w, a);
      KeptSemicolon(w, a);
    }
  }

  /** Two scripts can be joined by a semicolon, whatever the second is, exactly when the
      first ends outside quotes and comments. */
  lemma JoinExact(d: Dialect, w: Spaces, a: string)
    ensures End(d, Normal, a) == Normal <==>
            forall b :: Statements(d, w, a + ";" + b) == Statements(d, w, a) + Statements(d, w, b)
  {
    if End(d, Normal, a) == Normal {
      forall b ensures Statements(d, w, a + ";" + b) == Statements(d, w, a) + Statements(d, w, b) {
        StatementsJoin(d, w, a, b);
      }
    } else {
      Swallowed(d, w, a);
      assert a + ";" + [] == a + ";";
      assert Segments(d, Normal, []) == Last([]);
      assert Statements(d, w, a) + Statements(d, w, []) == Statements(d, w, a);
    }
  }

  /** A script that swallows the semicolon behind it: one with an open quote. */
  lemma OpenQuoteJoins(d: Dialect, w: Spaces)
    ensures Statements(d, w, "'" + ";" + "") != Statements(d, w, "'") + Statements(d, w, "")
  {
    hide Statements;
    assert "'"[1..] == [];
    assert Next(d, Normal, "'") == Step(1, Code, Quoted('\''));
    assert End(d, Quoted('\''), []) != Normal;
    Swallowed(d, w, "'");
    assert "'" + ";" + "" == "'" + ";";
    StatementsStep(d, w, "");
  }

  // ---------- white space around a script ----------

  lemma {:induction false} CutLocal(d: Dialect, m: Mode, s: string, n: nat)
    requires FirstCut(d, m, s) < n <= |s|
    ensures FirstCut(d, m, s[..n]) == FirstCut(d, m, s)
    decreases |s|
  {
    hide Next, FirstCut;
    var st := Next(d, m, s);
    FirstCutStep(d, m, s);
    FirstCutStep(d, m, s[..n]);
    NextLocal(d, m, s, n);
    if st.kind != Cut {
      CutLocal(d, st.mode, s[st.n..], n - st.n);
      PrefixSlices(s, st.n, n);
    }
  }

  lemma PrefixSlices(s: string, n: nat, k: nat)
    requires n <= k <= |s|
    ensures s[..k][n..] == s[n..][..k - n] && s[..k][..n] == s[..n]
  {
  }

  lemma {:induction false} CutPadRight(d: Dialect, s: string, pad: string)
    requires AllSpace(GoSpaces, pad)
    ensures var k := FirstCut(d, Normal, s);
            FirstCut(d, Normal, s + pad) == if k < |s| then k else |s + pad|
  {
    var k := FirstCut(d, Normal, s + pad);
    hide Next, FirstCut;
    forall i | |s| <= i < |s + pad| ensures (s + pad)[i] != ';' {
      assert IsSpace(GoSpaces, pad[i - |s|]);
    }
    SliceConcat(s, pad, |s|);
    assert s[..|s|] == s;
    if FirstCut(d, Normal, s) < |s| {
      CutStable(d, Normal, s, pad);
    }
    if k < |s| {
      CutLocal(d, Normal, s + pad, |s|);
    }
  }

  lemma {:induction false} StatementsPadRight(d: Dialect, s: string, pad: string)
    requires AllSpace(GoSpaces, pad)
    ensures Statements(d, GoSpaces, s + pad) == Statements(d, GoSpaces, s)
    decreases |s|
  {
    hide Next, FirstCut, Kept, Statements;
    var k := FirstCut(d, Normal, s);
    CutPadRight(d, s, pad);
    StatementsStep(d, GoSpaces, s);
    StatementsStep(d, GoSpaces, s + pad);
    if k < |s| {
      SliceConcat(s, pad, k);
      SliceConcat(s, pad, k + 1);
      StatementsPadRight(d, s[k + 1..], pad);
    } else {
      assert (s + pad)[..|s + pad|] == s + pad && s[..k] == s;
      KeptPadded(GoSpaces, [], s, pad);
      assert [] + s + pad == s + pad;
    }
  }

  lemma KeptPadded(w: Spaces, left: string, s: string, right: string)
    requires AllSpace(w, left) && AllSpace(w, right)
    ensures Kept(w, left + s + right) == Kept(w, s)
  {
    TrimPadded(w, left, s, right);
  }

  lemma {:induction false} CutPadLeft(d: Dialect, pad: string, s: string)
    requires AllSpace(GoSpaces, pad)
    ensures FirstCut(d, Normal, pad + s) == |pad| + FirstCut(d, Normal, s)
  {
    if pad == [] {
      assert pad + s == s;
    } else {
      SpaceStep(d, pad, s);
      hide Next;
      SliceConcat(pad, s, 1);
      CutPadLeft(d, pad[1..], s);
    }
  }

  lemma WiderSpaces(w: Spaces, s: string)
    requires AllSpace(w, s)
    ensures AllSpace(GoSpaces, s)
  {
  }

  lemma SpaceStep(d: Dialect, pad: string, s: string)
    requires AllSpace(GoSpaces, pad) && pad != []
    ensures Next(d, Normal, pad + s) == Step(1, Code, Normal)
  {
  }

  lemma StatementsPadLeft(d: Dialect, w: Spaces, pad: string, s: string)
    requires AllSpace(w, pad)
    ensures Statements(d, w, pad + s) == Statements(d, w, s)
  {
    hide Next, FirstCut, Kept, Statements;
    var k := FirstCut(d, Normal, s);
    WiderSpaces(w, pad);
    CutPadLeft(d, pad, s);
    StatementsStep(d, w, s);
    StatementsStep(d, w, pad + s);
    SliceConcatPast(pad, s, k);
    assert pad + s[..k] + [] == pad + s[..k];
    KeptPadded(w, pad, s[..k], []);
    if k < |s| {
      SliceConcatPast(pad, s, k + 1);
    }
  }

  /** Trimming a script does not change its statements. */
  lemma StatementsTrim(d: Dialect, s: string)
    ensures Statements(d, GoSpaces, Trim(GoSpaces, s)) == Statements(d, GoSpaces, s)
  {
    hide Statements;
    var l, r := TrimParts(GoSpaces, s);
    StatementsPadLeft(d, GoSpaces, l, Trim(GoSpaces, s) + r);
    ConcatAssoc(l, Trim(GoSpaces, s), r);
    StatementsPadRight(d, Trim(GoSpaces, s), r);
  }
}
