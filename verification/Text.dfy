/** Strings, white space and decimal numerals, as the Go standard library treats them.

    A Go string is a sequence of bytes.  Here it is a `string`: a well-formed
    UTF-8 sequence stands as its code point, and a stray byte as any code point
    from 0x80 up that is not white space.  Every scanner compares bytes with
    ASCII constants only, so it sees the same thing either way. */
module Text {
  datatype Option<+T> = None | Some(value: T) {
    function GetOr(default: T): T {
      match this
      case Some(v) => v
      case None => default
    }
  }

  /** The three white-space sets in use: `trimSQL`'s own four characters, those of
      `strings.TrimSpace`, and `\s` of Go's regular expressions. */
  datatype Spaces = SqlSpaces | GoSpaces | RegexpSpaces

  predicate IsSpace(w: Spaces, c: char) {
    match w
    case SqlSpaces => c == ' ' || c == '\t' || c == '\n' || c == '\r'
    case RegexpSpaces => c == ' ' || c == '\t' || c == '\n' || c == '\r' || c as int == 0x0c
    case GoSpaces =>
      var n := c as int;
      || 0x09 <= n <= 0x0d || n == 0x20 || n == 0x85 || n == 0xa0 || n == 0x1680
      || 0x2000 <= n <= 0x200a || n == 0x2028 || n == 0x2029 || n == 0x202f || n == 0x205f || n == 0x3000
  }

  predicate AllSpace(w: Spaces, s: string) {
    forall i :: 0 <= i < |s| ==> IsSpace(w, s[i])
  }

  function TrimLeft(w: Spaces, s: string): string {
    if s != [] && IsSpace(w, s[0]) then TrimLeft(w, s[1..]) else s
  }

  function TrimRight(w: Spaces, s: string): string {
    if s != [] && IsSpace(w, s[|s| - 1]) then TrimRight(w, s[..|s| - 1]) else s
  }

  function Trim(w: Spaces, s: string): string {
    TrimRight(w, TrimLeft(w, s))
  }

  /** Neither end is white space. */
  predicate Tight(w: Spaces, s: string) {
    s != [] ==> !IsSpace(w, s[0]) && !IsSpace(w, s[|s| - 1])
  }

  lemma {:induction false} TrimLeftPad(w: Spaces, pad: string, s: string)
    requires AllSpace(w, pad)
    ensures TrimLeft(w, pad + s) == TrimLeft(w, s)
  {
    if pad == [] {
      assert pad + s == s;
    } else {
      assert (pad + s)[1..] == pad[1..] + s;
      TrimLeftPad(w, pad[1..], s);
    }
  }

  lemma {:induction false} TrimRightPad(w: Spaces, s: string, pad: string)
    requires AllSpace(w, pad)
    ensures TrimRight(w, s + pad) == TrimRight(w, s)
  {
    if pad == [] {
      assert s + pad == s;
    } else {
      assert (s + pad)[..|s + pad| - 1] == s + pad[..|pad| - 1];
      TrimRightPad(w, s, pad[..|pad| - 1]);
    }
  }

  /** What trimming removes: white space at both ends, leaving a tight middle. */
  lemma {:induction false} TrimParts(w: Spaces, s: string) returns (left: string, right: string)
    ensures s == left + Trim(w, s) + right
    ensures AllSpace(w, left) && AllSpace(w, right) && Tight(w, Trim(w, s))
  {
    left := TrimLeftParts(w, s);
    right := TrimRightParts(w, TrimLeft(w, s));
    assert TrimLeft(w, s) == Trim(w, s) + right;
  }

  lemma {:induction false} TrimLeftParts(w: Spaces, s: string) returns (left: string)
    ensures s == left + TrimLeft(w, s) && AllSpace(w, left)
    ensures TrimLeft(w, s) != [] ==> !IsSpace(w, TrimLeft(w, s)[0])
  {
    if s != [] && IsSpace(w, s[0]) {
      var rest := TrimLeftParts(w, s[1..]);
      left := [s[0]] + rest;
    } else {
      left := [];
    }
  }

  lemma {:induction false} TrimRightParts(w: Spaces, s: string) returns (right: string)
    ensures s == TrimRight(w, s) + right && AllSpace(w, right)
    ensures TrimRight(w, s) != [] ==> !IsSpace(w, TrimRight(w, s)[|TrimRight(w, s)| - 1])
  {
    if s != [] && IsSpace(w, s[|s| - 1]) {
      var rest := TrimRightParts(w, s[..|s| - 1]);
      right := rest + [s[|s| - 1]];
      assert s == s[..|s| - 1] + [s[|s| - 1]];
    } else {
      right := [];
    }
  }

  /** The trimmed string is the only tight one that fits between two white-space pads. */
  lemma {:induction false} TrimUnique(w: Spaces, left: string, middle: string, right: string)
    requires AllSpace(w, left) && AllSpace(w, right) && Tight(w, middle)
    ensures Trim(w, left + middle + right) == middle
  {
    assert left + middle + right == left + (middle + right);
    TrimLeftPad(w, left, middle + right);
    if middle == [] {
      assert middle + right == right && right + [] == right;
      TrimLeftPad(w, right, []);
    } else {
      assert (middle + right)[0] == middle[0];
      TrimRightPad(w, middle, right);
    }
  }

  /** Padding with white space does not change the trimmed string. */
  lemma {:induction false} TrimPadded(w: Spaces, left: string, s: string, right: string)
    requires AllSpace(w, left) && AllSpace(w, right)
    ensures Trim(w, left + s + right) == Trim(w, s)
  {
    var l, r := TrimParts(w, s);
    assert left + s + right == (left + l) + Trim(w, s) + (r + right);
    TrimUnique(w, left + l, Trim(w, s), r + right);
  }

  function Concat(parts: seq<string>): string {
    if parts == [] then [] else parts[0] + Concat(parts[1..])
  }

  function Join(parts: seq<string>, sep: string): string {
    if parts == [] then []
    else if |parts| == 1 then parts[0]
    else parts[0] + sep + Join(parts[1..], sep)
  }

  /** `strings.ReplaceAll` of one character by two copies of itself. */
  function DoubleChar(s: string, q: char): string {
    if s == [] then []
    else (if s[0] == q then [q, q] else [s[0]]) + DoubleChar(s[1..], q)
  }

  /** `strings.ReplaceAll` of a doubled character by one copy. */
  function HalveChar(s: string, q: char): string {
    if s == [] then []
    else if |s| >= 2 && s[0] == q && s[1] == q then [q] + HalveChar(s[2..], q)
    else [s[0]] + HalveChar(s[1..], q)
  }

  lemma {:induction false} HalveDouble(s: string, q: char)
    ensures HalveChar(DoubleChar(s, q), q) == s
  {
    if s != [] {
      HalveDouble(s[1..], q);
      if s[0] == q {
        assert DoubleChar(s, q)[2..] == DoubleChar(s[1..], q);
      } else {
        assert DoubleChar(s, q)[1..] == DoubleChar(s[1..], q);
      }
    }
  }

  lemma ConcatAssoc(a: string, b: string, c: string)
    ensures a + b + c == a + (b + c)
  {
  }

  lemma ConcatAssoc3(a: string, b: string, c: string, e: string)
    ensures a + b + c + e == a + (b + c + e)
  {
  }

  /** Taking from, and dropping from, the first of two strings in a row. */
  lemma SliceConcat(a: string, b: string, n: nat)
    requires n <= |a|
    ensures (a + b)[n..] == a[n..] + b && (a + b)[..n] == a[..n]
  {
  }

  /** The same, reaching into the second. */
  lemma SliceConcatPast(a: string, b: string, n: nat)
    requires n <= |b|
    ensures (a + b)[|a| + n..] == b[n..] && (a + b)[..|a| + n] == a + b[..n]
  {
  }

  lemma DropDrop(s: string, n: nat, k: nat)
    requires n + k <= |s|
    ensures s[n..][k..] == s[n + k..]
  {
  }

  lemma SliceJoin(x: string, s: string, i: nat, k: nat, j: nat)
    requires i <= k <= j <= |s|
    ensures x + s[i..k] + s[k..j] == x + s[i..j]
  {
    assert s[i..k] + s[k..j] == s[i..j];
  }

  lemma SliceGrow(x: string, s: string, i: nat, k: nat)
    requires i <= k < |s|
    ensures x + s[i..k] + [s[k]] == x + s[i..k + 1]
  {
    assert s[i..k] + [s[k]] == s[i..k + 1];
  }

  // ---------- readers ----------

  /** Reads a fixed text. */
  function Expect(s: string, text: string): Option<string> {
    if |text| <= |s| && s[..|text|] == text then Some(s[|text|..]) else None
  }

  lemma ExpectIt(text: string, rest: string)
    ensures Expect(text + rest, text) == Some(rest)
  {
    SliceConcat(text, rest, |text|);
    assert text[..|text|] == text && text[|text|..] == [] && [] + rest == rest;
  }

  // ---------- letters ----------

  /** `strings.EqualFold`, for the folding that Unicode prescribes. */
  predicate EqualFold(fold: char -> char, a: string, b: string) {
    |a| == |b| && forall i :: 0 <= i < |a| ==> fold(a[i]) == fold(b[i])
  }

  function Folded(fold: char -> char, s: string): string {
    seq(|s|, i requires 0 <= i < |s| => fold(s[i]))
  }

  /** Two texts are equal but for letter case exactly when they fold to one. */
  lemma EqualFoldMeans(fold: char -> char, a: string, b: string)
    ensures EqualFold(fold, a, b) <==> Folded(fold, a) == Folded(fold, b)
  {
    if Folded(fold, a) == Folded(fold, b) {
      assert |a| == |Folded(fold, a)| == |b|;
      forall i | 0 <= i < |a| ensures fold(a[i]) == fold(b[i]) {
        assert Folded(fold, a)[i] == Folded(fold, b)[i];
      }
    }
  }

  // ---------- decimal numerals ----------

  predicate IsDigit(c: char) { '0' <= c <= '9' }

  function Digit(n: nat): char
    requires n < 10
  { ('0' as int + n) as char }

  /** `strconv.Itoa` of a natural number. */
  function Numeral(n: nat): (r: string)
    ensures r != [] && forall i :: 0 <= i < |r| ==> IsDigit(r[i])
  {
    if n < 10 then [Digit(n)] else Numeral(n / 10) + [Digit(n % 10)]
  }

  function NumeralValue(s: string): nat
    requires forall i :: 0 <= i < |s| ==> IsDigit(s[i])
  {
    if s == [] then 0
    else
      assert IsDigit(s[|s| - 1]);
      NumeralValue(s[..|s| - 1]) * 10 + (s[|s| - 1] as int - '0' as int)
  }

  lemma {:induction false} NumeralRoundTrip(n: nat)
    ensures NumeralValue(Numeral(n)) == n
  {
    if n >= 10 {
      assert Numeral(n)[..|Numeral(n)| - 1] == Numeral(n / 10);
      NumeralRoundTrip(n / 10);
    }
  }

  /** The length of the longest prefix of digits. */
  function DigitRun(s: string): (n: nat)
    ensures n <= |s| && forall i :: 0 <= i < n ==> IsDigit(s[i])
    ensures n < |s| ==> !IsDigit(s[n])
  {
    if s != [] && IsDigit(s[0]) then 1 + DigitRun(s[1..]) else 0
  }

  lemma {:induction false} DigitRunStops(digits: string, rest: string)
    requires forall i :: 0 <= i < |digits| ==> IsDigit(digits[i])
    requires rest == [] || !IsDigit(rest[0])
    ensures DigitRun(digits + rest) == |digits|
  {
    if digits == [] {
      assert digits + rest == rest;
    } else {
      assert (digits + rest)[1..] == digits[1..] + rest;
      DigitRunStops(digits[1..], rest);
    }
  }
}
