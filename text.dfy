/** String helpers with the behaviour of the JavaScript built-ins the screens use:
    `String.prototype.trim`, `toUpperCase` (on ASCII letters), `split` on one
    character, and the decimal rendering of integers done by template literals. */
module Text {
  import opened Optional

  /** The em dash the screens show for a missing value. */
  const DASH := "\U{2014}"

  /** The characters `String.prototype.trim` removes: the ECMAScript WhiteSpace
      code points (tab, vertical tab, form feed, space, no-break space, byte
      order mark and the Unicode space separators) and the line terminators. */
  predicate IsWhitespace(c: char) {
    c == '\t' || c == '\n' || c == '\U{000B}' || c == '\U{000C}' || c == '\r' ||
    c == ' ' || c == '\U{00A0}' || c == '\U{1680}' ||
    ('\U{2000}' <= c <= '\U{200A}') ||
    c == '\U{2028}' || c == '\U{2029}' || c == '\U{202F}' || c == '\U{205F}' ||
    c == '\U{3000}' || c == '\U{FEFF}'
  }

  function TrimStart(s: string): (r: string)
    ensures |r| <= |s| && r == s[|s| - |r|..]
  {
    if |s| > 0 && IsWhitespace(s[0]) then TrimStart(s[1..]) else s
  }

  /** `TrimStart` cuts off white space only, and all of it. */
  lemma {:induction false} TrimStartCuts(s: string)
    ensures TrimStart(s) == [] || !IsWhitespace(TrimStart(s)[0])
    ensures forall i :: 0 <= i < |s| - |TrimStart(s)| ==> IsWhitespace(s[i])
  {
    if |s| > 0 && IsWhitespace(s[0]) {
      TrimStartCuts(s[1..]);
      forall i | 1 <= i < |s| - |TrimStart(s)| ensures IsWhitespace(s[i]) {
        assert s[i] == s[1..][i - 1];
      }
    }
  }

  function TrimEnd(s: string): (r: string)
    ensures |r| <= |s| && r == s[..|r|]
  {
    if |s| > 0 && IsWhitespace(s[|s| - 1]) then TrimEnd(s[..|s| - 1]) else s
  }

  /** `TrimEnd` cuts off white space only, and all of it. */
  lemma {:induction false} TrimEndCuts(s: string)
    ensures TrimEnd(s) == [] || !IsWhitespace(TrimEnd(s)[|TrimEnd(s)| - 1])
    ensures forall i :: |TrimEnd(s)| <= i < |s| ==> IsWhitespace(s[i])
  {
    if |s| > 0 && IsWhitespace(s[|s| - 1]) {
      TrimEndCuts(s[..|s| - 1]);
      forall i | |TrimEnd(s)| <= i < |s| - 1 ensures IsWhitespace(s[i]) {
        assert s[i] == s[..|s| - 1][i];
      }
    }
  }

  /** `s.trim()` */
  function Trim(s: string): string {
    TrimEnd(TrimStart(s))
  }

  /** The result of `trim` is the piece of the input that starts at `k`, has no
      white space at either end, and everything cut off around it is white space. */
  lemma TrimIsTrimmed(s: string) returns (k: nat)
    ensures k + |Trim(s)| <= |s| && Trim(s) == s[k..k + |Trim(s)|]
    ensures forall i :: 0 <= i < k ==> IsWhitespace(s[i])
    ensures forall i :: k + |Trim(s)| <= i < |s| ==> IsWhitespace(s[i])
    ensures Trim(s) == [] || (!IsWhitespace(Trim(s)[0]) && !IsWhitespace(Trim(s)[|Trim(s)| - 1]))
  {
    k := |s| - |TrimStart(s)|;
    TrimPiece(s);
    TrimStartCuts(s);
    TrimCutsEnd(s);
    TrimKeepsEnds(s);
  }

  lemma TrimPiece(s: string)
    ensures |s| - |TrimStart(s)| + |Trim(s)| <= |s|
    ensures Trim(s) == s[|s| - |TrimStart(s)|..|s| - |TrimStart(s)| + |Trim(s)|]
  {
    var t := TrimStart(s);
    var k := |s| - |t|;
    assert t == s[k..] && Trim(s) == t[..|Trim(s)|];
    SliceOfSuffix(s, k, |Trim(s)|);
  }

  lemma SliceOfSuffix(s: string, k: nat, n: nat)
    requires k + n <= |s|
    ensures s[k..][..n] == s[k..k + n]
  {
  }

  lemma TrimCutsEnd(s: string)
    ensures forall i :: |s| - |TrimStart(s)| + |Trim(s)| <= i < |s| ==> IsWhitespace(s[i])
  {
    var t := TrimStart(s);
    var k := |s| - |t|;
    TrimEndCuts(t);
    forall i | k + |Trim(s)| <= i < |s| ensures IsWhitespace(s[i]) {
      assert s[i] == s[k..][i - k] == t[i - k];
    }
  }

  lemma TrimKeepsEnds(s: string)
    ensures Trim(s) == [] || (!IsWhitespace(Trim(s)[0]) && !IsWhitespace(Trim(s)[|Trim(s)| - 1]))
  {
    var t := TrimStart(s);
    TrimStartCuts(s);
    TrimEndCuts(t);
    if Trim(s) != [] {
      assert Trim(s)[0] == t[0];
    }
  }

  lemma {:induction false} TrimStartIdle(s: string)
    requires s == [] || !IsWhitespace(s[0])
    ensures TrimStart(s) == s
  {
  }

  /** Trimming twice is trimming once. */
  lemma TrimIdempotent(s: string)
    ensures Trim(Trim(s)) == Trim(s)
  {
    var r := Trim(s);
    var _ := TrimIsTrimmed(s);
    TrimStartIdle(r);
  }

  /** A string made only of white space trims to the empty string. */
  lemma {:induction false} TrimBlank(s: string)
    requires forall i :: 0 <= i < |s| ==> IsWhitespace(s[i])
    ensures Trim(s) == ""
  {
    if |s| > 0 {
      TrimBlank(s[1..]);
    }
  }

  /** `toUpperCase` restricted to the ASCII letters. */
  function UpperChar(c: char): (u: char) {
    if 'a' <= c <= 'z' then (c as int - 'a' as int + 'A' as int) as char else c
  }

  function Upper(s: string): (r: string)
    ensures |r| == |s|
    ensures forall i :: 0 <= i < |s| ==> r[i] == UpperChar(s[i])
  {
    if s == [] then [] else [UpperChar(s[0])] + Upper(s[1..])
  }

  /** Upper-casing maps white space to white space and nothing else to it. */
  lemma UpperCharKeepsWhitespace(c: char)
    ensures IsWhitespace(UpperChar(c)) == IsWhitespace(c)
  {
  }

  lemma {:induction false} TrimStartUpper(s: string)
    ensures TrimStart(Upper(s)) == Upper(TrimStart(s))
  {
    if |s| > 0 {
      UpperCharKeepsWhitespace(s[0]);
    }
    if |s| > 0 && IsWhitespace(s[0]) {
      assert Upper(s)[1..] == Upper(s[1..]);
      TrimStartUpper(s[1..]);
    }
  }

  lemma {:induction false} TrimEndUpper(s: string)
    ensures TrimEnd(Upper(s)) == Upper(TrimEnd(s))
  {
    if |s| > 0 {
      UpperCharKeepsWhitespace(s[|s| - 1]);
    }
    if |s| > 0 && IsWhitespace(s[|s| - 1]) {
      assert Upper(s)[..|s| - 1] == Upper(s[..|s| - 1]);
      TrimEndUpper(s[..|s| - 1]);
    }
  }

  /** Trimming and upper-casing commute. */
  lemma TrimUpper(s: string)
    ensures Trim(Upper(s)) == Upper(Trim(s))
  {
    TrimStartUpper(s);
    TrimEndUpper(TrimStart(s));
  }

  lemma UpperIdempotent(s: string)
    ensures Upper(Upper(s)) == Upper(s)
  {
  }

  predicate Blank(w: string) {
    forall i :: 0 <= i < |w| ==> IsWhitespace(w[i])
  }

  /** A string trims to nothing exactly when it is all white space. */
  lemma TrimEmptyIffBlank(s: string)
    ensures Trim(s) == "" <==> Blank(s)
  {
    if Blank(s) {
      TrimBlank(s);
    }
    if Trim(s) == "" {
      var k := TrimIsTrimmed(s);
    }
  }

  lemma {:induction false} TrimStartBlankPrefix(w: string, s: string)
    requires Blank(w)
    ensures TrimStart(w + s) == TrimStart(s)
  {
    if |w| > 0 {
      assert (w + s)[1..] == w[1..] + s;
      TrimStartBlankPrefix(w[1..], s);
    } else {
      assert w + s == s;
    }
  }

  lemma {:induction false} TrimEndBlankSuffix(s: string, w: string)
    requires Blank(w)
    ensures TrimEnd(s + w) == TrimEnd(s)
  {
    if |w| > 0 {
      assert (s + w)[..|s + w| - 1] == s + w[..|w| - 1];
      TrimEndBlankSuffix(s, w[..|w| - 1]);
    } else {
      assert s + w == s;
    }
  }

  lemma {:induction false} TrimStartAppend(x: string, w: string)
    requires TrimStart(x) != ""
    ensures TrimStart(x + w) == TrimStart(x) + w
  {
    if IsWhitespace(x[0]) {
      assert (x + w)[1..] == x[1..] + w;
      TrimStartAppend(x[1..], w);
    }
  }

  /** White space typed around a text does not change what it trims to. */
  lemma TrimPadded(w1: string, x: string, w2: string)
    requires Blank(w1) && Blank(w2)
    ensures Trim(w1 + x + w2) == Trim(x)
  {
    assert w1 + x + w2 == w1 + (x + w2);
    TrimStartBlankPrefix(w1, x + w2);
    if TrimStart(x) == "" {
      TrimStartCuts(x);
      TrimStartBlankPrefix(x, w2);
      assert w2 + "" == w2;
      TrimStartBlankPrefix(w2, "");
    } else {
      TrimStartAppend(x, w2);
      TrimEndBlankSuffix(TrimStart(x), w2);
    }
  }

  /** `a || b` on strings: the empty string is falsy. */
  function OrElse(a: string, b: string): (r: string)
    ensures a != "" ==> r == a
    ensures a == "" ==> r == b
  {
    if a != "" then a else b
  }

  function DigitChar(d: nat): char
    requires d < 10
  {
    ('0' as int + d) as char
  }

  predicate IsDigit(c: char) {
    '0' <= c <= '9'
  }

  /** Decimal rendering of a natural number, no leading zeros. */
  function NatToString(n: nat): (r: string)
    ensures |r| >= 1
    ensures forall i :: 0 <= i < |r| ==> IsDigit(r[i])
    ensures r[|r| - 1] == DigitChar(n % 10)
    ensures (n < 10) <==> (|r| == 1)
  {
    if n < 10 then [DigitChar(n)] else NatToString(n / 10) + [DigitChar(n % 10)]
  }

  /** Decimal rendering of an integer, with a leading '-' when negative. */
  function IntToString(i: int): string {
    if i < 0 then "-" + NatToString(-i) else NatToString(i)
  }

  /** Different numbers have different decimal renderings. */
  lemma {:induction false} NatToStringInjective(m: nat, n: nat)
    requires NatToString(m) == NatToString(n)
    ensures m == n
  {
    var s := NatToString(m);
    assert DigitChar(m % 10) == s[|s| - 1] == DigitChar(n % 10);
    if m >= 10 && n >= 10 {
      assert NatToString(m / 10) == s[..|s| - 1] == NatToString(n / 10);
      NatToStringInjective(m / 10, n / 10);
    }
  }

  /** `s.split(sep)` for a one-character separator: the pieces between the
      separators, including empty ones; splitting "" yields [""]. */
  function Split(s: string, sep: char): (r: seq<string>)
    ensures |r| >= 1
  {
    if s == [] then [""] else ConsPiece(s[0], sep, Split(s[1..], sep))
  }

  /** The pieces of `[c] + t` from the pieces `rest` of `t`: a separator opens a
      new empty piece, any other character joins the first piece. */
  function ConsPiece(c: char, sep: char, rest: seq<string>): (r: seq<string>)
    requires |rest| >= 1
    ensures |r| >= 1
  {
    if c == sep then [""] + rest else [[c] + rest[0]] + rest[1..]
  }

  lemma ConsPieceAppend(c: char, sep: char, pre: seq<string>, post: seq<string>)
    requires |pre| >= 1
    ensures ConsPiece(c, sep, pre + post) == ConsPiece(c, sep, pre) + post
  {
    if c == sep {
      assert [""] + (pre + post) == ([""] + pre) + post;
    } else {
      assert (pre + post)[0] == pre[0] && (pre + post)[1..] == pre[1..] + post;
      assert [[c] + pre[0]] + (pre[1..] + post) == ([[c] + pre[0]] + pre[1..]) + post;
    }
  }

  /** No piece of a split holds the separator. */
  lemma {:induction false} SplitPiecesLackSep(s: string, sep: char)
    ensures forall k :: 0 <= k < |Split(s, sep)| ==> sep !in Split(s, sep)[k]
  {
    if s != [] {
      SplitPiecesLackSep(s[1..], sep);
      var rest := Split(s[1..], sep);
      if s[0] != sep {
        assert sep !in rest[0];
        assert sep !in [s[0]] + rest[0];
      }
    }
  }

  /** Joining the pieces of a split with the separator gives the input back. */
  function Join(parts: seq<string>, sep: char): string {
    if parts == [] then "" else if |parts| == 1 then parts[0] else parts[0] + [sep] + Join(parts[1..], sep)
  }

  lemma {:induction false} SplitJoin(s: string, sep: char)
    ensures Join(Split(s, sep), sep) == s
  {
    if s != [] {
      var rest := Split(s[1..], sep);
      SplitJoin(s[1..], sep);
      if s[0] != sep {
        assert Split(s, sep) == [[s[0]] + rest[0]] + rest[1..];
        if |rest| == 1 {
          assert Join(rest, sep) == rest[0];
        } else {
          assert Join(rest, sep) == rest[0] + [sep] + Join(rest[1..], sep);
          assert Join(Split(s, sep), sep) == [s[0]] + rest[0] + [sep] + Join(rest[1..], sep);
        }
      }
    }
  }

  /** A separator splits exactly where it stands. */
  lemma {:induction false} SplitAround(a: string, sep: char, b: string)
    ensures Split(a + [sep] + b, sep) == Split(a, sep) + Split(b, sep)
  {
    if a == [] {
      assert a + [sep] + b == [sep] + b;
      SplitCons(sep, b, sep);
    } else {
      SplitAround(a[1..], sep, b);
      SplitAroundStep(a[0], a[1..], sep, b);
      assert a == [a[0]] + a[1..];
      assert a + [sep] + b == [a[0]] + (a[1..] + [sep] + b);
    }
  }

  /** One character in front of both sides of `SplitAround`. */
  lemma SplitAroundStep(c: char, a: string, sep: char, b: string)
    requires Split(a + [sep] + b, sep) == Split(a, sep) + Split(b, sep)
    ensures Split([c] + (a + [sep] + b), sep) == Split([c] + a, sep) + Split(b, sep)
  {
    SplitCons(c, a + [sep] + b, sep);
    SplitCons(c, a, sep);
    ConsPieceAppend(c, sep, Split(a, sep), Split(b, sep));
  }

  /** Splitting a string one character at a time from the front. */
  lemma SplitCons(c: char, t: string, sep: char)
    ensures Split([c] + t, sep) == ConsPiece(c, sep, Split(t, sep))
  {
    assert ([c] + t)[0] == c && ([c] + t)[1..] == t;
  }

  /** A string without the separator is one piece. */
  lemma {:induction false} SplitWithoutSep(s: string, sep: char)
    requires sep !in s
    ensures Split(s, sep) == [s]
  {
    if s != [] {
      SplitWithoutSep(s[1..], sep);
      assert [s[0]] + s[1..] == s;
    }
  }

  function DigitValue(c: char): nat
    requires IsDigit(c)
  {
    c as int - '0' as int
  }

  predicate AllDigits(s: string) {
    forall i :: 0 <= i < |s| ==> IsDigit(s[i])
  }

  /** The number a string of decimal digits denotes ("" denotes 0). */
  function DigitsValue(s: string): nat
    requires AllDigits(s)
  {
    if s == "" then 0 else DigitsValue(s[..|s| - 1]) * 10 + DigitValue(s[|s| - 1])
  }

  /** Reading back a decimal rendering gives the number. */
  lemma {:induction false} DigitsValueOfNatToString(n: nat)
    ensures DigitsValue(NatToString(n)) == n
  {
    var r := NatToString(n);
    if n >= 10 {
      assert r[..|r| - 1] == NatToString(n / 10);
      DigitsValueOfNatToString(n / 10);
    }
  }

  /** `Number(s)` for a string: surrounding white space is ignored, a blank string
      is 0, a run of decimal digits is its value, and anything else is NaN (None). */
  function JsNumber(s: string): (r: Option<nat>)
    ensures Trim(s) == "" ==> r == Some(0)
    ensures AllDigits(s) && s != "" ==> r == Some(DigitsValue(s))
  {
    var t := Trim(s);
    assert AllDigits(s) ==> t == s by {
      if AllDigits(s) {
        TrimStartIdle(s);
      }
    }
    if t == "" then Some(0) else if AllDigits(t) then Some(DigitsValue(t)) else None
  }

  /** `Number(String(n)) == n` */
  lemma JsNumberOfNatToString(n: nat)
    ensures JsNumber(NatToString(n)) == Some(n)
  {
    DigitsValueOfNatToString(n);
  }
}
