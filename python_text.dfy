/**
 * The few Python string built-ins the coordination code leans on when it
 * builds and reads its text messages: `str.isspace`, `str.strip`,
 * `str.split()` (on whitespace runs), `str.split(sep)`, `str.split(sep, 1)`,
 * `int(text)` and `str(number)`.
 */
module PythonText {
  import opened Wrappers

  /** `c.isspace()`: the characters Python treats as whitespace. */
  predicate IsSpace(c: char)
  {
    ('\t' <= c <= '\r') || ('\U{1C}' <= c <= ' ') || c == '\U{85}' || c == '\U{A0}'
    || c == '\U{1680}' || ('\U{2000}' <= c <= '\U{200A}') || c == '\U{2028}' || c == '\U{2029}'
    || c == '\U{202F}' || c == '\U{205F}' || c == '\U{3000}'
  }

  predicate NoSpace(s: string)
  {
    forall i :: 0 <= i < |s| ==> !IsSpace(s[i])
  }

  // ---------------------------------------------------------------- strip

  function TrimStart(s: string): (r: string)
    ensures |r| <= |s| && r == s[|s| - |r|..]
    ensures r == [] || !IsSpace(r[0])
  {
    if s != [] && IsSpace(s[0]) then TrimStart(s[1..]) else s
  }

  function TrimEnd(s: string): (r: string)
    ensures |r| <= |s| && r == s[..|r|]
    ensures r == [] || !IsSpace(r[|r| - 1])
  {
    if s != [] && IsSpace(s[|s| - 1]) then TrimEnd(s[..|s| - 1]) else s
  }

  /** `s.strip()` */
  function Strip(s: string): string
  {
    TrimEnd(TrimStart(s))
  }

  /** Text that neither starts nor ends with whitespace is its own strip. */
  lemma StripUnpadded(s: string)
    requires s != [] && !IsSpace(s[0]) && !IsSpace(s[|s| - 1])
    ensures Strip(s) == s
  {
  }

  // ------------------------------------------------------ str(n) and int(s)

  predicate IsDigit(c: char)
  {
    '0' <= c <= '9'
  }

  predicate AllDigits(s: string)
  {
    forall i :: 0 <= i < |s| ==> IsDigit(s[i])
  }

  function DigitChar(d: nat): (c: char)
    requires d < 10
    ensures IsDigit(c)
  {
    ('0' as int + d) as char
  }

  function DigitValue(c: char): (d: nat)
    requires IsDigit(c)
    ensures d < 10
  {
    c as int - '0' as int
  }

  /** The decimal value of a string of ASCII digits (leading zeros allowed). */
  function DigitsValue(s: string): nat
    requires AllDigits(s)
  {
    if s == [] then 0 else DigitsValue(s[..|s| - 1]) * 10 + DigitValue(s[|s| - 1])
  }

  /** The canonical decimal digits of `n`: never empty, no leading zero. */
  function Digits(n: nat): (r: string)
    ensures r != [] && AllDigits(r)
    ensures |r| > 1 ==> r[0] != '0'
  {
    if n < 10 then [DigitChar(n)] else Digits(n / 10) + [DigitChar(n % 10)]
  }

  /** Reading back the digits of `n` gives `n`. */
  lemma {:induction false} DigitsValueOfDigits(n: nat)
    ensures DigitsValue(Digits(n)) == n
  {
    if n >= 10 {
      var s := Digits(n);
      assert s[..|s| - 1] == Digits(n / 10);
      DigitsValueOfDigits(n / 10);
    }
  }

  /** `str(n)` for a Python int. */
  function Str(n: int): (r: string)
    ensures r != [] && (r[0] == '-' || IsDigit(r[0]))
  {
    if n < 0 then "-" + Digits(-n) else Digits(n)
  }

  /** `str(n)` is a single word: it holds no whitespace. */
  lemma {:induction false} StrNoSpace(n: int)
    ensures NoSpace(Str(n))
  {
    var s := Str(n);
    var d := if n < 0 then Digits(-n) else Digits(n);
    assert forall i :: 0 <= i < |d| ==> IsDigit(d[i]);
    if n < 0 {
      assert s == "-" + d;
      assert forall i :: 1 <= i < |s| ==> s[i] == d[i - 1];
    }
  }

  /**
   * `int(s)`: surrounding whitespace is ignored, then an optional sign and at
   * least one ASCII digit; anything else raises ValueError (None here).
   */
  function ParseInt(s: string): Option<int>
  {
    var t := Strip(s);
    if t != [] && (t[0] == '-' || t[0] == '+') then
      var body := t[1..];
      if body != [] && AllDigits(body) then
        var magnitude: int := DigitsValue(body);
        Some(if t[0] == '-' then -magnitude else magnitude)
      else None
    else if t != [] && AllDigits(t) then Some(DigitsValue(t))
    else None
  }

  /** `int(str(n)) == n` */
  lemma {:induction false} ParseIntOfStr(n: int)
    ensures ParseInt(Str(n)) == Some(n)
  {
    if n < 0 {
      var d := Digits(-n);
      DigitsValueOfDigits(-n);
      ParseNegative(d, n);
    } else {
      var d := Digits(n);
      assert Str(n) == d;
      ParseUnsigned(d);
      DigitsValueOfDigits(n);
    }
  }

  /** `int` reads a run of digits as its decimal value. */
  lemma ParseUnsigned(d: string)
    requires d != [] && AllDigits(d)
    ensures ParseInt(d) == Some(DigitsValue(d))
  {
    assert IsDigit(d[0]) && IsDigit(d[|d| - 1]);
    StripUnpadded(d);
  }

  /** `int` reads a minus sign and a run of digits as the negation of their decimal value. */
  lemma ParseNegative(d: string, n: int)
    requires d != [] && AllDigits(d) && DigitsValue(d) == -n
    ensures ParseInt("-" + d) == Some(n)
  {
    var t := "-" + d;
    assert t[0] == '-' && t[|t| - 1] == d[|d| - 1];
    assert IsDigit(d[|d| - 1]);
    StripUnpadded(t);
    assert t[1..] == d;
  }

  /** Blank text is not a number. */
  lemma ParseIntBlank(s: string)
    requires forall i :: 0 <= i < |s| ==> IsSpace(s[i])
    ensures ParseInt(s) == None
  {
    BlankTrimsAway(s);
  }

  lemma {:induction false} BlankTrimsAway(s: string)
    requires forall i :: 0 <= i < |s| ==> IsSpace(s[i])
    ensures TrimStart(s) == []
  {
    if s != [] {
      BlankTrimsAway(s[1..]);
    }
  }

  // ------------------------------------------------------- s.split()

  /** Length of the leading run of non-whitespace characters. */
  function TokenEnd(s: string): (n: nat)
    ensures n <= |s|
    ensures forall i :: 0 <= i < n ==> !IsSpace(s[i])
    ensures n < |s| ==> IsSpace(s[n])
  {
    if s == [] || IsSpace(s[0]) then 0 else 1 + TokenEnd(s[1..])
  }

  /** `s.split()`: the maximal runs of non-whitespace, in order. */
  function Words(s: string): (ws: seq<string>)
    ensures forall i :: 0 <= i < |ws| ==> ws[i] != [] && NoSpace(ws[i])
    decreases |s|
  {
    if s == [] then []
    else if IsSpace(s[0]) then Words(s[1..])
    else
      var n := TokenEnd(s);
      [s[..n]] + Words(s[n..])
  }

  /** A word followed by a space and more text splits off as the first word. */
  lemma WordsCons(w: string, rest: string)
    requires w != [] && NoSpace(w)
    ensures Words(w + " " + rest) == [w] + Words(rest)
  {
    var s := w + " " + rest;
    TokenEndOfWord(w, " " + rest);
    assert s[..|w|] == w;
    assert s[|w|..] == " " + rest;
    assert (" " + rest)[1..] == rest;
  }

  /** A single word splits to itself. */
  lemma WordsSingle(w: string)
    requires w != [] && NoSpace(w)
    ensures Words(w) == [w]
  {
    TokenEndOfWord(w, []);
    assert w + [] == w;
    assert w[|w|..] == [];
  }

  lemma {:induction false} TokenEndOfWord(w: string, rest: string)
    requires NoSpace(w)
    requires rest == [] || IsSpace(rest[0])
    ensures TokenEnd(w + rest) == |w|
  {
    if w != [] {
      assert (w + rest)[1..] == w[1..] + rest;
      TokenEndOfWord(w[1..], rest);
    } else {
      assert w + rest == rest;
    }
  }

  // ------------------------------------------- s.split(sep), s.split(sep, 1)

  /** Index of the first `c` in `s`, or `|s|` when there is none. */
  function IndexOf(s: string, c: char): (i: nat)
    ensures i <= |s|
    ensures c !in s[..i]
    ensures i < |s| ==> s[i] == c
  {
    if s == [] || s[0] == c then 0
    else
      var j := IndexOf(s[1..], c);
      assert s[..1 + j] == [s[0]] + s[1..][..j];
      1 + j
  }

  /** `s.split(sep)` with an explicit one-character separator: empty fields are kept. */
  function Split(s: string, sep: char): (parts: seq<string>)
    ensures |parts| >= 1
    ensures forall i :: 0 <= i < |parts| ==> sep !in parts[i]
    ensures sep in s ==> |parts| >= 2
    ensures parts[0] == s[..IndexOf(s, sep)]
    decreases |s|
  {
    var i := IndexOf(s, sep);
    if i == |s| then
      assert s[..i] == s;
      [s]
    else [s[..i]] + Split(s[i + 1..], sep)
  }

  /** `sep.join(parts)` */
  function Join(parts: seq<string>, sep: char): string
  {
    if parts == [] then []
    else if |parts| == 1 then parts[0]
    else parts[0] + [sep] + Join(parts[1..], sep)
  }

  /** Splitting loses nothing: joining the fields back gives the original text. */
  lemma {:induction false} JoinSplit(s: string, sep: char)
    ensures Join(Split(s, sep), sep) == s
    decreases |s|
  {
    var i := IndexOf(s, sep);
    if i == |s| {
      assert s[..i] == s;
    } else {
      var parts := Split(s, sep);
      JoinSplit(s[i + 1..], sep);
      assert parts[1..] == Split(s[i + 1..], sep);
      assert s == s[..i] + [sep] + s[i + 1..];
    }
  }

  /** The first separator in `field + [sep] + rest` is the one after `field`. */
  lemma IndexOfAfterField(field: string, sep: char, rest: string)
    requires sep !in field
    ensures IndexOf(field + [sep] + rest, sep) == |field|
  {
    var s := field + [sep] + rest;
    assert s[|field|] == sep;
    assert forall k :: 0 <= k < |field| ==> s[k] == field[k];
  }

  /** A field free of the separator, followed by the separator, is split off whole. */
  lemma SplitCons(field: string, sep: char, rest: string)
    requires sep !in field
    ensures Split(field + [sep] + rest, sep) == [field] + Split(rest, sep)
  {
    var s := field + [sep] + rest;
    IndexOfAfterField(field, sep, rest);
    assert s[..|field|] == field;
    assert s[|field| + 1..] == rest;
  }

  /**
   * `s.split(sep, 1)` on text that holds `sep`: the text before the first
   * separator and everything after it.
   */
  function SplitFirst(s: string, sep: char): (r: (string, string))
    requires sep in s
    ensures r.0 + [sep] + r.1 == s
    ensures sep !in r.0
  {
    var i := IndexOf(s, sep);
    assert s == s[..i] + [sep] + s[i + 1..];
    (s[..i], s[i + 1..])
  }

  /** `(field + sep + rest).split(sep, 1)` is `[field, rest]` when `field` holds no separator. */
  lemma SplitFirstCons(field: string, sep: char, rest: string)
    requires sep !in field
    ensures SplitFirst(field + [sep] + rest, sep) == (field, rest)
  {
    var s := field + [sep] + rest;
    IndexOfAfterField(field, sep, rest);
    assert s[..|field|] == field;
    assert s[|field| + 1..] == rest;
  }
}
