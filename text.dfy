/** Whitespace trimming as JavaScript's `String.prototype.trim` and Python's
    `str.strip()` do it (the two languages differ only in which characters
    count as white space), and decimal digit strings as both languages print
    and read integers. */
module Text {
  import opened Shapes

  /** White space and line terminators in the sense of ECMA-262 (what
      `trim()` removes). */
  predicate JsSpace(c: char)
  {
    c == '\t' || c == '\n' || c == '\U{0B}' || c == '\U{0C}' || c == '\r' || c == ' '
    || c == '\U{A0}' || c == '\U{1680}' || ('\U{2000}' <= c <= '\U{200A}')
    || c == '\U{2028}' || c == '\U{2029}' || c == '\U{202F}' || c == '\U{205F}'
    || c == '\U{3000}' || c == '\U{FEFF}'
  }

  /** The characters for which Python's `str.isspace()` holds (what
      `strip()` removes). */
  predicate PySpace(c: char)
  {
    ('\t' <= c <= '\r') || ('\U{1C}' <= c <= '\U{1F}') || c == ' '
    || c == '\U{85}' || c == '\U{A0}' || c == '\U{1680}' || ('\U{2000}' <= c <= '\U{200A}')
    || c == '\U{2028}' || c == '\U{2029}' || c == '\U{202F}' || c == '\U{205F}'
    || c == '\U{3000}'
  }

  /** Every character of `s` is white space (true of the empty string). */
  predicate Blank(s: string, space: char -> bool)
  {
    forall i :: 0 <= i < |s| ==> space(s[i])
  }

  /** Drops the leading white space. */
  function TrimStart(s: string, space: char -> bool): (r: string)
    ensures |r| <= |s| && r == s[|s| - |r|..]
    ensures r == [] || !space(r[0])
    ensures Blank(s[..|s| - |r|], space)
  {
    if s != [] && space(s[0]) then TrimStart(s[1..], space) else s
  }

  /** Drops the trailing white space. */
  function TrimEnd(s: string, space: char -> bool): (r: string)
    ensures |r| <= |s| && r == s[..|r|]
    ensures r == [] || !space(r[|r| - 1])
    ensures Blank(s[|r|..], space)
  {
    if s != [] && space(s[|s| - 1]) then TrimEnd(s[..|s| - 1], space) else s
  }

  /** A string is blank exactly when both parts of any split of it are. */
  lemma BlankSplit(s: string, n: nat, space: char -> bool)
    requires n <= |s|
    ensures Blank(s, space) <==> Blank(s[..n], space) && Blank(s[n..], space)
  {
    if Blank(s[..n], space) && Blank(s[n..], space) {
      forall i | 0 <= i < |s|
        ensures space(s[i])
      {
        if i < n { assert s[..n][i] == s[i]; } else { assert s[n..][i - n] == s[i]; }
      }
    }
  }

  /** `s.trim()` / `s.strip()`: the string comes out empty exactly when it
      held nothing but white space. */
  function Trim(s: string, space: char -> bool): (r: string)
    ensures r == [] <==> Blank(s, space)
  {
    var t := TrimStart(s, space);
    var r := TrimEnd(t, space);
    BlankSplit(s, |s| - |t|, space);
    BlankSplit(t, |r|, space);
    assert t[..|r|] == r;
    assert r != [] ==> !space(r[|r| - 1]);
    r
  }

  predicate IsDigit(c: char) { '0' <= c <= '9' }

  predicate AllDigits(s: string) { forall i :: 0 <= i < |s| ==> IsDigit(s[i]) }

  /** The value of a string of decimal digits. */
  function DigitsValue(ds: string): nat
    requires AllDigits(ds)
  {
    if ds == [] then 0 else DigitsValue(ds[..|ds| - 1]) * 10 + (ds[|ds| - 1] as int - '0' as int)
  }

  /** The decimal text of an integer, as Python's `str` and a JavaScript
      template literal print it: digits without a leading zero, whose value
      is the integer, after a '-' when it is negative. */
  function IntText(n: int): (s: string)
    ensures s != []
    ensures n >= 0 ==> AllDigits(s) && DigitsValue(s) == n && (s[0] == '0' ==> s == "0")
    ensures n < 0 ==> s[0] == '-' && |s| > 1 && AllDigits(s[1..]) && DigitsValue(s[1..]) == -n && s[1] != '0'
    decreases if n < 0 then 1 - n else n
  {
    if n < 0 then
      var t := IntText(-n);
      assert ("-" + t)[1..] == t;
      "-" + t
    else if n < 10 then [(n + '0' as int) as char]
    else
      var t := IntText(n / 10);
      var s := t + [((n % 10) + '0' as int) as char];
      assert s[..|s| - 1] == t;
      s
  }

  /** What JavaScript's `parseFloat` does with blank text: NaN (None). */
  ghost predicate BlankIsNaN(parseFloat: string -> Option<real>)
  {
    forall s :: Blank(s, JsSpace) ==> parseFloat(s).None?
  }
}
