/** The two string-to-number conversions the expense tracker relies on:
    `Number(s)` (what `isNaN(s)` tests) and `parseFloat(s)`. Both read the
    decimal grammar `[+-] digits [. digits] [(e|E) [+-] digits]`; `Number`
    wants the whole trimmed string to be one literal (and reads an empty one
    as 0), `parseFloat` takes the longest literal after leading whitespace. */
module JsNumber {
  import opened Text

  /** A JavaScript number as far as these apps care: a finite value or NaN. */
  datatype Num = Finite(value: real) | NaN

  predicate IsDigit(c: char)
  {
    '0' <= c <= '9'
  }

  function Pow10(n: nat): (r: nat)
    ensures r >= 1
  {
    if n == 0 then 1 else 10 * Pow10(n - 1)
  }

  /** The value of a string of decimal digits. */
  function DigitsValue(d: string): nat
    requires forall i :: 0 <= i < |d| ==> IsDigit(d[i])
  {
    if d == [] then 0
    else
      assert IsDigit(d[|d| - 1]);
      10 * DigitsValue(d[..|d| - 1]) + (d[|d| - 1] as int - '0' as int)
  }

  /** Length of the run of digits that starts at `i`. */
  function DigitRun(t: string, i: nat): (n: nat)
    requires i <= |t|
    ensures i + n <= |t|
    ensures forall k :: i <= k < i + n ==> IsDigit(t[k])
    ensures i + n == |t| || !IsDigit(t[i + n])
    decreases |t| - i
  {
    if i < |t| && IsDigit(t[i]) then 1 + DigitRun(t, i + 1) else 0
  }

  /** `t[p] == c`, false past the end. */
  predicate At(t: string, p: nat, c: char)
  {
    p < |t| && t[p] == c
  }

  /** 1 when `t` starts with a sign. */
  function SignLen(t: string): nat
  {
    if At(t, 0, '+') || At(t, 0, '-') then 1 else 0
  }

  /** End of the digits-and-fraction part that starts at `a`. */
  function MantissaEnd(t: string, a: nat): (c: nat)
    requires a <= |t|
    ensures a <= c <= |t|
  {
    var b := a + DigitRun(t, a);
    if At(t, b, '.') then b + 1 + DigitRun(t, b + 1) else b
  }

  /** Length of the exponent part at `c`; 0 unless a digit follows the `e`. */
  function ExponentLen(t: string, c: nat): (n: nat)
    requires c <= |t|
    ensures c + n <= |t|
  {
    if At(t, c, 'e') || At(t, c, 'E') then
      var es := if At(t, c + 1, '+') || At(t, c + 1, '-') then 1 else 0;
      var k := DigitRun(t, c + 1 + es);
      if k == 0 then 0 else 1 + es + k
    else 0
  }

  /** Length of the longest decimal literal at the start of `t`, 0 if none
      (a literal needs a digit before or after its point). */
  function LiteralLen(t: string): (n: nat)
    ensures n <= |t|
  {
    var a := SignLen(t);
    if a > |t| then 0
    else
      var c := MantissaEnd(t, a);
      if c - a == 0 || (c - a == 1 && At(t, a, '.')) then 0
      else c + ExponentLen(t, c)
  }

  /** The value of the digits-and-fraction part that starts at `a`. */
  function MantissaValue(t: string, a: nat): real
    requires a <= |t|
  {
    var b := a + DigitRun(t, a);
    var c := MantissaEnd(t, a);
    DigitsValue(t[a..b]) as real
      + (if c > b + 1 then DigitsValue(t[b + 1..c]) as real / Pow10(c - b - 1) as real else 0.0)
  }

  /** The value of the digits of the exponent part at `c`. */
  function ExponentValue(t: string, c: nat): nat
    requires c <= |t| && ExponentLen(t, c) > 0
  {
    var es := if At(t, c + 1, '+') || At(t, c + 1, '-') then 1 else 0;
    DigitsValue(t[c + 1 + es..c + ExponentLen(t, c)])
  }

  /** The value of a literal that `LiteralLen` accepted whole. */
  function LiteralValue(lit: string): real
    requires LiteralLen(lit) == |lit|
  {
    var a := SignLen(lit);
    var c := MantissaEnd(lit, a);
    var mantissa := MantissaValue(lit, a);
    var magnitude :=
      if ExponentLen(lit, c) == 0 then mantissa
      else if At(lit, c + 1, '-') then mantissa / Pow10(ExponentValue(lit, c)) as real
      else mantissa * Pow10(ExponentValue(lit, c)) as real;
    if At(lit, 0, '-') then -magnitude else magnitude
  }

  /** A literal's length is the same when read on its own. */
  lemma LiteralLenPrefix(t: string)
    ensures LiteralLen(t[..LiteralLen(t)]) == LiteralLen(t)
  {
    var n := LiteralLen(t);
    if n > 0 {
      var a := SignLen(t);
      assert SignLen(t[..n]) == a;
      var c := MantissaEnd(t, a);
      TruncateMantissa(t, n, a);
      TruncateExponent(t, n, c);
    }
  }

  lemma {:induction false} TruncateDigitRun(t: string, m: nat, i: nat)
    requires i <= m <= |t| && i + DigitRun(t, i) <= m
    ensures DigitRun(t[..m], i) == DigitRun(t, i)
    decreases m - i
  {
    if i < m && IsDigit(t[i]) {
      TruncateDigitRun(t, m, i + 1);
    }
  }

  lemma TruncateMantissa(t: string, m: nat, a: nat)
    requires a <= m <= |t| && MantissaEnd(t, a) <= m
    ensures MantissaEnd(t[..m], a) == MantissaEnd(t, a)
  {
    TruncateDigitRun(t, m, a);
    var b := a + DigitRun(t, a);
    if At(t, b, '.') {
      TruncateDigitRun(t, m, b + 1);
    }
  }

  lemma TruncateExponent(t: string, m: nat, c: nat)
    requires c <= m <= |t| && c + ExponentLen(t, c) == m
    ensures ExponentLen(t[..m], c) == ExponentLen(t, c)
  {
    if ExponentLen(t, c) > 0 {
      var es := if At(t, c + 1, '+') || At(t, c + 1, '-') then 1 else 0;
      TruncateDigitRun(t, m, c + 1 + es);
    }
  }

  /** The longest decimal literal at the start of `t`: its value and its
      length, or nothing when `t` does not start with one. */
  function Scan(t: string): (r: Option<(real, nat)>)
    ensures r.Some? ==> 0 < r.value.1 <= |t|
  {
    var n := LiteralLen(t);
    if n == 0 then None
    else
      LiteralLenPrefix(t);
      Some((LiteralValue(t[..n]), n))
  }

  /** `Number(s)`. */
  function Number(s: string): Num
  {
    var t := Trim(s);
    if t == [] then Finite(0.0)
    else match Scan(t)
      case Some((v, n)) => if n == |t| then Finite(v) else NaN
      case None => NaN
  }

  /** `isNaN(s)` on a string. */
  predicate IsNaN(s: string)
  {
    Number(s).NaN?
  }

  /** `parseFloat(s)`. */
  function ParseFloat(s: string): Num
  {
    match Scan(TrimStart(s))
    case Some((v, _)) => Finite(v)
    case None => NaN
  }

  /** Whitespace after the literal does not change what is scanned. */
  lemma {:induction false} DigitRunExtend(t: string, w: string, i: nat)
    requires i <= |t|
    requires w == [] || IsWhitespace(w[0])
    ensures DigitRun(t + w, i) == DigitRun(t, i)
    decreases |t| - i
  {
    if i < |t| && IsDigit(t[i]) {
      DigitRunExtend(t, w, i + 1);
    }
  }

  /** No character that can continue a literal is whitespace. */
  lemma ExtendAt(t: string, w: string, p: nat, ch: char)
    requires w == [] || IsWhitespace(w[0])
    requires p <= |t| && !IsWhitespace(ch)
    ensures At(t + w, p, ch) == At(t, p, ch)
  {
  }

  lemma ExtendMantissa(t: string, w: string, a: nat)
    requires w == [] || IsWhitespace(w[0])
    requires a <= |t|
    ensures MantissaEnd(t + w, a) == MantissaEnd(t, a)
  {
    DigitRunExtend(t, w, a);
    var b := a + DigitRun(t, a);
    ExtendAt(t, w, b, '.');
    if At(t, b, '.') {
      DigitRunExtend(t, w, b + 1);
    }
  }

  lemma ExtendExponent(t: string, w: string, c: nat)
    requires w == [] || IsWhitespace(w[0])
    requires c <= |t|
    ensures ExponentLen(t + w, c) == ExponentLen(t, c)
  {
    ExtendAt(t, w, c, 'e');
    ExtendAt(t, w, c, 'E');
    if At(t, c, 'e') || At(t, c, 'E') {
      ExtendAt(t, w, c + 1, '+');
      ExtendAt(t, w, c + 1, '-');
      var es := if At(t, c + 1, '+') || At(t, c + 1, '-') then 1 else 0;
      assert es == if At(t + w, c + 1, '+') || At(t + w, c + 1, '-') then 1 else 0;
      DigitRunExtend(t, w, c + 1 + es);
    }
  }

  /** Whitespace after a string does not change the literal found at its
      start. */
  lemma ExtendLiteralLen(t: string, w: string)
    requires w == [] || IsWhitespace(w[0])
    ensures LiteralLen(t + w) == LiteralLen(t)
  {
    if t == [] {
      assert SignLen(t + w) == 0 == SignLen(t);
    } else {
      assert SignLen(t + w) == SignLen(t);
    }
    var a := SignLen(t);
    if a <= |t| {
      ExtendMantissa(t, w, a);
      ExtendAt(t, w, a, '.');
      ExtendExponent(t, w, MantissaEnd(t, a));
    }
  }

  /** Scanning stops at whitespace, so whatever whitespace follows is not
      looked at. */
  lemma ScanExtend(t: string, w: string)
    requires w == [] || IsWhitespace(w[0])
    ensures Scan(t + w) == Scan(t)
  {
    ExtendLiteralLen(t, w);
    var n := LiteralLen(t);
    assert (t + w)[..n] == t[..n];
  }

  /** When `Number` reads a string as a number and the string is not blank,
      `parseFloat` reads the same number from it. */
  lemma ParseFloatAgrees(s: string)
    requires Trim(s) != [] && Number(s).Finite?
    ensures ParseFloat(s) == Number(s)
  {
    TrimStartSplit(s);
    var t := Trim(s);
    var w := TrimStart(s)[|t|..];
    assert w == [] || IsWhitespace(w[0]);
    ScanExtend(t, w);
  }

  /** A blank string is the number 0 to `Number` but NaN to `parseFloat`. */
  lemma BlankDisagrees(s: string)
    requires s != [] && AllWhitespace(s)
    ensures Number(s) == Finite(0.0)
    ensures ParseFloat(s) == NaN
  {
    TrimEmpty(s);
    assert TrimStart(s) == [] by {
      assert TrimEnd(TrimStart(s)) == [];
      assert AllWhitespace(TrimStart(s)[0..]);
    }
  }

  /** A concrete reading: `Number("5")` and `parseFloat("5")` are 5. */
  lemma NumberExample()
    ensures Number("5") == Finite(5.0) == ParseFloat("5")
  {
    var t := "5";
    assert !IsWhitespace(t[0]);
    assert TrimStart(t) == t;
    assert TrimEnd(t) == t;
    assert Trim(t) == t;
    LiteralExample();
    assert Number(t) == Finite(5.0);
    assert ParseFloat(t) == Finite(5.0);
  }

  lemma LiteralExample()
    ensures LiteralLen("5") == 1 && Scan("5") == Some((5.0, 1))
  {
    var t := "5";
    assert SignLen(t) == 0;
    assert DigitRun(t, 1) == 0;
    assert DigitRun(t, 0) == 1;
    assert MantissaEnd(t, 0) == 1;
    assert ExponentLen(t, 1) == 0;
    assert t[..1] == t && t[0..1] == t;
    assert DigitsValue(t) == 5;
  }
}
