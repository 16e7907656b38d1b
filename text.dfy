/** The pieces of Python's string and number built-ins that the rate engine
    relies on: `str.strip`, `str.replace` of one character by nothing,
    `str.startswith`, `in` on strings, ASCII `lower`/`upper`, `str.isdigit`
    and `float(text)`.  Each is modelled on `string` (a `seq<char>`). */
module Text {

  datatype Option<+T> = None | Some(value: T)

  /** Python's `str.isspace` (the characters `strip()` removes and `\s` matches). */
  predicate IsSpace(c: char) {
    c == ' ' || ('\t' <= c <= '\r') || ('\U{1C}' <= c <= '\U{1F}') ||
    c == '\U{85}' || c == '\U{A0}' || c == '\U{1680}' || ('\U{2000}' <= c <= '\U{200A}') ||
    c == '\U{2028}' || c == '\U{2029}' || c == '\U{202F}' || c == '\U{205F}' || c == '\U{3000}'
  }

  predicate IsDigit(c: char) { '0' <= c <= '9' }

  predicate AllDigits(s: string) { forall k :: 0 <= k < |s| ==> IsDigit(s[k]) }

  predicate NoSpace(s: string) { forall k :: 0 <= k < |s| ==> !IsSpace(s[k]) }

  /** `s.lstrip()` */
  function TrimLeft(s: string): (r: string)
    ensures |r| <= |s| && r == s[|s| - |r|..]
    ensures forall k :: 0 <= k < |s| - |r| ==> IsSpace(s[k])
    ensures r == [] || !IsSpace(r[0])
  {
    if s != [] && IsSpace(s[0]) then TrimLeft(s[1..]) else s
  }

  /** `s.rstrip()` */
  function TrimRight(s: string): (r: string)
    ensures |r| <= |s| && r == s[..|r|]
    ensures forall k :: |r| <= k < |s| ==> IsSpace(s[k])
    ensures r == [] || !IsSpace(r[|r| - 1])
  {
    if s != [] && IsSpace(s[|s| - 1]) then TrimRight(s[..|s| - 1]) else s
  }

  /** `s.strip()`: the slice of `s` left once leading and trailing blanks are gone. */
  function Strip(s: string): (r: string)
    ensures exists i, j :: 0 <= i <= j <= |s| && r == s[i..j]
    ensures r == [] || (!IsSpace(r[0]) && !IsSpace(r[|r| - 1]))
  {
    var t := TrimLeft(s);
    var r := TrimRight(t);
    assert r == s[|s| - |t|..|s| - |t| + |r|];
    r
  }

  lemma StripNoSpace(s: string)
    requires NoSpace(s)
    ensures Strip(s) == s
  {
    if s != [] {
      assert TrimLeft(s) == s;
      assert TrimRight(s) == s;
    }
  }

  /** Stripping twice is stripping once. */
  lemma StripIdempotent(s: string)
    ensures Strip(Strip(s)) == Strip(s)
  {
    var r := Strip(s);
    if r != [] {
      assert TrimLeft(r) == r;
      assert TrimRight(r) == r;
    }
  }

  /** `s.replace(c, '')` */
  function RemoveChar(s: string, c: char): (r: string)
    ensures |r| <= |s|
    ensures forall x :: x in r <==> x in s && x != c
    ensures c !in s ==> r == s
  {
    if s == [] then []
    else if s[0] == c then RemoveChar(s[1..], c)
    else [s[0]] + RemoveChar(s[1..], c)
  }

  lemma RemoveCharAppend(a: string, b: string, c: char)
    ensures RemoveChar(a + b, c) == RemoveChar(a, c) + RemoveChar(b, c)
  {
    if a != [] {
      assert (a + b)[1..] == a[1..] + b;
      RemoveCharAppend(a[1..], b, c);
    } else {
      assert a + b == b;
    }
  }

  /** Removing the one `c` between two texts without it. */
  lemma RemoveCharAround(a: string, c: char, b: string)
    requires c !in a && c !in b
    ensures RemoveChar(a + [c] + b, c) == a + b
  {
    RemoveCharAppend(a + [c], b, c);
    RemoveCharAppend(a, [c], c);
    assert RemoveChar([c], c) == [];
    assert a + [] == a;
  }

  /** `s.startswith(p)` */
  predicate StartsWith(s: string, p: string) {
    |p| <= |s| && s[..|p|] == p
  }

  /** Position of the first `c` in `s`. */
  function IndexOf(s: string, c: char): (k: nat)
    requires c in s
    ensures k < |s| && s[k] == c && c !in s[..k]
  {
    if s[0] == c then 0
    else
      var k := 1 + IndexOf(s[1..], c);
      assert s[..k] == [s[0]] + s[1..][..k - 1];
      k
  }

  function CountChar(s: string, c: char): (n: nat)
    ensures n <= |s|
    ensures n == 0 <==> c !in s
  {
    if s == [] then 0 else (if s[0] == c then 1 else 0) + CountChar(s[1..], c)
  }

  lemma CountCharAppend(a: string, b: string, c: char)
    ensures CountChar(a + b, c) == CountChar(a, c) + CountChar(b, c)
  {
    if a != [] {
      assert (a + b)[1..] == a[1..] + b;
      CountCharAppend(a[1..], b, c);
    } else {
      assert a + b == b;
    }
  }

  /** Cutting a text at its first `c`. */
  lemma SplitAtFirst(t: string, c: char)
    requires c in t
    ensures var k := IndexOf(t, c);
      t == t[..k] + [c] + t[k + 1..] &&
      CountChar(t, c) == 1 + CountChar(t[k + 1..], c) &&
      RemoveChar(t, c) == t[..k] + RemoveChar(t[k + 1..], c)
  {
    var k := IndexOf(t, c);
    var a, b := t[..k], t[k + 1..];
    assert t == a + [c] + b;
    CountCharAppend(a + [c], b, c);
    CountCharAppend(a, [c], c);
    RemoveCharAppend(a + [c], b, c);
    RemoveCharAppend(a, [c], c);
    assert RemoveChar([c], c) == [];
    assert a + [] == a;
  }

  /** ASCII case mapping, standing in for `str.lower()` and `str.upper()`. */
  function LowerChar(c: char): char {
    if 'A' <= c <= 'Z' then (c as int + 32) as char else c
  }

  function UpperChar(c: char): char {
    if 'a' <= c <= 'z' then (c as int - 32) as char else c
  }

  function Lower(s: string): (r: string)
    ensures |r| == |s| && forall k :: 0 <= k < |s| ==> r[k] == LowerChar(s[k])
  {
    if s == [] then [] else [LowerChar(s[0])] + Lower(s[1..])
  }

  function Upper(s: string): (r: string)
    ensures |r| == |s| && forall k :: 0 <= k < |s| ==> r[k] == UpperChar(s[k])
  {
    if s == [] then [] else [UpperChar(s[0])] + Upper(s[1..])
  }

  /** `s.isdigit()`, restricted to ASCII digits: true of a non-empty digit string. */
  predicate IsDigitText(s: string) { |s| > 0 && AllDigits(s) }

  function DigitValue(c: char): nat
    requires IsDigit(c)
  {
    c as int - '0' as int
  }

  /** Value of a digit string read in base ten (0 for the empty string). */
  function DigitsValue(s: string): (n: nat)
    requires AllDigits(s)
  {
    if s == [] then 0 else 10 * DigitsValue(s[..|s| - 1]) + DigitValue(s[|s| - 1])
  }

  function Pow10(n: nat): (p: nat)
    ensures p >= 1
  {
    if n == 0 then 1 else 10 * Pow10(n - 1)
  }

  /** The value of the decimal literal `whole.frac`. */
  function DecimalValue(whole: string, frac: string): (v: real)
    requires AllDigits(whole) && AllDigits(frac)
    ensures v >= 0.0
  {
    DigitsValue(whole) as real + DigitsValue(frac) as real / Pow10(|frac|) as real
  }

  /** The unsigned decimal literals that `float()` reads: `ddd`, `ddd.`, `.ddd`
      and `ddd.ddd`, with at least one digit. */
  function ParseUnsigned(t: string): (r: Option<real>)
    ensures r.Some? ==> r.value >= 0.0
    ensures r.Some? ==> |t| > 0
    ensures IsDigitText(t) ==> r == Some(DigitsValue(t) as real)
  {
    if '.' in t then
      var k := IndexOf(t, '.');
      var whole, frac := t[..k], t[k + 1..];
      if AllDigits(whole) && AllDigits(frac) && |whole| + |frac| > 0 then
        Some(DecimalValue(whole, frac))
      else None
    else if IsDigitText(t) then Some(DigitsValue(t) as real)
    else None
  }

  lemma IndexOfAfter(a: string, c: char, b: string)
    requires c !in a
    ensures c in a + [c] + b && IndexOf(a + [c] + b, c) == |a|
  {
    assert (a + [c] + b)[|a|] == c;
    if a != [] {
      assert (a + [c] + b)[1..] == a[1..] + [c] + b;
      IndexOfAfter(a[1..], c, b);
    }
  }

  /** A decimal literal `whole.frac` reads as its value. */
  lemma ParseUnsignedDecimal(whole: string, frac: string)
    requires AllDigits(whole) && AllDigits(frac) && |whole| + |frac| > 0
    ensures ParseUnsigned(whole + "." + frac) == Some(DecimalValue(whole, frac))
  {
    var t := whole + "." + frac;
    assert '.' !in whole by {
      forall k | 0 <= k < |whole| ensures whole[k] != '.' { assert IsDigit(whole[k]); }
    }
    IndexOfAfter(whole, '.', frac);
    assert t == whole + ['.'] + frac;
    var k := IndexOf(t, '.');
    assert k == |whole|;
    assert t[..k] == whole;
    assert t[k + 1..] == frac;
  }

  lemma AllDigitsAppend(a: string, b: string)
    requires AllDigits(a) && AllDigits(b)
    ensures AllDigits(a + b)
  {
    forall m | 0 <= m < |a + b| ensures IsDigit((a + b)[m]) {
      if m < |a| { assert (a + b)[m] == a[m]; } else { assert (a + b)[m] == b[m - |a|]; }
    }
  }

  /** Digits and dots, with at least one digit, read as an unsigned literal
      exactly when there is at most one dot. */
  lemma ParseDigitsDots(t: string)
    requires forall k :: 0 <= k < |t| ==> IsDigit(t[k]) || t[k] == '.'
    requires RemoveChar(t, '.') != []
    ensures ParseUnsigned(t).None? <==> CountChar(t, '.') >= 2
  {
    if '.' !in t {
      assert AllDigits(t) by {
        forall m | 0 <= m < |t| ensures IsDigit(t[m]) { assert t[m] in t; }
      }
    } else {
      ParseWithDot(t);
    }
  }

  lemma ParseWithDot(t: string)
    requires forall k :: 0 <= k < |t| ==> IsDigit(t[k]) || t[k] == '.'
    requires RemoveChar(t, '.') != [] && '.' in t
    ensures ParseUnsigned(t).None? <==> CountChar(t, '.') >= 2
  {
    var k := IndexOf(t, '.');
    var whole, frac := t[..k], t[k + 1..];
    SplitAtFirst(t, '.');
    assert AllDigits(whole) by {
      forall m | 0 <= m < |whole| ensures IsDigit(whole[m]) {
        assert whole[m] == t[m] && whole[m] in whole;
      }
    }
    forall m | 0 <= m < |frac| ensures IsDigit(frac[m]) || frac[m] == '.' {
      assert frac[m] == t[k + 1 + m];
    }
    ParseAtDot(whole, frac);
    assert t == whole + "." + frac;
  }

  /** `whole.frac` with `whole` all digits reads exactly when `frac` has no
      further dot. */
  lemma ParseAtDot(whole: string, frac: string)
    requires AllDigits(whole) && |whole| + |frac| > 0
    requires forall m :: 0 <= m < |frac| ==> IsDigit(frac[m]) || frac[m] == '.'
    ensures ParseUnsigned(whole + "." + frac).None? <==> '.' in frac
  {
    if '.' in frac {
      var t := whole + "." + frac;
      assert '.' !in whole by {
        forall k | 0 <= k < |whole| ensures whole[k] != '.' { assert IsDigit(whole[k]); }
      }
      IndexOfAfter(whole, '.', frac);
      assert t == whole + ['.'] + frac;
      var k := IndexOf(t, '.');
      assert t[..k] == whole && t[k + 1..] == frac;
      assert !AllDigits(frac);
    } else {
      assert AllDigits(frac);
      ParseUnsignedDecimal(whole, frac);
    }
  }

  /** `float(s)` for decimal text: surrounding blanks are ignored and one
      leading sign is allowed; anything else makes `float` raise (`None`). */
  function ParseFloat(s: string): (r: Option<real>)
    ensures Strip(s) == [] ==> r == None
  {
    ParseSigned(Strip(s))
  }

  /** An optional sign, then an unsigned literal. */
  function ParseSigned(t: string): (r: Option<real>)
    ensures t == [] ==> r == None
  {
    if |t| > 0 && (t[0] == '+' || t[0] == '-') then
      match ParseUnsigned(t[1..])
      case None => None
      case Some(v) => Some(if t[0] == '-' then -v else v)
    else ParseUnsigned(t)
  }

  /** `float(s.strip())` reads what `float(s)` reads. */
  lemma ParseFloatStrip(s: string)
    ensures ParseFloat(Strip(s)) == ParseFloat(s)
  {
    StripIdempotent(s);
  }

  /** Text without blanks or a leading sign reads as an unsigned literal. */
  lemma ParseFloatUnsigned(t: string)
    requires NoSpace(t) && (t == [] || (t[0] != '+' && t[0] != '-'))
    ensures ParseFloat(t) == ParseUnsigned(t)
  {
    StripNoSpace(t);
  }

  /** A digit string without blanks or sign reads as its base-ten value. */
  lemma ParseFloatDigits(d: string)
    requires IsDigitText(d)
    ensures ParseFloat(d) == Some(DigitsValue(d) as real)
  {
    assert NoSpace(d) by {
      forall k | 0 <= k < |d| ensures !IsSpace(d[k]) { assert IsDigit(d[k]); }
    }
    StripNoSpace(d);
  }

  /** Products of non-negative factors grow with each factor. */
  lemma ProductBound(a: real, b: real, c: real, x: real, y: real, z: real)
    requires 0.0 <= a <= x && 0.0 <= b <= y && 0.0 <= c <= z
    ensures a * b * c <= x * y * z
  {
    assert a * b <= x * b <= x * y;
    assert a * b * c <= x * y * c <= x * y * z;
  }
}
