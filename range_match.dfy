/** Weight-range cells of the rate tables and the two `_check_weight_in_range`
    matchers.  A cell is free text such as `(3,20]磅`, `<=20` or `>=500g`;
    the matcher answers whether a weight falls in it, and answers `false`
    for any text it cannot read instead of raising. */
module RangeMatch {
  import opened Text

  /** The characters of the regular-expression class `[0-9\.]`. */
  predicate IsNumChar(c: char) { IsDigit(c) || c == '.' }

  /** A non-empty run of `[0-9\.]`, as one group of the interval pattern captures. */
  predicate IsNumText(s: string) { |s| > 0 && forall k :: 0 <= k < |s| ==> IsNumChar(s[k]) }

  /** End of the run of blanks (`\s*`) that starts at `i`. */
  function SkipSpaces(s: string, i: nat): (j: nat)
    requires i <= |s|
    ensures i <= j <= |s|
    ensures forall k :: i <= k < j ==> IsSpace(s[k])
    ensures j < |s| ==> !IsSpace(s[j])
    decreases |s| - i
  {
    if i < |s| && IsSpace(s[i]) then SkipSpaces(s, i + 1) else i
  }

  /** End of the run of `[0-9\.]` characters that starts at `i`. */
  function NumRunEnd(s: string, i: nat): (j: nat)
    requires i <= |s|
    ensures i <= j <= |s|
    ensures forall k :: i <= k < j ==> IsNumChar(s[k])
    ensures j < |s| ==> !IsNumChar(s[j])
    decreases |s| - i
  {
    if i < |s| && IsNumChar(s[i]) then NumRunEnd(s, i + 1) else i
  }

  /** `\s*([0-9\.]+)\s*` from position `i`: the group and the position after
      the blanks that follow it. */
  function GroupAt(s: string, i: nat): (r: Option<(string, nat)>)
    requires i <= |s|
    ensures r.Some? ==> IsNumText(r.value.0) && i < r.value.1 <= |s|
  {
    var j0 := SkipSpaces(s, i);
    var j1 := NumRunEnd(s, j0);
    if j1 == j0 then None else Some((s[j0..j1], SkipSpaces(s, j1)))
  }

  /** `re.match(r'^\(?\s*([0-9\.]+)\s*,\s*([0-9\.]+)\s*\]$', s)`: the two
      groups when the pattern matches.  Every part of the pattern is followed
      by a part that cannot match the characters it takes, so the greedy
      reading below is the only one; `$` also matches before one final
      newline. */
  function IntervalSyntax(s: string): (r: Option<(string, string)>)
    ensures r.Some? ==> IsNumText(r.value.0) && IsNumText(r.value.1) && ']' in s
  {
    match GroupAt(s, if |s| > 0 && s[0] == '(' then 1 else 0)
    case None => None
    case Some((low, c)) =>
      if c == |s| || s[c] != ',' then None
      else
        match GroupAt(s, c + 1)
        case None => None
        case Some((high, e)) =>
          if e < |s| && s[e] == ']' && (e + 1 == |s| || (e + 2 == |s| && s[e + 1] == '\n')) then Some((low, high))
          else None
  }

  /** The single-bound forms, in the order the matchers test them. */
  datatype Bound = AtMost | Below | AtLeast | Above

  function Symbol(b: Bound): string {
    match b
    case AtMost => "<="
    case Below => "<"
    case AtLeast => ">="
    case Above => ">"
  }

  predicate Holds(b: Bound, w: real, limit: real) {
    match b
    case AtMost => w <= limit
    case Below => w < limit
    case AtLeast => w >= limit
    case Above => w > limit
  }

  /** The `startswith` tests: `<=` before `<`, `>=` before `>`; the bound
      and the text after the symbol. */
  function BoundForm(s: string): (r: Option<(Bound, string)>)
    ensures r.Some? ==> s == Symbol(r.value.0) + r.value.1
    ensures r.None? <==> !StartsWith(s, "<") && !StartsWith(s, ">")
  {
    if StartsWith(s, "<=") then Some((AtMost, s[2..]))
    else if StartsWith(s, "<") then Some((Below, s[1..]))
    else if StartsWith(s, ">=") then Some((AtLeast, s[2..]))
    else if StartsWith(s, ">") then Some((Above, s[1..]))
    else None
  }

  /** A single-bound cell: `float` of the text after the symbol, `false`
      when that raises or when no symbol leads. */
  predicate SingleBound(w: real, s: string) {
    match BoundForm(s)
    case None => false
    case Some((b, rest)) =>
      match ParseFloat(rest)
      case None => false
      case Some(limit) => Holds(b, w, limit)
  }

  /** `low < w <= high` on two texts read by `float`, `false` if either raises. */
  predicate HalfOpen(w: real, low: string, high: string) {
    match (ParseFloat(low), ParseFloat(high))
    case (Some(a), Some(b)) => a < w <= b
    case _ => false
  }

  /** `re.sub(r'[()\[\]]', '', s)` */
  function RemoveBrackets(s: string): (r: string)
    ensures forall x :: x in r <==> x in s && x !in "()[]"
  {
    RemoveChar(RemoveChar(RemoveChar(RemoveChar(s, '('), ')'), '['), ']')
  }

  /** The text the US matcher reads: the unit `磅` (pound) removed, then stripped. */
  function UsClean(range: string): string { Strip(RemoveChar(range, '磅')) }

  /** The text the EU matcher reads: every `g` removed, then stripped. */
  function EuClean(range: string): string { Strip(RemoveChar(range, 'g')) }

  /** The US matcher on cleaned text: the interval pattern, then the
      bracket fallback (both `(` and `]` present and one comma), then the
      single-bound forms. */
  predicate UsMatchClean(w: real, clean: string) {
    match IntervalSyntax(clean)
    case Some((low, high)) => HalfOpen(w, low, high)
    case None =>
      if '(' in clean && ']' in clean && CountChar(RemoveBrackets(clean), ',') == 1 then
        var nums := RemoveBrackets(clean);
        var k := IndexOf(nums, ',');
        HalfOpen(w, nums[..k], nums[k + 1..])
      else SingleBound(w, clean)
  }

  predicate UsInRange(w: real, range: string): (r: bool)
    ensures r ==> ']' in range || StartsWith(UsClean(range), "<") || StartsWith(UsClean(range), ">")
  {
    NoCloserNoMatch(w, range);
    UsMatchClean(w, UsClean(range))
  }

  /** The EU matcher reads only the single-bound forms.  The source strips
      the text after the symbol once more before `float`, which `float`
      itself does anyway (`ParseFloatStrip`). */
  predicate EuInRange(w: real, range: string): (r: bool)
    ensures r ==> StartsWith(EuClean(range), "<") || StartsWith(EuClean(range), ">")
  {
    SingleBound(w, EuClean(range))
  }

  /* Reading the forms back. */

  lemma NumRunEndOf(s: string, i: nat, t: string)
    requires i + |t| <= |s| && s[i..i + |t|] == t
    requires forall k :: 0 <= k < |t| ==> IsNumChar(t[k])
    requires i + |t| < |s| ==> !IsNumChar(s[i + |t|])
    ensures NumRunEnd(s, i) == i + |t|
    decreases |t|
  {
    if t != [] {
      assert s[i] == t[0];
      assert s[i + 1..i + 1 + |t[1..]|] == t[1..];
      NumRunEndOf(s, i + 1, t[1..]);
    }
  }

  lemma NumTextNoSpace(t: string)
    requires IsNumText(t)
    ensures NoSpace(t) && '(' !in t && ']' !in t && ',' !in t && '磅' !in t && 'g' !in t
  {
    forall k | 0 <= k < |t| ensures !IsSpace(t[k]) { assert IsNumChar(t[k]); }
  }

  /** Removing a unit suffix and stripping leave blank-free text as it is. */
  lemma CleanOf(s: string, unit: string, u: char)
    requires NoSpace(s) && u !in s && (unit == "" || unit == [u])
    ensures Strip(RemoveChar(s + unit, u)) == s
  {
    RemoveCharAppend(s, unit, u);
    assert RemoveChar(unit, u) == [];
    assert s + [] == s;
    StripNoSpace(s);
  }

  function IntervalText(a: string, b: string): string { "(" + a + "," + b + "]" }

  lemma IntervalTextNoSpace(a: string, b: string)
    requires IsNumText(a) && IsNumText(b)
    ensures NoSpace(IntervalText(a, b)) && '磅' !in IntervalText(a, b)
  {
    NumTextNoSpace(a);
    NumTextNoSpace(b);
    var s := IntervalText(a, b);
    forall k | 0 <= k < |s| ensures !IsSpace(s[k]) && s[k] != '磅' {
      if 1 <= k <= |a| { assert s[k] == a[k - 1]; }
      else if |a| + 2 <= k <= |a| + 1 + |b| { assert s[k] == b[k - |a| - 2]; }
    }
  }

  lemma SkipSpacesAt(s: string, i: nat)
    requires i < |s| && !IsSpace(s[i])
    ensures SkipSpaces(s, i) == i
  {
  }

  lemma GroupAtOf(s: string, i: nat, t: string)
    requires IsNumText(t) && i + |t| < |s| && s[i..i + |t|] == t
    requires !IsSpace(s[i + |t|]) && !IsNumChar(s[i + |t|])
    ensures GroupAt(s, i) == Some((t, i + |t|))
  {
    assert s[i] == t[0] && IsNumChar(t[0]);
    SkipSpacesAt(s, i);
    NumRunEndOf(s, i, t);
    SkipSpacesAt(s, i + |t|);
  }

  /** Where the parts of `(a,b]` stand. */
  lemma IntervalParts(a: string, b: string)
    ensures |IntervalText(a, b)| == |a| + |b| + 3
    ensures IntervalText(a, b)[0] == '(' && IntervalText(a, b)[1 + |a|] == ','
    ensures IntervalText(a, b)[2 + |a| + |b|] == ']'
    ensures IntervalText(a, b)[1..1 + |a|] == a
    ensures IntervalText(a, b)[2 + |a|..2 + |a| + |b|] == b
  {
  }

  lemma IntervalSyntaxOf(a: string, b: string)
    requires IsNumText(a) && IsNumText(b)
    ensures IntervalSyntax(IntervalText(a, b)) == Some((a, b))
  {
    var s := IntervalText(a, b);
    IntervalParts(a, b);
    GroupAtOf(s, 1, a);
    GroupAtOf(s, 2 + |a|, b);
  }

  /** `(a,b]` with numeric texts `a`, `b`, with or without the unit, accepts
      exactly the weights above `a` and up to `b`. */
  lemma UsIntervalForm(w: real, a: string, b: string, unit: string)
    requires IsNumText(a) && IsNumText(b) && (unit == "" || unit == "磅")
    ensures UsInRange(w, IntervalText(a, b) + unit) == HalfOpen(w, a, b)
  {
    IntervalTextNoSpace(a, b);
    CleanOf(IntervalText(a, b), unit, '磅');
    IntervalSyntaxOf(a, b);
  }

  lemma NumTextStartsNoSymbol(t: string)
    requires IsNumText(t)
    ensures !StartsWith(t, "=") && !StartsWith(t, "<") && !StartsWith(t, ">")
  {
    assert IsNumChar(t[0]);
  }

  lemma BoundFormOf(b: Bound, t: string)
    requires IsNumText(t)
    ensures BoundForm(Symbol(b) + t) == Some((b, t))
  {
    NumTextStartsNoSymbol(t);
    var s := Symbol(b) + t;
    assert s[|Symbol(b)|..] == t;
    if b == Below || b == Above {
      assert s[..2] == [s[0], t[0]];
      assert t[..1] == [t[0]];
    }
  }

  lemma SymbolTextNoSpace(b: Bound, t: string)
    requires IsNumText(t)
    ensures NoSpace(Symbol(b) + t) && '(' !in Symbol(b) + t && ']' !in Symbol(b) + t
    ensures '磅' !in Symbol(b) + t && 'g' !in Symbol(b) + t
  {
    NumTextNoSpace(t);
    var s := Symbol(b) + t;
    forall k | 0 <= k < |s| ensures !IsSpace(s[k]) {
      if k >= |Symbol(b)| { assert s[k] == t[k - |Symbol(b)|]; }
    }
  }

  /** Cleaned text that leads with `<` or `>` is read as a single bound. */
  lemma UsMatchSingle(w: real, s: string)
    requires s != [] && (s[0] == '<' || s[0] == '>') && '(' !in s
    ensures UsMatchClean(w, s) == SingleBound(w, s)
  {
    SkipSpacesAt(s, 0);
    assert NumRunEnd(s, 0) == 0;
    assert GroupAt(s, 0).None?;
  }

  /** `<=N`, `<N`, `>=N` and `>N` (with or without `磅`) compare the weight
      with `N` at exactly that inclusivity. */
  lemma UsBoundForm(w: real, b: Bound, t: string, unit: string)
    requires IsNumText(t) && (unit == "" || unit == "磅")
    ensures UsInRange(w, Symbol(b) + t + unit) == (ParseFloat(t).Some? && Holds(b, w, ParseFloat(t).value))
  {
    var s := Symbol(b) + t;
    SymbolTextNoSpace(b, t);
    CleanOf(s, unit, '磅');
    assert s[0] == Symbol(b)[0];
    UsMatchSingle(w, s);
    BoundFormOf(b, t);
  }

  /** The same forms in the EU table (with or without `g`). */
  lemma EuBoundForm(w: real, b: Bound, t: string, unit: string)
    requires IsNumText(t) && (unit == "" || unit == "g")
    ensures EuInRange(w, Symbol(b) + t + unit) == (ParseFloat(t).Some? && Holds(b, w, ParseFloat(t).value))
  {
    SymbolTextNoSpace(b, t);
    CleanOf(Symbol(b) + t, unit, 'g');
    BoundFormOf(b, t);
  }

  lemma NotInStrip(s: string, c: char)
    requires c !in s
    ensures c !in Strip(s)
  {
    var i, j :| 0 <= i <= j <= |s| && Strip(s) == s[i..j];
    forall k | 0 <= k < j - i ensures Strip(s)[k] != c {
      assert Strip(s)[k] == s[i + k];
    }
  }

  /** A US cell with no `]` and without a leading `<` or `>` never matches. */
  lemma UsRejectsOther(w: real, range: string)
    requires ']' !in range
    requires !StartsWith(UsClean(range), "<") && !StartsWith(UsClean(range), ">")
    ensures !UsInRange(w, range)
  {
  }

  lemma NoCloserNoMatch(w: real, range: string)
    ensures ']' !in range && !StartsWith(UsClean(range), "<") && !StartsWith(UsClean(range), ">") ==>
      !UsMatchClean(w, UsClean(range))
  {
    if ']' !in range && !StartsWith(UsClean(range), "<") && !StartsWith(UsClean(range), ">") {
      NoCloserNoMatchCase(w, range);
    }
  }

  lemma NoCloserNoMatchCase(w: real, range: string)
    requires ']' !in range
    requires !StartsWith(UsClean(range), "<") && !StartsWith(UsClean(range), ">")
    ensures !UsMatchClean(w, UsClean(range))
  {
    var r := RemoveChar(range, '磅');
    assert ']' !in r;
    NotInStrip(r, ']');
    var clean := UsClean(range);
    assert ']' !in clean;
    assert IntervalSyntax(clean).None?;
    assert BoundForm(clean).None?;
  }

  lemma StripKeepsFirst(s: string)
    requires s != [] && !IsSpace(s[0])
    ensures Strip(s) != [] && Strip(s)[0] == s[0]
  {
    assert TrimLeft(s) == s;
  }

  /** An EU cell whose text does not lead with `<` or `>` never matches. */
  lemma EuRejectsOther(w: real, range: string)
    requires !StartsWith(EuClean(range), "<") && !StartsWith(EuClean(range), ">")
    ensures !EuInRange(w, range)
  {
  }

  /** In particular the EU matcher does not read the interval notation. */
  lemma EuRejectsInterval(w: real, a: string, b: string)
    ensures !EuInRange(w, IntervalText(a, b))
  {
    var s := IntervalText(a, b);
    assert s[0] == '(';
    var r := RemoveChar(s, 'g');
    assert r == [s[0]] + RemoveChar(s[1..], 'g');
    StripKeepsFirst(r);
    assert EuClean(s) == Strip(r) && EuClean(s)[0] == '(';
    EuRejectsOther(w, s);
  }

  /** `open a , b close` with numeric texts has no blank and no `磅`, and
      holds `(` or `]` only as its own opener and closer. */
  lemma BracketedNoSpace(open: char, a: string, b: string, close: char)
    requires IsNumText(a) && IsNumText(b) && !IsSpace(open) && !IsSpace(close) && open != '磅' && close != '磅'
    ensures NoSpace([open] + a + "," + b + [close]) && '磅' !in [open] + a + "," + b + [close]
    ensures ('(' in [open] + a + "," + b + [close]) == (open == '(' || close == '(')
    ensures (']' in [open] + a + "," + b + [close]) == (open == ']' || close == ']')
  {
    NumTextNoSpace(a);
    NumTextNoSpace(b);
    var s := [open] + a + "," + b + [close];
    forall k | 0 <= k < |s| ensures !IsSpace(s[k]) && s[k] != '磅' {
      if 1 <= k <= |a| { assert s[k] == a[k - 1]; }
      else if |a| + 2 <= k <= |a| + 1 + |b| { assert s[k] == b[k - |a| - 2]; }
    }
  }

  /** The US matcher reads the interval notation only with a round opener
      and a square closer: `[a,b]` matches no weight ... */
  lemma UsRejectsSquareOpener(w: real, a: string, b: string)
    requires IsNumText(a) && IsNumText(b)
    ensures !UsInRange(w, "[" + a + "," + b + "]")
  {
    var s := "[" + a + "," + b + "]";
    SquareOpenerClean(a, b);
    SkipSpacesAt(s, 0);
    assert NumRunEnd(s, 0) == 0;
    assert GroupAt(s, 0).None?;
    assert IntervalSyntax(s).None?;
    assert !StartsWith(s, "<") && !StartsWith(s, ">");
    assert !UsMatchClean(w, s);
  }

  lemma SquareOpenerClean(a: string, b: string)
    requires IsNumText(a) && IsNumText(b)
    ensures var s := "[" + a + "," + b + "]";
      UsClean(s) == s && s[0] == '[' && '(' !in s
  {
    var s := "[" + a + "," + b + "]";
    BracketedNoSpace('[', a, b, ']');
    CleanOf(s, "", '磅');
    assert s + "" == s;
  }

  /** ... and neither does `(a,b)`. */
  lemma UsRejectsRoundCloser(w: real, a: string, b: string)
    requires IsNumText(a) && IsNumText(b)
    ensures !UsInRange(w, "(" + a + "," + b + ")")
  {
    var s := "(" + a + "," + b + ")";
    BracketedNoSpace('(', a, b, ')');
    CleanOf(s, "", '磅');
    assert s + "" == s;
    UsRejectsOther(w, s);
  }
}
