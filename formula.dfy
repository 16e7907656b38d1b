/** Fee formulas.  A rate-table fee that is not a plain amount is an
    arithmetic formula in the billing weight, written with the placeholder
    `发货重量`.  The calculators hand the text, with the weight substituted,
    to Python's `eval` and round the value to two decimals.  This module puts
    a restricted evaluator in `eval`'s place: decimal literals, the weight
    placeholder, `+ - * /`, unary signs and parentheses, with the usual
    precedence and left associativity.  Division by zero and any other text
    give `None`, as the calculators' `except` branches do. */
module Formula {
  import opened Text

  const WeightName: string := "发货重量"

  datatype Token = TNum(value: real) | TWeight | TPlus | TMinus | TStar | TSlash | TOpen | TClose

  datatype Op = Add | Sub | Mul | Div

  datatype Expr =
    | Const(value: real)
    | Weight
    | Neg(arg: Expr)
    | Pos(arg: Expr)
    | Bin(op: Op, left: Expr, right: Expr)

  /** The blanks Python's tokenizer skips between the tokens of one line. */
  predicate IsBlank(c: char) { c == ' ' || c == '\t' || c == '\U{0C}' }

  /** A line break.  Python joins the lines of a parenthesised part and
      ignores blank lines at the end; any other line break ends the
      expression too early. */
  predicate IsLineBreak(c: char) { c == '\n' || c == '\r' }

  /** Nothing but blanks and line breaks from `i` on. */
  predicate BlankToEnd(s: string, i: nat)
    requires i <= |s|
  {
    forall k :: i <= k < |s| ==> IsBlank(s[k]) || IsLineBreak(s[k])
  }

  /** An integer literal with a leading zero, such as `05`, which Python 3
      rejects; `0`, `00` and decimal literals such as `05.5` are accepted. */
  predicate LeadingZeroInteger(lit: string) {
    '.' !in lit && |lit| >= 2 && lit[0] == '0' && RemoveChar(lit, '0') != []
  }

  /** End of the run of digits that starts at `i`. */
  function DigitRunEnd(s: string, i: nat): (j: nat)
    requires i <= |s|
    ensures i <= j <= |s| && AllDigits(s[i..j])
    ensures j < |s| ==> !IsDigit(s[j])
    decreases |s| - i
  {
    if i < |s| && IsDigit(s[i]) then
      var j := DigitRunEnd(s, i + 1);
      assert s[i..j] == [s[i]] + s[i + 1..j];
      j
    else i
  }

  /** End of the numeric literal that starts at `i`: digits, then optionally
      a point and more digits. */
  function NumberEnd(s: string, i: nat): (j: nat)
    requires i < |s| && (IsDigit(s[i]) || s[i] == '.')
    ensures i < j <= |s|
  {
    var e := DigitRunEnd(s, i);
    if e < |s| && s[e] == '.' then DigitRunEnd(s, e + 1) else e
  }

  function Cons(t: Token, rest: Option<seq<Token>>): (r: Option<seq<Token>>)
    ensures r.Some? <==> rest.Some?
    ensures r.Some? ==> r.value == [t] + rest.value
  {
    match rest
    case None => None
    case Some(ts) => Some([t] + ts)
  }

  /** What the tokenizer makes of the text at `i`, `depth` parentheses
      deep: a token or nothing (a skipped blank or line break), with the
      position and the depth after it; `None` where Python rejects the text. */
  function Lex(s: string, i: nat, depth: nat): (r: Option<(Option<Token>, nat, nat)>)
    requires i < |s|
    ensures r.Some? ==> i < r.value.1 <= |s|
  {
    var c := s[i];
    if IsBlank(c) then Some((None, i + 1, depth))
    else if IsLineBreak(c) then
      if depth > 0 || BlankToEnd(s, i) then Some((None, i + 1, depth)) else None
    else if c == '+' then Some((Some(TPlus), i + 1, depth))
    else if c == '-' then Some((Some(TMinus), i + 1, depth))
    else if c == '*' then Some((Some(TStar), i + 1, depth))
    else if c == '/' then Some((Some(TSlash), i + 1, depth))
    else if c == '(' then Some((Some(TOpen), i + 1, depth + 1))
    else if c == ')' then Some((Some(TClose), i + 1, if depth > 0 then depth - 1 else 0))
    else if IsDigit(c) || c == '.' then
      var j := NumberEnd(s, i);
      if LeadingZeroInteger(s[i..j]) then None
      else match ParseUnsigned(s[i..j])
        case None => None
        case Some(v) => Some((Some(TNum(v)), j, depth))
    else if StartsWith(s[i..], WeightName) then Some((Some(TWeight), i + |WeightName|, depth))
    else None
  }

  /** Splits formula text into tokens, from position `i` on, `depth`
      parentheses deep. */
  function Tokenize(s: string, i: nat, depth: nat): (r: Option<seq<Token>>)
    requires i <= |s|
    ensures r.Some? ==> |r.value| <= |s| - i
    decreases |s| - i
  {
    if i == |s| then Some([])
    else match Lex(s, i, depth)
      case None => None
      case Some((None, j, d)) => Tokenize(s, j, d)
      case Some((Some(t), j, d)) => Cons(t, Tokenize(s, j, d))
  }

  /* Recursive descent over the tokens.  Each parser starts at position `i`
     and returns the expression it read with the position after it; the
     `...Rest` parsers continue a left-associative chain. */

  function ParseSum(ts: seq<Token>, i: nat): (r: Option<(Expr, nat)>)
    requires i <= |ts|
    ensures r.Some? ==> i < r.value.1 <= |ts|
    decreases |ts| - i, 3
  {
    match ParseProduct(ts, i)
    case None => None
    case Some((e, j)) => SumRest(ts, j, e)
  }

  function SumRest(ts: seq<Token>, i: nat, acc: Expr): (r: Option<(Expr, nat)>)
    requires i <= |ts|
    ensures r.Some? ==> i <= r.value.1 <= |ts|
    decreases |ts| - i, 3
  {
    if i < |ts| && (ts[i] == TPlus || ts[i] == TMinus) then
      match ParseProduct(ts, i + 1)
      case None => None
      case Some((e, j)) => SumRest(ts, j, Bin(if ts[i] == TPlus then Add else Sub, acc, e))
    else Some((acc, i))
  }

  function ParseProduct(ts: seq<Token>, i: nat): (r: Option<(Expr, nat)>)
    requires i <= |ts|
    ensures r.Some? ==> i < r.value.1 <= |ts|
    decreases |ts| - i, 2
  {
    match ParseUnary(ts, i)
    case None => None
    case Some((e, j)) => ProductRest(ts, j, e)
  }

  function ProductRest(ts: seq<Token>, i: nat, acc: Expr): (r: Option<(Expr, nat)>)
    requires i <= |ts|
    ensures r.Some? ==> i <= r.value.1 <= |ts|
    decreases |ts| - i, 2
  {
    if i < |ts| && (ts[i] == TStar || ts[i] == TSlash) then
      match ParseUnary(ts, i + 1)
      case None => None
      case Some((e, j)) => ProductRest(ts, j, Bin(if ts[i] == TStar then Mul else Div, acc, e))
    else Some((acc, i))
  }

  function ParseUnary(ts: seq<Token>, i: nat): (r: Option<(Expr, nat)>)
    requires i <= |ts|
    ensures r.Some? ==> i < r.value.1 <= |ts|
    decreases |ts| - i, 1
  {
    if i == |ts| then None
    else match ts[i]
      case TPlus =>
        (match ParseUnary(ts, i + 1)
         case None => None
         case Some((e, j)) => Some((Pos(e), j)))
      case TMinus =>
        (match ParseUnary(ts, i + 1)
         case None => None
         case Some((e, j)) => Some((Neg(e), j)))
      case TNum(v) => Some((Const(v), i + 1))
      case TWeight => Some((Weight, i + 1))
      case TOpen =>
        (match ParseSum(ts, i + 1)
         case None => None
         case Some((e, j)) => if j < |ts| && ts[j] == TClose then Some((e, j + 1)) else None)
      case _ => None
  }

  /** The whole token sequence must form one expression. */
  function Parse(ts: seq<Token>): (r: Option<Expr>)
    ensures ts == [] ==> r == None
  {
    match ParseSum(ts, 0)
    case None => None
    case Some((e, j)) => if j == |ts| then Some(e) else None
  }

  function Apply(op: Op, x: real, y: real): (r: Option<real>)
    ensures r.None? <==> op == Div && y == 0.0
  {
    match op
    case Add => Some(x + y)
    case Sub => Some(x - y)
    case Mul => Some(x * y)
    case Div => if y == 0.0 then None else Some(x / y)
  }

  /** Value of an expression at billing weight `w`; `None` on division by zero. */
  function Eval(e: Expr, w: real): (r: Option<real>)
  {
    match e
    case Const(v) => Some(v)
    case Weight => Some(w)
    case Neg(a) => (match Eval(a, w) case None => None case Some(x) => Some(-x))
    case Pos(a) => Eval(a, w)
    case Bin(op, l, r) =>
      match (Eval(l, w), Eval(r, w))
      case (Some(x), Some(y)) => Apply(op, x, y)
      case _ => None
  }

  /** What the calculators obtain from `eval` of the cleaned fee text with
      the weight `w` in place of the placeholder. */
  function Evaluate(text: string, w: real): (r: Option<real>)
    ensures text == "" ==> r.None?
  {
    match Tokenize(text, 0, 0)
    case None => None
    case Some(ts) =>
      match Parse(ts)
      case None => None
      case Some(e) => Eval(e, w)
  }

  /* Printing, the parser's partner: a fully parenthesised token form. */

  function OpToken(op: Op): Token {
    match op
    case Add => TPlus
    case Sub => TMinus
    case Mul => TStar
    case Div => TSlash
  }

  function Print(e: Expr): (ts: seq<Token>)
    ensures |ts| > 0
  {
    match e
    case Const(v) => [TNum(v)]
    case Weight => [TWeight]
    case Neg(a) => [TMinus] + Print(a)
    case Pos(a) => [TPlus] + Print(a)
    case Bin(op, l, r) => [TOpen] + Print(l) + [OpToken(op)] + Print(r) + [TClose]
  }

  /** Reading a printed expression back, wherever it stands in a token
      sequence, yields that expression and stops right after it. */
  lemma {:induction false} ParseUnaryPrint(e: Expr, ts: seq<Token>, i: nat)
    requires i + |Print(e)| <= |ts| && ts[i..i + |Print(e)|] == Print(e)
    ensures ParseUnary(ts, i) == Some((e, i + |Print(e)|))
    decreases e, 1
  {
    assert ts[i] == Print(e)[0];
    match e
    case Const(v) =>
    case Weight =>
    case Neg(a) =>
      PrintSignSlice(e, a, ts, i);
      ParseUnaryPrint(a, ts, i + 1);
    case Pos(a) =>
      PrintSignSlice(e, a, ts, i);
      ParseUnaryPrint(a, ts, i + 1);
    case Bin(op, l, r) =>
      PrintBinSlices(op, l, r, ts, i);
      ParseBinPrint(op, l, r, ts, i);
  }

  lemma {:induction false} ParseBinPrint(op: Op, l: Expr, r: Expr, ts: seq<Token>, i: nat)
    requires i + |Print(l)| + |Print(r)| + 3 <= |ts|
    requires ts[i] == TOpen && ts[i + 1..i + 1 + |Print(l)|] == Print(l)
    requires ts[i + 1 + |Print(l)|] == OpToken(op)
    requires ts[i + 2 + |Print(l)|..i + 2 + |Print(l)| + |Print(r)|] == Print(r)
    requires ts[i + 2 + |Print(l)| + |Print(r)|] == TClose
    ensures ParseUnary(ts, i) == Some((Bin(op, l, r), i + 3 + |Print(l)| + |Print(r)|))
    decreases Bin(op, l, r), 0
  {
    var j := i + 1 + |Print(l)|;
    var k := j + 1 + |Print(r)|;
    ParseUnaryPrint(l, ts, i + 1);
    ParseUnaryPrint(r, ts, j + 1);
    ParseBinChain(ts, i, op, l, r, j, k);
  }

  /** `( l op r )`, once both operands have been read. */
  lemma ParseBinChain(ts: seq<Token>, i: nat, op: Op, l: Expr, r: Expr, j: nat, k: nat)
    requires i < j < k < |ts| && ts[i] == TOpen && ts[j] == OpToken(op) && ts[k] == TClose
    requires ParseUnary(ts, i + 1) == Some((l, j)) && ParseUnary(ts, j + 1) == Some((r, k))
    ensures ParseUnary(ts, i) == Some((Bin(op, l, r), k + 1))
  {
    if op == Mul || op == Div {
      ParseProductChain(ts, i + 1, op, l, r, j, k);
    } else {
      ParseSumChain(ts, i + 1, op, l, r, j, k);
    }
    ParseUnaryOpen(ts, i, Bin(op, l, r), k);
  }

  /** `( e )`: a parenthesised sum, read as a unary operand. */
  lemma ParseUnaryOpen(ts: seq<Token>, i: nat, e: Expr, k: nat)
    requires i < k < |ts| && ts[i] == TOpen && ts[k] == TClose
    requires ParseSum(ts, i + 1) == Some((e, k))
    ensures ParseUnary(ts, i) == Some((e, k + 1))
  {
  }

  /** Where the printed operand of a printed sign stands. */
  lemma PrintSignSlice(e: Expr, a: Expr, ts: seq<Token>, i: nat)
    requires e == Neg(a) || e == Pos(a)
    requires i + |Print(e)| <= |ts| && ts[i..i + |Print(e)|] == Print(e)
    ensures i + 1 + |Print(a)| <= |ts| && ts[i + 1..i + 1 + |Print(a)|] == Print(a)
  {
    SliceOfSlice(ts, i, i + |Print(e)|, 1, |Print(e)|);
    assert Print(e)[1..] == Print(a);
  }

  /** Where the printed operands and the operator of a printed `Bin` stand. */
  lemma PrintBinSlices(op: Op, l: Expr, r: Expr, ts: seq<Token>, i: nat)
    requires i + |Print(Bin(op, l, r))| <= |ts| && ts[i..i + |Print(Bin(op, l, r))|] == Print(Bin(op, l, r))
    ensures i + |Print(l)| + |Print(r)| + 3 <= |ts|
    ensures ts[i + 1..i + 1 + |Print(l)|] == Print(l)
    ensures ts[i + 1 + |Print(l)|] == OpToken(op)
    ensures ts[i + 2 + |Print(l)|..i + 2 + |Print(l)| + |Print(r)|] == Print(r)
    ensures ts[i + 2 + |Print(l)| + |Print(r)|] == TClose
    ensures ts[i] == TOpen && |Print(Bin(op, l, r))| == |Print(l)| + |Print(r)| + 3
  {
    var p, pl, pr := Print(Bin(op, l, r)), Print(l), Print(r);
    FiveParts(TOpen, pl, OpToken(op), pr, TClose);
    Window(ts, i, p, 1, 1 + |pl|);
    Window(ts, i, p, 2 + |pl|, 2 + |pl| + |pr|);
    Window(ts, i, p, 0, |p|);
    assert ts[i..i + |p|][0] == ts[i];
    assert ts[i..i + |p|][1 + |pl|] == ts[i + 1 + |pl|];
    assert ts[i..i + |p|][2 + |pl| + |pr|] == ts[i + 2 + |pl| + |pr|];
  }

  /** The parts of `[o] + a + [x] + b + [c]`. */
  lemma FiveParts<T>(o: T, a: seq<T>, x: T, b: seq<T>, c: T)
    ensures var p := [o] + a + [x] + b + [c];
      |p| == |a| + |b| + 3 && p[0] == o && p[1..1 + |a|] == a && p[1 + |a|] == x &&
      p[2 + |a|..2 + |a| + |b|] == b && p[2 + |a| + |b|] == c
  {
    var p := [o] + a + [x] + b + [c];
    assert p[1..1 + |a|] == a;
    assert p[2 + |a|..2 + |a| + |b|] == b;
  }

  /** A part of a window of `ts` is a window of `ts`. */
  lemma Window<T>(ts: seq<T>, i: nat, p: seq<T>, a: nat, b: nat)
    requires i + |p| <= |ts| && ts[i..i + |p|] == p && a <= b <= |p|
    ensures ts[i + a..i + b] == p[a..b]
  {
    SliceOfSlice(ts, i, i + |p|, a, b);
  }

  lemma WindowAt<T>(ts: seq<T>, i: nat, p: seq<T>, k: nat)
    requires i + |p| <= |ts| && ts[i..i + |p|] == p && k < |p|
    ensures ts[i + k] == p[k]
  {
    assert ts[i..i + |p|][k] == ts[i + k];
  }

  /** `(l * r)` or `(l / r)`: a product chain of one step, closed by `)`. */
  lemma ParseProductChain(ts: seq<Token>, i: nat, op: Op, l: Expr, r: Expr, j: nat, k: nat)
    requires op == Mul || op == Div
    requires i <= j < k < |ts|
    requires ParseUnary(ts, i) == Some((l, j)) && ts[j] == OpToken(op)
    requires ParseUnary(ts, j + 1) == Some((r, k)) && ts[k] == TClose
    ensures ParseSum(ts, i) == Some((Bin(op, l, r), k))
  {
    assert ProductRest(ts, k, Bin(op, l, r)) == Some((Bin(op, l, r), k));
    assert ProductRest(ts, j, l) == Some((Bin(op, l, r), k));
    assert ParseProduct(ts, i) == Some((Bin(op, l, r), k));
    assert SumRest(ts, k, Bin(op, l, r)) == Some((Bin(op, l, r), k));
  }

  /** `(l + r)` or `(l - r)`: a sum chain of one step, closed by `)`. */
  lemma ParseSumChain(ts: seq<Token>, i: nat, op: Op, l: Expr, r: Expr, j: nat, k: nat)
    requires op == Add || op == Sub
    requires i <= j < k < |ts|
    requires ParseUnary(ts, i) == Some((l, j)) && ts[j] == OpToken(op)
    requires ParseUnary(ts, j + 1) == Some((r, k)) && ts[k] == TClose
    ensures ParseSum(ts, i) == Some((Bin(op, l, r), k))
  {
    assert ProductRest(ts, j, l) == Some((l, j));
    assert ParseProduct(ts, i) == Some((l, j));
    assert ProductRest(ts, k, r) == Some((r, k));
    assert ParseProduct(ts, j + 1) == Some((r, k));
    assert SumRest(ts, k, Bin(op, l, r)) == Some((Bin(op, l, r), k));
    assert SumRest(ts, j, l) == Some((Bin(op, l, r), k));
  }

  lemma SliceOfSlice<T>(s: seq<T>, a: nat, b: nat, c: nat, d: nat)
    requires a <= b <= |s| && c <= d <= b - a
    ensures s[a..b][c..d] == s[a + c..a + d]
  {
    forall m | 0 <= m < d - c
      ensures s[a..b][c..d][m] == s[a + c..a + d][m]
    {
      assert s[a..b][c..d][m] == s[a..b][c + m] == s[a + c + m];
    }
  }

  /** Parsing is the inverse of printing. */
  lemma ParseOfPrint(e: Expr)
    ensures Parse(Print(e)) == Some(e)
  {
    var ts := Print(e);
    assert ts[0..|ts|] == ts;
    ParseUnaryPrint(e, ts, 0);
    assert ProductRest(ts, |ts|, e) == Some((e, |ts|));
    assert ParseProduct(ts, 0) == Some((e, |ts|));
    assert SumRest(ts, |ts|, e) == Some((e, |ts|));
    assert ParseSum(ts, 0) == Some((e, |ts|));
  }

  /* Precedence and grouping of unparenthesised formulas, as in Python. */

  /** A number or the weight: a token that is an operand by itself. */
  predicate IsAtom(t: Token) { t.TNum? || t == TWeight }

  function AtomExpr(t: Token): Expr
    requires IsAtom(t)
  {
    if t.TNum? then Const(t.value) else Weight
  }

  predicate IsSumOp(op: Op) { op == Add || op == Sub }

  predicate IsProductOp(op: Op) { op == Mul || op == Div }

  /** `*` and `/` bind tighter than `+` and `-`, on either side of them. */
  lemma ProductBindsTighter(a: Token, b: Token, c: Token, sum: Op, product: Op)
    requires IsAtom(a) && IsAtom(b) && IsAtom(c) && IsSumOp(sum) && IsProductOp(product)
    ensures Parse([a, OpToken(sum), b, OpToken(product), c]) ==
      Some(Bin(sum, AtomExpr(a), Bin(product, AtomExpr(b), AtomExpr(c))))
    ensures Parse([a, OpToken(product), b, OpToken(sum), c]) ==
      Some(Bin(sum, Bin(product, AtomExpr(a), AtomExpr(b)), AtomExpr(c)))
  {
    var A, B, C := AtomExpr(a), AtomExpr(b), AtomExpr(c);
    var ts := [a, OpToken(sum), b, OpToken(product), c];
    assert ParseUnary(ts, 0) == Some((A, 1));
    assert ParseProduct(ts, 0) == Some((A, 1));
    assert ParseUnary(ts, 4) == Some((C, 5));
    assert ProductRest(ts, 5, Bin(product, B, C)) == Some((Bin(product, B, C), 5));
    assert ParseUnary(ts, 2) == Some((B, 3));
    assert ParseProduct(ts, 2) == Some((Bin(product, B, C), 5));
    assert SumRest(ts, 5, Bin(sum, A, Bin(product, B, C))) == Some((Bin(sum, A, Bin(product, B, C)), 5));
    assert ParseSum(ts, 0) == Some((Bin(sum, A, Bin(product, B, C)), 5));

    var us := [a, OpToken(product), b, OpToken(sum), c];
    assert ParseUnary(us, 2) == Some((B, 3));
    assert ProductRest(us, 3, Bin(product, A, B)) == Some((Bin(product, A, B), 3));
    assert ParseUnary(us, 0) == Some((A, 1));
    assert ParseProduct(us, 0) == Some((Bin(product, A, B), 3));
    assert ParseUnary(us, 4) == Some((C, 5));
    assert ParseProduct(us, 4) == Some((C, 5));
    assert SumRest(us, 5, Bin(sum, Bin(product, A, B), C)) == Some((Bin(sum, Bin(product, A, B), C), 5));
    assert ParseSum(us, 0) == Some((Bin(sum, Bin(product, A, B), C), 5));
  }

  /** Operators of one level group to the left: `a - b - c` is `(a - b) - c`
      and `a / b / c` is `(a / b) / c`. */
  lemma LeftAssociative(a: Token, b: Token, c: Token, op1: Op, op2: Op)
    requires IsAtom(a) && IsAtom(b) && IsAtom(c)
    requires (IsSumOp(op1) && IsSumOp(op2)) || (IsProductOp(op1) && IsProductOp(op2))
    ensures Parse([a, OpToken(op1), b, OpToken(op2), c]) ==
      Some(Bin(op2, Bin(op1, AtomExpr(a), AtomExpr(b)), AtomExpr(c)))
  {
    var A, B, C := AtomExpr(a), AtomExpr(b), AtomExpr(c);
    var ts := [a, OpToken(op1), b, OpToken(op2), c];
    var e := Bin(op2, Bin(op1, A, B), C);
    assert ParseUnary(ts, 0) == Some((A, 1));
    assert ParseUnary(ts, 2) == Some((B, 3));
    assert ParseUnary(ts, 4) == Some((C, 5));
    if IsSumOp(op1) {
      assert ParseProduct(ts, 0) == Some((A, 1));
      assert ParseProduct(ts, 2) == Some((B, 3));
      assert ParseProduct(ts, 4) == Some((C, 5));
      assert SumRest(ts, 5, e) == Some((e, 5));
      assert SumRest(ts, 3, Bin(op1, A, B)) == Some((e, 5));
    } else {
      assert ProductRest(ts, 5, e) == Some((e, 5));
      assert ProductRest(ts, 3, Bin(op1, A, B)) == Some((e, 5));
      assert ParseProduct(ts, 0) == Some((e, 5));
    }
    assert ParseSum(ts, 0) == Some((e, 5));
  }

  /* Reading formula text: where a decimal literal ends and what it reads as. */

  lemma {:induction false} DigitRunEndOf(s: string, i: nat, d: string)
    requires i + |d| <= |s| && s[i..i + |d|] == d && AllDigits(d)
    requires i + |d| < |s| ==> !IsDigit(s[i + |d|])
    ensures DigitRunEnd(s, i) == i + |d|
    decreases |d|
  {
    if d != [] {
      assert s[i] == d[0];
      Window(s, i, d, 1, |d|);
      DigitRunEndOf(s, i + 1, d[1..]);
    }
  }

  /** The literal `whole.frac`, not followed by a digit, is one number token. */
  lemma LexDecimal(s: string, i: nat, depth: nat, lit: string, whole: string, frac: string)
    requires AllDigits(whole) && AllDigits(frac) && |whole| + |frac| > 0
    requires lit == whole + "." + frac
    requires i + |lit| <= |s| && s[i..i + |lit|] == lit
    requires i + |lit| < |s| ==> !IsDigit(s[i + |lit|])
    ensures i < |s|
    ensures Lex(s, i, depth) == Some((Some(TNum(DecimalValue(whole, frac))), i + |lit|, depth))
  {
    NumberEndDecimal(s, i, whole, frac);
    var j := NumberEnd(s, i);
    assert j == i + |lit| && s[i..j] == lit;
    assert !LeadingZeroInteger(lit) by { assert lit[|whole|] == '.'; }
    ParseUnsignedDecimal(whole, frac);
    LexNumber(s, i, depth);
  }

  /** A token read at `i` heads the tokens from `i` on. */
  lemma TokenizeToken(s: string, i: nat, depth: nat, t: Token, j: nat)
    requires i < |s| && Lex(s, i, depth) == Some((Some(t), j, depth))
    ensures Tokenize(s, i, depth) == Cons(t, Tokenize(s, j, depth))
  {
  }

  lemma NumberEndDecimal(s: string, i: nat, whole: string, frac: string)
    requires AllDigits(whole) && AllDigits(frac)
    requires var n := |whole| + 1 + |frac|;
      i + n <= |s| && s[i..i + n] == whole + "." + frac &&
      (i + n < |s| ==> !IsDigit(s[i + n]))
    ensures s[i] == '.' || IsDigit(s[i])
    ensures NumberEnd(s, i) == i + |whole| + 1 + |frac|
  {
    var lit := whole + "." + frac;
    var n := |lit|;
    assert lit[..|whole|] == whole && lit[|whole|] == '.' && lit[|whole| + 1..] == frac;
    Window(s, i, lit, 0, |whole|);
    WindowAt(s, i, lit, |whole|);
    DigitRunEndOf(s, i, whole);
    Window(s, i, lit, |whole| + 1, n);
    DigitRunEndOf(s, i + |whole| + 1, frac);
    WindowAt(s, i, lit, 0);
  }

  /** The number branch of `Lex`. */
  lemma LexNumber(s: string, i: nat, depth: nat)
    requires i < |s| && (IsDigit(s[i]) || s[i] == '.')
    ensures var j := NumberEnd(s, i);
      Lex(s, i, depth) ==
        if LeadingZeroInteger(s[i..j]) || ParseUnsigned(s[i..j]).None? then None
        else Some((Some(TNum(ParseUnsigned(s[i..j]).value)), j, depth))
  {
  }

  /** The placeholder is one weight token. */
  lemma LexWeight(s: string, i: nat, depth: nat)
    requires i + |WeightName| <= |s| && s[i..i + |WeightName|] == WeightName
    ensures i < |s| && Lex(s, i, depth) == Some((Some(TWeight), i + |WeightName|, depth))
  {
    assert s[i] == WeightName[0] == '发';
    assert s[i..][..|WeightName|] == s[i..i + |WeightName|];
  }

  /** The text of a linear fee formula `base+rate*发货重量`. */
  function LinearCell(base: string, rate: string): string {
    base + "+" + rate + "*" + WeightName
  }

  /** A linear fee formula `base+rate*发货重量`, the form of the formula
      cells, evaluates to `base + rate * w`. */
  lemma LinearFormula(base: string, aWhole: string, aFrac: string, a: real,
                      rate: string, bWhole: string, bFrac: string, b: real, w: real, v: real)
    requires AllDigits(aWhole) && AllDigits(aFrac) && |aWhole| + |aFrac| > 0
    requires AllDigits(bWhole) && AllDigits(bFrac) && |bWhole| + |bFrac| > 0
    requires base == aWhole + "." + aFrac && rate == bWhole + "." + bFrac
    requires a == DecimalValue(aWhole, aFrac) && b == DecimalValue(bWhole, bFrac)
    requires v == a + b * w
    ensures Evaluate(LinearCell(base, rate), w) == Some(v)
  {
    TokenizeLinear(base, aWhole, aFrac, rate, bWhole, bFrac);
    EvaluateLinear(LinearCell(base, rate), a, b, w, v);
  }

  /** Text that reads as the tokens of `a+b*发货重量` evaluates to `a + b * w`. */
  lemma EvaluateLinear(t: string, a: real, b: real, w: real, v: real)
    requires Tokenize(t, 0, 0) == Some([TNum(a), TPlus, TNum(b), TStar, TWeight])
    requires v == a + b * w
    ensures Evaluate(t, w) == Some(v)
  {
    var e := Bin(Add, Const(a), Bin(Mul, Const(b), Weight));
    ParseLinear(a, b);
    EvalLinear(a, b, w, v);
    EvaluateSteps(t, w, [TNum(a), TPlus, TNum(b), TStar, TWeight], e);
  }

  /** `Evaluate` chains the tokenizer, the parser and `Eval`. */
  lemma EvaluateSteps(text: string, w: real, ts: seq<Token>, e: Expr)
    requires Tokenize(text, 0, 0) == Some(ts) && Parse(ts) == Some(e)
    ensures Evaluate(text, w) == Eval(e, w)
  {
  }

  lemma ParseLinear(a: real, b: real)
    ensures Parse([TNum(a), TPlus, TNum(b), TStar, TWeight]) ==
      Some(Bin(Add, Const(a), Bin(Mul, Const(b), Weight)))
  {
    ProductBindsTighter(TNum(a), TNum(b), TWeight, Add, Mul);
  }

  lemma EvalLinear(a: real, b: real, w: real, v: real)
    requires v == a + b * w
    ensures Eval(Bin(Add, Const(a), Bin(Mul, Const(b), Weight)), w) == Some(v)
  {
    assert Eval(Const(a), w) == Some(a) && Eval(Const(b), w) == Some(b) && Eval(Weight, w) == Some(w);
    assert Apply(Mul, b, w) == Some(b * w) && Apply(Add, a, b * w) == Some(a + b * w);
    assert Eval(Bin(Mul, Const(b), Weight), w) == Some(b * w);
  }

  lemma TokenizeLinear(base: string, aWhole: string, aFrac: string,
                       rate: string, bWhole: string, bFrac: string)
    requires AllDigits(aWhole) && AllDigits(aFrac) && |aWhole| + |aFrac| > 0
    requires AllDigits(bWhole) && AllDigits(bFrac) && |bWhole| + |bFrac| > 0
    requires base == aWhole + "." + aFrac && rate == bWhole + "." + bFrac
    ensures Tokenize(LinearCell(base, rate), 0, 0) ==
      Some([TNum(DecimalValue(aWhole, aFrac)), TPlus, TNum(DecimalValue(bWhole, bFrac)), TStar, TWeight])
  {
    LinearText(base, rate);
    TokenizeLinearAt(LinearCell(base, rate), |base| + 1, |base| + 1 + |rate|, base, aWhole, aFrac, rate, bWhole, bFrac);
  }

  lemma TokenizeLinearAt(t: string, p: nat, k: nat, base: string, aWhole: string, aFrac: string,
                         rate: string, bWhole: string, bFrac: string)
    requires AllDigits(aWhole) && AllDigits(aFrac) && |aWhole| + |aFrac| > 0
    requires AllDigits(bWhole) && AllDigits(bFrac) && |bWhole| + |bFrac| > 0
    requires base == aWhole + "." + aFrac && rate == bWhole + "." + bFrac
    requires p == |base| + 1 && k == p + |rate|
    requires k + 5 == |t| && t[0..|base|] == base && t[p - 1] == '+' &&
      t[p..k] == rate && t[k] == '*' && t[k + 1..k + 5] == WeightName
    ensures Tokenize(t, 0, 0) ==
      Some([TNum(DecimalValue(aWhole, aFrac)), TPlus, TNum(DecimalValue(bWhole, bFrac)), TStar, TWeight])
  {
    TokenizeTimesWeight(t, k);
    TokenizePlusRate(t, p, k, rate, bWhole, bFrac);
    var a, b := DecimalValue(aWhole, aFrac), DecimalValue(bWhole, bFrac);
    TokenizeBase(t, p, base, aWhole, aFrac, [TPlus, TNum(b), TStar, TWeight]);
    assert [TNum(a)] + [TPlus, TNum(b), TStar, TWeight] == [TNum(a), TPlus, TNum(b), TStar, TWeight];
  }

  /** `base` followed by `+` and the tokens of the rest. */
  lemma TokenizeBase(t: string, p: nat, base: string, aWhole: string, aFrac: string, rest: seq<Token>)
    requires AllDigits(aWhole) && AllDigits(aFrac) && |aWhole| + |aFrac| > 0
    requires base == aWhole + "." + aFrac && p == |base| + 1 && p <= |t|
    requires t[0..|base|] == base && t[p - 1] == '+' && Tokenize(t, p - 1, 0) == Some(rest)
    ensures Tokenize(t, 0, 0) == Some([TNum(DecimalValue(aWhole, aFrac))] + rest)
  {
    assert !IsDigit(t[0 + |base|]);
    TokenizeDecimal(t, 0, 0, base, aWhole, aFrac);
  }

  /** `*发货重量` at the end of the text. */
  lemma TokenizeTimesWeight(t: string, k: nat)
    requires k + 5 == |t| && t[k] == '*' && t[k + 1..k + 5] == WeightName
    ensures Tokenize(t, k, 0) == Some([TStar, TWeight])
  {
    assert Tokenize(t, k + 5, 0) == Some([]);
    TokenizeWeight(t, k + 1, 0);
    TokenizeOperator(t, k, 0);
    assert [TStar] + ([TWeight] + []) == [TStar, TWeight];
  }

  /** `+rate` followed by `*发货重量`. */
  lemma TokenizePlusRate(t: string, p: nat, k: nat, rate: string, bWhole: string, bFrac: string)
    requires AllDigits(bWhole) && AllDigits(bFrac) && |bWhole| + |bFrac| > 0
    requires rate == bWhole + "." + bFrac
    requires 1 <= p && k == p + |rate| && k < |t| && t[p - 1] == '+' && t[p..k] == rate
    requires t[k] == '*' && Tokenize(t, k, 0) == Some([TStar, TWeight])
    ensures Tokenize(t, p - 1, 0) == Some([TPlus, TNum(DecimalValue(bWhole, bFrac)), TStar, TWeight])
  {
    var b := DecimalValue(bWhole, bFrac);
    TokenizeDecimal(t, p, 0, rate, bWhole, bFrac);
    TokenizeOperator(t, p - 1, 0);
    assert [TPlus] + ([TNum(b)] + [TStar, TWeight]) == [TPlus, TNum(b), TStar, TWeight];
  }

  lemma TokenizeDecimal(s: string, i: nat, depth: nat, lit: string, whole: string, frac: string)
    requires AllDigits(whole) && AllDigits(frac) && |whole| + |frac| > 0
    requires lit == whole + "." + frac
    requires i + |lit| <= |s| && s[i..i + |lit|] == lit
    requires i + |lit| < |s| ==> !IsDigit(s[i + |lit|])
    ensures i < |s|
    ensures Tokenize(s, i, depth) == Cons(TNum(DecimalValue(whole, frac)), Tokenize(s, i + |lit|, depth))
  {
    LexDecimal(s, i, depth, lit, whole, frac);
    TokenizeToken(s, i, depth, TNum(DecimalValue(whole, frac)), i + |lit|);
  }

  lemma TokenizeWeight(s: string, i: nat, depth: nat)
    requires i + |WeightName| <= |s| && s[i..i + |WeightName|] == WeightName
    ensures Tokenize(s, i, depth) == Cons(TWeight, Tokenize(s, i + |WeightName|, depth))
  {
    LexWeight(s, i, depth);
    TokenizeToken(s, i, depth, TWeight, i + |WeightName|);
  }

  lemma TokenizeOperator(s: string, i: nat, depth: nat)
    requires i < |s| && (s[i] == '+' || s[i] == '*')
    ensures Tokenize(s, i, depth) == Cons(if s[i] == '+' then TPlus else TStar, Tokenize(s, i + 1, depth))
  {
    LexOperator(s, i, depth);
    TokenizeToken(s, i, depth, if s[i] == '+' then TPlus else TStar, i + 1);
  }

  /** Where the parts of `base+rate*发货重量` stand. */
  lemma LinearText(base: string, rate: string)
    ensures var t, p := LinearCell(base, rate), |base| + 1;
      var k := |base| + 1 + |rate|;
      k + 5 == |t| && t[0..|base|] == base && t[p - 1] == '+' &&
      t[p..k] == rate && t[k] == '*' && t[k + 1..k + 5] == WeightName
  {
  }

  /** `+` and `*` are one token each. */
  lemma LexOperator(s: string, i: nat, depth: nat)
    requires i < |s| && (s[i] == '+' || s[i] == '*')
    ensures Lex(s, i, depth) == Some((Some(if s[i] == '+' then TPlus else TStar), i + 1, depth))
  {
  }

  /** The cell `0.40+0.10*发货重量` at 5 pounds costs 0.90. */
  lemma FormulaExample(base: string, rate: string)
    requires base == "0.40" && rate == "0.10"
    ensures Evaluate(LinearCell(base, rate), 5.0) == Some(0.9)
  {
    DecimalExamples();
    LinearFormula(base, "0", "40", 0.4, rate, "0", "10", 0.1, 5.0, 0.9);
  }

  /** The two amounts of that cell. */
  lemma DecimalExamples()
    ensures DecimalValue("0", "40") == 0.4 && DecimalValue("0", "10") == 0.1
  {
    assert "40"[..1] == "4" && "10"[..1] == "1" && "4"[..0] == "" && "1"[..0] == "";
    assert DigitsValue("40") == 40 && DigitsValue("10") == 10;
    assert Pow10(2) == 100;
  }

  /** Python's `round(x, n)`: to the nearest multiple of 10^-n, ties to the
      even neighbour (on the exact value, not on its binary approximation). */
  function RoundHalfEven(y: real): (n: int)
    ensures y - 0.5 <= n as real <= y + 0.5
    ensures y - y.Floor as real != 0.5 ==> y - 0.5 < n as real < y + 0.5
    ensures y - y.Floor as real == 0.5 ==> n % 2 == 0
  {
    var f := y.Floor;
    var d := y - f as real;
    if d < 0.5 then f else if d > 0.5 then f + 1 else if f % 2 == 0 then f else f + 1
  }

  /** 10^places as a real. */
  function Scale(places: nat): (p: real)
    ensures p >= 1.0
  {
    Pow10(places) as real
  }

  /** `round(x, places)`: the nearest multiple of 10^-places, so never
      more than half a unit of the last place away from `x`. */
  function Round(x: real, places: nat): (r: real)
    ensures x - 0.5 / Scale(places) <= r <= x + 0.5 / Scale(places)
  {
    WithinHalfUnit(x, Scale(places), RoundHalfEven(x * Scale(places)));
    RoundHalfEven(x * Scale(places)) as real / Scale(places)
  }

  lemma WithinHalfUnit(x: real, p: real, n: int)
    requires p >= 1.0 && x * p - 0.5 <= n as real <= x * p + 0.5
    ensures x - 0.5 / p <= n as real / p <= x + 0.5 / p
  {
    DivideMonotone(x * p - 0.5, n as real, p);
    DivideMonotone(n as real, x * p + 0.5, p);
    assert (x * p - 0.5) / p == x - 0.5 / p;
    assert (x * p + 0.5) / p == x + 0.5 / p;
  }

  lemma RoundHalfEvenMonotone(y1: real, y2: real)
    requires y1 <= y2
    ensures RoundHalfEven(y1) <= RoundHalfEven(y2)
  {
    var f1, f2 := y1.Floor, y2.Floor;
    assert f1 <= f2;
    if f1 == f2 {
    } else {
      assert RoundHalfEven(y1) <= f1 + 1 <= f2 <= RoundHalfEven(y2);
    }
  }

  lemma RoundDef(x: real, places: nat)
    ensures Round(x, places) == RoundHalfEven(x * Scale(places)) as real / Scale(places)
  {
  }

  /** Rounding never reverses the order of two amounts. */
  lemma RoundMonotone(x1: real, x2: real, places: nat)
    requires x1 <= x2
    ensures Round(x1, places) <= Round(x2, places)
  {
    MultiplyMonotone(x1, x2, Scale(places));
    RoundHalfEvenMonotone(x1 * Scale(places), x2 * Scale(places));
    DivideMonotone(RoundHalfEven(x1 * Scale(places)) as real, RoundHalfEven(x2 * Scale(places)) as real, Scale(places));
    RoundDef(x1, places);
    RoundDef(x2, places);
  }

  lemma MultiplyMonotone(a: real, b: real, p: real)
    requires a <= b && p > 0.0
    ensures a * p <= b * p
  {
    assert b * p - a * p == (b - a) * p;
  }

  lemma DivideMonotone(a: real, b: real, p: real)
    requires a <= b && p > 0.0
    ensures a / p <= b / p
  {
    assert b / p - a / p == (b - a) / p;
  }

  lemma RoundHalfEvenOfInt(y: real, n: int)
    requires y == n as real
    ensures RoundHalfEven(y) == n
  {
    assert y.Floor == n;
  }

  lemma DivideCancel(a: real, p: real)
    requires p > 0.0
    ensures a / p * p == a
  {
  }

  /** A value on the grid of the given places is unchanged by rounding. */
  lemma RoundOnGrid(x: real, n: int, places: nat)
    requires x * Scale(places) == n as real
    ensures Round(x, places) == x
  {
    RoundDef(x, places);
    RoundHalfEvenOfInt(x * Scale(places), n);
  }

  lemma RoundExact(n: int, places: nat)
    ensures Round(n as real / Scale(places), places) == n as real / Scale(places)
  {
    var x := n as real / Scale(places);
    RoundDef(x, places);
    DivideCancel(n as real, Scale(places));
    assert x * Scale(places) == n as real;
    RoundHalfEvenOfInt(x * Scale(places), n);
    assert RoundHalfEven(x * Scale(places)) == n;
    assert Round(x, places) == n as real / Scale(places);
  }

  /** Rounding a non-negative amount gives a non-negative amount. */
  lemma RoundNonNegative(x: real, places: nat)
    requires x >= 0.0
    ensures Round(x, places) >= 0.0
  {
    RoundDef(x, places);
    MultiplyMonotone(0.0, x, Scale(places));
    RoundHalfEvenMonotone(0.0, x * Scale(places));
    RoundHalfEvenOfInt(0.0, 0);
    DivideMonotone(0.0, RoundHalfEven(x * Scale(places)) as real, Scale(places));
  }

  /** Rounding twice to the same number of places is rounding once. */
  lemma RoundIdempotent(x: real, places: nat)
    ensures Round(Round(x, places), places) == Round(x, places)
  {
    RoundDef(x, places);
    RoundExact(RoundHalfEven(x * Scale(places)), places);
  }
}
