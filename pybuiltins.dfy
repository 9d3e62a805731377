/** The pieces of the Python runtime and of pandas that the scorer, the ranking and the
    back-test depend on, stated in Dafny's terms: missing values, exceptions that escape,
    str.strip, int() and float() on text, the part of eval() that margin fractions use,
    re.search for a run of decimal digits, `in` on strings and str.replace. */
module PyBuiltins {

  datatype Option<+T> = None | Some(value: T)

  /** The exceptions that the modelled code lets escape to its caller. */
  datatype PyError =
    | ZeroDivisionError   // eval("p/0")
    | EvalError           // eval() of text that is not an integer literal or "p/q"
    | TypeError           // a call with the wrong number of arguments

  /** A value or the exception raised while computing it. */
  datatype Result<+T> = Ok(value: T) | Raise(error: PyError) {
    predicate IsFailure() { Raise? }
    function PropagateFailure<U>(): Result<U> requires Raise? { Raise(error) }
    function Extract(): T requires Ok? { value }
  }

  /** One cell of a pandas frame: NaN or None (`Blank`), an integer, a finite float or text. */
  datatype Cell = Blank | IntCell(i: int) | FloatCell(x: real) | TextCell(s: string)

  function Max(a: real, b: real): real { if a >= b then a else b }
  function Abs(x: real): real { if x < 0.0 then -x else x }
  function MinNat(a: nat, b: nat): nat { if a <= b then a else b }

  // ---------------------------------------------------------------------------
  // Whitespace and str.strip()

  /** The characters for which Python's str.isspace() holds; str.strip() removes them. */
  predicate IsSpace(c: char) {
    || c == ' ' || '\t' <= c <= '\r' || '\U{1C}' <= c <= '\U{1F}'
    || c == '\U{85}' || c == '\U{A0}' || c == '\U{1680}' || '\U{2000}' <= c <= '\U{200A}'
    || c == '\U{2028}' || c == '\U{2029}' || c == '\U{202F}' || c == '\U{205F}' || c == '\U{3000}'
  }

  /** str.lstrip(): drops the leading whitespace. */
  function LStrip(s: string): string
  {
    if s != [] && IsSpace(s[0]) then LStrip(s[1..]) else s
  }

  /** str.rstrip(): drops the trailing whitespace. */
  function RStrip(s: string): string
  {
    if s != [] && IsSpace(s[|s| - 1]) then RStrip(s[..|s| - 1]) else s
  }

  /** str.strip(). */
  function Strip(s: string): string
  {
    RStrip(LStrip(s))
  }

  /** lstrip() keeps a suffix, drops only whitespace and stops at a character that is not. */
  lemma {:induction false} LStripTrims(s: string)
    ensures var r := LStrip(s);
            && |r| <= |s| && r == s[|s| - |r|..]
            && (r == [] || !IsSpace(r[0]))
            && forall i :: 0 <= i < |s| - |r| ==> IsSpace(s[i])
  {
    if s != [] && IsSpace(s[0]) {
      var t := s[1..];
      LStripTrims(t);
      var r := LStrip(t);
      assert t[|t| - |r|..] == s[|s| - |r|..];
      forall i | 0 <= i < |s| - |r|
        ensures IsSpace(s[i])
      {
        if i > 0 { assert s[i] == t[i - 1]; }
      }
    }
  }

  /** rstrip() keeps a prefix, drops only whitespace and stops at a character that is not. */
  lemma {:induction false} RStripTrims(s: string)
    ensures var r := RStrip(s);
            && |r| <= |s| && r == s[..|r|]
            && (r == [] || !IsSpace(r[|r| - 1]))
            && forall i :: |r| <= i < |s| ==> IsSpace(s[i])
  {
    if s != [] && IsSpace(s[|s| - 1]) {
      var t := s[..|s| - 1];
      RStripTrims(t);
      var r := RStrip(t);
      assert t[..|r|] == s[..|r|];
      forall i | |r| <= i < |s|
        ensures IsSpace(s[i])
      {
        if i < |t| { assert s[i] == t[i]; }
      }
    }
  }

  /** strip() keeps a contiguous piece s[lo..hi] with no whitespace at either end and drops
      only whitespace around it. */
  lemma StripTrims(s: string)
    ensures exists lo, hi :: 0 <= lo <= hi <= |s| && Strip(s) == s[lo..hi]
              && (forall i :: 0 <= i < lo ==> IsSpace(s[i]))
              && (forall i :: hi <= i < |s| ==> IsSpace(s[i]))
    ensures Strip(s) == [] || (!IsSpace(Strip(s)[0]) && !IsSpace(Strip(s)[|Strip(s)| - 1]))
  {
    LStripTrims(s);
    var l := LStrip(s);
    RStripTrims(l);
    var lo := |s| - |l|;
    var hi := lo + |RStrip(l)|;
    assert Strip(s) == s[lo..hi];
    assert forall i :: hi <= i < |s| ==> s[i] == l[i - lo];
  }

  /** Text that neither starts nor ends with whitespace is left as it is. */
  lemma StripUnchanged(s: string)
    requires s == [] || (!IsSpace(s[0]) && !IsSpace(s[|s| - 1]))
    ensures Strip(s) == s
  {
  }

  /** Whitespace before and after a piece that neither starts nor ends with whitespace is
      what strip() removes. */
  lemma StripAround(a: string, m: string, b: string)
    requires forall i :: 0 <= i < |a| ==> IsSpace(a[i])
    requires forall i :: 0 <= i < |b| ==> IsSpace(b[i])
    requires m != [] && !IsSpace(m[0]) && !IsSpace(m[|m| - 1])
    ensures Strip(a + m + b) == m
  {
    assert a + m + b == a + (m + b);
    LStripSpaces(a, m + b);
    RStripSpaces(m, b);
  }

  /** lstrip() of leading whitespace before a non-space character. */
  lemma {:induction false} LStripSpaces(a: string, y: string)
    requires forall i :: 0 <= i < |a| ==> IsSpace(a[i])
    requires y != [] && !IsSpace(y[0])
    ensures LStrip(a + y) == y
    decreases |a|
  {
    if a != [] {
      assert (a + y)[1..] == a[1..] + y;
      LStripSpaces(a[1..], y);
    } else {
      assert a + y == y;
    }
  }

  /** rstrip() of trailing whitespace after a non-space character. */
  lemma {:induction false} RStripSpaces(y: string, b: string)
    requires forall i :: 0 <= i < |b| ==> IsSpace(b[i])
    requires y != [] && !IsSpace(y[|y| - 1])
    ensures RStrip(y + b) == y
    decreases |b|
  {
    if b != [] {
      assert (y + b)[..|y + b| - 1] == y + b[..|b| - 1];
      RStripSpaces(y, b[..|b| - 1]);
    } else {
      assert y + b == y;
    }
  }

  /** str.lstrip(c) for a single character c: drops the leading run of c and nothing else. */
  function LStripChar(s: string, c: char): (r: string)
    ensures |r| <= |s| && r == s[|s| - |r|..]
    ensures r == [] || r[0] != c
    ensures forall i :: 0 <= i < |s| - |r| ==> s[i] == c
  {
    if s != [] && s[0] == c then
      var r := LStripChar(s[1..], c);
      assert forall i :: 1 <= i < |s| ==> s[i] == s[1..][i - 1];
      r
    else s
  }

  /** A run of c in front of text that does not start with c is exactly what lstrip(c) drops. */
  lemma {:induction false} LStripCharRun(run: string, y: string, c: char)
    requires forall i :: 0 <= i < |run| ==> run[i] == c
    requires y == [] || y[0] != c
    ensures LStripChar(run + y, c) == y
    decreases |run|
  {
    if run != [] {
      assert (run + y)[1..] == run[1..] + y;
      LStripCharRun(run[1..], y, c);
    } else {
      assert run + y == y;
    }
  }

  // ---------------------------------------------------------------------------
  // Decimal digits, int(), float()

  /** A decimal digit as int(), float() and the regular expression \d accept it: ASCII and
      full-width digits. */
  predicate IsDigit(c: char) { '0' <= c <= '9' || '\U{FF10}' <= c <= '\U{FF19}' }

  function DigitValue(c: char): (d: nat)
    requires IsDigit(c)
    ensures d < 10
  {
    if c <= '9' then (c as int - '0' as int) else (c as int - '\U{FF10}' as int)
  }

  /** Every character of s is a decimal digit (stated from the back, as DigitsValue reads). */
  predicate AllDigits(s: string)
    decreases |s|
  {
    s != [] ==> AllDigits(s[..|s| - 1]) && IsDigit(s[|s| - 1])
  }

  /** AllDigits, character by character. */
  lemma {:induction false} AllDigitsAt(s: string)
    ensures AllDigits(s) <==> forall i :: 0 <= i < |s| ==> IsDigit(s[i])
    decreases |s|
  {
    if s != [] {
      var front := s[..|s| - 1];
      AllDigitsAt(front);
      assert forall i :: 0 <= i < |front| ==> front[i] == s[i];
    }
  }

  /** The number a string of decimal digits denotes. */
  function DigitsValue(s: string): nat
    requires AllDigits(s)
  {
    if s == [] then 0 else DigitsValue(s[..|s| - 1]) * 10 + DigitValue(s[|s| - 1])
  }

  function Pow10(n: nat): (r: nat)
    ensures r >= 1
  {
    if n == 0 then 1 else 10 * Pow10(n - 1)
  }

  /** The index of the first occurrence of c in s, or |s| when there is none. */
  function IndexOf(s: string, c: char): (i: nat)
    ensures i <= |s|
    ensures i < |s| ==> s[i] == c
    ensures forall j :: 0 <= j < i ==> s[j] != c
  {
    if s == [] then 0 else if s[0] == c then 0 else 1 + IndexOf(s[1..], c)
  }

  /** int(text) on a string: surrounding whitespace, an optional sign and one or more
      decimal digits; anything else raises ValueError, modelled as None. */
  function ParseInt(text: string): Option<int>
  {
    var t := Strip(text);
    if t != [] && (t[0] == '+' || t[0] == '-') then
      var body := t[1..];
      if body != [] && AllDigits(body) then
        Some(if t[0] == '-' then -(DigitsValue(body) as int) else DigitsValue(body))
      else None
    else if t != [] && AllDigits(t) then Some(DigitsValue(t))
    else None
  }

  /** An unsigned decimal in positional notation: digits, optionally a point and more digits,
      at least one digit in all ("12", "12.", ".5", "12.5"). */
  function ParseUnsignedDecimal(t: string): Option<real>
  {
    var i := IndexOf(t, '.');
    var whole, frac := t[..i], if i < |t| then t[i + 1..] else [];
    if |whole| + |frac| > 0 && AllDigits(whole) && AllDigits(frac) then
      Some(DigitsValue(whole) as real + DigitsValue(frac) as real / Pow10(|frac|) as real)
    else None
  }

  /** float(text) on a string; None stands for the ValueError it raises. */
  function ParseFloat(text: string): Option<real>
  {
    var t := Strip(text);
    if t != [] && (t[0] == '+' || t[0] == '-') then
      match ParseUnsignedDecimal(t[1..])
      case Some(v) => Some(if t[0] == '-' then -v else v)
      case None => None
    else ParseUnsignedDecimal(t)
  }

  /** int(x) on a cell that is not missing (a float is truncated toward zero). */
  function CellToInt(c: Cell): Option<int>
    requires !c.Blank?
  {
    match c
    case IntCell(i) => Some(i)
    case FloatCell(x) => Some(if x >= 0.0 then x.Floor else -((-x).Floor))
    case TextCell(s) => ParseInt(s)
  }

  // ---------------------------------------------------------------------------
  // eval() on a margin fraction

  /** A Python integer literal: ASCII digits, with no leading zero unless every digit is zero. */
  predicate IsIntLiteral(t: string) {
    t != [] && AsciiDigits(t) && (t[0] == '0' ==> ZerosOnly(t))
  }

  predicate AsciiDigits(t: string)
    decreases |t|
  {
    t != [] ==> AsciiDigits(t[..|t| - 1]) && '0' <= t[|t| - 1] <= '9'
  }

  predicate ZerosOnly(t: string)
    decreases |t|
  {
    t != [] ==> ZerosOnly(t[..|t| - 1]) && t[|t| - 1] == '0'
  }

  /** One character that is not an ASCII digit keeps t from being a run of ASCII digits. */
  lemma {:induction false} NotAsciiDigits(t: string, k: nat)
    requires k < |t| && !('0' <= t[k] <= '9')
    ensures !AsciiDigits(t)
    decreases |t|
  {
    if k < |t| - 1 {
      NotAsciiDigits(t[..|t| - 1], k);
    }
  }

  /** AsciiDigits, character by character. */
  lemma {:induction false} AsciiDigitsAt(t: string)
    ensures AsciiDigits(t) <==> forall i :: 0 <= i < |t| ==> '0' <= t[i] <= '9'
    decreases |t|
  {
    if t != [] {
      var front := t[..|t| - 1];
      AsciiDigitsAt(front);
      assert forall i :: 0 <= i < |front| ==> front[i] == t[i];
    }
  }

  lemma {:induction false} AsciiDigitsAreDigits(t: string)
    requires AsciiDigits(t)
    ensures AllDigits(t)
    decreases |t|
  {
    if t != [] {
      AsciiDigitsAreDigits(t[..|t| - 1]);
    }
  }

  /** s.split(sep) for a one-character separator: the pieces between the separators. */
  function Split(s: string, sep: char): (parts: seq<string>)
    ensures |parts| >= 1
    decreases |s|
  {
    var i := IndexOf(s, sep);
    if i == |s| then [s] else [s[..i]] + Split(s[i + 1..], sep)
  }

  /** The index of the last occurrence of c in s, or |s| when there is none. */
  function LastIndexOf(s: string, c: char): (i: nat)
    ensures i <= |s|
    ensures i < |s| ==> s[i] == c && forall j :: i < j < |s| ==> s[j] != c
    ensures i == |s| ==> forall j :: 0 <= j < |s| ==> s[j] != c
  {
    if s == [] then 0
    else if s[|s| - 1] == c then |s| - 1
    else
      var k := LastIndexOf(s[..|s| - 1], c);
      if k == |s| - 1 then |s| else k
  }

  /** The first c in a + [c] + b is the one after a when a holds no c. */
  lemma {:induction false} IndexOfSeparator(a: string, c: char, b: string)
    requires forall j :: 0 <= j < |a| ==> a[j] != c
    ensures IndexOf(a + [c] + b, c) == |a|
    decreases |a|
  {
    var s := a + [c] + b;
    if a != [] {
      assert s[1..] == a[1..] + [c] + b;
      IndexOfSeparator(a[1..], c, b);
    }
  }

  /** The last c in a + [c] + b is the one after a when b holds no c. */
  lemma {:induction false} LastIndexOfSeparator(a: string, c: char, b: string)
    requires forall j :: 0 <= j < |b| ==> b[j] != c
    ensures LastIndexOf(a + [c] + b, c) == |a|
    decreases |b|
  {
    var s := a + [c] + b;
    if b != [] {
      assert s[..|s| - 1] == a + [c] + b[..|b| - 1];
      LastIndexOfSeparator(a, c, b[..|b| - 1]);
    } else {
      assert s[|s| - 1] == c;
    }
  }

  /** eval(t) for the expressions a margin fraction can be: integer literals joined by "/",
      evaluated left to right by true division. A zero divisor raises ZeroDivisionError; any
      other text raises (SyntaxError, NameError, ...), modelled as EvalError. */
  function EvalFraction(t: string): (r: Result<real>)
    ensures r.Raise? ==> r.error != TypeError
    decreases |t|
  {
    if IsIntLiteral(t) then
      AsciiDigitsAreDigits(t);
      Ok(DigitsValue(t) as real)
    else
      var i := LastIndexOf(t, '/');
      if i < |t| && IsIntLiteral(t[i + 1..]) then
        var left :- EvalFraction(t[..i]);
        AsciiDigitsAreDigits(t[i + 1..]);
        var q := DigitsValue(t[i + 1..]);
        if q == 0 then Raise(ZeroDivisionError) else Ok(left / q as real)
      else Raise(EvalError)
  }

  /** float() on a plain run of decimal digits is the number they denote. */
  lemma ParseFloatOfDigits(t: string)
    requires t != [] && AllDigits(t) && Strip(t) == t
    ensures ParseFloat(t) == Some(DigitsValue(t) as real)
  {
    AllDigitsAt(t);
    var i := IndexOf(t, '.');
    assert i == |t|;
    assert t[..i] == t;
    assert IsDigit(t[0]);
    assert ParseUnsignedDecimal(t) == Some(DigitsValue(t) as real);
  }

  /** One division step of eval(): t ends in "/q" after its last slash. */
  lemma EvalFractionDivides(t: string, i: nat, left: real, q: nat)
    requires i < |t| && !IsIntLiteral(t) && LastIndexOf(t, '/') == i
    requires IsIntLiteral(t[i + 1..]) && AllDigits(t[i + 1..]) && DigitsValue(t[i + 1..]) == q
    requires EvalFraction(t[..i]) == Ok(left)
    ensures EvalFraction(t) == if q == 0 then Raise(ZeroDivisionError) else Ok(left / q as real)
  {
  }

  /** eval("b/c") on two integer literals is b / c, or ZeroDivisionError when c is zero. */
  lemma EvalLiteralQuotient(b: string, c: string)
    requires IsIntLiteral(b) && IsIntLiteral(c) && AllDigits(b) && AllDigits(c)
    ensures EvalFraction(b + "/" + c)
            == if DigitsValue(c) == 0 then Raise(ZeroDivisionError)
               else Ok(DigitsValue(b) as real / DigitsValue(c) as real)
  {
    var t := b + "/" + c;
    assert t[|b|] == '/';
    NotAsciiDigits(t, |b|);
    AsciiDigitsAt(c);
    LastIndexOfSeparator(b, '/', c);
    assert t[..|b|] == b && t[|b| + 1..] == c;
    EvalFractionDivides(t, |b|, DigitsValue(b) as real, DigitsValue(c));
  }

  /** A run of digits holds no whitespace, no space and no slash. */
  lemma DigitsPlain(t: string)
    requires AllDigits(t)
    ensures t != [] ==> !IsSpace(t[0]) && !IsSpace(t[|t| - 1])
    ensures IndexOf(t, ' ') == |t| && LastIndexOf(t, '/') == |t|
  {
    AllDigitsAt(t);
    if t != [] {
      assert IsDigit(t[0]) && IsDigit(t[|t| - 1]);
    }
  }

  // ---------------------------------------------------------------------------
  // Searching text

  /** `sub in s` for strings. */
  predicate Contains(s: string, sub: string) {
    sub <= s || (s != [] && Contains(s[1..], sub))
  }

  /** The longest prefix of s made of decimal digits. */
  function DigitPrefix(s: string): (r: string)
    ensures r <= s && AllDigits(r)
    ensures |r| < |s| ==> !IsDigit(s[|r|])
  {
    if s != [] && IsDigit(s[0]) then
      var rest := DigitPrefix(s[1..]);
      AllDigitsAt(rest);
      AllDigitsAt([s[0]] + rest);
      [s[0]] + rest
    else []
  }

  /** re.search(r'\d+', s).group(), or None when s holds no digit. */
  function FirstDigitRun(s: string): (r: Option<string>)
    ensures r.Some? ==> r.value != [] && AllDigits(r.value)
    ensures r.None? <==> forall i :: 0 <= i < |s| ==> !IsDigit(s[i])
  {
    if s == [] then None
    else if IsDigit(s[0]) then Some(DigitPrefix(s))
    else
      var r := FirstDigitRun(s[1..]);
      assert forall i :: 1 <= i < |s| ==> s[i] == s[1..][i - 1];
      r
  }

  /** The longest digit prefix of a run of digits followed by a non-digit is that run. */
  lemma {:induction false} DigitPrefixOf(digits: string, post: string)
    requires AllDigits(digits)
    requires post == [] || !IsDigit(post[0])
    ensures DigitPrefix(digits + post) == digits
    decreases |digits|
  {
    AllDigitsAt(digits);
    if digits != [] {
      AllDigitsAt(digits[1..]);
      assert (digits + post)[1..] == digits[1..] + post;
      DigitPrefixOf(digits[1..], post);
      assert digits == [digits[0]] + digits[1..];
    } else {
      assert digits + post == post;
    }
  }

  /** re.search(r'\d+') finds the leftmost run of digits and takes all of it: for text with
      no digit before `digits` and no digit right after, the match is `digits`. */
  lemma {:induction false} FirstDigitRunOf(pre: string, digits: string, post: string)
    requires forall i :: 0 <= i < |pre| ==> !IsDigit(pre[i])
    requires digits != [] && AllDigits(digits)
    requires post == [] || !IsDigit(post[0])
    ensures FirstDigitRun(pre + digits + post) == Some(digits)
    decreases |pre|
  {
    if pre != [] {
      assert (pre + digits + post)[1..] == pre[1..] + digits + post;
      FirstDigitRunOf(pre[1..], digits, post);
    } else {
      AllDigitsAt(digits);
      assert pre + digits + post == digits + post;
      DigitPrefixOf(digits, post);
    }
  }

  /** s.replace(pattern, replacement): every non-overlapping occurrence, left to right. */
  function Replace(s: string, pattern: string, replacement: string): (r: string)
    requires pattern != []
    ensures !Contains(s, pattern) ==> r == s
    decreases |s|
  {
    if s == [] then []
    else if pattern <= s then replacement + Replace(s[|pattern|..], pattern, replacement)
    else [s[0]] + Replace(s[1..], pattern, replacement)
  }
}
