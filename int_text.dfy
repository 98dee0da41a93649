/** Python's `int(s)` on a string, base 10: surrounding whitespace is stripped, an
    optional sign is read, and the digits may be grouped with single underscores. As in
    CPython 3.11 and later, text with more than 4300 digits is refused. */
module IntText {

  import opened Wrappers

  predicate IsDigit(c: char) { '0' <= c <= '9' }

  /** CPython's default `sys.get_int_max_str_digits()`. */
  const MaxStrDigits := 4300

  /** The number of digits in `s`; signs, underscores and spaces are not counted. */
  function DigitCount(s: string): (n: nat)
    ensures n <= |s|
  {
    if s == [] then 0 else DigitCount(s[..|s| - 1]) + (if IsDigit(s[|s| - 1]) then 1 else 0)
  }

  function DigitValue(c: char): nat
    requires IsDigit(c)
  {
    (c as int) - ('0' as int)
  }

  function DigitChar(d: nat): (c: char)
    requires d < 10
    ensures IsDigit(c) && DigitValue(c) == d
  {
    (('0' as int) + d) as char
  }

  /** The characters `int` strips from both ends: the ASCII space and `\t\n\v\f\r`, and the
      non-ASCII characters `str.isspace` accepts. The ASCII separators U+001C to U+001F, which
      `str.isspace` also accepts, are kept by `int` and make it fail. */
  predicate IsSpace(c: char)
  {
    || c == ' ' || ('\t' <= c <= '\r')
    || c == '\U{85}' || c == '\U{A0}' || c == '\U{1680}' || ('\U{2000}' <= c <= '\U{200A}')
    || c == '\U{2028}' || c == '\U{2029}' || c == '\U{202F}' || c == '\U{205F}' || c == '\U{3000}'
  }

  function StripLeading(s: string): (r: string)
    ensures |r| <= |s|
    ensures r == [] || !IsSpace(r[0])
  {
    if s != [] && IsSpace(s[0]) then StripLeading(s[1..]) else s
  }

  function StripTrailing(s: string): (r: string)
    ensures |r| <= |s|
    ensures r == [] || !IsSpace(r[|r| - 1])
  {
    if s != [] && IsSpace(s[|s| - 1]) then StripTrailing(s[..|s| - 1]) else s
  }

  function Strip(s: string): string
  {
    StripTrailing(StripLeading(s))
  }

  /** The value of a run of ASCII digits in which single underscores may separate two
      digits; None for anything else (empty, a leading, trailing or doubled underscore). */
  function ParseDigits(s: string): Option<nat>
    decreases |s|
  {
    if s == [] || !IsDigit(s[|s| - 1]) then None
    else
      var d := DigitValue(s[|s| - 1]);
      var front := s[..|s| - 1];
      if front == [] then Some(d)
      else
        var rest := if front[|front| - 1] == '_' then front[..|front| - 1] else front;
        match ParseDigits(rest)
        case None => None
        case Some(v) => Some(10 * v + d)
  }

  /** `int(s)`: Some(value), or None where Python raises ValueError. */
  function Parse(s: string): Option<int>
  {
    var t := Strip(s);
    if DigitCount(t) > MaxStrDigits then None
    else if t != [] && (t[0] == '+' || t[0] == '-') then
      match ParseDigits(t[1..])
      case None => None
      case Some(v) => var n: int := v; Some(if t[0] == '-' then -n else n)
    else
      match ParseDigits(t)
      case None => None
      case Some(v) => Some(v)
  }

  /** `str(n)` for an integer: decimal digits, with a leading '-' when negative. */
  function ShowNat(n: nat): (s: string)
    ensures s != [] && IsDigit(s[0]) && IsDigit(s[|s| - 1])
    ensures DigitCount(s) == |s|
  {
    if n < 10 then [DigitChar(n)]
    else
      var front := ShowNat(n / 10);
      assert (front + [DigitChar(n % 10)])[..|front|] == front;
      front + [DigitChar(n % 10)]
  }

  function Show(n: int): string
  {
    if n < 0 then "-" + ShowNat(-n) else ShowNat(n)
  }

  lemma {:induction false} ParseDigitsShowNat(n: nat)
    ensures ParseDigits(ShowNat(n)) == Some(n)
  {
    if n >= 10 {
      var s := ShowNat(n);
      var p := ShowNat(n / 10);
      assert s == p + [DigitChar(n % 10)];
      assert s[..|s| - 1] == p;
      ParseDigitsShowNat(n / 10);
    }
  }

  lemma StripUnspaced(s: string)
    requires s != [] && !IsSpace(s[0]) && !IsSpace(s[|s| - 1])
    ensures Strip(s) == s
  {
  }

  /** `int(str(n)) == n`: parsing reads back every integer that printing produces. Both
      `str` and `int` refuse more than 4300 digits. */
  lemma {:induction false} ParseShow(n: int)
    requires DigitCount(Show(n)) <= MaxStrDigits
    ensures Parse(Show(n)) == Some(n)
  {
    var s := Show(n);
    assert !IsSpace(s[0]) && !IsSpace(s[|s| - 1]);
    StripUnspaced(s);
    assert Strip(s) == s;
    if n < 0 {
      var digits := ShowNat(-n);
      ParseDigitsShowNat(-n);
      assert s[0] == '-' && s[1..] == digits;
    } else {
      ParseDigitsShowNat(n);
      assert !(s[0] == '+' || s[0] == '-');
    }
  }

  /** Surrounding whitespace does not change what `int` reads. */
  lemma {:induction false} ParseIgnoresLeadingSpace(c: char, s: string)
    requires IsSpace(c)
    ensures Parse([c] + s) == Parse(s)
  {
    assert ([c] + s)[1..] == s;
  }

  /** Whatever precedes the digits and is neither stripped nor a sign makes `int` fail. */
  lemma RejectsUnstripped(c: char, s: string)
    requires !IsSpace(c) && !IsDigit(c) && c != '+' && c != '-'
    ensures Parse([c] + s) == None
  {
    var u := [c] + s;
    assert StripLeading(u) == u;
    StripTrailingKeepsHead(u);
    var t := Strip(u);
    if DigitCount(t) <= MaxStrDigits {
      ParseDigitsStartsWithDigit(t);
    }
  }

  /** More than 4300 digits, however grouped or signed, make `int` fail. */
  lemma RejectsLongText(s: string)
    requires DigitCount(Strip(s)) > MaxStrDigits
    ensures Parse(s) == None
  {
  }

  lemma {:induction false} StripTrailingKeepsHead(u: string)
    requires u != [] && !IsSpace(u[0])
    ensures StripTrailing(u) != [] && StripTrailing(u)[0] == u[0]
    decreases |u|
  {
    if IsSpace(u[|u| - 1]) {
      StripTrailingKeepsHead(u[..|u| - 1]);
    }
  }

  lemma {:induction false} ParseDigitsStartsWithDigit(u: string)
    ensures ParseDigits(u).Some? ==> u != [] && IsDigit(u[0])
    decreases |u|
  {
    if u != [] && IsDigit(u[|u| - 1]) {
      var front := u[..|u| - 1];
      if front != [] {
        var rest := if front[|front| - 1] == '_' then front[..|front| - 1] else front;
        ParseDigitsStartsWithDigit(rest);
        if rest != [] {
          assert rest[0] == u[0];
        }
      }
    }
  }
}
