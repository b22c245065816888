/** Python's conversions between integers and decimal text, as the command
    line uses them: `int(text)` to read a QoS level and `str(n)` to write one.
    Only ASCII is covered: `int` also accepts non-ASCII decimal digits and
    strips non-ASCII white space, which this model does not. The default
    limit of 4300 digits on decimal conversion (Python 3.11 and later) is
    modelled for `int`. */
module Numerals {
  import opened Wrappers

  /** The ASCII characters `int` skips around a number of ASCII text: space
      and tab to carriage return. The separators 0x1C to 0x1F, white space
      to `str.isspace`, are not skipped there. */
  predicate IsSpace(c: char) {
    c == ' ' || '\t' <= c <= '\r'
  }

  predicate AllSpace(s: string) {
    forall i | 0 <= i < |s| :: IsSpace(s[i])
  }

  predicate IsDigit(c: char) {
    '0' <= c <= '9'
  }

  /** Leading white space removed. */
  function StripStart(s: string): (r: string)
    ensures |r| <= |s|
    ensures r != [] ==> !IsSpace(r[0])
  {
    if s != [] && IsSpace(s[0]) then StripStart(s[1..]) else s
  }

  /** Trailing white space removed. */
  function StripEnd(s: string): (r: string)
    ensures |r| <= |s|
    ensures r != [] ==> !IsSpace(r[|r| - 1])
  {
    if s != [] && IsSpace(s[|s| - 1]) then StripEnd(s[..|s| - 1]) else s
  }

  /** White space removed from both ends, as `int` does first. */
  function Strip(s: string): string {
    StripEnd(StripStart(s))
  }

  /** Decimal digits, optionally grouped by single underscores between
      digits: `1_000` is one, `_1`, `1_` and `1__0` are not. */
  predicate DigitRun(t: string) {
    && |t| > 0 && IsDigit(t[0]) && IsDigit(t[|t| - 1])
    && (forall i | 0 <= i < |t| :: IsDigit(t[i]) || t[i] == '_')
    && (forall i | 0 <= i < |t| - 1 :: SingleSeparator(t, i))
  }

  /** The characters at `i` and `i + 1` are not both underscores. */
  predicate SingleSeparator(t: string, i: nat)
    requires i + 1 < |t|
  {
    t[i] != '_' || t[i + 1] != '_'
  }

  /** The default of `sys.get_int_max_str_digits()`: `int` refuses decimal
      text with more digits than this. */
  const MaxStrDigits: nat := 4300

  /** How many decimal digits `t` holds; leading zeros count, underscores
      do not. */
  function DigitCount(t: string): (n: nat)
    ensures n <= |t|
  {
    if t == [] then 0 else (if IsDigit(t[0]) then 1 else 0) + DigitCount(t[1..])
  }

  /** Text made of digits only has as many digits as characters. */
  lemma {:induction false} DigitCountAll(t: string)
    requires forall i | 0 <= i < |t| :: IsDigit(t[i])
    ensures DigitCount(t) == |t|
  {
    if t != [] {
      assert forall i | 0 <= i < |t[1..]| :: t[1..][i] == t[i + 1];
      DigitCountAll(t[1..]);
    }
  }

  /** The value of a run of digits, underscores skipped. */
  function DigitsValue(t: string): (n: nat)
    requires forall i | 0 <= i < |t| :: IsDigit(t[i]) || t[i] == '_'
    ensures (forall i | 0 <= i < |t| :: t[i] == '0' || t[i] == '_') <==> n == 0
  {
    if t == [] then 0
    else
      var last := t[|t| - 1];
      var n' := DigitsValue(t[..|t| - 1]);
      assert forall i | 0 <= i < |t| - 1 :: t[..|t| - 1][i] == t[i];
      assert IsDigit(last) || last == '_';
      if last == '_' then n' else 10 * n' + (last as int - '0' as int)
  }

  /** `int(s)`: the integer the text denotes, or `None` where Python raises
      `ValueError`, which includes text of more than 4300 digits. */
  function ParseInt(s: string): (r: Option<int>)
    ensures AllSpace(s) ==> r.None?
    ensures r.Some? ==> DigitCount(Strip(s)) <= MaxStrDigits
  {
    StripBlankIf(s);
    var t := Strip(s);
    if |t| > 0 && (t[0] == '-' || t[0] == '+') then
      var body := t[1..];
      if DigitRun(body) && DigitCount(body) <= MaxStrDigits then
        var v: int := DigitsValue(body);
        Some(if t[0] == '-' then -v else v)
      else None
    else if DigitRun(t) && DigitCount(t) <= MaxStrDigits then Some(DigitsValue(t))
    else None
  }

  function DigitChar(d: nat): (c: char)
    requires d < 10
    ensures IsDigit(c) && c as int - '0' as int == d
  {
    ('0' as int + d) as char
  }

  /** `str(n)` for `n >= 0`: decimal digits without leading zeros. */
  function ShowNat(n: nat): (s: string)
    ensures DigitRun(s) && '_' !in s
    ensures s[0] == '0' ==> n == 0
  {
    if n < 10 then [DigitChar(n)] else ShowNat(n / 10) + [DigitChar(n % 10)]
  }

  /** `str(n)`: a minus sign for negative numbers, then the digits. */
  function ShowInt(n: int): (s: string)
    ensures |s| > 0 && !IsSpace(s[0]) && !IsSpace(s[|s| - 1])
    ensures n < 0 <==> s[0] == '-'
  {
    if n < 0 then "-" + ShowNat(-n) else ShowNat(n)
  }

  lemma {:induction false} ShowNatValue(n: nat)
    ensures DigitsValue(ShowNat(n)) == n
  {
    if n >= 10 {
      var p := ShowNat(n / 10);
      var s := p + [DigitChar(n % 10)];
      assert s[..|s| - 1] == p;
      ShowNatValue(n / 10);
    }
  }

  /** Text without white space at either end is its own strip. */
  lemma StripTrimmed(s: string)
    requires |s| > 0 && !IsSpace(s[0]) && !IsSpace(s[|s| - 1])
    ensures Strip(s) == s
  {}

  /** Unsigned digits without surrounding space are read as their value,
      unless there are more than 4300 of them. */
  lemma ParseDigits(t: string)
    requires DigitRun(t)
    ensures ParseInt(t) == if DigitCount(t) <= MaxStrDigits then Some(DigitsValue(t)) else None
  {
    StripTrimmed(t);
  }

  lemma ParseShowNat(n: int)
    requires n >= 0
    ensures ParseInt(ShowInt(n)) == if DigitCount(ShowInt(n)) <= MaxStrDigits then Some(n) else None
  {
    var s := ShowNat(n);
    assert ShowInt(n) == s;
    ParseDigits(s);
    ShowNatValue(n);
  }

  /** A sign in front of `p` is not a digit and is dropped by `[1..]`. */
  lemma DropSign(sign: char, p: string)
    requires sign == '-' || sign == '+'
    ensures ([sign] + p)[1..] == p
    ensures DigitCount([sign] + p) == DigitCount(p)
  {
    assert ([sign] + p)[1..] == p;
  }

  /** A minus sign before unsigned digits negates their value. */
  lemma ParseNegativeDigits(p: string)
    requires DigitRun(p)
    ensures ParseInt("-" + p)
      == if DigitCount(p) <= MaxStrDigits then Some(-(DigitsValue(p) as int)) else None
  {
    var s := "-" + p;
    assert s[|s| - 1] == p[|p| - 1];
    StripTrimmed(s);
    DropSign('-', p);
  }

  /** A plus sign before unsigned digits changes nothing: `int("+7") == 7`. */
  lemma ParsePlusDigits(p: string)
    requires DigitRun(p)
    ensures ParseInt("+" + p) == ParseInt(p)
    ensures ParseInt("+" + p)
      == if DigitCount(p) <= MaxStrDigits then Some(DigitsValue(p) as int) else None
  {
    var s := "+" + p;
    assert s[|s| - 1] == p[|p| - 1];
    StripTrimmed(s);
    DropSign('+', p);
    ParseDigits(p);
  }

  lemma ShowNegative(n: int)
    requires n < 0
    ensures ShowInt(n) == "-" + ShowNat(-n)
  {}

  lemma ParseShowNegative(n: int)
    requires n < 0
    ensures ParseInt(ShowInt(n)) == if DigitCount(ShowInt(n)) <= MaxStrDigits then Some(n) else None
  {
    var p := ShowNat(-n);
    ShowNatValue(-n);
    ParseNegativeDigits(p);
    ShowNegative(n);
    DropSign('-', p);
    assert ParseInt("-" + p) == if DigitCount(p) <= MaxStrDigits then Some(n) else None;
  }

  /** `str(n)` for `n >= 0` holds as many digits as characters. */
  lemma ShowNatDigits(n: nat)
    ensures DigitCount(ShowNat(n)) == |ShowNat(n)|
  {
    var s := ShowNat(n);
    assert forall i | 0 <= i < |s| :: IsDigit(s[i]) by {
      forall i | 0 <= i < |s| ensures IsDigit(s[i]) {
        assert s[i] in s;
      }
    }
    DigitCountAll(s);
  }

  /** Reading back what `str` wrote gives the number, `int(str(n)) == n`,
      as long as `str(n)` has at most 4300 digits, which is the length of
      `str(abs(n))`; beyond that `int` refuses the text. */
  lemma ParseShow(n: int)
    ensures DigitCount(ShowInt(n)) == |ShowNat(if n < 0 then -n else n)|
    ensures ParseInt(ShowInt(n)) == if DigitCount(ShowInt(n)) <= MaxStrDigits then Some(n) else None
  {
    if n < 0 {
      ShowNegative(n);
      DropSign('-', ShowNat(-n));
      ShowNatDigits(-n);
      ParseShowNegative(n);
    } else {
      ShowNatDigits(n);
      ParseShowNat(n);
    }
  }

  /** The texts `int` accepts, both directions: after white space is
      stripped, a digit run, or a `-` or `+` followed by one, with at most
      4300 digits. Everything else, such as `1.5`, `0x1`, `1e3` or `--1`,
      is refused. */
  lemma ParseAccepted(s: string)
    ensures ParseInt(s).Some? <==>
      var t := Strip(s);
      || (DigitRun(t) && DigitCount(t) <= MaxStrDigits)
      || (&& |t| > 0 && (t[0] == '-' || t[0] == '+')
          && DigitRun(t[1..]) && DigitCount(t[1..]) <= MaxStrDigits)
  {}

  /** Leading white space before non-blank text is dropped by `StripStart`. */
  lemma {:induction false} StripStartPadded(w: string, s: string)
    requires AllSpace(w)
    ensures StripStart(w + s) == StripStart(s)
    decreases |w|
  {
    if w != [] {
      var ws := w + s;
      assert IsSpace(ws[0]) by { assert ws[0] == w[0]; }
      assert StripStart(ws) == StripStart(ws[1..]);
      assert ws[1..] == w[1..] + s;
      assert AllSpace(w[1..]) by {
        forall i | 0 <= i < |w| - 1 ensures IsSpace(w[1..][i]) {
          assert w[1..][i] == w[i + 1];
        }
      }
      StripStartPadded(w[1..], s);
    } else {
      assert w + s == s;
    }
  }

  /** Trailing white space is dropped by `StripEnd`. */
  lemma {:induction false} StripEndPadded(s: string, w: string)
    requires AllSpace(w)
    ensures StripEnd(s + w) == StripEnd(s)
    decreases |w|
  {
    if w != [] {
      var sw := s + w;
      var w' := w[..|w| - 1];
      assert IsSpace(sw[|sw| - 1]) by { assert sw[|sw| - 1] == w[|w| - 1]; }
      assert StripEnd(sw) == StripEnd(sw[..|sw| - 1]);
      assert sw[..|sw| - 1] == s + w';
      assert AllSpace(w') by {
        forall i | 0 <= i < |w'| ensures IsSpace(w'[i]) {
          assert w'[i] == w[i];
        }
      }
      StripEndPadded(s, w');
    } else {
      assert s + w == s;
    }
  }

  /** Trailing white space survives `StripStart` only behind non-blank text. */
  lemma {:induction false} StripStartAppend(s: string, w: string)
    requires !AllSpace(s)
    ensures StripStart(s + w) == StripStart(s) + w
    decreases |s|
  {
    if IsSpace(s[0]) {
      assert (s + w)[1..] == s[1..] + w;
      StripStartAppend(s[1..], w);
    }
  }

  lemma StripBlankIf(s: string)
    ensures AllSpace(s) ==> Strip(s) == []
  {
    if AllSpace(s) {
      StripBlank(s);
    }
  }

  /** Blank text strips to nothing. */
  lemma {:induction false} StripBlank(s: string)
    requires AllSpace(s)
    ensures Strip(s) == []
  {
    StripStartPadded(s, []);
    assert s + [] == s;
  }

  /** Padding with white space on both sides does not change the strip. */
  lemma StripPadded(w1: string, s: string, w2: string)
    requires AllSpace(w1) && AllSpace(w2)
    ensures Strip(w1 + s + w2) == Strip(s)
  {
    assert w1 + s + w2 == w1 + (s + w2);
    StripStartPadded(w1, s + w2);
    if AllSpace(s) {
      assert AllSpace(s + w2) by {
        forall i | 0 <= i < |s + w2| ensures IsSpace((s + w2)[i]) {
          if i < |s| {
            assert (s + w2)[i] == s[i];
          } else {
            assert (s + w2)[i] == w2[i - |s|];
          }
        }
      }
      StripBlank(s + w2);
      StripBlank(s);
    } else {
      StripStartAppend(s, w2);
      StripEndPadded(StripStart(s), w2);
    }
  }

  /** A file separator before a digit is not white space to `int`: the text
      is refused, whereas a tab is skipped. */
  lemma SeparatorNotSkipped()
    ensures ParseInt("\U{1C}1") == None
    ensures ParseInt("\t1") == Some(1)
  {
    assert Strip("\U{1C}1") == "\U{1C}1";
    assert Strip("\t1") == "1" by {
      assert "\t1"[1..] == "1";
    }
    ParseDigits("1");
  }

  /** A fraction or an exponent is not an integer to `int`; a plus sign is
      allowed. */
  lemma NotAnInteger()
    ensures ParseInt("1.5") == None
    ensures ParseInt("1e3") == None
    ensures ParseInt("+1") == Some(1)
  {
    assert Strip("1.5") == "1.5";
    assert !IsDigit("1.5"[1]);
    assert Strip("1e3") == "1e3";
    assert !IsDigit("1e3"[1]);
    ParsePlusDigits("1");
    ParseDigits("1");
  }

  /** `int` ignores white space around the number. */
  lemma ParsePadded(w1: string, s: string, w2: string)
    requires AllSpace(w1) && AllSpace(w2)
    ensures ParseInt(w1 + s + w2) == ParseInt(s)
  {
    StripPadded(w1, s, w2);
  }
}
