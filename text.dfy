/** Python's string semantics that the pages rely on: the code-point order
    that sorts category levels, and `int(text)` on a text box's contents. */
module Text {
  import opened Collections

  /** `a <= b` in Python's string order: lexicographic by code point. */
  predicate LexLe(a: string, b: string)
    decreases |a|
  {
    |a| == 0 || (|b| > 0 && (a[0] < b[0] || (a[0] == b[0] && LexLe(a[1..], b[1..]))))
  }

  lemma {:induction false} LexLeTotal(a: string, b: string)
    ensures LexLe(a, b) || LexLe(b, a)
    decreases |a|
  {
    if |a| > 0 && |b| > 0 && a[0] == b[0] {
      LexLeTotal(a[1..], b[1..]);
    }
  }

  lemma {:induction false} LexLeTransitive(a: string, b: string, c: string)
    requires LexLe(a, b) && LexLe(b, c)
    ensures LexLe(a, c)
    decreases |a|
  {
    if |a| > 0 && a[0] == b[0] && b[0] == c[0] {
      LexLeTransitive(a[1..], b[1..], c[1..]);
    }
  }

  /** The least string of a non-empty list: the first level after sorting. */
  function LexMin(s: seq<string>): (m: string)
    requires |s| > 0
    ensures m in s
    ensures forall i :: 0 <= i < |s| ==> LexLe(m, s[i])
    decreases |s|
  {
    if |s| == 1 then
      assert LexLe(s[0], s[0]) by { LexLeTotal(s[0], s[0]); }
      s[0]
    else
      var m := LexMin(s[1..]);
      LexLeTotal(s[0], m);
      if LexLe(s[0], m) then
        assert forall i :: 1 <= i < |s| ==> LexLe(s[0], s[i]) by {
          forall i | 1 <= i < |s| ensures LexLe(s[0], s[i]) {
            assert s[1..][i - 1] == s[i];
            LexLeTransitive(s[0], m, s[i]);
          }
        }
        assert LexLe(s[0], s[0]) by { LexLeTotal(s[0], s[0]); }
        s[0]
      else
        assert forall i :: 1 <= i < |s| ==> LexLe(m, s[i]) by {
          forall i | 1 <= i < |s| ensures LexLe(m, s[i]) {
            assert s[1..][i - 1] == s[i];
          }
        }
        m
  }

  predicate IsDigit(ch: char) { '0' <= ch <= '9' }

  /** The whitespace `int()` strips from both ends: Python's `str.isspace`
      set minus the separators 0x1C to 0x1F, which `int()` keeps (below 0x80
      it skips only tab to carriage return and space). That leaves those ASCII
      characters, next-line, no-break space and the Unicode space
      separators. */
  predicate IsSpace(ch: char)
  {
    || '\t' <= ch <= '\r'
    || ch == ' '
    || ch == '\U{85}' || ch == '\U{A0}' || ch == '\U{1680}'
    || '\U{2000}' <= ch <= '\U{200A}'
    || ch == '\U{2028}' || ch == '\U{2029}' || ch == '\U{202F}' || ch == '\U{205F}' || ch == '\U{3000}'
  }

  predicate AllDigits(s: string) { forall i :: 0 <= i < |s| ==> IsDigit(s[i]) }

  predicate AllSpace(s: string) { forall i :: 0 <= i < |s| ==> IsSpace(s[i]) }

  /** The first index at or after `i` that does not hold whitespace, or
      `|s|` when there is none. */
  function SkipSpaces(s: string, i: nat): (j: nat)
    requires i <= |s|
    ensures i <= j <= |s|
    ensures forall k :: i <= k < j ==> IsSpace(s[k])
    ensures j < |s| ==> !IsSpace(s[j])
    decreases |s| - i
  {
    if i < |s| && IsSpace(s[i]) then SkipSpaces(s, i + 1) else i
  }

  /** The end of `s[lo..hi]` once its trailing whitespace is dropped: the
      index just past its last non-space character, or `lo`. */
  function SkipSpacesBack(s: string, lo: nat, hi: nat): (j: nat)
    requires lo <= hi <= |s|
    ensures lo <= j <= hi
    ensures forall k :: j <= k < hi ==> IsSpace(s[k])
    ensures j > lo ==> !IsSpace(s[j - 1])
    decreases hi - lo
  {
    if hi > lo && IsSpace(s[hi - 1]) then SkipSpacesBack(s, lo, hi - 1) else hi
  }

  /** The number of whitespace characters `Strip` removes at the front. */
  function Leading(s: string): (n: nat)
    ensures n <= |s|
  {
    SkipSpaces(s, 0)
  }

  /** `s.strip()`: the slice of `s` left after removing only whitespace at
      both ends, so that what is left neither starts nor ends with it. */
  function Strip(s: string): (r: string)
    ensures Leading(s) + |r| <= |s|
    ensures forall k :: 0 <= k < |r| ==> r[k] == s[Leading(s) + k]
    ensures forall k :: 0 <= k < Leading(s) ==> IsSpace(s[k])
    ensures forall k :: Leading(s) + |r| <= k < |s| ==> IsSpace(s[k])
    ensures r != [] ==> !IsSpace(r[0]) && !IsSpace(r[|r| - 1])
  {
    var lo := Leading(s);
    var hi := SkipSpacesBack(s, lo, |s|);
    assert hi > lo ==> !IsSpace(s[lo]);
    s[lo..hi]
  }

  /** The value of a string of decimal digits. */
  function DigitsValue(ds: string): nat
    requires AllDigits(ds)
    decreases |ds|
  {
    if ds == [] then 0
    else DigitsValue(ds[..|ds| - 1]) * 10 + (ds[|ds| - 1] as int - '0' as int)
  }

  /** The default of `sys.get_int_max_str_digits()`: `int()` refuses
      decimal text with more digits than this. */
  const MaxStrDigits: nat := 4300

  /** An optional sign followed by at least one and at most `MaxStrDigits`
      decimal digits. */
  predicate IsIntegerText(t: string)
  {
    || (0 < |t| <= MaxStrDigits && AllDigits(t))
    || (1 < |t| <= MaxStrDigits + 1 && (t[0] == '-' || t[0] == '+') && AllDigits(t[1..]))
  }

  /** Python's `int(text)` on a decimal string: surrounding whitespace, an
      optional sign and one to `MaxStrDigits` digits; `None` where `int`
      raises `ValueError`. */
  function ParseInt(text: string): (r: Option<int>)
    ensures r.Some? <==> IsIntegerText(Strip(text))
  {
    ParseStripped(Strip(text))
  }

  /** `int()` on text without surrounding whitespace. */
  function ParseStripped(t: string): (r: Option<int>)
    ensures r.Some? <==> IsIntegerText(t)
  {
    if 1 < |t| <= MaxStrDigits + 1 && (t[0] == '-' || t[0] == '+') && AllDigits(t[1..]) then
      var n: int := DigitsValue(t[1..]);
      Some(if t[0] == '-' then -n else n)
    else if 0 < |t| <= MaxStrDigits && AllDigits(t) then
      Some(DigitsValue(t))
    else
      None
  }

  /** Text without a single decimal digit is never a number. */
  lemma ParseNeedsDigit(text: string)
    requires forall i :: 0 <= i < |text| ==> !IsDigit(text[i])
    ensures ParseInt(text) == None
  {
    var t := Strip(text);
    var lo := Leading(text);
    if |t| > 1 {
      assert t[1] == text[lo + 1];
    }
    if |t| > 0 {
      assert t[0] == text[lo];
    }
  }

  /** The decimal digits of `n`, most significant first. */
  function Digits(n: nat): (s: string)
    ensures |s| > 0 && AllDigits(s)
    decreases n
  {
    var d := [(('0' as int) + n % 10) as char];
    if n < 10 then d else Digits(n / 10) + d
  }

  /** `str(n)`: an optional minus sign and the decimal digits. */
  function Show(n: int): (s: string)
    ensures |s| > 0 && IsDigit(s[|s| - 1])
    ensures s[0] == '-' <==> n < 0
    ensures s[0] != '-' ==> IsDigit(s[0])
  {
    if n < 0 then "-" + Digits(-n) else Digits(n)
  }

  /** How many decimal digits `str(n)` has, its sign not counted. */
  function DigitCount(n: int): (c: nat)
    ensures c == |Show(n)| - (if n < 0 then 1 else 0)
  {
    |Digits(if n < 0 then -n else n)|
  }

  lemma {:induction false} DigitsValueOfDigits(n: nat)
    ensures DigitsValue(Digits(n)) == n
    decreases n
  {
    var s := Digits(n);
    if n >= 10 {
      DigitsValueOfDigits(n / 10);
      assert s[..|s| - 1] == Digits(n / 10);
    }
  }

  /** Scanning forward over whitespace stops at the first non-space
      character. */
  lemma {:induction false} SkipSpacesTo(s: string, i: nat, n: nat)
    requires i <= n < |s| && !IsSpace(s[n])
    requires forall k :: i <= k < n ==> IsSpace(s[k])
    ensures SkipSpaces(s, i) == n
    decreases n - i
  {
    if i < n {
      SkipSpacesTo(s, i + 1, n);
    }
  }

  /** Scanning backward over whitespace stops just past the last non-space
      character. */
  lemma {:induction false} SkipSpacesBackTo(s: string, lo: nat, hi: nat, n: nat)
    requires lo < n <= hi <= |s| && !IsSpace(s[n - 1])
    requires forall k :: n <= k < hi ==> IsSpace(s[k])
    ensures SkipSpacesBack(s, lo, hi) == n
    decreases hi - n
  {
    if n < hi {
      SkipSpacesBackTo(s, lo, hi - 1, n);
    }
  }

  /** `(a + m + b).strip() == m` when `a` and `b` are whitespace and `m`
      starts and ends with a non-space character. */
  lemma StripPadded(a: string, m: string, b: string)
    requires AllSpace(a) && AllSpace(b)
    requires m != [] && !IsSpace(m[0]) && !IsSpace(m[|m| - 1])
    ensures Strip(a + m + b) == m
  {
    var s := a + m + b;
    var lo, hi := |a|, |a| + |m|;
    assert s[lo] == m[0] && s[hi - 1] == m[|m| - 1];
    assert forall k :: 0 <= k < lo ==> s[k] == a[k];
    assert forall k :: hi <= k < |s| ==> s[k] == b[k - hi];
    SkipSpacesTo(s, 0, lo);
    SkipSpacesBackTo(s, lo, |s|, hi);
    assert s[lo..hi] == m;
  }

  /** Text beginning and ending with a non-space character is not stripped. */
  lemma StripKeeps(s: string)
    requires |s| > 0 && !IsSpace(s[0]) && !IsSpace(s[|s| - 1])
    ensures Strip(s) == s
  {
    StripPadded("", s, "");
    assert "" + s + "" == s;
  }

  /** A decimal string with no whitespace around it. */
  lemma UnsignedDigits(ds: string)
    requires 0 < |ds| <= MaxStrDigits && AllDigits(ds)
    ensures ParseStripped(ds) == Some(DigitsValue(ds))
  {
    assert IsDigit(ds[0]);
  }

  /** A decimal string with at least one digit reads as its value. */
  lemma ParseDigits(ds: string)
    requires 0 < |ds| <= MaxStrDigits && AllDigits(ds)
    ensures ParseInt(ds) == Some(DigitsValue(ds))
  {
    assert IsDigit(ds[0]) && IsDigit(ds[|ds| - 1]);
    StripKeeps(ds);
    UnsignedDigits(ds);
  }

  /** A sign before decimal digits is not stripped, and `int()` reads the
      text as it stands. */
  lemma SignedKeeps(sign: char, ds: string)
    requires (sign == '-' || sign == '+') && |ds| > 0 && AllDigits(ds)
    ensures ParseInt([sign] + ds) == ParseStripped([sign] + ds)
  {
    var s := [sign] + ds;
    assert s[|s| - 1] == ds[|ds| - 1];
    StripKeeps(s);
  }

  /** `int()` of a sign followed by decimal digits, with no whitespace
      around them, is the signed value of the digits. */
  lemma SignedText(s: string, v: nat)
    requires 1 < |s| <= MaxStrDigits + 1 && (s[0] == '-' || s[0] == '+') && AllDigits(s[1..]) && v == DigitsValue(s[1..])
    ensures ParseStripped(s) == Some(if s[0] == '-' then -(v as int) else v)
  {
  }

  /** A minus sign before a decimal string reads as the negated value. */
  lemma ParseNegated(ds: string)
    requires 0 < |ds| <= MaxStrDigits && AllDigits(ds)
    ensures ParseInt("-" + ds) == Some(-(DigitsValue(ds) as int))
  {
    SignedKeeps('-', ds);
    NegatedText(ds);
  }

  lemma NegatedText(ds: string)
    requires 0 < |ds| <= MaxStrDigits && AllDigits(ds)
    ensures ParseStripped("-" + ds) == Some(-(DigitsValue(ds) as int))
  {
    var s := "-" + ds;
    assert s[1..] == ds;
    SignedText(s, DigitsValue(ds));
  }

  /** A plus sign before a decimal string reads as the value itself. */
  lemma ParsePlus(ds: string)
    requires 0 < |ds| <= MaxStrDigits && AllDigits(ds)
    ensures ParseInt("+" + ds) == Some(DigitsValue(ds))
  {
    SignedKeeps('+', ds);
    var s := "+" + ds;
    assert s[1..] == ds;
    SignedText(s, DigitsValue(ds));
  }

  /** `int(str(n)) == n` for every integer `n` of at most `MaxStrDigits`
      digits. */
  lemma ParseShow(n: int)
    requires DigitCount(n) <= MaxStrDigits
    ensures ParseInt(Show(n)) == Some(n)
  {
    var s := Show(n);
    assert !IsSpace(s[0]) && !IsSpace(s[|s| - 1]);
    StripKeeps(s);
    ShowText(n);
  }

  /** `str(n)` is exactly the text `int()` reads back as `n`. */
  lemma ShowText(n: int)
    requires DigitCount(n) <= MaxStrDigits
    ensures ParseStripped(Show(n)) == Some(n)
  {
    var s := Show(n);
    if n < 0 {
      assert s[1..] == Digits(-n);
      DigitsValueOfDigits(-n);
      SignedText(s, -n);
    } else {
      DigitsValueOfDigits(n);
      UnsignedDigits(s);
    }
  }

  /** `int(a + str(n) + b) == n` for whitespace `a` and `b`, when `n` has at
      most `MaxStrDigits` digits. */
  lemma ParsePadded(a: string, n: int, b: string)
    requires AllSpace(a) && AllSpace(b)
    requires DigitCount(n) <= MaxStrDigits
    ensures ParseInt(a + Show(n) + b) == Some(n)
  {
    var s := Show(n);
    assert !IsSpace(s[0]) && !IsSpace(s[|s| - 1]);
    StripPadded(a, s, b);
    StripKeeps(s);
    ParseShow(n);
  }

  /** A character other than a digit or whitespace inside the text, and
      other than a leading sign, makes `int()` fail. */
  lemma ParseRejectsJunk(a: string, m: string, b: string, k: nat)
    requires AllSpace(a) && AllSpace(b)
    requires m != [] && !IsSpace(m[0]) && !IsSpace(m[|m| - 1])
    requires k < |m| && !IsDigit(m[k]) && (k == 0 ==> m[k] != '-' && m[k] != '+')
    ensures ParseInt(a + m + b) == None
  {
    StripPadded(a, m, b);
    JunkText(m, k);
  }

  /** Text holding a character other than a digit, and other than a
      leading sign, is not an integer. */
  lemma JunkText(m: string, k: nat)
    requires k < |m| && !IsDigit(m[k]) && (k == 0 ==> m[k] != '-' && m[k] != '+')
    ensures ParseStripped(m) == None
  {
    if k > 0 {
      assert m[1..][k - 1] == m[k];
    }
  }

  /** The separators 0x1C to 0x1F are not whitespace to `int()`, though
      `str.isspace` holds for them: one in front of the digits makes the text
      rejected. */
  lemma ParseKeepsSeparators(c: char, ds: string)
    requires '\U{1C}' <= c <= '\U{1F}'
    requires ds != [] && AllDigits(ds)
    ensures ParseInt([c] + ds) == None
  {
    var m := [c] + ds;
    assert m == "" + m + "";
    ParseRejectsJunk("", m, "", 0);
  }

  /** More than `MaxStrDigits` digits, signed or not and with any whitespace
      around them, make `int()` fail. */
  lemma ParseRejectsLong(a: string, sign: string, ds: string, b: string)
    requires AllSpace(a) && AllSpace(b)
    requires sign == "" || sign == "-" || sign == "+"
    requires |ds| > MaxStrDigits && AllDigits(ds)
    ensures ParseInt(a + (sign + ds) + b) == None
  {
    var m := sign + ds;
    LongText(sign, ds);
    assert m[|m| - 1] == ds[|ds| - 1];
    assert !IsSpace(m[0]) by {
      if sign == [] { assert m[0] == ds[0]; } else { assert m[0] == sign[0]; }
    }
    StripPadded(a, m, b);
  }

  /** Too many digits after an optional sign, with no whitespace around
      them, are not an integer. */
  lemma LongText(sign: string, ds: string)
    requires sign == "" || sign == "-" || sign == "+"
    requires |ds| > MaxStrDigits && AllDigits(ds)
    ensures ParseStripped(sign + ds) == None
  {
    var m := sign + ds;
    if sign == [] {
      assert m == ds;
    } else {
      assert |m| > MaxStrDigits + 1;
      assert !IsDigit(m[0]);
    }
  }

  /** A run of 4301 ones, one digit past the limit, is rejected. */
  lemma ParseRejectsOnePastLimit()
    ensures ParseInt(seq(MaxStrDigits + 1, i => '1')) == None
  {
    var ds := seq(MaxStrDigits + 1, i => '1');
    assert "" + ("" + ds) + "" == ds;
    ParseRejectsLong("", "", ds, "");
  }
}
