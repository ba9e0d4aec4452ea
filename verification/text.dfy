/**
 * The Python string built-ins that the presets, the dispatcher and the
 * keystroke validators rely on: str.strip(), str.upper(), str.split(' '),
 * the substring test `sub in s`, str.isnumeric(), str(int), int(str) and
 * the '{:03d}' format used in every section and key name.
 */
module PyText {
  import opened Wrappers

  /** str.isspace() of one character (the Unicode whitespace set). */
  predicate IsSpace(c: char) {
    || ('\t' <= c <= '\r')
    || ('\U{1C}' <= c <= '\U{1F}')
    || c == ' ' || c == '\U{85}' || c == '\U{A0}' || c == '\U{1680}'
    || ('\U{2000}' <= c <= '\U{200A}')
    || c == '\U{2028}' || c == '\U{2029}' || c == '\U{202F}'
    || c == '\U{205F}' || c == '\U{3000}'
  }

  /** True when s has no whitespace at either end. */
  predicate IsTrimmed(s: string) {
    s == [] || (!IsSpace(s[0]) && !IsSpace(s[|s| - 1]))
  }

  function StripLeft(s: string): (r: string)
    ensures |r| <= |s|
    ensures r == [] || !IsSpace(r[0])
  {
    if s != [] && IsSpace(s[0]) then StripLeft(s[1..]) else s
  }

  function StripRight(s: string): (r: string)
    ensures |r| <= |s| && (r != [] ==> r[0] == s[0])
    ensures r == [] || !IsSpace(r[|r| - 1])
  {
    if s != [] && IsSpace(s[|s| - 1]) then StripRight(s[..|s| - 1]) else s
  }

  /** str.strip(): the text with surrounding whitespace removed. */
  function Strip(s: string): (r: string)
    ensures IsTrimmed(r)
    ensures |r| <= |s|
  {
    StripRight(StripLeft(s))
  }

  /** Where lstrip() cuts: the leading whitespace ends at i. */
  lemma {:induction false} StripLeftCut(s: string) returns (i: nat)
    ensures i <= |s| && StripLeft(s) == s[i..]
    ensures forall k :: 0 <= k < i ==> IsSpace(s[k])
  {
    if s != [] && IsSpace(s[0]) {
      var i1 := StripLeftCut(s[1..]);
      i := i1 + 1;
      assert s[1..][i1..] == s[i..];
      forall k | 0 <= k < i
        ensures IsSpace(s[k])
      {
        if k > 0 {
          assert s[k] == s[1..][k - 1];
        }
      }
    } else {
      i := 0;
    }
  }

  /** Where rstrip() cuts: the trailing whitespace starts at j. */
  lemma {:induction false} StripRightCut(s: string) returns (j: nat)
    ensures j <= |s| && StripRight(s) == s[..j]
    ensures forall k :: j <= k < |s| ==> IsSpace(s[k])
  {
    if s != [] && IsSpace(s[|s| - 1]) {
      var t := s[..|s| - 1];
      j := StripRightCut(t);
      assert t[..j] == s[..j];
      forall k | j <= k < |s|
        ensures IsSpace(s[k])
      {
        if k < |t| {
          assert s[k] == t[k];
        }
      }
    } else {
      j := |s|;
    }
  }

  /** lstrip() removes only leading whitespace: what is left is a suffix of the text. */
  lemma StripLeftKeepsSuffix(s: string)
    ensures exists i :: 0 <= i <= |s| && StripLeft(s) == s[i..] && forall k :: 0 <= k < i ==> IsSpace(s[k])
  {
    var i := StripLeftCut(s);
  }

  /** rstrip() removes only trailing whitespace: what is left is a prefix of the text. */
  lemma StripRightKeepsPrefix(s: string)
    ensures exists j :: 0 <= j <= |s| && StripRight(s) == s[..j] && forall k :: j <= k < |s| ==> IsSpace(s[k])
  {
    var j := StripRightCut(s);
  }

  /**
   * strip() removes only surrounding whitespace: the result is the slice of
   * the text between a run of leading and a run of trailing whitespace.
   */
  lemma StripKeepsInner(s: string)
    ensures exists i, j :: && 0 <= i <= j <= |s| && Strip(s) == s[i..j]
                           && (forall k :: 0 <= k < i ==> IsSpace(s[k]))
                           && (forall k :: j <= k < |s| ==> IsSpace(s[k]))
  {
    var i := StripLeftCut(s);
    var u := s[i..];
    var m := StripRightCut(u);
    var j := i + m;
    assert Strip(s) == s[i..j] by {
      assert u[..m] == s[i..j];
    }
    assert forall k :: j <= k < |s| ==> IsSpace(s[k]) by {
      forall k | j <= k < |s|
        ensures IsSpace(s[k])
      {
        assert s[k] == u[k - i];
      }
    }
  }

  /** Text that has no surrounding whitespace is left as it is. */
  lemma StripTrimmed(s: string)
    requires IsTrimmed(s)
    ensures Strip(s) == s
  {
  }

  /** Stripping twice is stripping once. */
  lemma StripIdempotent(s: string)
    ensures Strip(Strip(s)) == Strip(s)
  {
    StripTrimmed(Strip(s));
  }

  /** Every text of a list stripped. */
  function StripAll(texts: seq<string>): (r: seq<string>)
    ensures |r| == |texts| && forall i :: 0 <= i < |r| ==> r[i] == Strip(texts[i])
  {
    seq(|texts|, i requires 0 <= i < |texts| => Strip(texts[i]))
  }

  /** A list of texts without surrounding whitespace is left as it is. */
  lemma StripAllTrimmed(texts: seq<string>)
    requires forall i :: 0 <= i < |texts| ==> IsTrimmed(texts[i])
    ensures StripAll(texts) == texts
  {
    forall i | 0 <= i < |texts|
      ensures StripAll(texts)[i] == texts[i]
    {
      StripTrimmed(texts[i]);
    }
  }

  /** Stripping a list twice is stripping it once. */
  lemma StripAllIdempotent(texts: seq<string>)
    ensures StripAll(StripAll(texts)) == StripAll(texts)
  {
    StripAllTrimmed(StripAll(texts));
  }

  /** str.upper() on one character; only ASCII letters change. */
  function UpperChar(c: char): char {
    if 'a' <= c <= 'z' then (c as int - 32) as char else c
  }

  /** str.upper(). */
  function Upper(s: string): string {
    seq(|s|, i requires 0 <= i < |s| => UpperChar(s[i]))
  }

  /** Upper-casing twice is upper-casing once. */
  lemma UpperIdempotent(s: string)
    ensures Upper(Upper(s)) == Upper(s)
  {
  }

  /**
   * str.split(sep) with an explicit one-character separator: every
   * occurrence of sep cuts, so neighbouring separators give empty parts,
   * and the empty text gives one empty part.
   */
  function SplitOn(s: string, sep: char): (parts: seq<string>)
    ensures |parts| >= 1
    ensures forall i :: 0 <= i < |parts| ==> sep !in parts[i]
  {
    if s == [] then [""]
    else
      var rest := SplitOn(s[1..], sep);
      if s[0] == sep then [""] + rest
      else [[s[0]] + rest[0]] + rest[1..]
  }

  /** sep.join(parts). */
  function Join(parts: seq<string>, sep: char): string {
    if |parts| == 0 then ""
    else if |parts| == 1 then parts[0]
    else parts[0] + [sep] + Join(parts[1..], sep)
  }

  /** Splitting loses nothing: joining the parts gives back the text. */
  lemma {:induction false} JoinSplit(s: string, sep: char)
    ensures Join(SplitOn(s, sep), sep) == s
  {
    if s != [] {
      var rest := SplitOn(s[1..], sep);
      JoinSplit(s[1..], sep);
      if s[0] == sep {
        assert SplitOn(s, sep) == [""] + rest;
        assert ([""] + rest)[1..] == rest;
        assert [sep] + s[1..] == s;
      } else {
        var head := [s[0]] + rest[0];
        var parts := [head] + rest[1..];
        assert SplitOn(s, sep) == parts;
        if |rest| == 1 {
          assert Join(parts, sep) == head;
          assert Join(rest, sep) == rest[0];
        } else {
          assert parts[1..] == rest[1..];
          assert Join(parts, sep) == head + [sep] + Join(rest[1..], sep);
          assert Join(rest, sep) == rest[0] + [sep] + Join(rest[1..], sep);
        }
        assert [s[0]] + s[1..] == s;
      }
    }
  }

  /** The first part is empty exactly when the text starts with sep or is empty. */
  lemma {:induction false} SplitFirstEmpty(s: string, sep: char)
    ensures SplitOn(s, sep)[0] == "" <==> (s == [] || s[0] == sep)
  {
  }

  /** A text without sep is one part. */
  lemma {:induction false} SplitOnWithoutSep(s: string, sep: char)
    requires sep !in s
    ensures SplitOn(s, sep) == [s]
  {
    if s != [] {
      assert sep !in s[1..];
      SplitOnWithoutSep(s[1..], sep);
      assert [s[0]] + s[1..] == s;
    }
  }

  /** A sep between a and b cuts there: the parts of a, then the parts of b. */
  lemma {:induction false} SplitOnAtSep(a: string, b: string, sep: char)
    ensures SplitOn(a + [sep] + b, sep) == SplitOn(a, sep) + SplitOn(b, sep)
  {
    var s := a + [sep] + b;
    var right := SplitOn(b, sep);
    if a == [] {
      assert s == [sep] + b;
      assert s[1..] == b;
    } else {
      assert s[0] == a[0];
      assert s[1..] == a[1..] + [sep] + b;
      SplitOnAtSep(a[1..], b, sep);
      var rest := SplitOn(s[1..], sep);
      var left := SplitOn(a[1..], sep);
      assert rest == left + right;
      if a[0] == sep {
        assert SplitOn(s, sep) == [""] + rest;
        assert SplitOn(a, sep) == [""] + left;
        AppendAssoc([""], left, right);
      } else {
        assert rest[0] == left[0];
        assert rest[1..] == left[1..] + right;
        var head := [a[0]] + left[0];
        assert SplitOn(s, sep) == [head] + (left[1..] + right);
        assert SplitOn(a, sep) == [head] + left[1..];
        AppendAssoc([head], left[1..], right);
      }
    }
  }

  /** Concatenation is associative; stated once so that long proofs need not rediscover it. */
  lemma AppendAssoc<T>(x: seq<T>, y: seq<T>, z: seq<T>)
    ensures x + (y + z) == x + y + z
  {
  }

  predicate StartsWith(s: string, prefix: string) {
    |prefix| <= |s| && s[..|prefix|] == prefix
  }

  /** Python's substring test `sub in s`. */
  predicate Contains(s: string, sub: string)
    decreases |s|
  {
    StartsWith(s, sub) || (s != [] && Contains(s[1..], sub))
  }

  /** For a single character the substring test is plain membership. */
  lemma {:induction false} ContainsChar(s: string, c: char)
    ensures Contains(s, [c]) <==> c in s
  {
    if s != [] {
      ContainsChar(s[1..], c);
      assert s == [s[0]] + s[1..];
    }
  }

  /** The empty text is a substring of every text. */
  lemma ContainsEmpty(s: string)
    ensures Contains(s, "")
  {
  }

  predicate IsDigit(c: char) {
    '0' <= c <= '9'
  }

  predicate AllDigits(s: string) {
    forall i :: 0 <= i < |s| ==> IsDigit(s[i])
  }

  /** str.isnumeric(), for ASCII digits. */
  predicate IsNumeric(s: string) {
    s != [] && AllDigits(s)
  }

  /** The value of a run of decimal digits, most significant first. */
  function DigitsValue(s: string): nat
    requires AllDigits(s)
  {
    if s == [] then 0
    else 10 * DigitsValue(s[..|s| - 1]) + (s[|s| - 1] as int - '0' as int)
  }

  function DigitChar(d: nat): (c: char)
    requires d < 10
    ensures IsDigit(c) && c as int - '0' as int == d
  {
    ('0' as int + d) as char
  }

  /** str(n) for n >= 0: the shortest decimal text of n. */
  function NatToDigits(n: nat): (r: string)
    ensures r != [] && AllDigits(r)
    ensures DigitsValue(r) == n
  {
    if n < 10 then [DigitChar(n)]
    else
      var r := NatToDigits(n / 10) + [DigitChar(n % 10)];
      assert r[..|r| - 1] == NatToDigits(n / 10);
      r
  }

  /** str(n). */
  function IntToString(n: int): string {
    if n < 0 then "-" + NatToDigits(-n) else NatToDigits(n)
  }

  /** The decimal text of an integer holds no whitespace at all. */
  lemma IntToStringHasNoSpace(n: int)
    ensures forall i :: 0 <= i < |IntToString(n)| ==> !IsSpace(IntToString(n)[i])
  {
  }

  /** The decimal text of an integer is one non-empty word: no ' ', and no whitespace at its end. */
  lemma NoSpaceInIntText(n: int)
    ensures IntToString(n) != [] && ' ' !in IntToString(n)
    ensures !IsSpace(IntToString(n)[|IntToString(n)| - 1])
  {
    IntToStringHasNoSpace(n);
    assert IsSpace(' ');
  }

  function Pow10(k: nat): nat {
    if k == 0 then 1 else 10 * Pow10(k - 1)
  }

  lemma TenTimes(a: int, b: int)
    ensures 10 * (a * b) == a * (10 * b)
  {
  }

  lemma ShiftDigit(acc: int, d: int, p: int)
    ensures (10 * acc + d) * p == acc * (10 * p) + d * p
  {
  }

  /** A leading digit adds its value times the power of ten of the digits after it. */
  lemma {:induction false} DigitsValueCons(c: char, s: string)
    requires IsDigit(c) && AllDigits(s)
    ensures AllDigits([c] + s)
    ensures DigitsValue([c] + s) == (c as int - '0' as int) * Pow10(|s|) + DigitsValue(s)
  {
    var z := [c] + s;
    if s != [] {
      var d := c as int - '0' as int;
      var init := s[..|s| - 1];
      assert z[..|z| - 1] == [c] + init;
      DigitsValueCons(c, init);
      var last := s[|s| - 1] as int - '0' as int;
      var p := Pow10(|init|);
      assert Pow10(|s|) == 10 * p;
      assert DigitsValue(s) == 10 * DigitsValue(init) + last;
      assert DigitsValue(z) == 10 * (d * p + DigitsValue(init)) + last;
      TenTimes(d, p);
    }
  }

  /**
   * int()'s reading of digit groups from s on: digits, with single
   * underscores between them. acc is the value of the digits already read;
   * afterDigit says the last character read was a digit, so an underscore
   * or the end may follow.
   */
  function ScanDigits(s: string, acc: nat, afterDigit: bool): Option<nat>
    decreases |s|
  {
    if s == [] then (if afterDigit then Some(acc) else None)
    else if IsDigit(s[0]) then ScanDigits(s[1..], 10 * acc + (s[0] as int - '0' as int), true)
    else if s[0] == '_' && afterDigit then ScanDigits(s[1..], acc, false)
    else None
  }

  /** The value of an unsigned integer text, None when int() rejects it. */
  function ParseUnsigned(s: string): Option<nat> {
    ScanDigits(s, 0, false)
  }

  lemma {:induction false} ScanOfDigits(s: string, acc: nat, afterDigit: bool)
    requires s != [] && AllDigits(s)
    ensures ScanDigits(s, acc, afterDigit) == Some(acc * Pow10(|s|) + DigitsValue(s))
  {
    var c := s[0];
    var r := s[1..];
    var d := c as int - '0' as int;
    assert s == [c] + r;
    DigitsValueCons(c, r);
    if r != [] {
      ScanOfDigits(r, 10 * acc + d, true);
      var p := Pow10(|r|);
      assert Pow10(|s|) == 10 * p;
      ShiftDigit(acc, d, p);
    }
  }

  /**
   * int(s) for a text s: surrounding whitespace, an optional sign, then
   * digit groups; None stands for the ValueError int() raises otherwise.
   */
  function ParseInt(s: string): Option<int> {
    var t := Strip(s);
    if t != [] && (t[0] == '+' || t[0] == '-') then
      match ParseUnsigned(t[1..])
      case Some(v) =>
        var k: int := v;
        Some(if t[0] == '-' then -k else k)
      case None => None
    else
      ParseUnsigned(t)
  }

  lemma ParseUnsignedOfDigits(s: string)
    requires s != [] && AllDigits(s)
    ensures ParseUnsigned(s) == Some(DigitsValue(s))
  {
    ScanOfDigits(s, 0, false);
  }

  /** int(str(n)) == n: the decimal text of an integer reads back as that integer. */
  lemma ParseIntToString(n: int)
    ensures ParseInt(IntToString(n)) == Some(n)
  {
    var t := IntToString(n);
    StripTrimmed(t);
    if n < 0 {
      assert t[1..] == NatToDigits(-n);
      ParseUnsignedOfDigits(NatToDigits(-n));
    } else {
      ParseUnsignedOfDigits(t);
    }
  }

  /** Left-pads s with '0' up to the given width. */
  function ZeroPad(s: string, width: nat): (r: string)
    ensures |r| >= width && |r| >= |s|
    decreases width - |s|
  {
    if |s| >= width then s else ZeroPad("0" + s, width)
  }

  /** '{:03d}'.format(n): at least three characters, sign first, zero-filled. */
  function Format03d(n: int): string {
    if n < 0 then "-" + ZeroPad(NatToDigits(-n), 2) else ZeroPad(NatToDigits(n), 3)
  }

  lemma {:induction false} LeadingZeroValue(s: string)
    requires AllDigits(s)
    ensures AllDigits("0" + s) && DigitsValue("0" + s) == DigitsValue(s)
  {
    if s != [] {
      var z := "0" + s;
      assert z[..|z| - 1] == "0" + s[..|s| - 1];
      LeadingZeroValue(s[..|s| - 1]);
    }
  }

  lemma {:induction false} ZeroPadValue(s: string, width: nat)
    requires s != [] && AllDigits(s)
    ensures ZeroPad(s, width) != [] && AllDigits(ZeroPad(s, width))
    ensures DigitsValue(ZeroPad(s, width)) == DigitsValue(s)
    decreases width - |s|
  {
    if |s| < width {
      LeadingZeroValue(s);
      ZeroPadValue("0" + s, width);
    }
  }

  lemma ParsePaddedDigits(m: nat, width: nat)
    ensures ParseUnsigned(ZeroPad(NatToDigits(m), width)) == Some(m)
  {
    ZeroPadValue(NatToDigits(m), width);
    ParseUnsignedOfDigits(ZeroPad(NatToDigits(m), width));
  }

  /** int('{:03d}'.format(n)) == n: the zero padding reads back as the same number. */
  lemma ParseFormat03d(n: int)
    ensures ParseInt(Format03d(n)) == Some(n)
  {
    var t := Format03d(n);
    if n < 0 {
      var p := ZeroPad(NatToDigits(-n), 2);
      ParsePaddedDigits(-n, 2);
      assert t == "-" + p && t[1..] == p;
      StripTrimmed(t);
    } else {
      var p := ZeroPad(NatToDigits(n), 3);
      ParsePaddedDigits(n, 3);
      ZeroPadValue(NatToDigits(n), 3);
      assert IsDigit(t[0]) && IsDigit(t[|t| - 1]);
      StripTrimmed(t);
    }
  }

  /** Distinct numbers never format to the same three-digit text. */
  lemma Format03dInjective(a: int, b: int)
    requires Format03d(a) == Format03d(b)
    ensures a == b
  {
    ParseFormat03d(a);
    ParseFormat03d(b);
  }

  /** A fixed prefix followed by the three-digit number names distinct numbers apart. */
  lemma NumberedNameInjective(prefix: string, a: int, b: int)
    requires prefix + Format03d(a) == prefix + Format03d(b)
    ensures a == b
  {
    assert Format03d(a) == (prefix + Format03d(a))[|prefix|..];
    assert Format03d(b) == (prefix + Format03d(b))[|prefix|..];
    Format03dInjective(a, b);
  }
}
