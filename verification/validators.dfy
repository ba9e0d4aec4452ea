/**
 * The keystroke validators of the entry boxes. Tk calls them with the
 * action code why ('1' for an insertion), the index where of the change,
 * the text what being inserted and the text all the entry would then hold.
 *
 * _validate_float is the same in DlgMemoryPreset.py and
 * WidgetFrequencyEntry.py, and _validate_text the same in
 * DlgMemoryPreset.py and src/DlgConfigPreset.py, so each is defined once.
 */
module Validators {
  import opened Wrappers
  import opened PyText
  import opened PresetUtils

  /** ALLOWED_TEXT: the characters a command or description may hold. */
  const AllowedText := " ABCDEFGHIJKLMNOPQRSTUVWXYZ0123456789_.+-?"

  /** The longest text a frequency entry accepts. */
  const MaxFloatEntry := 10

  /** Python's s[:idx]: a negative index counts from the end, and both ends are clamped. */
  function PyPrefix(s: string, idx: int): (r: string)
    ensures |r| <= |s| && r == s[..|r|]
  {
    if idx >= 0 then (if idx <= |s| then s[..idx] else s)
    else if |s| + idx >= 0 then s[..|s| + idx]
    else []
  }

  /**
   * _validate_float(why, where, what, all) as written: int(where) first (its
   * ValueError escapes), then every non-insertion is accepted, an insertion
   * making the text longer than ten characters refused, a numeric one
   * accepted, and a '.' accepted only when no '.' comes before the index.
   */
  function ValidateFloat(why: string, where: string, what: string, all: string): Result<bool, PyError> {
    match Int(PyStr(where))
    case Failure(e) => Failure(e)
    case Success(idx) =>
      Success(
        if why != "1" then true
        else if |all| > MaxFloatEntry then false
        else if IsNumeric(what) then true
        else if what == "." then '.' !in PyPrefix(all, idx)
        else false)
  }

  /** _validate_text(why, where, what, all) as written: an insertion must be a substring of ALLOWED_TEXT once upper-cased. */
  predicate ValidateText(why: string, what: string) {
    why != "1" || Contains(AllowedText, Upper(what))
  }

  /** Every action that is not an insertion is accepted by both validators. */
  lemma NonInsertionAccepted(why: string, where: string, what: string, all: string)
    requires why != "1" && ParseInt(where).Some?
    ensures ValidateFloat(why, where, what, all) == Success(true)
    ensures ValidateText(why, what)
  {
  }

  /** int(where) comes before the action check, so an index int() rejects raises even for a deletion. */
  lemma BadIndexRaises(why: string, where: string, what: string, all: string)
    requires ParseInt(where).None?
    ensures ValidateFloat(why, where, what, all) == Failure(ValueError)
  {
  }

  /**
   * An accepted insertion leaves at most ten characters and inserts either
   * digits or a single '.' with no '.' before the index; every other
   * insertion is refused.
   */
  lemma FloatInsertionAccepted(where: string, what: string, all: string)
    requires ParseInt(where).Some?
    ensures var idx := ParseInt(where).value;
            ValidateFloat("1", where, what, all) == Success(true) <==>
              (&& |all| <= MaxFloatEntry
               && (IsNumeric(what) || (what == "." && '.' !in PyPrefix(all, idx))))
  {
  }

  /** A single character is accepted exactly when its upper-case form is one of ALLOWED_TEXT. */
  lemma TextCharAccepted(c: char)
    ensures ValidateText("1", [c]) <==> UpperChar(c) in AllowedText
  {
    assert Upper([c]) == [UpperChar(c)];
    ContainsChar(AllowedText, UpperChar(c));
  }

  /** A substring holds only characters of the text it is taken from. */
  lemma {:induction false} ContainsChars(s: string, sub: string)
    requires Contains(s, sub)
    ensures forall i :: 0 <= i < |sub| ==> sub[i] in s
  {
    if StartsWith(s, sub) {
      forall i | 0 <= i < |sub|
        ensures sub[i] in s
      {
        assert sub[i] == s[i];
      }
    } else {
      ContainsChars(s[1..], sub);
      forall i | 0 <= i < |sub|
        ensures sub[i] in s
      {
        assert sub[i] in s[1..];
      }
    }
  }

  /** A text is not a substring of s when its first two characters never stand next to each other in s. */
  lemma {:induction false} NotContainsPair(s: string, sub: string)
    requires |sub| >= 2
    requires forall i :: 0 <= i < |s| - 1 ==> s[i] != sub[0] || s[i + 1] != sub[1]
    ensures !Contains(s, sub)
  {
    if s != [] {
      assert !StartsWith(s, sub) by {
        if |sub| <= |s| {
          assert s[..|sub|][0] == s[0] && s[..|sub|][1] == s[1];
        }
      }
      forall i | 0 <= i < |s[1..]| - 1
        ensures s[1..][i] != sub[0] || s[1..][i + 1] != sub[1]
      {
        assert s[1..][i] == s[i + 1] && s[1..][i + 1] == s[i + 2];
      }
      NotContainsPair(s[1..], sub);
    }
  }

  /** The check the comment describes: every character of the upper-cased insertion is one of ALLOWED_TEXT. */
  predicate ValidateTextIntended(why: string, what: string) {
    why != "1" || forall i :: 0 <= i < |what| ==> UpperChar(what[i]) in AllowedText
  }

  /** Whatever the substring test accepts, the character test accepts too. */
  lemma ValidateTextStricter(why: string, what: string)
    ensures ValidateText(why, what) ==> ValidateTextIntended(why, what)
  {
    if why == "1" && ValidateText(why, what) {
      ContainsChars(AllowedText, Upper(what));
      forall i | 0 <= i < |what|
        ensures UpperChar(what[i]) in AllowedText
      {
        assert Upper(what)[i] == UpperChar(what[i]);
      }
    }
  }

  /** The two agree on every single keystroke. */
  lemma ValidateTextAgreesOnKeystrokes(why: string, c: char)
    ensures ValidateText(why, [c]) <==> ValidateTextIntended(why, [c])
  {
    TextCharAccepted(c);
  }

  /**
   * Inserting two spaces at once is refused as written, though a space is
   * an allowed character: "  " is not a substring of ALLOWED_TEXT.
   */
  lemma TwoSpacesRefused()
    ensures !ValidateText("1", "  ")
    ensures ValidateTextIntended("1", "  ")
  {
    assert Upper("  ") == "  ";
    assert forall i :: 1 <= i < |AllowedText| ==> AllowedText[i] != ' ';
    NotContainsPair(AllowedText, "  ");
  }

  /** The number of '.' in s. */
  function DotCount(s: string): nat {
    if s == [] then 0 else (if s[0] == '.' then 1 else 0) + DotCount(s[1..])
  }

  /** The check the comment describes for a '.': the resulting text holds only that one '.'. */
  function ValidateFloatIntended(why: string, where: string, what: string, all: string): Result<bool, PyError> {
    match Int(PyStr(where))
    case Failure(e) => Failure(e)
    case Success(idx) =>
      Success(
        if why != "1" then true
        else if |all| > MaxFloatEntry then false
        else if IsNumeric(what) then true
        else if what == "." then DotCount(all) <= 1
        else false)
  }

  /** The corrected validator lets a '.' in only when the resulting text has a single '.'. */
  lemma IntendedFloatOneDot(where: string, all: string)
    requires ValidateFloatIntended("1", where, ".", all) == Success(true)
    ensures DotCount(all) <= 1
  {
    assert !IsDigit("."[0]);
  }

  /**
   * Tk's arguments agree: all holds what at index where. For such a call
   * the two validators differ only on a '.', and the corrected one refuses
   * whatever the written one refuses.
   */
  predicate Consistent(where: string, what: string, all: string) {
    match ParseInt(where)
    case None => true
    case Some(idx) => 0 <= idx && idx + |what| <= |all| && all[idx..idx + |what|] == what
  }

  lemma ValidateFloatIntendedStricter(why: string, where: string, what: string, all: string)
    requires Consistent(where, what, all)
    ensures ValidateFloatIntended(why, where, what, all) == Success(true) ==>
              ValidateFloat(why, where, what, all) == Success(true)
    ensures what != "." ==> ValidateFloatIntended(why, where, what, all) == ValidateFloat(why, where, what, all)
  {
    if why == "1" && what == "." && DotCount(all) <= 1 && ParseInt(where).Some? {
      var idx := ParseInt(where).value;
      assert all[idx] == '.' by {
        assert all[idx..idx + 1][0] == all[idx];
      }
      assert PyPrefix(all, idx) == all[..idx];
      DotCountAppend(all[..idx], all[idx..]);
      assert all[..idx] + all[idx..] == all;
      assert all[idx..][0] == '.';
      if '.' in all[..idx] {
        DotCountOfMember(all[..idx]);
      }
    }
  }

  lemma {:induction false} DotCountAppend(a: string, b: string)
    ensures DotCount(a + b) == DotCount(a) + DotCount(b)
  {
    if a == [] {
      assert a + b == b;
    } else {
      assert (a + b)[0] == a[0];
      assert (a + b)[1..] == a[1..] + b;
      DotCountAppend(a[1..], b);
    }
  }

  lemma {:induction false} DotCountOfMember(s: string)
    requires '.' in s
    ensures DotCount(s) >= 1
  {
    if s[0] != '.' {
      assert '.' in s[1..];
      DotCountOfMember(s[1..]);
    }
  }

  /**
   * As written, a '.' inserted in front of an existing one is accepted:
   * typing '.' at index 0 of "1.5" gives ".1.5", which has two.
   */
  lemma SecondDotAccepted()
    ensures Consistent("0", ".", ".1.5")
    ensures ValidateFloat("1", "0", ".", ".1.5") == Success(true)
    ensures DotCount(".1.5") == 2
    ensures ValidateFloatIntended("1", "0", ".", ".1.5") == Success(false)
  {
    assert ParseInt("0") == Some(0) by {
      ParseIntToString(0);
      assert IntToString(0) == "0";
    }
    assert !IsDigit("."[0]);
    assert PyPrefix(".1.5", 0) == [];
    assert ".1.5"[1..] == "1.5";
    assert "1.5"[1..] == ".5";
    assert ".5"[1..] == "5";
  }
}
