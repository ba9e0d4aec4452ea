/**
 * to_int and to_float of pyRigPresetUtils.py (src/pyRigPresetUtils.py is a
 * byte-identical copy, so this one module stands for both), and the
 * `try: int(id) except Exception: 0` coercion that the preset stores and
 * widgets perform inline in their constructors.
 *
 * A Python float is represented by the decimal text it was read from
 * (FloatText); normalisation and binary rounding are not modelled.
 */
module PresetUtils {
  import opened Wrappers
  import opened PyText

  /** The values the modelled code passes to int() and to_int(). */
  datatype PyValue = PyStr(s: string) | PyInt(i: int) | PyFloat(f: FloatText) | PyNone

  /** The exceptions int() raises. */
  datatype PyError = ValueError | TypeError

  /** How a call that may raise ended. */
  datatype Outcome = Returned | Raised(error: PyError)

  /** The text after an optional leading sign. */
  function Unsigned(s: string): (b: string)
    ensures b == s || (s != [] && b == s[1..])
  {
    if s != [] && (s[0] == '+' || s[0] == '-') then s[1..] else s
  }

  /**
   * The unsigned body of a float text from some point on: digits with at
   * most one '.', and a digit somewhere. dotSeen and digitSeen record what
   * the part already scanned held.
   */
  predicate FloatBody(b: string, dotSeen: bool, digitSeen: bool)
    decreases |b|
  {
    if b == [] then digitSeen
    else if IsDigit(b[0]) then FloatBody(b[1..], dotSeen, true)
    else b[0] == '.' && !dotSeen && FloatBody(b[1..], true, digitSeen)
  }

  /**
   * float() accepts s: an optional sign, digits, and at most one decimal
   * point, with at least one digit in all.
   */
  predicate IsFloatText(s: string) {
    FloatBody(Unsigned(s), false, false)
  }

  type FloatText = s: string | IsFloatText(s) witness "0.0"

  lemma ZeroIsFloat()
    ensures IsFloatText("0.0")
  {
    var s := "0.0";
    assert s[1..] == ".0" && s[1..][1..] == "0" && s[1..][1..][1..] == [];
    assert FloatBody("0", true, true);
    assert FloatBody(".0", false, true);
  }

  /** 0.0, the value to_float falls back to. */
  const ZeroFloat: FloatText := (ZeroIsFloat(); "0.0")

  /** The value of the digits that lead b, after acc for the digits before them. */
  function LeadingValue(b: string, acc: nat): nat
    decreases |b|
  {
    if b == [] || !IsDigit(b[0]) then acc
    else LeadingValue(b[1..], 10 * acc + (b[0] as int - '0' as int))
  }

  /** int(f) for a float: the integer part, truncated toward zero. */
  function Truncate(f: FloatText): int {
    var v: int := LeadingValue(Unsigned(f), 0);
    if f != [] && f[0] == '-' then -v else v
  }

  /** Python int(v). */
  function Int(v: PyValue): Result<int, PyError> {
    match v
    case PyStr(s) =>
      (match ParseInt(s)
       case Some(n) => Success(n)
       case None => Failure(ValueError))
    case PyInt(i) => Success(i)
    case PyFloat(f) => Success(Truncate(f))
    case PyNone => Failure(TypeError)
  }

  /** to_int(val): int(val), with a ValueError absorbed as 0. */
  function ToInt(v: PyValue): Result<int, PyError> {
    match Int(v)
    case Success(n) => Success(n)
    case Failure(ValueError) => Success(0)
    case Failure(TypeError) => Failure(TypeError)
  }

  /** The constructors' `int(id)` under `except Exception`: any failure gives 0. */
  function CoerceId(v: PyValue): int {
    match Int(v)
    case Success(n) => n
    case Failure(_) => 0
  }

  /** to_float(val) for a text: float(val), with a ValueError absorbed as 0.0. */
  function ToFloat(s: string): FloatText {
    var t := Strip(s);
    if IsFloatText(t) then t else ZeroFloat
  }

  /** to_int of a text, such as a value read from the store: it never raises. */
  function TextToInt(s: string): (n: int)
    ensures ToInt(PyStr(s)) == Success(n)
  {
    match ParseInt(s)
    case Some(v) => v
    case None => 0
  }

  /** to_int never raises ValueError, whatever it is given. */
  lemma ToIntAbsorbsValueError(v: PyValue)
    ensures ToInt(v) != Failure(ValueError)
    ensures Int(v).Success? ==> ToInt(v) == Int(v)
    ensures Int(v) == Failure(ValueError) ==> ToInt(v) == Success(0)
  {
  }

  /** On a text, such as a value read from the store, to_int never raises at all. */
  lemma ToIntOfText(s: string)
    ensures ToInt(PyStr(s)).Success?
    ensures ParseInt(s) == None ==> ToInt(PyStr(s)) == Success(0)
  {
  }

  /** Only ValueError is absorbed: the TypeError of int(None) propagates. */
  lemma ToIntOfNone()
    ensures ToInt(PyNone) == Failure(TypeError)
  {
  }

  /**
   * No range check: the decimal text of any integer, negative ones
   * included, converts back to that integer.
   */
  lemma ToIntOfIntText(n: int)
    ensures ToInt(PyStr(IntToString(n))) == Success(n)
    ensures CoerceId(PyStr(IntToString(n))) == n
  {
    ParseIntToString(n);
  }

  /**
   * to_int is idempotent on its own results, both applied to the integer
   * again and to its decimal text (as when the result is stored and read back).
   */
  lemma ToIntIdempotent(v: PyValue)
    requires ToInt(v).Success?
    ensures ToInt(PyInt(ToInt(v).value)) == ToInt(v)
    ensures ToInt(PyStr(IntToString(ToInt(v).value))) == ToInt(v)
  {
    ParseIntToString(ToInt(v).value);
  }

  /** to_int gives 0 only for a zero or for a ValueError. */
  lemma ToIntZero(v: PyValue)
    requires ToInt(v) == Success(0)
    ensures Int(v) == Success(0) || Int(v) == Failure(ValueError)
  {
  }

  /**
   * The inline id coercion agrees with to_int wherever to_int returns, and
   * unlike to_int it also turns the TypeError of None into 0.
   */
  lemma CoerceIdAgreesWithToInt(v: PyValue)
    ensures ToInt(v).Success? ==> CoerceId(v) == ToInt(v).value
    ensures CoerceId(PyNone) == 0
    ensures Int(v).Failure? ==> CoerceId(v) == 0
  {
  }

  /** A float body starts and ends with a digit or a '.', and is empty only when a digit came before. */
  lemma {:induction false} FloatBodyEnds(b: string, dotSeen: bool, digitSeen: bool)
    requires FloatBody(b, dotSeen, digitSeen)
    ensures b == [] ==> digitSeen
    ensures b != [] ==> (IsDigit(b[0]) || b[0] == '.') && (IsDigit(b[|b| - 1]) || b[|b| - 1] == '.')
  {
    if b != [] {
      if IsDigit(b[0]) {
        FloatBodyEnds(b[1..], dotSeen, true);
      } else {
        FloatBodyEnds(b[1..], true, digitSeen);
      }
      if |b| > 1 {
        assert b[|b| - 1] == b[1..][|b| - 2];
      }
    }
  }

  /** A float text has no whitespace at either end. */
  lemma FloatTextTrimmed(f: FloatText)
    ensures IsTrimmed(f)
  {
    var b := Unsigned(f);
    FloatBodyEnds(b, false, false);
    if f != [] && b != f {
      assert f[|f| - 1] == b[|b| - 1];
    }
  }

  /** str(f) written to the store is read back by to_float as the same float. */
  lemma ToFloatOfFloatText(f: FloatText)
    ensures ToFloat(f) == f
  {
    FloatTextTrimmed(f);
    StripTrimmed(f);
  }
}
