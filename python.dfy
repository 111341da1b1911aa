/** The parts of Python's runtime the cache relies on: dynamically typed
    values, the exceptions its conversions raise, `str()` of an integer and
    of a one-element argument tuple, `int()` and `bytes.decode`. */
module Python {

  /** The exceptions a conversion in the cache can raise. */
  datatype Exception =
    | AttributeError  // a method looked up on a value that lacks it (`None.decode`)
    | TypeError       // `int(None)`
    | ValueError      // `int(b"abc")`

  /** A Python expression either returns a value or raises. */
  datatype Result<+T> = Ok(value: T) | Raise(error: Exception)

  /** The values that flow through `Cache.get`: what the Redis client
      returns (None or bytes) and what the converters make of it. Text is
      held as characters; the UTF-8 encoding between bytes and str is not
      modelled, so `PyBytes(s)` is the encoding of `PyStr(s)`. */
  datatype PyValue = PyNone | PyBytes(bytes: string) | PyStr(text: string) | PyInt(number: int)

  predicate IsDigit(c: char)
  {
    '0' <= c <= '9'
  }

  predicate AllDigits(s: string)
  {
    forall i :: 0 <= i < |s| ==> IsDigit(s[i])
  }

  function DigitChar(d: nat): (c: char)
    requires d < 10
    ensures IsDigit(c)
  {
    ('0' as int + d) as char
  }

  function DigitValue(c: char): (d: nat)
    requires IsDigit(c)
    ensures d < 10
  {
    c as int - '0' as int
  }

  /** `str(n)` for a non-negative integer: its decimal digits, most significant first. */
  function NatStr(n: nat): (s: string)
    ensures |s| > 0 && AllDigits(s)
    decreases n
  {
    if n < 10 then [DigitChar(n)] else NatStr(n / 10) + [DigitChar(n % 10)]
  }

  /** `str(n)` for any integer: a minus sign exactly when n is negative,
      then the digits of its magnitude, so `int()` always accepts it. */
  function IntStr(n: int): (s: string)
    ensures IsIntLiteral(s)
    ensures n >= 0 ==> AllDigits(s)
    ensures n < 0 ==> s[0] == '-'
  {
    if n < 0 then "-" + NatStr(-n) else NatStr(n)
  }

  /** The number a string of decimal digits denotes. */
  function DigitsValue(s: string): nat
    requires AllDigits(s)
    decreases |s|
  {
    if s == [] then 0 else DigitsValue(s[..|s| - 1]) * 10 + DigitValue(s[|s| - 1])
  }

  /** What `int()` accepts from text: an optional sign and at least one decimal digit. */
  predicate IsIntLiteral(s: string)
  {
    if |s| > 0 && (s[0] == '-' || s[0] == '+') then |s| > 1 && AllDigits(s[1..])
    else |s| > 0 && AllDigits(s)
  }

  /** `int(s)` on text: the number it denotes, or ValueError when it is not an integer literal. */
  function ParseInt(s: string): (r: Result<int>)
    ensures r.Ok? <==> IsIntLiteral(s)
    ensures r.Raise? ==> r.error == ValueError
  {
    if |s| > 0 && (s[0] == '-' || s[0] == '+') then
      if |s| > 1 && AllDigits(s[1..]) then
        var magnitude: int := DigitsValue(s[1..]);
        Ok(if s[0] == '-' then -magnitude else magnitude)
      else Raise(ValueError)
    else if |s| > 0 && AllDigits(s) then Ok(DigitsValue(s))
    else Raise(ValueError)
  }

  /** Reading back the digits `str()` wrote for n gives n. */
  lemma {:induction false} DigitsValueNatStr(n: nat)
    ensures DigitsValue(NatStr(n)) == n
    decreases n
  {
    if n >= 10 {
      var s := NatStr(n);
      assert s[..|s| - 1] == NatStr(n / 10);
      DigitsValueNatStr(n / 10);
    }
  }

  /** `int(str(n)) == n` for every integer n. */
  lemma ParseIntStr(n: int)
    ensures ParseInt(IntStr(n)) == Ok(n)
  {
    if n < 0 {
      var s := IntStr(n);
      assert s[1..] == NatStr(-n);
      DigitsValueNatStr(-n);
    } else {
      var s := NatStr(n);
      assert s[0] != '-' && s[0] != '+' by { assert IsDigit(s[0]); }
      DigitsValueNatStr(n);
    }
  }

  /** `repr` of a str, the way `str()` of a tuple renders its elements.
      Python's choice of quote character and its escapes are not modelled. */
  function StrRepr(s: string): (r: string)
    ensures |r| == |s| + 2 && r[1..|r| - 1] == s
    ensures r[0] == '\'' && r[|r| - 1] == '\''
  {
    "'" + s + "'"
  }

  /** `str(args)` for the argument tuple `(data,)` of a one-argument call. */
  function ArgsRepr(data: string): (r: string)
    ensures |r| == |data| + 5 && r[2..|r| - 3] == data
  {
    "(" + StrRepr(data) + ",)"
  }

  /** Distinct arguments are logged as distinct strings, so an inputs log
      determines the arguments that were passed. */
  lemma ArgsReprInjective(a: string, b: string)
    requires ArgsRepr(a) == ArgsRepr(b)
    ensures a == b
  {
  }

  /** The converter `lambda d: d.decode("utf-8")`: bytes become str; None
      (and any value without a decode method) raises AttributeError. */
  function Decode(v: PyValue): (r: Result<PyValue>)
    ensures r.Ok? <==> v.PyBytes?
    ensures v.PyBytes? ==> r == Ok(PyStr(v.bytes))
    ensures r.Raise? ==> r.error == AttributeError
  {
    match v
    case PyBytes(b) => Ok(PyStr(b))
    case _ => Raise(AttributeError)
  }

  /** The converter `int`: parses bytes or str, keeps an int, and raises
      TypeError on None and ValueError on text that is not an integer. */
  function Int(v: PyValue): (r: Result<PyValue>)
    ensures v.PyNone? ==> r == Raise(TypeError)
    ensures v.PyBytes? && IsIntLiteral(v.bytes) ==> r == Ok(PyInt(ParseInt(v.bytes).value))
    ensures v.PyBytes? && !IsIntLiteral(v.bytes) ==> r == Raise(ValueError)
    ensures v.PyStr? && IsIntLiteral(v.text) ==> r == Ok(PyInt(ParseInt(v.text).value))
    ensures v.PyStr? && !IsIntLiteral(v.text) ==> r == Raise(ValueError)
    ensures v.PyInt? ==> r == Ok(v)
  {
    match v
    case PyNone => Raise(TypeError)
    case PyBytes(b) => (match ParseInt(b) case Ok(n) => Ok(PyInt(n)) case Raise(e) => Raise(e))
    case PyStr(s) => (match ParseInt(s) case Ok(n) => Ok(PyInt(n)) case Raise(e) => Raise(e))
    case PyInt(n) => Ok(PyInt(n))
  }
}
