/**
 The slice of Python's dynamic values and runtime behaviour that the personnel
 records can observe: `isinstance` tests, truthiness, `str(v).isdigit()`,
 `str.strip()`, the `in` operator, subscripting, numeric comparison and string
 ordering. Every operation of the records is written against these helpers.
 */
module PyValues {

  /** A Python value as far as the records can tell values apart.
      `DateTime` is a `datetime.datetime`, represented by its ISO 8601 text
      (what `isoformat()` returns). Dictionary keys are strings.
      `Other` is any further object that has no `strip` method, supports
      neither `in` nor subscripting, is not a number and is truthy: a
      `datetime.date`, `object()`, or an instance of a plain class. Sets,
      tuples, bytes and objects defining `__contains__`, `__bool__` or
      `strip` behave otherwise and are not represented. */
  datatype Value =
    | PyNone
    | Bool(b: bool)
    | Int(i: int)
    | Float(x: real)
    | Str(s: string)
    | DateTime(iso: string)
    | List(items: seq<Value>)
    | Map(m: map<string, Value>)
    | Other

  /** The exceptions a call can end with: the two the records define, and
      the built-in ones Python raises when a value has the wrong shape. */
  datatype Error =
    | ValidationError(msg: string)
    | AttendanceError(msg: string)
    | TypeError
    | AttributeError
    | KeyError
    | ValueError

  datatype Option<+T> = None | Some(value: T)

  /** The outcome of an expression that may raise. */
  datatype Result<+T> = Ok(value: T) | Err(error: Error) {

    predicate IsFailure() {
      Err?
    }

    function PropagateFailure<U>(): Result<U>
      requires Err?
    {
      Err(error)
    }

    function Extract(): T
      requires Ok?
    {
      value
    }
  }

  /** The outcome of calling a mutating method on a record: the record as the
      call leaves it, together with what the call returned or raised. Python
      mutates objects in place, so a call that raises after a write leaves
      that write behind; `Raised` keeps the state to say so. */
  datatype Step<S, T> = Returned(state: S, value: T) | Raised(state: S, error: Error)

  /** Python truthiness (`bool(v)`). */
  predicate Truthy(v: Value)
  {
    match v
    case PyNone => false
    case Bool(b) => b
    case Int(i) => i != 0
    case Float(x) => x != 0.0
    case Str(s) => |s| > 0
    case DateTime(_) => true
    case List(items) => |items| > 0
    case Map(m) => |m| > 0
    case Other => true
  }

  /** The numeric value of `v` when it is an int or a float; `bool` is a
      subclass of `int` in Python, so `True` counts as 1. Every other value
      makes an ordering comparison with a number raise TypeError. */
  function Num(v: Value): (r: Option<real>)
    ensures r.Some? <==> v.Bool? || v.Int? || v.Float?
    ensures v.Int? ==> r == Some(v.i as real)
    ensures v.Float? ==> r == Some(v.x)
  {
    match v
    case Bool(b) => Some(if b then 1.0 else 0.0)
    case Int(i) => Some(i as real)
    case Float(x) => Some(x)
    case _ => None
  }

  predicate IsDigit(c: char)
  {
    '0' <= c <= '9'
  }

  /** `s.isdigit()` for ASCII text: false on the empty string. */
  predicate AllDigits(s: string)
  {
    |s| > 0 && forall i :: 0 <= i < |s| ==> IsDigit(s[i])
  }

  /** The decimal text `str(i)` of an integer. */
  function DecimalText(i: int): (r: string)
    ensures |r| > 0
    decreases if i < 0 then 1 - i else i
  {
    if i < 0 then "-" + DecimalText(-i)
    else if i < 10 then [('0' as int + i) as char]
    else DecimalText(i / 10) + [('0' as int + i % 10) as char]
  }

  /** `str(v).isdigit()`. A string is its own text; an integer renders in
      decimal, with a leading '-' when negative; `True`, `None`, a float
      ("1.0"), a datetime ("2024-01-01 00:00:00"), a list or a dict always
      render with some non-digit character. */
  predicate StrIsDigit(v: Value)
  {
    match v
    case Str(s) => AllDigits(s)
    case Int(i) => AllDigits(DecimalText(i))
    case _ => false
  }

  /** Python's `str.isspace` on ASCII characters. */
  predicate IsSpace(c: char)
  {
    9 <= c as int <= 13 || 28 <= c as int <= 32
  }

  /** Stripping whitespace from both ends of `s` leaves nothing. */
  predicate Blank(s: string)
  {
    forall i :: 0 <= i < |s| ==> IsSpace(s[i])
  }

  /** `k in s` for two strings: `k` occurs as a contiguous substring of `s`. */
  predicate Occurs(k: string, s: string)
    decreases |s|
  {
    k <= s || (|s| > 0 && Occurs(k, s[1..]))
  }

  /** `k in v` for a string `k`: key membership for a dict, element
      equality for a list, substring for a string; any other value is not a
      container and the test raises TypeError. */
  function Contains(v: Value, k: string): (r: Result<bool>)
    ensures r.Err? <==> !(v.Map? || v.List? || v.Str?)
    ensures r.Err? ==> r.error == TypeError
    ensures v.Map? ==> r == Ok(k in v.m)
    ensures v.List? ==> r == Ok(Str(k) in v.items)
  {
    match v
    case Map(m) => Ok(k in m)
    case List(items) => Ok(Str(k) in items)
    case Str(s) => Ok(Occurs(k, s))
    case _ => Err(TypeError)
  }

  /** `v[k]` for a string `k`: a dict lookup, KeyError when the key is
      missing; lists and strings need integer indices and other values are
      not subscriptable, so both raise TypeError. */
  function Subscript(v: Value, k: string): (r: Result<Value>)
    ensures r.Ok? <==> v.Map? && k in v.m
    ensures r.Ok? ==> r.value == v.m[k]
    ensures r.Err? ==> r.error == (if v.Map? then KeyError else TypeError)
  {
    match v
    case Map(m) => if k in m then Ok(m[k]) else Err(KeyError)
    case _ => Err(TypeError)
  }

  /** `a < b` on Python strings: lexicographic by code point, a proper
      prefix coming first. */
  predicate StrLess(a: string, b: string)
  {
    if |a| == 0 then |b| > 0
    else if |b| == 0 then false
    else if a[0] != b[0] then a[0] < b[0]
    else StrLess(a[1..], b[1..])
  }

  /** `sep.join(parts)`. */
  function Join(parts: seq<string>, sep: string): (r: string)
    ensures |parts| == 1 ==> r == parts[0]
    ensures |parts| == 0 ==> r == ""
  {
    if |parts| == 0 then ""
    else if |parts| == 1 then parts[0]
    else parts[0] + sep + Join(parts[1..], sep)
  }

  /** The string order is strict and total: exactly one of `a < b`, `a == b`,
      `b < a` holds. */
  lemma {:induction false} StrLessTrichotomy(a: string, b: string)
    ensures StrLess(a, b) || a == b || StrLess(b, a)
    ensures !(StrLess(a, b) && StrLess(b, a))
    ensures !StrLess(a, a)
    decreases |a|
  {
    if |a| > 0 && |b| > 0 && a[0] == b[0] {
      StrLessTrichotomy(a[1..], b[1..]);
      if a[1..] == b[1..] {
        assert a == [a[0]] + a[1..] && b == [b[0]] + b[1..];
      }
    }
    if |a| > 0 {
      StrLessTrichotomy(a[1..], a[1..]);
    }
  }

  /** `str(i).isdigit()` holds exactly for the non-negative integers. */
  lemma {:induction false} IntStrIsDigit(i: int)
    ensures StrIsDigit(Int(i)) <==> i >= 0
    decreases if i < 0 then 1 - i else i
  {
    if i < 0 {
      assert DecimalText(i)[0] == '-';
    } else if i >= 10 {
      IntStrIsDigit(i / 10);
      var d := DecimalText(i / 10) + [('0' as int + i % 10) as char];
      assert DecimalText(i) == d;
      assert forall j :: 0 <= j < |d| ==> IsDigit(d[j]) by {
        forall j | 0 <= j < |d|
          ensures IsDigit(d[j])
        {
          if j < |d| - 1 {
            assert d[j] == DecimalText(i / 10)[j];
          }
        }
      }
    }
  }
}
