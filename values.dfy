/** Python values as the application meets them: rows handed back by the
    database drivers, JSON parsed from a model's reply, and the dictionaries
    built from both; together with the built-in conversions `int()`,
    `float()`, `str()`, `repr()`, truth testing and the `in` operator. */
module Values {
  import opened Wrappers
  import opened Text

  type Pos = n: int | n > 0 witness 1

  /** A Python float as an exact number: a decimal fraction `num / den`, an
      infinity, or NaN. Rounding to a binary double is not modelled. */
  datatype PyFloat = Finite(num: int, den: Pos) | Infinity(negative: bool) | NaN

  /** A float value carries `text`, the form `str()` prints for it. */
  datatype Value =
    | Null
    | Bool(b: bool)
    | Int(i: int)
    | Float(x: PyFloat, text: string)
    | Str(s: string)
    | List(items: seq<Value>)
    | Dict(entries: Record)

  /** A dictionary with string keys, in insertion order; its keys are distinct. */
  type Record = seq<(string, Value)>

  /** The exceptions the modelled code raises or catches. `RuntimeError`
      wraps the exception it was raised from; `RuntimeFailure` is one raised
      with only a message. `ForeignError` is any exception of a library or
      service outside the model. */
  datatype PyError =
    | ValueError(message: string)
    | TypeError
    | AttributeError
    | KeyError(key: string)
    | IndexError
    | OverflowError
    | FileNotFoundError
    | JsonDecodeError
    | RuntimeError(cause: PyError)
    | RuntimeFailure(text: string)
    | RequestError
    | RetryError
    | EncodeError
    | ForeignError

  // ---------------------------------------------------------------- dictionaries

  predicate HasKey(d: Record, key: string) {
    exists i :: 0 <= i < |d| && d[i].0 == key
  }

  /** `d[key]`, or None where Python raises KeyError. */
  function Lookup(d: Record, key: string): (r: Option<Value>)
    ensures r.Some? <==> HasKey(d, key)
    ensures r.Some? ==> (key, r.value) in d
  {
    if d == [] then None
    else if d[0].0 == key then Some(d[0].1)
    else
      var rest := Lookup(d[1..], key);
      assert HasKey(d, key) ==> HasKey(d[1..], key) by {
        if HasKey(d, key) {
          var i :| 0 <= i < |d| && d[i].0 == key;
          assert d[1..][i - 1].0 == key;
        }
      }
      rest
  }

  /** `d.get(key, default)`. */
  function Get(d: Record, key: string, default: Value): (r: Value)
    ensures HasKey(d, key) ==> Lookup(d, key) == Some(r)
    ensures !HasKey(d, key) ==> r == default
  {
    Lookup(d, key).GetOr(default)
  }

  /** What a Python dict guarantees: no key occurs twice. */
  predicate DistinctKeys(d: Record) {
    forall i, j :: 0 <= i < j < |d| ==> d[i].0 != d[j].0
  }

  /** In a dict with distinct keys, looking up an entry's key finds that entry. */
  lemma {:induction false} LookupEntry(d: Record, i: nat)
    requires DistinctKeys(d) && i < |d|
    ensures Lookup(d, d[i].0) == Some(d[i].1)
  {
    if i > 0 {
      assert d[0].0 != d[i].0;
      assert DistinctKeys(d[1..]) by {
        forall j, k | 0 <= j < k < |d[1..]| ensures d[1..][j].0 != d[1..][k].0 {
          assert d[1..][j] == d[j + 1] && d[1..][k] == d[k + 1];
        }
      }
      LookupEntry(d[1..], i - 1);
      assert d[1..][i - 1] == d[i];
    }
  }

  // ---------------------------------------------------------------- truth and `in`

  /** Python's truth test (`if x:`). */
  predicate Truthy(v: Value) {
    match v
    case Null => false
    case Bool(b) => b
    case Int(i) => i != 0
    case Float(x, _) => !(x.Finite? && x.num == 0)
    case Str(s) => s != []
    case List(items) => items != []
    case Dict(entries) => entries != []
  }

  /** `key in container` for a string key: a key test on a dict, an element
      test on a list, a substring test on a string, and TypeError on a
      number, a bool or None. */
  function In(key: string, container: Value): (r: Result<bool, PyError>)
    ensures container.Dict? ==> r == Ok(HasKey(container.entries, key))
    ensures container.Str? ==> r == Ok(Contains(container.s, key))
    ensures container.List? ==> r == Ok(Str(key) in container.items)
    ensures r.Err? <==> !(container.Dict? || container.List? || container.Str?)
    ensures r.Err? ==> r.error == TypeError
  {
    match container
    case Dict(entries) => Ok(HasKey(entries, key))
    case List(items) => Ok(Str(key) in items)
    case Str(s) => Ok(Contains(s, key))
    case _ => Err(TypeError)
  }

  // ---------------------------------------------------------------- str() and repr()

  /** `repr(v)`. */
  function Repr(v: Value): string
    decreases v
  {
    match v
    case Null => "None"
    case Bool(b) => if b then "True" else "False"
    case Int(i) => IntToString(i)
    case Float(_, text) => text
    case Str(s) => PyRepr(s)
    case List(items) =>
      "[" + Join(", ", seq(|items|, k requires 0 <= k < |items| => Repr(items[k]))) + "]"
    case Dict(entries) =>
      "{" + Join(", ", seq(|entries|, k requires 0 <= k < |entries| =>
                         assert entries[k] in entries;
                         PyRepr(entries[k].0) + ": " + Repr(entries[k].1))) + "}"
  }

  /** `str(v)`, which is also what an f-string placeholder `{v}` prints. */
  function Render(v: Value): (r: string)
    ensures v.Str? ==> r == v.s
    ensures !v.Str? ==> r == Repr(v)
  {
    if v.Str? then v.s else Repr(v)
  }

  // ---------------------------------------------------------------- int()

  /** Division truncated toward zero, as `int()` applies it to a float. */
  function TruncDiv(n: int, d: Pos): (q: int)
    ensures n >= 0 ==> 0 <= n - q * d < d
    ensures n < 0 ==> 0 <= q * d - n < d
  {
    if n >= 0 then n / d else -((-n) / d)
  }

  /** The optional sign at the front of a numeric literal. */
  function SplitSign(t: string): (r: (bool, string))
    ensures |r.1| <= |t|
  {
    if t != [] && (t[0] == '-' || t[0] == '+') then (t[0] == '-', t[1..]) else (false, t)
  }

  /** A base-10 integer literal as `int()` reads it once surrounding
      whitespace is gone: an optional sign, then one or more digits. */
  function ParseIntLiteral(t: string): (r: Option<int>)
    ensures r.Some? ==> t != []
  {
    var (negative, digits) := SplitSign(t);
    if digits != [] && AllDigits(digits) then
      var n: int := DigitsValue(digits);
      Some(if negative then -n else n)
    else None
  }

  /** `int(str(i))` gives back `i`. */
  lemma {:induction false} IntLiteralRoundTrip(i: int)
    ensures ParseIntLiteral(IntToString(i)) == Some(i)
  {
    var t := IntToString(i);
    var digits := NatToString(if i < 0 then -i else i);
    NatToStringRoundTrip(if i < 0 then -i else i);
    if i < 0 {
      assert t == "-" + digits;
      assert t[1..] == digits;
      assert SplitSign(t) == (true, digits);
    } else {
      assert t == digits;
      assert IsDigit(t[0]);
      assert SplitSign(t) == (false, digits);
    }
  }

  /** `int(v)`. */
  function IntOf(v: Value): (r: Result<int, PyError>)
    ensures v.Int? ==> r == Ok(v.i)
    ensures v.Bool? ==> r == Ok(if v.b then 1 else 0)
    ensures v.Null? || v.List? || v.Dict? ==> r == Err(TypeError)
    ensures v.Float? && v.x.Finite? ==> r.Ok? && TruncDiv(v.x.num, v.x.den) == r.value
    ensures v.Float? && v.x.Infinity? ==> r == Err(OverflowError)
    ensures v.Float? && v.x.NaN? ==> r.Err? && r.error.ValueError?
    ensures v.Str? ==> (r.Ok? <==> ParseIntLiteral(Strip(v.s)).Some?)
    ensures v.Str? && r.Ok? ==> r.value == ParseIntLiteral(Strip(v.s)).value
    ensures v.Str? && r.Err? ==> r.error.ValueError?
  {
    match v
    case Null => Err(TypeError)
    case Bool(b) => Ok(if b then 1 else 0)
    case Int(i) => Ok(i)
    case Float(x, _) =>
      (match x
       case Finite(num, den) => Ok(TruncDiv(num, den))
       case Infinity(_) => Err(OverflowError)
       case NaN => Err(ValueError("cannot convert float NaN to integer")))
    case Str(s) =>
      (match ParseIntLiteral(Strip(s))
       case Some(n) => Ok(n)
       case None => Err(ValueError("invalid literal for int() with base 10: " + PyRepr(s))))
    case List(_) => Err(TypeError)
    case Dict(_) => Err(TypeError)
  }

  // ---------------------------------------------------------------- float()

  function LowerAscii(s: string): (r: string)
    ensures |r| == |s|
  {
    if s == [] then ""
    else [if 'A' <= s[0] <= 'Z' then ((s[0] as int) + 32) as char else s[0]] + LowerAscii(s[1..])
  }

  /** Index of the first exponent marker `e` or `E`, if any. */
  function ExponentAt(t: string): (r: Option<nat>)
    ensures r.Some? ==> r.value < |t| && (t[r.value] == 'e' || t[r.value] == 'E')
    ensures r.Some? ==> forall k :: 0 <= k < r.value ==> t[k] != 'e' && t[k] != 'E'
    ensures r.None? ==> forall k :: 0 <= k < |t| ==> t[k] != 'e' && t[k] != 'E'
  {
    if t == [] then None
    else if t[0] == 'e' || t[0] == 'E' then Some(0)
    else match ExponentAt(t[1..])
         case Some(k) => Some(k + 1)
         case None => None
  }

  /** Index of the first `.`, if any. */
  function PointAt(t: string): (r: Option<nat>)
    ensures r.Some? ==> r.value < |t| && t[r.value] == '.'
    ensures r.None? ==> '.' !in t
  {
    if t == [] then None
    else if t[0] == '.' then Some(0)
    else match PointAt(t[1..])
         case Some(k) => Some(k + 1)
         case None => None
  }

  /** A decimal mantissa `digits[.digits]` or `.digits`: its digits as one
      number and how many of them follow the point. */
  function ParseMantissa(t: string): (r: Option<(nat, nat)>)
  {
    match PointAt(t)
    case None =>
      if t != [] && AllDigits(t) then Some((DigitsValue(t), 0)) else None
    case Some(p) =>
      var whole, frac := t[..p], t[p + 1..];
      if (whole != [] || frac != []) && AllDigits(whole) && AllDigits(frac)
      then Some((DigitsValue(whole + frac), |frac|))
      else None
  }

  /** A float literal as `float()` reads it once surrounding whitespace is
      gone: an optional sign, then `inf`, `infinity` or `nan` in any case, or a
      decimal mantissa with an optional exponent. */
  function ParseFloatLiteral(t: string): (r: Option<PyFloat>)
  {
    var (negative, body) := SplitSign(t);
    var lower := LowerAscii(body);
    if lower == "inf" || lower == "infinity" then Some(Infinity(negative))
    else if lower == "nan" then Some(NaN)
    else
      var (mant, exponent) :=
        match ExponentAt(body)
        case None => (body, Some(0))
        case Some(e) => (body[..e], ParseIntLiteral(body[e + 1..]));
      match (ParseMantissa(mant), exponent)
      case (Some((digits, scale)), Some(ex)) =>
        var n: int := if negative then -(digits as int) else digits;
        var shift := ex - scale;
        Some(if shift >= 0 then Finite(n * Pow10(shift), 1) else Finite(n, Pow10(-shift)))
      case _ => None
  }

  /** `float(v)`. */
  function FloatOf(v: Value): (r: Result<PyFloat, PyError>)
    ensures v.Int? ==> r == Ok(Finite(v.i, 1))
    ensures v.Float? ==> r == Ok(v.x)
    ensures v.Bool? ==> r == Ok(Finite(if v.b then 1 else 0, 1))
    ensures v.Null? || v.List? || v.Dict? ==> r == Err(TypeError)
    ensures v.Str? ==> (r.Ok? <==> ParseFloatLiteral(Strip(v.s)).Some?)
  {
    match v
    case Null => Err(TypeError)
    case Bool(b) => Ok(Finite(if b then 1 else 0, 1))
    case Int(i) => Ok(Finite(i, 1))
    case Float(x, _) => Ok(x)
    case Str(s) =>
      (match ParseFloatLiteral(Strip(s))
       case Some(x) => Ok(x)
       case None => Err(ValueError("could not convert string to float: " + PyRepr(s))))
    case List(_) => Err(TypeError)
    case Dict(_) => Err(TypeError)
  }

  /** `float(str(i))` is the integer `i` again. */
  lemma FloatLiteralOfInt(i: int)
    ensures ParseFloatLiteral(IntToString(i)) == Some(Finite(i, 1))
  {
    var t := IntToString(i);
    var (negative, body) := SplitSign(t);
    var digits := NatToString(if i < 0 then -i else i);
    assert body == digits by {
      if i < 0 { assert t[1..] == digits; }
    }
    NatToStringRoundTrip(if i < 0 then -i else i);
    PlainDigits(body);
  }

  /** A plain run of digits is neither `inf` nor `nan`, has no exponent and
      no point, and reads as its decimal value. */
  lemma PlainDigits(body: string)
    requires body != [] && AllDigits(body)
    ensures LowerAscii(body) != "inf" && LowerAscii(body) != "infinity" && LowerAscii(body) != "nan"
    ensures ExponentAt(body) == None && PointAt(body) == None
    ensures ParseMantissa(body) == Some((DigitsValue(body), 0))
  {
    assert LowerAscii(body)[0] == body[0];
  }

  /** Python's `>= 0` on a float, as a `ge=0` field constraint checks it; NaN fails it. */
  predicate NonNegative(x: PyFloat) {
    match x
    case Finite(num, _) => num >= 0
    case Infinity(negative) => !negative
    case NaN => false
  }
}
