/**
 * The PHP values that cross the protocol: decoded JSON arrives as nested
 * associative arrays (`json_decode($json, true)`), and handlers build their
 * results the same way. `EmptyObject` is `new \stdClass()`, which the server
 * uses to send `{}` instead of `[]`.
 */
module Values {
  import opened Wrappers
  import Dict

  datatype Key = IntKey(i: int) | StrKey(s: string)

  datatype Value =
    | Null
    | Bool(b: bool)
    | Int(i: int)
    | Str(s: string)
    | Arr(entries: seq<(Key, Value)>)
    | EmptyObject

  type PhpArray = seq<(Key, Value)>

  /** `$a['k'] ?? null`: a missing key and a stored null read the same. */
  function Lookup(a: PhpArray, k: string): (r: Value)
    ensures r != Null ==> Dict.Get(a, StrKey(k)) == Some(r)
    ensures !Dict.HasKey(a, StrKey(k)) ==> r == Null
  {
    Dict.Get(a, StrKey(k)).GetOr(Null)
  }

  /** `isset($a['k'])`: present and not null. */
  predicate IsSet(a: PhpArray, k: string): (r: bool)
    ensures r <==> Dict.HasKey(a, StrKey(k)) && Dict.Get(a, StrKey(k)).value != Null
  {
    Lookup(a, k) != Null
  }

  /** `$v['k'] ?? null` on a value that may not be an array at all. */
  function Field(v: Value, k: string): (r: Value)
    ensures !v.Arr? ==> r == Null
  {
    if v.Arr? then Lookup(v.entries, k) else Null
  }

  /** `$x ?? $default` on a value already read with `?? null`. */
  function Coalesce(v: Value, default: Value): (r: Value)
    ensures v != Null ==> r == v
    ensures v == Null ==> r == default
  {
    if v == Null then default else v
  }

  /** One entry of an array literal: `[..., 'k' => $v]`. */
  function With(a: PhpArray, k: string, v: Value): (r: PhpArray)
    ensures Lookup(r, k) == v
    ensures forall k' :: k' != k ==> Lookup(r, k') == Lookup(a, k')
  {
    Dict.Put(a, StrKey(k), v)
  }

  /** `if ($v !== null) { $a['k'] = $v; }` */
  function WithOptional(a: PhpArray, k: string, v: Value): (r: PhpArray)
    ensures !Dict.HasKey(a, StrKey(k)) ==> Lookup(r, k) == v
    ensures forall k' :: k' != k ==> Lookup(r, k') == Lookup(a, k')
    ensures Dict.Keys(r) == if v == Null || Dict.HasKey(a, StrKey(k)) then Dict.Keys(a) else Dict.Keys(a) + [StrKey(k)]
  {
    if v != Null then With(a, k, v) else a
  }

  /** A PHP list `[$x0, $x1, ...]`: keys 0, 1, ... in order. */
  function ListOf(xs: seq<Value>): (r: PhpArray)
    ensures |r| == |xs|
    ensures forall i :: 0 <= i < |r| ==> r[i] == (IntKey(i), xs[i])
  {
    seq(|xs|, i requires 0 <= i < |xs| => (IntKey(i), xs[i]))
  }

  predicate IsDigitChar(c: char) {
    '0' <= c <= '9'
  }

  function DigitChar(d: nat): (c: char)
    requires d < 10
    ensures IsDigitChar(c)
  {
    ['0', '1', '2', '3', '4', '5', '6', '7', '8', '9'][d]
  }

  /** Decimal notation of a natural number, as PHP writes `(string)$n`. */
  function NatToString(n: nat): (r: string)
    ensures |r| >= 1
    ensures forall i :: 0 <= i < |r| ==> IsDigitChar(r[i])
    ensures (n < 10) <==> (|r| == 1)
    ensures |r| > 1 ==> r[0] != '0'
  {
    if n < 10 then [DigitChar(n)] else NatToString(n / 10) + [DigitChar(n % 10)]
  }

  /** Decimal notation with a leading minus sign for negative numbers. */
  function IntToString(n: int): (r: string)
    ensures |r| >= 1
    ensures n >= 0 <==> r[0] != '-'
  {
    if n >= 0 then NatToString(n) else "-" + NatToString(-n)
  }

  lemma DigitCharInjective(a: nat, b: nat)
    requires a < 10 && b < 10 && DigitChar(a) == DigitChar(b)
    ensures a == b
  {
  }

  /** Distinct numbers have distinct decimal notations. */
  lemma {:induction false} NatToStringInjective(a: nat, b: nat)
    requires NatToString(a) == NatToString(b)
    ensures a == b
  {
    var sa, sb := NatToString(a), NatToString(b);
    if a < 10 || b < 10 {
      assert |sa| == 1 && |sb| == 1;
      DigitCharInjective(a, b);
    } else {
      assert NatToString(a / 10) == sa[..|sa| - 1];
      assert NatToString(b / 10) == sb[..|sb| - 1];
      NatToStringInjective(a / 10, b / 10);
      DigitCharInjective(a % 10, b % 10);
    }
  }

  lemma IntToStringInjective(a: int, b: int)
    requires IntToString(a) == IntToString(b)
    ensures a == b
  {
    if a >= 0 {
      NatToStringInjective(a, b);
    } else {
      assert NatToString(-a) == IntToString(a)[1..];
      assert NatToString(-b) == IntToString(b)[1..];
      NatToStringInjective(-a, -b);
    }
  }

  /**
   * What a `string` parameter receives under PHP's coercive typing:
   * strings pass, integers and booleans convert, and anything else (null,
   * an array, an object) is a TypeError, here None.
   */
  function StringParam(v: Value): (r: Option<string>)
    ensures r.Some? <==> (v.Str? || v.Int? || v.Bool?)
    ensures v.Str? ==> r == Some(v.s)
  {
    match v
    case Str(s) => Some(s)
    case Int(i) => Some(IntToString(i))
    case Bool(b) => Some(if b then "1" else "")
    case _ => None
  }

  /** A `?string` parameter: null passes as null, the rest as StringParam. */
  function NullableStringParam(v: Value): (r: Option<Option<string>>)
    ensures v == Null ==> r == Some(None)
    ensures v != Null ==> (r.Some? <==> StringParam(v).Some?)
  {
    if v == Null then Some(None)
    else match StringParam(v)
      case Some(s) => Some(Some(s))
      case None => None
  }

  /** An `array` parameter: anything but an array is a TypeError. */
  function ArrayParam(v: Value): (r: Option<PhpArray>)
    ensures r.Some? <==> v.Arr?
    ensures v.Arr? ==> r == Some(v.entries)
  {
    if v.Arr? then Some(v.entries) else None
  }

  /**
   * An `int` parameter: integers pass and booleans convert. Numeric strings
   * also convert in PHP; that conversion is not modelled and reads as a TypeError.
   */
  function IntParam(v: Value): (r: Option<int>)
    ensures r.Some? <==> (v.Int? || v.Bool?)
    ensures v.Int? ==> r == Some(v.i)
  {
    match v
    case Int(i) => Some(i)
    case Bool(b) => Some(if b then 1 else 0)
    case _ => None
  }

  /** A `?int` parameter. */
  function NullableIntParam(v: Value): (r: Option<Option<int>>)
    ensures v == Null ==> r == Some(None)
    ensures v != Null ==> (r.Some? <==> IntParam(v).Some?)
  {
    if v == Null then Some(None)
    else match IntParam(v)
      case Some(i) => Some(Some(i))
      case None => None
  }

  /** `$i === null ? null : $i` for optional integer fields. */
  function OptionalInt(o: Option<int>): (r: Value)
    ensures r == Null <==> o.None?
  {
    match o
    case Some(i) => Int(i)
    case None => Null
  }

  /** `(string)$v` and string interpolation: arrays read "Array", an object is an Error. */
  function AsString(v: Value): (r: Option<string>)
    ensures r.None? <==> v.EmptyObject?
    ensures v.Str? ==> r == Some(v.s)
  {
    match v
    case Null => Some("")
    case Arr(_) => Some("Array")
    case EmptyObject => None
    case _ => StringParam(v)
  }

  /** `$v === null ? null : (string)$v` for optional string fields. */
  function OptionalString(o: Option<string>): (r: Value)
    ensures r == Null <==> o.None?
  {
    match o
    case Some(s) => Str(s)
    case None => Null
  }
}
