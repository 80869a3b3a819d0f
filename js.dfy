/**
  The slice of JavaScript value semantics the quiz core depends on: JSON values
  as the browser's parser produces them, truthiness, `a || b` chains over a list
  of property names, property reads, and `String(v)`.
  Numbers are modelled as integers (JSON fractions are not part of this model).
 */
module Js {
  import opened Wrappers

  /** A parsed JSON value, plus `Undefined`, which reading a missing property yields. */
  datatype JsValue =
    | Undefined
    | Null
    | Bool(b: bool)
    | Num(n: int)
    | Str(s: string)
    | Arr(items: seq<JsValue>)
    | Obj(fields: map<string, JsValue>)

  /** What the core's code can throw on a badly shaped value. */
  datatype Exception = TypeError

  /** ECMAScript ToBoolean on these values: `undefined`, `null`, `false`, `0` and `""` are falsy. */
  predicate Truthy(v: JsValue) {
    match v
    case Undefined => false
    case Null => false
    case Bool(b) => b
    case Num(n) => n != 0
    case Str(s) => s != ""
    case Arr(_) => true
    case Obj(_) => true
  }

  /** Reading any property of `null` or `undefined` throws a TypeError. */
  predicate Nullish(v: JsValue) {
    v.Undefined? || v.Null?
  }

  /**
    `v[key]` on a value that is not nullish, for the named (non-index) keys the
    core reads: an object's own field, the `length` of a string or an array, and
    `undefined` for everything else.
   */
  function Get(v: JsValue, key: string): (r: JsValue)
    ensures v.Obj? && key in v.fields ==> r == v.fields[key]
    ensures v.Obj? && key !in v.fields ==> r == Undefined
    ensures !v.Obj? && key != "length" ==> r == Undefined
    ensures v.Arr? && key == "length" ==> r == Num(|v.items|)
    ensures v.Str? && key == "length" ==> r == Num(|v.s|)
    ensures !v.Obj? && !v.Arr? && !v.Str? ==> r == Undefined
  {
    match v
    case Obj(fields) => if key in fields then fields[key] else Undefined
    case Arr(items) => if key == "length" then Num(|items|) else Undefined
    case Str(s) => if key == "length" then Num(|s|) else Undefined
    case _ => Undefined
  }

  /**
    `v[keys[0]] || v[keys[1]] || ... || fallback`: the value of the first key
    whose property is truthy, or `fallback` when none is.
   */
  function Pick(v: JsValue, keys: seq<string>, fallback: JsValue): (r: JsValue)
    ensures forall i :: 0 <= i < |keys| && Truthy(Get(v, keys[i])) && FalsyBefore(v, keys, i) ==> r == Get(v, keys[i])
    ensures FalsyBefore(v, keys, |keys|) ==> r == fallback
    ensures r == fallback || exists i :: 0 <= i < |keys| && r == Get(v, keys[i]) && Truthy(r)
    decreases |keys|
  {
    if keys == [] then fallback
    else if Truthy(Get(v, keys[0])) then Get(v, keys[0])
    else
      var rest := Pick(v, keys[1..], fallback);
      assert forall i :: 0 < i <= |keys| && FalsyBefore(v, keys[1..], i - 1) ==> FalsyBefore(v, keys, i);
      assert rest != fallback ==> exists i :: 0 <= i < |keys| && rest == Get(v, keys[i]) && Truthy(rest) by {
        if rest != fallback {
          var j :| 0 <= j < |keys[1..]| && rest == Get(v, keys[1..][j]) && Truthy(rest);
          assert keys[1..][j] == keys[j + 1];
        }
      }
      rest
  }

  /** None of the first `n` keys names a truthy property. */
  predicate FalsyBefore(v: JsValue, keys: seq<string>, n: nat)
    requires n <= |keys|
  {
    forall j :: 0 <= j < n ==> !Truthy(Get(v, keys[j]))
  }

  /**
    `String(v)` does not throw. An object read from JSON has no callable own
    members, so when it has an own `toString` field neither that field nor the
    inherited `valueOf` yields a primitive and the conversion throws a
    TypeError; an array converts exactly when all its elements do.
   */
  predicate Printable(v: JsValue) {
    match v
    case Obj(fields) => "toString" !in fields
    case Arr(items) => forall i :: 0 <= i < |items| ==> Printable(items[i])
    case _ => true
  }

  /**
    `String(v)`: ToString on these values. An array is its elements joined by
    commas, with `null` and `undefined` elements written as empty strings.
   */
  function ToString(v: JsValue): (r: Result<string, Exception>)
    ensures r.Ok? <==> Printable(v)
    ensures v.Undefined? ==> r == Ok("undefined")
    ensures v.Null? ==> r == Ok("null")
    ensures v.Bool? ==> r == Ok(if v.b then "true" else "false")
    ensures v.Num? ==> r == Ok(IntToString(v.n))
    ensures v.Str? ==> r == Ok(v.s)
    ensures v.Arr? && r.Ok? ==> r.value == Join(ElementStrings(v.items).value)
    ensures v.Obj? && "toString" !in v.fields ==> r == Ok("[object Object]")
    ensures r.Err? ==> r.error == TypeError
    decreases v, 1
  {
    match v
    case Undefined => Ok("undefined")
    case Null => Ok("null")
    case Bool(b) => Ok(if b then "true" else "false")
    case Num(n) => Ok(IntToString(n))
    case Str(s) => Ok(s)
    case Arr(items) =>
      (match ElementStrings(items)
       case Ok(parts) => Ok(Join(parts))
       case Err(e) => Err(e))
    case Obj(fields) => if "toString" in fields then Err(TypeError) else Ok("[object Object]")
  }

  /**
    What `join` writes for each array element: nothing for `null` and
    `undefined`, `String(item)` otherwise; the first element whose conversion
    throws makes the whole join throw.
   */
  function ElementStrings(items: seq<JsValue>): (r: Result<seq<string>, Exception>)
    ensures r.Ok? <==> forall i :: 0 <= i < |items| ==> Printable(items[i])
    ensures r.Ok? ==> |r.value| == |items|
    ensures r.Ok? ==> forall i :: 0 <= i < |items| ==>
      r.value[i] == if Nullish(items[i]) then "" else ToString(items[i]).value
    ensures r.Err? ==> r.error == TypeError
    decreases items, 0
  {
    if items == [] then Ok([])
    else
      var head := if Nullish(items[0]) then Ok("") else ToString(items[0]);
      var rest := ElementStrings(items[1..]);
      assert forall i :: 0 < i < |items| ==> items[1..][i - 1] == items[i];
      if head.Err? then Err(head.error)
      else if rest.Err? then Err(rest.error)
      else
        var r := [head.value] + rest.value;
        assert forall i :: 0 < i < |items| ==> r[i] == rest.value[i - 1];
        Ok(r)
  }

  /** `Array.prototype.join(",")` on strings: the parts in order, a comma between neighbours. */
  function Join(parts: seq<string>): (r: string)
    ensures parts == [] ==> r == ""
    ensures |parts| == 1 ==> r == parts[0]
    ensures parts != [] ==> parts[0] <= r
  {
    if |parts| == 0 then ""
    else if |parts| == 1 then parts[0]
    else parts[0] + "," + Join(parts[1..])
  }

  /** Joining from the right agrees with joining from the left: the last part follows the rest after a comma. */
  lemma {:induction false} JoinSnoc(parts: seq<string>, last: string)
    requires parts != []
    ensures Join(parts + [last]) == Join(parts) + "," + last
    decreases |parts|
  {
    var whole := parts + [last];
    if |parts| == 1 {
      assert whole[1..] == [last];
    } else {
      assert whole[1..] == parts[1..] + [last];
      JoinSnoc(parts[1..], last);
      assert Join(whole) == parts[0] + "," + Join(parts[1..] + [last]);
    }
  }

  /** The character of decimal digit `d`. */
  function DigitChar(d: nat): (c: char)
    requires d < 10
    ensures '0' <= c <= '9'
    ensures d == 0 <==> c == '0'
  {
    (('0' as int) + d) as char
  }

  /** A canonical decimal numeral: at least one digit and no leading zero. */
  predicate IsNumeral(s: string) {
    && |s| > 0
    && (forall i :: 0 <= i < |s| ==> '0' <= s[i] <= '9')
    && (|s| > 1 ==> s[0] != '0')
  }

  /** The number a string of decimal digits denotes. */
  function DecimalValue(s: string): (n: nat)
    requires forall i :: 0 <= i < |s| ==> '0' <= s[i] <= '9'
  {
    if s == [] then 0
    else DecimalValue(s[..|s| - 1]) * 10 + ((s[|s| - 1] as int) - ('0' as int))
  }

  /** The decimal numeral of a natural number, most significant digit first. */
  function Digits(n: nat): (r: string)
    ensures IsNumeral(r)
  {
    if n < 10 then [DigitChar(n)]
    else Digits(n / 10) + [DigitChar(n % 10)]
  }

  /** `Digits` writes exactly the number it is given. */
  lemma {:induction false} DigitsValue(n: nat)
    ensures DecimalValue(Digits(n)) == n
  {
    var d := Digits(n);
    if n < 10 {
      assert d[..|d| - 1] == [];
    } else {
      assert d[..|d| - 1] == Digits(n / 10);
      DigitsValue(n / 10);
    }
  }

  /** `String(n)` for an integer: a minus sign for a negative number, then the numeral of its magnitude. */
  function IntToString(n: int): (r: string)
    ensures |r| > 0
    ensures n >= 0 <==> r[0] != '-'
  {
    if n < 0 then "-" + Digits(-n) else Digits(n)
  }

  /** `IntToString` writes the canonical decimal numeral of the number, signed when it is negative. */
  lemma IntToStringValue(n: int)
    ensures n >= 0 ==> IsNumeral(IntToString(n)) && DecimalValue(IntToString(n)) == n
    ensures n < 0 ==> IsNumeral(IntToString(n)[1..]) && DecimalValue(IntToString(n)[1..]) == -n
  {
    if n < 0 {
      DigitsValue(-n);
      assert IntToString(n)[1..] == Digits(-n);
    } else {
      DigitsValue(n);
    }
  }

  /**
    `items.map(f)` with a callback that may throw (`f` also gets the index):
    the results in item order, or the exception of the first item that throws.
   */
  function MapOrThrow<A, B>(items: seq<A>, f: (nat, A) -> Result<B, Exception>): (r: Result<seq<B>, Exception>)
    ensures r.Ok? <==> forall i :: 0 <= i < |items| ==> f(i, items[i]).Ok?
    ensures r.Ok? ==> |r.value| == |items|
    ensures r.Ok? ==> forall i :: 0 <= i < |items| ==> f(i, items[i]) == Ok(r.value[i])
    ensures r.Err? ==> exists i :: 0 <= i < |items| && f(i, items[i]) == Err(r.error)
    decreases |items|
  {
    if items == [] then Ok([])
    else
      var last := |items| - 1;
      var prefix := items[..last];
      assert forall i :: 0 <= i < last ==> prefix[i] == items[i];
      match MapOrThrow(prefix, f)
      case Err(e) => Err(e)
      case Ok(done) =>
        match f(last, items[last])
        case Err(e) => Err(e)
        case Ok(b) => Ok(done + [b])
  }
}
