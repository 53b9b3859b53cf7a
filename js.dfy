/** The few pieces of JavaScript semantics the request handlers rely on:
    values as they arrive in a parsed JSON body, truthiness, conversion to
    a string (`String(v)`, template literals), `String.prototype.trim`,
    `startsWith`, the UTF-16 `length` of a string, and property access,
    which throws on `null` and `undefined`. */
module Js {

  /** A JavaScript value as produced by `JSON.parse`, plus `undefined`.
      Numbers are restricted to integers. */
  datatype JsValue =
    | Undefined
    | Null
    | Bool(b: bool)
    | Num(n: int)
    | Str(s: string)
    | Arr(items: seq<JsValue>)
    | Obj(props: map<string, JsValue>)

  /** An exception value: its `message` property ("" when it has none or it
      is falsy) and what `String(err)` gives for it. */
  datatype Thrown = Thrown(message: string, description: string)

  /** The outcome of an operation that may throw. */
  datatype Attempt<+T> = Done(value: T) | Threw(error: Thrown)

  /** JavaScript truthiness: `undefined`, `null`, `false`, `0` and `""` are
      falsy; every array and object is truthy. */
  predicate Truthy(v: JsValue) {
    match v
    case Undefined => false
    case Null => false
    case Bool(b) => b
    case Num(n) => n != 0
    case Str(s) => s != ""
    case Arr(_) => true
    case Obj(_) => true
  }

  /** A string of decimal digits. */
  predicate IsDigits(s: string) {
    forall i :: 0 <= i < |s| ==> '0' <= s[i] <= '9'
  }

  /** The number a string of decimal digits denotes, read from the left. */
  function DigitsValue(s: string): nat
    requires IsDigits(s)
  {
    if s == "" then 0
    else 10 * DigitsValue(s[..|s| - 1]) + (s[|s| - 1] as int - '0' as int)
  }

  /** A decimal numeral, with a leading "-" for a negative number. */
  predicate IsNumeral(s: string) {
    if s != "" && s[0] == '-' then |s| > 1 && IsDigits(s[1..]) else s != "" && IsDigits(s)
  }

  /** The integer a decimal numeral denotes. */
  function NumeralValue(s: string): int
    requires IsNumeral(s)
  {
    if s[0] == '-' then -(DigitsValue(s[1..]) as int) else DigitsValue(s)
  }

  /** The decimal digits of a natural number: they denote `n`, with no
      leading zero. */
  function Digits(n: nat): (r: string)
    ensures r != [] && IsDigits(r)
    ensures |r| > 1 ==> r[0] != '0'
    ensures DigitsValue(r) == n
  {
    var d := ['0' + (n % 10) as char];
    if n < 10 then d
    else
      var high := Digits(n / 10);
      assert (high + d)[..|high + d| - 1] == high;
      high + d
  }

  /** `String(n)` for an integer: the canonical numeral of `n`, read back
      as `n`. */
  function IntToString(n: int): (r: string)
    ensures IsNumeral(r) && NumeralValue(r) == n
    ensures r[0] == '-' <==> n < 0
    ensures |r| > 1 && r[0] != '-' ==> r[0] != '0'
    ensures |r| > 1 && r[0] == '-' ==> r[1] != '0'
  {
    if n < 0 then
      var digits := Digits(-n);
      assert ("-" + digits)[1..] == digits;
      "-" + digits
    else Digits(n)
  }

  /** The TypeError raised when converting an object to a string finds
      neither a callable `toString` nor a `valueOf` that gives a primitive
      (in V8's wording). */
  const ToPrimitiveError: Thrown :=
    Thrown("Cannot convert object to primitive value",
           "TypeError: Cannot convert object to primitive value")

  /** `String(v)` does not throw. A value from a parsed JSON body has no
      function in it, so an object with its own `toString` property has no
      callable `toString`, and `Object.prototype.valueOf` gives back the
      object itself: converting it throws. An array converts through
      `join`, which converts each element that is not `undefined` or
      `null`. */
  predicate Convertible(v: JsValue) {
    match v
    case Obj(props) => "toString" !in props
    case Arr(items) => forall i :: 0 <= i < |items| ==> Convertible(items[i])
    case _ => true
  }

  /** `String(v)`: what a template literal `${v}` inserts. It throws
      exactly for a value that is not `Convertible`. */
  function ToString(v: JsValue): (r: Attempt<string>)
    ensures r.Threw? <==> !Convertible(v)
    ensures r.Threw? ==> r.error == ToPrimitiveError
    ensures v.Undefined? ==> r == Done("undefined")
    ensures v.Null? ==> r == Done("null")
    ensures v.Bool? ==> r == Done(if v.b then "true" else "false")
    ensures v.Str? ==> r == Done(v.s)
    ensures v.Obj? && r.Done? ==> r.value == "[object Object]"
    ensures v.Arr? ==> r == JoinItems(v.items)
    ensures v.Num? ==> r == Done(IntToString(v.n)) && NumeralValue(r.value) == v.n
    decreases v, 1
  {
    match v
    case Undefined => Done("undefined")
    case Null => Done("null")
    case Bool(b) => Done(if b then "true" else "false")
    case Num(n) => Done(IntToString(n))
    case Str(s) => Done(s)
    case Arr(items) => JoinItems(items)
    case Obj(props) => if "toString" in props then Threw(ToPrimitiveError) else Done("[object Object]")
  }

  /** `Array.prototype.join` with the separator ",": it throws exactly
      when one of the elements cannot be converted. */
  function JoinItems(items: seq<JsValue>): (r: Attempt<string>)
    ensures r.Threw? <==> exists i :: 0 <= i < |items| && !Convertible(items[i])
    ensures r.Threw? ==> r.error == ToPrimitiveError
    decreases items, 0
  {
    if items == [] then Done("")
    else
      var head := if items[0].Undefined? || items[0].Null? then Done("") else ToString(items[0]);
      match head
      case Threw(e) => Threw(e)
      case Done(h) =>
        if |items| == 1 then Done(h)
        else
          match JoinItems(items[1..])
          case Threw(e) =>
            assert !Convertible(items[1..][FirstUnconvertible(items[1..])]);
            Threw(e)
          case Done(t) => Done(h + "," + t)
  }

  /** The position of an element that cannot be converted. */
  function FirstUnconvertible(items: seq<JsValue>): (k: nat)
    requires exists i :: 0 <= i < |items| && !Convertible(items[i])
    ensures k < |items| && !Convertible(items[k])
    ensures forall i :: 0 <= i < k ==> Convertible(items[i])
  {
    if !Convertible(items[0]) then 0
    else
      assert exists i :: 0 <= i < |items[1..]| && !Convertible(items[1..][i]) by {
        var j :| 0 <= j < |items| && !Convertible(items[j]);
        assert items[1..][j - 1] == items[j];
      }
      1 + FirstUnconvertible(items[1..])
  }

  /** The substitutions of a template literal, converted left to right;
      the first one that cannot be converted throws and stops the rest. */
  function Interpolate(vs: seq<JsValue>): (r: Attempt<seq<string>>)
    ensures r.Threw? <==> exists i :: 0 <= i < |vs| && !Convertible(vs[i])
    ensures r.Threw? ==> r.error == ToPrimitiveError
    ensures r.Done? ==> |r.value| == |vs| && forall i :: 0 <= i < |vs| ==> ToString(vs[i]) == Done(r.value[i])
  {
    if vs == [] then Done([])
    else
      match ToString(vs[0])
      case Threw(e) => Threw(e)
      case Done(s) =>
        match Interpolate(vs[1..])
        case Threw(e) =>
          assert !Convertible(vs[1..][FirstUnconvertible(vs[1..])]);
          Threw(e)
        case Done(rest) =>
          assert forall i :: 1 <= i < |vs| ==> vs[i] == vs[1..][i - 1];
          Done([s] + rest)
  }

  /** The error JavaScript raises when a property is read from `null` or
      `undefined` (in V8's wording). */
  function PropertyReadError(v: JsValue, key: string): (e: Thrown)
    requires v.Undefined? || v.Null?
    ensures e.message != ""
  {
    var message := "Cannot read properties of " + (if v.Null? then "null" else "undefined")
                   + " (reading '" + key + "')";
    Thrown(message, "TypeError: " + message)
  }

  /** `v[key]` for a key that names no property of a built-in prototype
      (the handler only reads "sha" and "commit"). Only an object has such
      a property; reading from `null` or `undefined` throws. */
  function Member(v: JsValue, key: string): (r: Attempt<JsValue>)
    ensures r.Threw? <==> (v.Undefined? || v.Null?)
    ensures r.Done? && v.Obj? && key in v.props ==> r.value == v.props[key]
    ensures r.Done? && !(v.Obj? && key in v.props) ==> r.value == Undefined
  {
    match v
    case Undefined => Threw(PropertyReadError(v, key))
    case Null => Threw(PropertyReadError(v, key))
    case Obj(props) => if key in props then Done(props[key]) else Done(Undefined)
    case _ => Done(Undefined)
  }

  /** The length of a string as JavaScript counts it, in UTF-16 code
      units: a character outside the Basic Multilingual Plane takes two. */
  function Utf16Length(s: string): (r: nat)
    ensures |s| <= r <= 2 * |s|
    ensures r == 0 <==> s == ""
  {
    if s == "" then 0
    else (if s[0] as int > 0xFFFF then 2 else 1) + Utf16Length(s[1..])
  }

  /** The length of a concatenation is the sum of the lengths; with the
      length of one character, this determines `Utf16Length` entirely. */
  lemma {:induction false} Utf16LengthConcat(a: string, b: string)
    ensures Utf16Length(a + b) == Utf16Length(a) + Utf16Length(b)
  {
    if a == "" {
      assert a + b == b;
    } else {
      assert (a + b)[1..] == a[1..] + b;
      Utf16LengthConcat(a[1..], b);
    }
  }

  /** Every character is in the Basic Multilingual Plane. */
  predicate InBmp(s: string) {
    forall i :: 0 <= i < |s| ==> s[i] as int <= 0xFFFF
  }

  /** The characters `String.prototype.trim` removes: the ECMAScript
      WhiteSpace and LineTerminator code points. */
  predicate IsJsSpace(c: char) {
    || c == '\t' || c == '\n' || c == '\U{B}' || c == '\U{C}' || c == '\r'
    || c == ' ' || c == '\U{A0}' || c == '\U{1680}'
    || ('\U{2000}' <= c <= '\U{200A}')
    || c == '\U{2028}' || c == '\U{2029}' || c == '\U{202F}' || c == '\U{205F}'
    || c == '\U{3000}' || c == '\U{FEFF}'
  }

  predicate AllSpace(s: string) {
    forall i :: 0 <= i < |s| ==> IsJsSpace(s[i])
  }

  /** Neither the first nor the last character is white space. */
  predicate Trimmed(s: string) {
    s == "" || (!IsJsSpace(s[0]) && !IsJsSpace(s[|s| - 1]))
  }

  /** `s` with its leading white space removed. */
  function TrimStart(s: string): (r: string)
    ensures |r| <= |s| && r == s[|s| - |r|..]
    ensures AllSpace(s[..|s| - |r|])
    ensures r == "" || !IsJsSpace(r[0])
  {
    if s != "" && IsJsSpace(s[0]) then TrimStart(s[1..]) else s
  }

  /** `s` with its trailing white space removed. */
  function TrimEnd(s: string): (r: string)
    ensures |r| <= |s| && r == s[..|r|]
    ensures AllSpace(s[|r|..])
    ensures r == "" || !IsJsSpace(r[|r| - 1])
  {
    if s != "" && IsJsSpace(s[|s| - 1]) then TrimEnd(s[..|s| - 1]) else s
  }

  /** `s.trim()`: white space on neither side, and empty exactly when `s`
      is nothing but white space. */
  function Trim(s: string): (r: string)
    ensures Trimmed(r)
    ensures r == "" <==> AllSpace(s)
    ensures exists i, j :: 0 <= i <= j <= |s| && r == s[i..j] && AllSpace(s[..i]) && AllSpace(s[j..])
  {
    TrimSlices(s);
    TrimIsSlice(s);
    TrimEnd(TrimStart(s))
  }

  /** What `TrimEnd(TrimStart(s))` inherits from the two halves. */
  lemma TrimSlices(s: string)
    ensures Trimmed(TrimEnd(TrimStart(s)))
    ensures TrimEnd(TrimStart(s)) == "" <==> AllSpace(s)
  {
    var t := TrimStart(s);
    var r := TrimEnd(t);
    if r != "" {
      assert r[0] == t[0];
    } else {
      assert t[0..] == t;
      assert t == "";
      assert s[..|s|] == s;
    }
  }

  /** `TrimEnd(TrimStart(s))` is a slice of `s` with only white space
      before and after it. */
  lemma TrimIsSlice(s: string)
    ensures var r := TrimEnd(TrimStart(s));
            exists i, j :: 0 <= i <= j <= |s| && r == s[i..j] && AllSpace(s[..i]) && AllSpace(s[j..])
  {
    var t := TrimStart(s);
    SliceOfSlice(s, t, TrimEnd(t));
  }

  /** A prefix `r` of a suffix `t` of `s`, each cut off at white space, is
      a slice of `s` with white space around it. */
  lemma SliceOfSlice(s: string, t: string, r: string)
    requires |t| <= |s| && t == s[|s| - |t|..] && AllSpace(s[..|s| - |t|])
    requires |r| <= |t| && r == t[..|r|] && AllSpace(t[|r|..])
    ensures exists i, j :: 0 <= i <= j <= |s| && r == s[i..j] && AllSpace(s[..i]) && AllSpace(s[j..])
  {
    var i := |s| - |t|;
    var j := i + |r|;
    assert s[i..j] == r;
    assert s[j..] == t[|r|..];
  }

  /** Trimming removes exactly the white space around a trimmed core:
      `(p + r + q).trim()` is `r`. */
  lemma {:induction false} TrimOfPadded(p: string, r: string, q: string)
    requires AllSpace(p) && AllSpace(q) && Trimmed(r)
    ensures Trim(p + r + q) == r
  {
    TrimEndOfPadded(r, q);
    if r == "" {
      assert p + r + q == p + q;
      assert AllSpace(p + q);
    } else {
      assert p + r + q == p + (r + q);
      TrimStartOfPadded(p, r + q);
    }
  }

  lemma {:induction false} TrimStartOfPadded(p: string, s: string)
    requires AllSpace(p)
    requires s != "" && !IsJsSpace(s[0])
    ensures TrimStart(p + s) == s
  {
    if p == "" {
      assert p + s == s;
    } else {
      assert (p + s)[1..] == p[1..] + s;
      TrimStartOfPadded(p[1..], s);
    }
  }

  lemma {:induction false} TrimEndOfPadded(r: string, q: string)
    requires AllSpace(q) && Trimmed(r)
    ensures r != "" ==> TrimEnd(r + q) == r
  {
    if q == "" {
      assert r + q == r;
    } else if r != "" {
      assert (r + q)[..|r + q| - 1] == r + q[..|q| - 1];
      TrimEndOfPadded(r, q[..|q| - 1]);
    }
  }

  /** Trimming twice is trimming once. */
  lemma TrimIdempotent(s: string)
    ensures Trim(Trim(s)) == Trim(s)
  {
    var t := Trim(s);
    assert "" + t + "" == t;
    TrimOfPadded("", t, "");
  }

  /** `s.startsWith(prefix)`. */
  predicate StartsWith(s: string, prefix: string) {
    |prefix| <= |s| && s[..|prefix|] == prefix
  }
}
