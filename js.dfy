/** JavaScript values and the handful of built-in operations the core relies on:
    truthiness, property access, `Array.prototype.slice` with one argument,
    `String.prototype.split` on one character, `String.prototype.trim`,
    `Array.prototype.join` and decimal rendering of a count. */
module Js {

  datatype Option<+T> = None | Some(value: T)

  datatype Result<+T, +E> = Ok(value: T) | Err(error: E)

  /** A thrown JavaScript error, seen through its `name` and `message`. */
  datatype Error = Error(name: string, message: string)

  /** `new Error(message)`: the name of a plain error is "Error". */
  function PlainError(message: string): Error {
    Error("Error", message)
  }

  /** A JSON-like JavaScript value. Objects keep their own properties in
      insertion order, which is the order `Object.entries` reports for
      non-numeric keys. */
  datatype JsValue =
    | Undefined
    | Null
    | Bool(b: bool)
    | Num(n: real)
    | Str(s: string)
    | Arr(items: seq<JsValue>)
    | Obj(props: seq<(string, JsValue)>)

  /** `JSON.parse`: the decoded value, or the message of the SyntaxError it
      throws. */
  type Decoder = string -> Result<JsValue, string>

  /** An object's own properties, in insertion order. */
  type Record = seq<(string, JsValue)>

  /** JavaScript truthiness; `NaN` does not arise from JSON and is not modelled. */
  predicate Truthy(v: JsValue) {
    match v
    case Undefined => false
    case Null => false
    case Bool(b) => b
    case Num(n) => n != 0.0
    case Str(s) => s != ""
    case _ => true
  }

  /** `a || b` */
  function Or(a: JsValue, b: JsValue): JsValue {
    if Truthy(a) then a else b
  }

  predicate Nullish(v: JsValue) {
    v == Undefined || v == Null
  }

  /** The value of property `key` in a property list; `undefined` when absent. */
  function PropOf(props: Record, key: string): JsValue {
    if |props| == 0 then Undefined
    else if props[0].0 == key then props[0].1
    else PropOf(props[1..], key)
  }

  /** Reading `v.key` on a value that is not `null` or `undefined`. The data
      fields read by the core are not properties of strings, numbers,
      booleans or arrays, so on those the read yields `undefined`. */
  function Prop(v: JsValue, key: string): JsValue {
    if v.Obj? then PropOf(v.props, key) else Undefined
  }

  /** `v.key`, which throws a TypeError on `null` and `undefined`. */
  function Get(v: JsValue, key: string): (r: Result<JsValue, Error>)
    ensures r.Err? <==> Nullish(v)
    ensures r.Ok? ==> r.value == Prop(v, key)
    ensures r.Err? ==> r.error.name == "TypeError"
  {
    match v
    case Undefined => Err(Error("TypeError", "Cannot read properties of undefined (reading '" + key + "')"))
    case Null => Err(Error("TypeError", "Cannot read properties of null (reading '" + key + "')"))
    case _ => Ok(Prop(v, key))
  }

  /** `typeof v` */
  function TypeOf(v: JsValue): string {
    match v
    case Undefined => "undefined"
    case Bool(_) => "boolean"
    case Num(_) => "number"
    case Str(_) => "string"
    case _ => "object"
  }

  function Keys(props: Record): set<string> {
    if |props| == 0 then {} else {props[0].0} + Keys(props[1..])
  }

  /** The one key whose assignment on a plain object creates no own
      property: it sets the prototype (to an object or `null`) or is
      ignored (for any other value). */
  const ProtoKey := "__proto__"

  /** `obj[key] = v` on a plain object's own properties (SetPropSpec says
      what it does). */
  function SetProp(props: Record, key: string, v: JsValue): Record {
    if key == ProtoKey then props
    else if |props| == 0 then [(key, v)]
    else if props[0].0 == key then [(key, v)] + props[1..]
    else [props[0]] + SetProp(props[1..], key, v)
  }

  /** `obj[key] = v`: an existing property keeps its position and takes the
      new value; a new property goes to the end; every other property keeps
      its value. Assigning `__proto__` leaves the own properties as they
      are. */
  lemma {:induction false} SetPropSpec(props: Record, key: string, v: JsValue)
    ensures key == ProtoKey ==> SetProp(props, key, v) == props
    ensures key != ProtoKey ==>
            var r := SetProp(props, key, v);
            && Keys(r) == Keys(props) + {key}
            && |r| == (if key in Keys(props) then |props| else |props| + 1)
            && (forall i :: 0 <= i < |props| ==> r[i].0 == props[i].0)
            && PropOf(r, key) == v
            && (forall k :: k != key ==> PropOf(r, k) == PropOf(props, k))
            && (key !in Keys(props) ==> r == props + [(key, v)])
  {
    if key != ProtoKey && |props| > 0 && props[0].0 != key {
      SetPropSpec(props[1..], key, v);
      var r := SetProp(props, key, v);
      assert r[1..] == SetProp(props[1..], key, v);
    }
  }

  /** A key the object does not have reads as `undefined`. */
  lemma {:induction false} MissingPropUndefined(props: Record, key: string)
    requires key !in Keys(props)
    ensures PropOf(props, key) == Undefined
  {
    if |props| > 0 {
      MissingPropUndefined(props[1..], key);
    }
  }

  function Min(a: int, b: int): int {
    if a <= b then a else b
  }

  /** `s.slice(start)`: a negative start counts back from the end and is
      clamped to 0; a start past the end gives the empty sequence. */
  function SliceFrom<T>(s: seq<T>, start: int): (r: seq<T>)
    ensures |r| <= |s| && r == s[|s| - |r|..]
    ensures start < 0 ==> |r| == Min(-start, |s|)
    ensures start >= 0 ==> |r| == |s| - Min(start, |s|)
  {
    var from := if start < 0 then (if |s| + start < 0 then 0 else |s| + start)
                else Min(start, |s|);
    s[from..]
  }

  /** The characters JavaScript's `trim` strips and `\s` matches. */
  predicate IsSpace(c: char) {
    c == '\t' || c == '\n' || c == '\U{000B}' || c == '\U{000C}' || c == '\r' || c == ' '
    || c == '\U{00A0}' || c == '\U{1680}' || ('\U{2000}' <= c <= '\U{200A}')
    || c == '\U{2028}' || c == '\U{2029}' || c == '\U{202F}' || c == '\U{205F}'
    || c == '\U{3000}' || c == '\U{FEFF}'
  }

  function TrimStart(s: string): string {
    if |s| > 0 && IsSpace(s[0]) then TrimStart(s[1..]) else s
  }

  function TrimEnd(s: string): string {
    if |s| > 0 && IsSpace(s[|s| - 1]) then TrimEnd(s[..|s| - 1]) else s
  }

  /** `s.trim()`: leading and trailing whitespace removed (TrimSpec says
      what is left). */
  function Trim(s: string): string {
    TrimStart(TrimEnd(s))
  }

  /** `trimStart` leaves the suffix that starts at the first non-space. */
  lemma {:induction false} TrimStartSpec(s: string)
    ensures var r := TrimStart(s);
            && |r| <= |s| && r == s[|s| - |r|..]
            && (forall i :: 0 <= i < |s| - |r| ==> IsSpace(s[i]))
            && (r == [] || !IsSpace(r[0]))
  {
    if |s| > 0 && IsSpace(s[0]) {
      TrimStartSpec(s[1..]);
    }
  }

  /** `trimEnd` leaves the prefix that ends at the last non-space. */
  lemma {:induction false} TrimEndSpec(s: string)
    ensures var r := TrimEnd(s);
            && |r| <= |s| && r == s[..|r|]
            && (forall i :: |r| <= i < |s| ==> IsSpace(s[i]))
            && (r == [] || !IsSpace(r[|r| - 1]))
  {
    if |s| > 0 && IsSpace(s[|s| - 1]) {
      TrimEndSpec(s[..|s| - 1]);
    }
  }

  /** `r` sits in `s` at offset `i` with nothing but whitespace around it. */
  predicate SpaceAround(s: string, r: string, i: int) {
    && 0 <= i <= |s| - |r| && r == s[i..i + |r|]
    && (forall k :: 0 <= k < i ==> IsSpace(s[k]))
    && (forall k :: i + |r| <= k < |s| ==> IsSpace(s[k]))
  }

  /** `trim` leaves an infix of the text that neither starts nor ends with
      whitespace, and leaves nothing exactly when the text is all
      whitespace. */
  lemma TrimSpec(s: string)
    ensures var r := Trim(s);
            && |r| <= |s|
            && (r == [] || (!IsSpace(r[0]) && !IsSpace(r[|r| - 1])))
            && (r == [] <==> forall k :: 0 <= k < |s| ==> IsSpace(s[k]))
            && exists i :: SpaceAround(s, r, i)
  {
    var t := TrimEnd(s);
    var r := TrimStart(t);
    TrimEndSpec(s);
    TrimStartSpec(t);
    var i := |t| - |r|;
    assert r == s[i..i + |r|];
    assert forall k :: 0 <= k < i ==> s[k] == t[k];
    assert i + |r| == |t|;
    assert SpaceAround(s, r, i);
    if r != [] {
      assert r[|r| - 1] == t[|t| - 1];
    }
    if r == [] {
      assert t == [];
    }
  }

  /** `s.split(sep)` for a one-character separator. */
  function Split(s: string, sep: char): (parts: seq<string>)
    ensures |parts| >= 1
  {
    if |s| == 0 then [""]
    else if s[0] == sep then [""] + Split(s[1..], sep)
    else
      var rest := Split(s[1..], sep);
      [[s[0]] + rest[0]] + rest[1..]
  }

  /** No part contains the separator. */
  lemma {:induction false} SplitSeparatorFree(s: string, sep: char)
    ensures forall i :: 0 <= i < |Split(s, sep)| ==> sep !in Split(s, sep)[i]
  {
    if |s| > 0 {
      SplitSeparatorFree(s[1..], sep);
    }
  }

  /** `parts.join(sep)` */
  function Join(parts: seq<string>, sep: string): string {
    if |parts| == 0 then ""
    else if |parts| == 1 then parts[0]
    else parts[0] + sep + Join(parts[1..], sep)
  }

  /** Splitting on a character and joining with that character gives the
      text back: no character of the input is lost or reordered. */
  lemma {:induction false} SplitJoin(s: string, sep: char)
    ensures Join(Split(s, sep), [sep]) == s
  {
    if |s| == 0 {
    } else if s[0] == sep {
      SplitJoin(s[1..], sep);
      var rest := Split(s[1..], sep);
      assert Split(s, sep) == [""] + rest;
      assert ([""] + rest)[1..] == rest;
    } else {
      SplitJoin(s[1..], sep);
      var rest := Split(s[1..], sep);
      var parts := [[s[0]] + rest[0]] + rest[1..];
      assert Split(s, sep) == parts;
      if |rest| == 1 {
        assert rest[0] == s[1..];
      } else {
        assert parts[1..] == rest[1..];
        assert Join(rest, [sep]) == rest[0] + [sep] + Join(rest[1..], [sep]);
      }
    }
  }

  /** A part free of the separator splits to itself. */
  lemma {:induction false} SplitFree(a: string, sep: char)
    requires sep !in a
    ensures Split(a, sep) == [a]
  {
    if |a| > 0 {
      SplitFree(a[1..], sep);
      assert [a[0]] + a[1..] == a;
    }
  }

  /** A separator-free part followed by the separator splits off as the
      first part. */
  lemma {:induction false} SplitAfterPart(a: string, sep: char, rest: string)
    requires sep !in a
    ensures Split(a + [sep] + rest, sep) == [a] + Split(rest, sep)
  {
    var s := a + [sep] + rest;
    if |a| == 0 {
      assert s[0] == sep && s[1..] == rest;
    } else {
      assert s[0] == a[0] && s[1..] == a[1..] + [sep] + rest;
      SplitAfterPart(a[1..], sep, rest);
      assert [a[0]] + a[1..] == a;
    }
  }

  /** Joining separator-free parts and splitting the text again gives the
      parts back. */
  lemma {:induction false} SplitOfJoin(parts: seq<string>, sep: char)
    requires |parts| >= 1
    requires forall i :: 0 <= i < |parts| ==> sep !in parts[i]
    ensures Split(Join(parts, [sep]), sep) == parts
  {
    if |parts| == 1 {
      SplitFree(parts[0], sep);
    } else {
      SplitOfJoin(parts[1..], sep);
      SplitAfterPart(parts[0], sep, Join(parts[1..], [sep]));
      assert parts[0] + [sep] + Join(parts[1..], [sep]) == Join(parts, [sep]);
      assert [parts[0]] + parts[1..] == parts;
    }
  }

  const ObjectText := "[object Object]"

  /** `String(v)`: the text JavaScript makes of a value. A number is
      rendered by `numeral`; an array joins the texts of its elements with
      "," (an undefined or null element gives ""); any object gives
      "[object Object]". */
  function ToText(v: JsValue, numeral: real -> string): (t: string)
    ensures v.Str? ==> t == v.s
    ensures v.Obj? ==> t == ObjectText
    ensures v == Arr([]) ==> t == ""
    ensures v.Bool? ==> t == (if v.b then "true" else "false")
  {
    match v
    case Undefined => "undefined"
    case Null => "null"
    case Bool(b) => if b then "true" else "false"
    case Num(x) => numeral(x)
    case Str(s) => s
    case Arr(items) =>
      Join(seq(|items|, i requires 0 <= i < |items| =>
                 if items[i].Undefined? || items[i].Null? then "" else ToText(items[i], numeral)), ",")
    case Obj(_) => ObjectText
  }

  /** An array of comma-free strings renders as a text that splits on ","
      back into those strings. */
  lemma ArrayTextSplits(items: seq<JsValue>, numeral: real -> string)
    requires |items| >= 1
    requires forall i :: 0 <= i < |items| ==> items[i].Str? && ',' !in items[i].s
    ensures var parts := Split(ToText(Arr(items), numeral), ',');
            |parts| == |items| && forall i :: 0 <= i < |items| ==> parts[i] == items[i].s
  {
    var texts := seq(|items|, i requires 0 <= i < |items| =>
                       if items[i].Undefined? || items[i].Null? then "" else ToText(items[i], numeral));
    assert ToText(Arr(items), numeral) == Join(texts, [',']);
    SplitOfJoin(texts, ',');
  }

  function DigitChar(d: nat): char
    requires d < 10
  {
    ('0' as int + d) as char
  }

  /** Decimal text of a count, as JavaScript's template literals render it. */
  function NatToString(n: nat): (s: string)
    ensures |s| >= 1
    ensures forall i :: 0 <= i < |s| ==> '0' <= s[i] <= '9'
    ensures |s| > 1 ==> s[0] != '0'
  {
    if n < 10 then [DigitChar(n)] else NatToString(n / 10) + [DigitChar(n % 10)]
  }

  /** The number a string of decimal digits denotes. */
  function DecimalValue(s: string): nat
    requires forall i :: 0 <= i < |s| ==> '0' <= s[i] <= '9'
  {
    if |s| == 0 then 0
    else 10 * DecimalValue(s[..|s| - 1]) + (s[|s| - 1] as int - '0' as int)
  }

  /** Rendering a count and reading its digits back gives the count. */
  lemma {:induction false} NatToStringRoundTrip(n: nat)
    ensures DecimalValue(NatToString(n)) == n
  {
    if n >= 10 {
      NatToStringRoundTrip(n / 10);
      var s := NatToString(n);
      assert s[..|s| - 1] == NatToString(n / 10);
    }
  }

  /** Distinct counts render as distinct texts. */
  lemma NatToStringInjective(m: nat, n: nat)
    requires NatToString(m) == NatToString(n)
    ensures m == n
  {
    NatToStringRoundTrip(m);
    NatToStringRoundTrip(n);
  }
}
