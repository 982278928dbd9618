/**
 * The JavaScript values a parsed JSON reply can hold, and the handful of
 * language operations the front end applies to them: truthiness, `String(v)`,
 * `a || b`, `v.key`, `v[0]`, `Object.keys`, `Object.values`, and the message of
 * `new Error(v)`.  Numbers are integers here.
 */
module JsValues {
  import opened Wrappers
  import opened Text

  datatype JsValue =
    | Undefined
    | Null
    | Bool(b: bool)
    | Num(n: int)
    | Str(s: string)
    | Arr(items: seq<JsValue>)
    | Obj(entries: seq<(string, JsValue)>)  // own properties in enumeration order

  /** How `if (v)` and `v || w` judge a value. */
  predicate Truthy(v: JsValue) {
    match v
    case Undefined => false
    case Null => false
    case Bool(b) => b
    case Num(n) => n != 0
    case Str(s) => s != ""
    case Arr(_) => true
    case Obj(_) => true
  }

  /** `String(v)`, which is also what a template literal `${v}` and `localStorage.setItem` produce. */
  function ToStr(v: JsValue): string
    decreases v, 1
  {
    match v
    case Undefined => "undefined"
    case Null => "null"
    case Bool(b) => if b then "true" else "false"
    case Num(n) => IntToDecimal(n)
    case Str(s) => s
    case Arr(items) => JoinElements(items, ",", v)
    case Obj(_) => "[object Object]"
  }

  /** `items.join(sep)`: `null` and `undefined` elements render as empty. */
  function JoinElements(items: seq<JsValue>, sep: string, ghost whole: JsValue): string
    requires forall i :: 0 <= i < |items| ==> items[i] < whole
    decreases whole, 0, |items|
  {
    if items == [] then ""
    else
      var head := if items[0].Undefined? || items[0].Null? then "" else ToStr(items[0]);
      if |items| == 1 then head else head + sep + JoinElements(items[1..], sep, whole)
  }

  /** `items.join(sep)` on an array value. */
  function ArrayJoin(items: seq<JsValue>, sep: string): string {
    JoinElements(items, sep, Arr(items))
  }

  /** `a || b`. */
  function Or(a: JsValue, b: JsValue): (r: JsValue)
    ensures Truthy(a) ==> r == a
    ensures !Truthy(a) ==> r == b
  {
    if Truthy(a) then a else b
  }

  /** The text of `v || fallback`: what `new Error(v || fallback).message` and `setMessage(v || fallback)` show. */
  function OrText(v: JsValue, fallback: string): (r: string)
    ensures Truthy(v) ==> r == ToStr(v)
    ensures !Truthy(v) ==> r == fallback
  {
    ToStr(Or(v, Str(fallback)))
  }

  /** `new Error(v).message`: an undefined argument gives the empty message. */
  function ErrorMessage(v: JsValue): (r: string)
    ensures v.Undefined? ==> r == ""
    ensures !v.Undefined? ==> r == ToStr(v)
  {
    if v.Undefined? then "" else ToStr(v)
  }

  /** The value stored under `key` in an entry list, or `undefined`. */
  function Lookup(entries: seq<(string, JsValue)>, key: string): (r: JsValue)
    ensures r != Undefined ==> exists i :: 0 <= i < |entries| && entries[i] == (key, r)
    ensures (forall i :: 0 <= i < |entries| ==> entries[i].0 != key) ==> r == Undefined
  {
    if entries == [] then Undefined
    else if entries[0].0 == key then entries[0].1
    else Lookup(entries[1..], key)
  }

  /** A lookup finds the first entry carrying the key. */
  lemma {:induction false} LookupFirstMatch(entries: seq<(string, JsValue)>, key: string, i: nat)
    requires i < |entries| && entries[i].0 == key
    requires forall j :: 0 <= j < i ==> entries[j].0 != key
    ensures Lookup(entries, key) == entries[i].1
  {
    if i > 0 {
      LookupFirstMatch(entries[1..], key, i - 1);
    }
  }

  /** `v.key` (and `v?.key`): properties of an object, `undefined` for anything else. */
  function Prop(v: JsValue, key: string): JsValue {
    match v
    case Obj(entries) => Lookup(entries, key)
    case _ => Undefined
  }

  /** `v[0]`: first element of an array, first character of a string. */
  function First(v: JsValue): (r: JsValue)
    ensures v.Arr? && v.items != [] ==> r == v.items[0]
    ensures v.Str? && v.s != [] ==> r == Str([v.s[0]])
    ensures (v.Arr? && v.items == []) || (v.Str? && v.s == []) ==> r == Undefined
  {
    match v
    case Arr(items) => if items == [] then Undefined else items[0]
    case Str(s) => if s == [] then Undefined else Str([s[0]])
    case Obj(entries) => Lookup(entries, "0")
    case _ => Undefined
  }

  /** Elements paired with their indices (as decimal strings), counting from `start`. */
  function Indexed(items: seq<JsValue>, start: nat): (es: seq<(string, JsValue)>)
    ensures |es| == |items|
    ensures forall i :: 0 <= i < |es| ==> es[i] == (IntToDecimal(start + i), items[i])
  {
    if items == [] then [] else [(IntToDecimal(start), items[0])] + Indexed(items[1..], start + 1)
  }

  /** The characters of a string as one-character string values. */
  function Chars(s: string): (cs: seq<JsValue>)
    ensures |cs| == |s| && forall i :: 0 <= i < |s| ==> cs[i] == Str([s[i]])
  {
    if s == [] then [] else [Str([s[0]])] + Chars(s[1..])
  }

  /**
   * `Object.entries(v)`: an object's own entries; an array's or a string's indices
   * (as decimal strings) with their elements; nothing for any other value.
   */
  function Entries(v: JsValue): (es: seq<(string, JsValue)>)
    requires !v.Null? && !v.Undefined?
    ensures v.Obj? ==> es == v.entries
    ensures v.Arr? ==> |es| == |v.items| && forall i :: 0 <= i < |es| ==> es[i] == (IntToDecimal(i), v.items[i])
    ensures v.Str? ==> |es| == |v.s| && forall i :: 0 <= i < |es| ==> es[i] == (IntToDecimal(i), Str([v.s[i]]))
    ensures v.Bool? || v.Num? ==> es == []
  {
    match v
    case Obj(entries) => entries
    case Arr(items) => Indexed(items, 0)
    case Str(s) => Indexed(Chars(s), 0)
    case _ => []
  }

  function EntryKeys(es: seq<(string, JsValue)>): (ks: seq<string>)
    ensures |ks| == |es| && forall i :: 0 <= i < |ks| ==> ks[i] == es[i].0
  {
    if es == [] then [] else [es[0].0] + EntryKeys(es[1..])
  }

  function EntryValues(es: seq<(string, JsValue)>): (vs: seq<JsValue>)
    ensures |vs| == |es| && forall i :: 0 <= i < |vs| ==> vs[i] == es[i].1
  {
    if es == [] then [] else [es[0].1] + EntryValues(es[1..])
  }

  /** `Object.keys(v)`. */
  function Keys(v: JsValue): (ks: seq<string>)
    requires !v.Null? && !v.Undefined?
    ensures |ks| == |Entries(v)| && forall i :: 0 <= i < |ks| ==> ks[i] == Entries(v)[i].0
  {
    EntryKeys(Entries(v))
  }

  /** `Object.values(v)`. */
  function Values(v: JsValue): (vs: seq<JsValue>)
    requires !v.Null? && !v.Undefined?
    ensures |vs| == |Entries(v)| && forall i :: 0 <= i < |vs| ==> vs[i] == Entries(v)[i].1
  {
    EntryValues(Entries(v))
  }

  /** Whether reading a property of `v` succeeds: only `null` and `undefined` throw a TypeError. */
  predicate HasProperties(v: JsValue) { !v.Null? && !v.Undefined? }

  /** The message of the TypeError that reading `v.key` raises when `v` is `null` or `undefined` (V8's wording). */
  function PropertyReadMessage(v: JsValue, key: string): (m: string)
    requires !HasProperties(v)
    ensures Contains(m, key)
  {
    var prefix := "Cannot read properties of " + ToStr(v) + " (reading '";
    ContainsAt(prefix + key + "')", key, |prefix|);
    prefix + key + "')"
  }

  /** The body of a reply as `response.json()` resolves it, or the message it rejects with. */
  datatype Parsed = Json(value: JsValue) | NotJson(message: string)

  /**
   * `Number(s)` for the strings this model reads as integers: surrounding
   * whitespace, then nothing (zero) or an optional sign and decimal digits.
   * `None` stands for `NaN`.
   */
  function StringToNumber(s: string): (r: Option<int>)
    ensures AllDigits(Trim(s)) ==> r.Some?
  {
    var t := Trim(s);
    if t == "" then Some(0)
    else if t[0] == '-' && |t| > 1 && AllDigits(t[1..]) then Some(-(DecimalValue(t[1..]) as int))
    else if t[0] == '+' && |t| > 1 && AllDigits(t[1..]) then Some(DecimalValue(t[1..]))
    else if AllDigits(t) then Some(DecimalValue(t))
    else None
  }

  /** `Number(v)`: `null` is 0, booleans 0 and 1, arrays go through their string form, objects and `undefined` are `NaN`. */
  function ToNumber(v: JsValue): (r: Option<int>)
    ensures v.Num? ==> r == Some(v.n)
    ensures v.Undefined? || v.Obj? ==> r.None?
  {
    match v
    case Undefined => None
    case Null => Some(0)
    case Bool(b) => Some(if b then 1 else 0)
    case Num(n) => Some(n)
    case Str(s) => StringToNumber(s)
    case Arr(_) => StringToNumber(ToStr(v))
    case Obj(_) => None
  }

  /** A string without surrounding whitespace is its own trim. */
  lemma TrimUnchanged(s: string)
    requires s != [] ==> !IsJsWhitespace(s[0]) && !IsJsWhitespace(s[|s| - 1])
    ensures Trim(s) == s
  {
    assert TrimStart(s) == s;
  }

  /** `Number(String(n)) === n`: an integer's decimal form reads back as the integer. */
  lemma NumberOfDecimal(n: int)
    ensures ToNumber(Str(IntToDecimal(n))) == Some(n)
  {
    var t := IntToDecimal(n);
    TrimUnchanged(t);
    if n >= 0 {
      assert t == NatToDecimal(n);
      assert t[0] != '-' && t[0] != '+';
      DecimalRoundTrip(n);
      assert StringToNumber(t) == Some(DecimalValue(t));
    } else {
      var d := NatToDecimal(-n);
      assert t == "-" + d && t[1..] == d;
      DecimalRoundTrip(-n);
      assert StringToNumber(t) == Some(-(DecimalValue(d) as int));
    }
  }
}
