/**
 * The parsed query string (`req.query`) that the translator reads: every key
 * maps to a string, a nested object (`runtime[gt]=90`) or an array (a key
 * given twice). An object is a sequence of key/value pairs in the order
 * `Object.keys` enumerates them.
 */
module QueryString {
  import opened Wrappers
  import JsStrings

  datatype QVal = Str(s: string) | Obj(pairs: seq<(string, QVal)>) | Arr(items: seq<QVal>)

  /** The top level of a parsed query string. */
  type Query = seq<(string, QVal)>

  /** `obj[key]`: the value stored under `key`, `None` for undefined. */
  function Get(pairs: seq<(string, QVal)>, key: string): (v: Option<QVal>)
    ensures v.None? <==> forall i :: 0 <= i < |pairs| ==> pairs[i].0 != key
    ensures v.Some? ==> exists i :: 0 <= i < |pairs| && pairs[i] == (key, v.value)
    decreases |pairs|
  {
    if pairs == [] then None
    else if pairs[0].0 == key then Some(pairs[0].1)
    else
      var v := Get(pairs[1..], key);
      assert v.Some? ==> (exists i :: 1 <= i < |pairs| && pairs[i] == (key, v.value)) by {
        if v.Some? {
          var j :| 0 <= j < |pairs[1..]| && pairs[1..][j] == (key, v.value);
          assert pairs[j + 1] == (key, v.value);
        }
      }
      v
  }

  /** `typeof v` for a value read from a parsed query string. */
  function TypeOf(v: Option<QVal>): (t: string)
    ensures t == "undefined" <==> v.None?
    ensures t == "string" <==> v.Some? && v.value.Str?
    ensures t == "object" <==> v.Some? && !v.value.Str?
  {
    match v
    case None => "undefined"
    case Some(Str(_)) => "string"
    case Some(_) => "object"
  }

  /** Whether `v` is truthy: only the empty string and undefined are falsy here. */
  predicate Truthy(v: Option<QVal>)
    ensures Truthy(v) ==> v.Some?
    ensures v.Some? && !v.value.Str? ==> Truthy(v)
    ensures v.Some? && v.value.Str? ==> (Truthy(v) <==> v.value.s != "")
  {
    match v
    case None => false
    case Some(Str(s)) => s != ""
    case Some(_) => true
  }

  /**
   * `String(v)`, what `parseInt` and `parseFloat` see: a string is itself, an
   * object is `[object Object]`, an array is its elements joined by commas.
   * An object with its own `toString` key, for which JavaScript's `String`
   * throws, is not told apart here.
   */
  function ToJsString(v: QVal): (r: string)
    ensures v.Str? ==> r == v.s
    ensures v.Obj? ==> r == "[object Object]"
    ensures v.Arr? && v.items == [] ==> r == ""
    ensures v.Arr? && |v.items| == 1 ==> r == ToJsString(v.items[0])
    ensures v.Arr? && v.items != [] ==> ToJsString(v.items[0]) <= r
    decreases v
  {
    match v
    case Str(s) => s
    case Obj(_) => "[object Object]"
    case Arr(items) =>
      JsStrings.Join(seq(|items|, i requires 0 <= i < |items| => ToJsString(items[i])), ",")
  }

  /**
   * The string of a longer array: the first element's string, a comma, then
   * the string of the remaining elements.
   */
  lemma ArrayStringCons(head: QVal, rest: seq<QVal>)
    requires rest != []
    ensures ToJsString(Arr([head] + rest)) == ToJsString(head) + "," + ToJsString(Arr(rest))
  {
    var items := [head] + rest;
    var parts := seq(|items|, i requires 0 <= i < |items| => ToJsString(items[i]));
    var restParts := seq(|rest|, i requires 0 <= i < |rest| => ToJsString(rest[i]));
    assert parts[1..] == restParts;
  }

  /** A key given twice, `90` then `100`, reads as the string `90,100`. */
  lemma TwoItemArrayExample()
    ensures ToJsString(Arr([Str("90"), Str("100")])) == "90,100"
  {
    ArrayStringCons(Str("90"), [Str("100")]);
  }

  /** `Object.keys(v)[0]`: the first key, `None` when there is none. */
  function FirstKey(v: QVal): (k: Option<string>)
    ensures v.Obj? ==> (k.Some? <==> v.pairs != []) && (k.Some? ==> k.value == v.pairs[0].0)
    ensures !v.Obj? ==> k.Some? ==> k.value == "0"
  {
    match v
    case Str(s) => if s == "" then None else Some("0")
    case Obj(pairs) => if pairs == [] then None else Some(pairs[0].0)
    case Arr(items) => if items == [] then None else Some("0")
  }

  /**
   * `v[name]` for a name that is not an array index: a property of an object;
   * strings and arrays have none of the names the translator asks for.
   */
  function Property(v: QVal, name: string): (p: Option<QVal>)
    ensures !v.Obj? ==> p.None?
    ensures v.Obj? ==> p == Get(v.pairs, name)
  {
    if v.Obj? then Get(v.pairs, name) else None
  }

  /** A query string with a single key. */
  lemma GetSingle(key: string, v: QVal)
    ensures Get([(key, v)], key) == Some(v)
  {
  }
}
