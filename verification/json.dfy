/** The JSON document model as Python's `json` module decodes it (None, bool,
    int/float, str, list, dict), together with the three pieces of Python
    semantics the property decoder relies on: truthiness, subscripting with a
    string key or with the index 0, and iterating a value in a list comprehension.
 */
module Json {
  import opened Outcomes

  datatype Json =
    | JNull
    | JBool(b: bool)
    | JNum(n: real)
    | JStr(s: string)
    | JArr(items: seq<Json>)
    | JObj(fields: map<string, Json>)

  /** Python's `bool(x)`: None, False, zero and empty containers are false. */
  predicate Truthy(j: Json) {
    match j
    case JNull => false
    case JBool(b) => b
    case JNum(n) => n != 0.0
    case JStr(s) => |s| > 0
    case JArr(items) => |items| > 0
    case JObj(fields) => |fields| > 0
  }

  /** `j` is a dict that has the key `key`. */
  predicate HasKey(j: Json, key: string) {
    j.JObj? && key in j.fields
  }

  /** Python's `j[key]` for a string key: a dict yields the value or raises
      KeyError; every other decoded JSON value raises TypeError. */
  function Subscript(j: Json, key: string): Outcome<Json> {
    if HasKey(j, key) then Ok(j.fields[key]) else Raised
  }

  /** Python's `j[0]`: a non-empty list yields its first item and a non-empty
      str its first character (as a one-character str); an empty list or str
      raises IndexError, a dict raises KeyError (decoded keys are strings, never
      the int 0) and None, bool and numbers raise TypeError. */
  function SubscriptFirst(j: Json): Outcome<Json> {
    match j
    case JArr(items) => if |items| > 0 then Ok(items[0]) else Raised
    case JStr(s) => if |s| > 0 then Ok(JStr([s[0]])) else Raised
    case _ => Raised
  }

  /** Python's `[t[key] for t in j]`. Iterating a list visits its items in
      order; iterating a str visits one-character strs and iterating a dict
      visits its str keys, and subscripting a str with a str raises TypeError,
      so those two yield `[]` when empty and raise otherwise. None, bool and
      numbers are not iterable and raise TypeError. */
  function SubscriptEach(j: Json, key: string): Outcome<seq<Json>> {
    match j
    case JArr(items) => SubscriptItems(items, key)
    case JStr(s) => if |s| == 0 then Ok([]) else Raised
    case JObj(fields) => if |fields| == 0 then Ok([]) else Raised
    case _ => Raised
  }

  /** The list-comprehension loop over the items of a list, left to right; the
      first item that raises ends the comprehension with that exception. */
  function SubscriptItems(items: seq<Json>, key: string): (r: Outcome<seq<Json>>)
    ensures r.Ok? <==> forall i :: 0 <= i < |items| ==> HasKey(items[i], key)
    ensures r.Ok? ==> |r.value| == |items|
    ensures r.Ok? ==> forall i :: 0 <= i < |items| ==> r.value[i] == items[i].fields[key]
  {
    if |items| == 0 then Ok([])
    else
      var head :- Subscript(items[0], key);
      var tail :- SubscriptItems(items[1..], key);
      assert forall i :: 1 <= i < |items| ==> items[i] == items[1..][i - 1];
      Ok([head] + tail)
  }

  /** The str values of a list, in order, or `Raised` when one of them is not a
      str: the TypeError that Python's `str.join` raises. */
  function AllStrings(values: seq<Json>): (r: Outcome<seq<string>>)
    ensures r.Ok? <==> forall i :: 0 <= i < |values| ==> values[i].JStr?
    ensures r.Ok? ==> |r.value| == |values|
    ensures r.Ok? ==> forall i :: 0 <= i < |values| ==> values[i] == JStr(r.value[i])
  {
    if |values| == 0 then Ok([])
    else if !values[0].JStr? then Raised
    else
      var tail :- AllStrings(values[1..]);
      assert forall i :: 1 <= i < |values| ==> values[i] == values[1..][i - 1];
      Ok([values[0].s] + tail)
  }
}
