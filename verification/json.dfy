/** Decoded JSON documents as Python holds them after `json.loads`, and the
    Python operations the metadata interpreters apply to them: truthiness,
    `d[key]`, `d.get(key)`, `key in d` and `for x in d`. Python's `None` and
    JSON's `null` are the same value, `JNull`. */
module JsonValues {
  import opened PyText

  datatype Option<+T> = None | Some(value: T)

  /** The Python exceptions an interpreter raises on metadata of an
      unexpected shape. */
  datatype Fault =
    | KeyError(key: string)         // `d[key]` on a dict without `key`
    | TypeError                     // subscript, iteration or `in` on a value that does not support it
    | AttributeError(name: string)  // `x.name(...)` on a value without that method

  /** A computation that returns a value or raises a `Fault`. */
  datatype Result<+T> = Ok(value: T) | Fail(fault: Fault) {
    predicate IsFailure() { Fail? }

    function PropagateFailure<U>(): Result<U>
      requires Fail?
    {
      Fail(fault)
    }

    function Extract(): T
      requires Ok?
    {
      value
    }
  }

  datatype Json =
    | JNull
    | JBool(b: bool)
    | JNum(n: int)
    | JStr(s: string)
    | JArr(items: seq<Json>)
    | JObj(fields: map<string, Json>)

  /** Python's truth value: `None`, `False`, `0`, `""`, `[]` and `{}` are false. */
  predicate Truthy(j: Json) {
    match j
    case JNull => false
    case JBool(b) => b
    case JNum(n) => n != 0
    case JStr(s) => s != []
    case JArr(items) => items != []
    case JObj(fields) => fields != map[]
  }

  /** `j[key]` with a string key. */
  function Subscript(j: Json, key: string): Result<Json> {
    match j
    case JObj(fields) => if key in fields then Ok(fields[key]) else Fail(KeyError(key))
    case _ => Fail(TypeError)
  }

  /** `d.get(key)` on a dict: `None` for a missing key. */
  function GetField(fields: map<string, Json>, key: string): Json {
    if key in fields then fields[key] else JNull
  }

  /** `j.get(key)`. */
  function Get(j: Json, key: string): Result<Json> {
    match j
    case JObj(fields) => Ok(GetField(fields, key))
    case _ => Fail(AttributeError("get"))
  }

  /** `key in j`: a key of a dict, an element of a list, a substring of a string. */
  function Contains(j: Json, key: string): Result<bool> {
    match j
    case JObj(fields) => Ok(key in fields)
    case JArr(items) => Ok(JStr(key) in items)
    case JStr(s) => Ok(IsSubstring(key, s))
    case _ => Fail(TypeError)
  }

  /** The elements a loop `for x in j` visits, for a loop whose body starts by
      looking a key up in `x`. A list yields its items. A string yields its
      characters and a dict its keys, all strings, and the body's first lookup
      on a string raises `onString`; an empty string or dict yields nothing.
      Anything else is not iterable. */
  function IterateDicts(j: Json, onString: Fault): Result<seq<Json>> {
    match j
    case JArr(items) => Ok(items)
    case JStr(s) => if s == [] then Ok([]) else Fail(onString)
    case JObj(fields) => if fields == map[] then Ok([]) else Fail(onString)
    case _ => Fail(TypeError)
  }

  /** A loop that applies `f` to every element in order, collecting results,
      and stops with the fault of the first element `f` fails on. */
  function MapAll<A, B>(xs: seq<A>, f: A -> Result<B>): (r: Result<seq<B>>)
    ensures r.Ok? <==> forall i :: 0 <= i < |xs| ==> f(xs[i]).Ok?
    ensures r.Ok? ==> |r.value| == |xs|
    ensures r.Ok? ==> forall i :: 0 <= i < |xs| ==> r.value[i] == f(xs[i]).value
    ensures r.Fail? ==> exists k :: 0 <= k < |xs| && f(xs[k]) == Fail(r.fault)
                                    && forall i :: 0 <= i < k ==> f(xs[i]).Ok?
    decreases |xs|
  {
    if xs == [] then Ok([])
    else
      var init :- MapAll(xs[..|xs| - 1], f);
      var last :- f(xs[|xs| - 1]);
      Ok(init + [last])
  }

  /** The loop step: when the first `i` elements succeed, the result on the
      first `i + 1` elements extends theirs by the next element's result or
      is the next element's fault. */
  lemma MapAllStep<A, B>(xs: seq<A>, f: A -> Result<B>, i: nat)
    requires i < |xs|
    requires MapAll(xs[..i], f).Ok?
    ensures f(xs[i]).Ok? ==> MapAll(xs[..i + 1], f) == Ok(MapAll(xs[..i], f).value + [f(xs[i]).value])
    ensures f(xs[i]).Fail? ==> MapAll(xs, f) == Fail(f(xs[i]).fault)
  {
    if f(xs[i]).Ok? {
      assert xs[..i + 1][..i] == xs[..i];
      assert xs[..i + 1][i] == xs[i];
    } else {
      var r := MapAll(xs, f);
      assert r.Fail?;
      assert forall j :: 0 <= j < i ==> f(xs[j]).Ok? by {
        assert forall j :: 0 <= j < i ==> xs[..i][j] == xs[j];
      }
      var k :| 0 <= k < |xs| && f(xs[k]) == Fail(r.fault) && forall j :: 0 <= j < k ==> f(xs[j]).Ok?;
      assert k == i;
    }
  }

  /** The position of the first element satisfying `p`, or `|xs|` when none
      does: the first element of the comprehension `[x for x in xs if p(x)]`. */
  function FirstIndex<T>(xs: seq<T>, p: T -> bool): (k: nat)
    ensures k <= |xs|
    ensures k < |xs| ==> p(xs[k])
    ensures forall i :: 0 <= i < k ==> !p(xs[i])
    decreases |xs|
  {
    if xs == [] || p(xs[0]) then 0 else 1 + FirstIndex(xs[1..], p)
  }
}
