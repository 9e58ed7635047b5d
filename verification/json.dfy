/** Raw records as the content API delivers them: nested mappings and lists
    over strings, numbers, booleans and null. An object keeps its entries in
    order, as a Python dict does. */
module Json {
  import opened Outcomes

  datatype Json =
    | JNull
    | JBool(b: bool)
    | JNum(n: int)
    | JStr(s: string)
    | JArr(items: seq<Json>)
    | JObj(fields: seq<(string, Json)>)

  /** The entries of an object, in insertion order. */
  type Object = seq<(string, Json)>

  /** No key occurs twice: every object that came from a Python dict. */
  predicate DistinctKeys(o: Object) {
    forall i, j :: 0 <= i < j < |o| ==> o[i].0 != o[j].0
  }

  /** `o[key]`: the value stored under `key`, or None when the key is absent. */
  function Get(o: Object, key: string): (r: Option<Json>)
    ensures r.None? <==> forall i :: 0 <= i < |o| ==> o[i].0 != key
    ensures r.Some? ==> exists i :: 0 <= i < |o| && o[i] == (key, r.value)
  {
    if o == [] then None
    else if o[0].0 == key then Some(o[0].1)
    else
      var r := Get(o[1..], key);
      assert forall i :: 1 <= i < |o| ==> o[i] == o[1..][i - 1];
      r
  }

  /** In a dict every entry is what its key looks up. */
  lemma {:induction false} GetEntry(o: Object, i: nat)
    requires DistinctKeys(o) && i < |o|
    ensures Get(o, o[i].0) == Some(o[i].1)
  {
    if i > 0 {
      assert DistinctKeys(o[1..]) by {
        forall a, b | 0 <= a < b < |o[1..]| ensures o[1..][a].0 != o[1..][b].0 {
          assert o[1..][a] == o[a + 1] && o[1..][b] == o[b + 1];
        }
      }
      assert o[1..][i - 1] == o[i];
      GetEntry(o[1..], i - 1);
    }
  }

  /** `o[key] = v`: overwrites the entry for `key` in place, or appends one. */
  function Put(o: Object, key: string, v: Json): (r: Object)
    ensures Get(r, key) == Some(v)
  {
    if o == [] then [(key, v)]
    else if o[0].0 == key then [(key, v)] + o[1..]
    else [o[0]] + Put(o[1..], key, v)
  }

  /** Assigning one key leaves every other key's lookup as it was. */
  lemma {:induction false} PutKeepsOthers(o: Object, key: string, v: Json, k: string)
    requires k != key
    ensures Get(Put(o, key, v), k) == Get(o, k)
  {
    if o != [] && o[0].0 != key {
      PutKeepsOthers(o[1..], key, v, k);
    }
  }

  /** The value under `key` of object `o`. */
  function Field(o: Object, key: string): (r: Result<Json>)
    ensures r.Ok? <==> Get(o, key).Some?
    ensures r.Ok? ==> Get(o, key) == Some(r.value)
  {
    match Get(o, key)
    case Some(v) => Ok(v)
    case None => Err(StructuralError(key))
  }

  /** The string under `key` of object `o`. */
  function StringAt(o: Object, key: string): (r: Result<string>)
    ensures r.Ok? <==> Get(o, key).Some? && Get(o, key).value.JStr?
    ensures r.Ok? ==> Get(o, key) == Some(JStr(r.value))
  {
    match Get(o, key)
    case Some(JStr(s)) => Ok(s)
    case _ => Err(StructuralError(key))
  }

  /** The entries of the object under `key` of object `o`. */
  function ObjectAt(o: Object, key: string): (r: Result<Object>)
    ensures r.Ok? <==> Get(o, key).Some? && Get(o, key).value.JObj?
    ensures r.Ok? ==> Get(o, key) == Some(JObj(r.value))
  {
    match Get(o, key)
    case Some(JObj(fields)) => Ok(fields)
    case _ => Err(StructuralError(key))
  }
}
