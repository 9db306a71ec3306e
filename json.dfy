/** The JSON values that travel inside protocol messages as opaque payloads (room settings,
    team lists, a player's team, the game state, the data of a game action). Numbers are
    integers here: every number the games put in a payload is one. */
module Json {
  import opened Basics

  datatype Json =
    | JNull
    | JBool(b: bool)
    | JNum(n: int)
    | JStr(s: string)
    | JArr(items: seq<Json>)
    | JObj(fields: seq<(string, Json)>)

  /** JavaScript truthiness of a value, as used by `x || fallback`: null, false, 0 and "" are
      falsy; every array and object is truthy. */
  predicate Truthy(j: Json)
  {
    match j
    case JNull => false
    case JBool(b) => b
    case JNum(n) => n != 0
    case JStr(s) => s != ""
    case JArr(_) => true
    case JObj(_) => true
  }

  /** `obj[key]` after `JSON.parse`: when a key repeats, the last occurrence wins. */
  function Lookup(fields: seq<(string, Json)>, key: string): (r: Option<Json>)
    ensures r.None? <==> forall k :: 0 <= k < |fields| ==> fields[k].0 != key
    ensures r.Some? ==>
      exists k :: 0 <= k < |fields| && fields[k] == (key, r.value) && forall j :: k < j < |fields| ==> fields[j].0 != key
  {
    if fields == [] then None
    else match Lookup(fields[1..], key)
      case Some(v) => Some(v)
      case None => if fields[0].0 == key then Some(fields[0].1) else None
  }

  /** With distinct keys the lookup finds the one field that carries the key. */
  lemma {:induction false} LookupDistinct(fields: seq<(string, Json)>, k: nat)
    requires k < |fields|
    requires forall j :: 0 <= j < |fields| && j != k ==> fields[j].0 != fields[k].0
    ensures Lookup(fields, fields[k].0) == Some(fields[k].1)
  {
    if k > 0 {
      LookupDistinct(fields[1..], k - 1);
    }
  }

  /** Two-, three- and four-member objects written with distinct keys, as the games build them:
      each key reads back the value written under it. */
  lemma GetWritten2(k0: string, v0: Json, k1: string, v1: Json)
    requires k0 != k1
    ensures Get(JObj([(k0, v0), (k1, v1)]), k0) == Some(v0)
    ensures Get(JObj([(k0, v0), (k1, v1)]), k1) == Some(v1)
  {
    var f := [(k0, v0), (k1, v1)];
    LookupDistinct(f, 0);
    LookupDistinct(f, 1);
  }

  lemma GetWritten3(k0: string, v0: Json, k1: string, v1: Json, k2: string, v2: Json)
    requires k0 != k1 && k0 != k2 && k1 != k2
    ensures Get(JObj([(k0, v0), (k1, v1), (k2, v2)]), k0) == Some(v0)
    ensures Get(JObj([(k0, v0), (k1, v1), (k2, v2)]), k1) == Some(v1)
    ensures Get(JObj([(k0, v0), (k1, v1), (k2, v2)]), k2) == Some(v2)
  {
    var f := [(k0, v0), (k1, v1), (k2, v2)];
    LookupDistinct(f, 0);
    LookupDistinct(f, 1);
    LookupDistinct(f, 2);
  }

  lemma GetWritten4(k0: string, v0: Json, k1: string, v1: Json, k2: string, v2: Json, k3: string, v3: Json)
    requires k0 != k1 && k0 != k2 && k0 != k3 && k1 != k2 && k1 != k3 && k2 != k3
    ensures Get(JObj([(k0, v0), (k1, v1), (k2, v2), (k3, v3)]), k0) == Some(v0)
    ensures Get(JObj([(k0, v0), (k1, v1), (k2, v2), (k3, v3)]), k1) == Some(v1)
    ensures Get(JObj([(k0, v0), (k1, v1), (k2, v2), (k3, v3)]), k2) == Some(v2)
    ensures Get(JObj([(k0, v0), (k1, v1), (k2, v2), (k3, v3)]), k3) == Some(v3)
  {
    var f := [(k0, v0), (k1, v1), (k2, v2), (k3, v3)];
    LookupDistinct(f, 0);
    LookupDistinct(f, 1);
    LookupDistinct(f, 2);
    LookupDistinct(f, 3);
  }

  /** The member `key` of an object value; nothing for a missing key or a non-object. */
  function Get(j: Json, key: string): Option<Json>
  {
    if j.JObj? then Lookup(j.fields, key) else None
  }
}
