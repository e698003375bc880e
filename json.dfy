/** The JSON-like values the chatbot passes around: Python dicts, lists and
    scalars. A dict is a list of (key, value) pairs in insertion order, as a
    Python dict iterates; `Put` keeps keys unique. */
module Json {
  import opened Wrappers

  datatype Json =
    | JNull
    | JBool(b: bool)
    | JInt(i: int)
    | JStr(s: string)
    | JList(items: seq<Json>)
    | JObject(fields: seq<(string, Json)>)

  type Fields = seq<(string, Json)>

  /** Python truthiness: `None`, `False`, `0`, `""`, `[]` and `{}` are false. */
  predicate Truthy(v: Json) {
    match v
    case JNull => false
    case JBool(b) => b
    case JInt(i) => i != 0
    case JStr(s) => s != ""
    case JList(items) => items != []
    case JObject(fields) => fields != []
  }

  predicate HasKey(fs: Fields, key: string) {
    exists i :: 0 <= i < |fs| && fs[i].0 == key
  }

  /** `d.get(key)`: the value stored under `key`, if any. */
  function Get(fs: Fields, key: string): (r: Option<Json>)
    ensures r.Some? <==> HasKey(fs, key)
    ensures r.Some? ==> (key, r.value) in fs
  {
    if fs == [] then None
    else if fs[0].0 == key then Some(fs[0].1)
    else
      assert forall i :: 1 <= i < |fs| ==> fs[i] == fs[1..][i - 1];
      Get(fs[1..], key)
  }

  /** `d.get(key, default)`. */
  function GetOr(fs: Fields, key: string, default: Json): Json {
    match Get(fs, key)
    case Some(v) => v
    case None => default
  }

  /** `d.get(key)` with a missing key read as `None`. */
  function GetOrNull(fs: Fields, key: string): Json {
    GetOr(fs, key, JNull)
  }

  /** Past a first entry with another key, the key is present iff it is in the rest. */
  lemma HasKeyTail(fs: Fields, key: string)
    requires fs != [] && fs[0].0 != key
    ensures HasKey(fs, key) <==> HasKey(fs[1..], key)
  {
    if HasKey(fs[1..], key) {
      var i :| 0 <= i < |fs[1..]| && fs[1..][i].0 == key;
      assert fs[i + 1].0 == key;
    }
    if HasKey(fs, key) {
      var i :| 0 <= i < |fs| && fs[i].0 == key;
      assert fs[1..][i - 1].0 == key;
    }
  }

  /** `d[key] = v`: overwrite the value in place if the key exists, else append. */
  function Put(fs: Fields, key: string, v: Json): (r: Fields)
    ensures Get(r, key) == Some(v)
    ensures forall k :: k != key ==> Get(r, k) == Get(fs, k)
    ensures HasKey(fs, key) ==> |r| == |fs|
    ensures !HasKey(fs, key) ==> r == fs + [(key, v)]
  {
    if fs == [] then [(key, v)]
    else if fs[0].0 == key then [(key, v)] + fs[1..]
    else
      HasKeyTail(fs, key);
      var rest := Put(fs[1..], key, v);
      assert !HasKey(fs, key) ==> [fs[0]] + rest == fs + [(key, v)] by {
        assert fs == [fs[0]] + fs[1..];
      }
      [fs[0]] + rest
  }

  /** The string stored under `key`, if the value there is a string. */
  function GetStr(fs: Fields, key: string): Option<string> {
    match Get(fs, key)
    case Some(JStr(s)) => Some(s)
    case _ => None
  }

  /** The first entry with `key` is the one `Get` finds. */
  lemma {:induction false} GetAt(fs: Fields, i: nat, key: string)
    requires i < |fs| && fs[i].0 == key
    requires forall k :: 0 <= k < i ==> fs[k].0 != key
    ensures Get(fs, key) == Some(fs[i].1)
  {
    if i > 0 {
      GetAt(fs[1..], i - 1, key);
    }
  }

  /** A key already in `a` is found there, whatever follows it. */
  lemma {:induction false} GetPrefix(a: Fields, b: Fields, key: string)
    requires HasKey(a, key)
    ensures Get(a + b, key) == Get(a, key)
  {
    if a[0].0 != key {
      HasKeyTail(a, key);
      GetPrefix(a[1..], b, key);
      assert (a + b)[1..] == a[1..] + b;
    }
  }
}
