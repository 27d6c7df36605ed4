/**
 * Values the plugin reads from TOML documents and passes around: booleans,
 * strings, integers, arrays and tables. A table (a Python dict) is an ordered
 * list of entries with distinct keys, because Python dicts keep insertion
 * order and the plugin's dict code depends on it.
 */
module Values {

  datatype Option<+T> = None | Some(value: T)

  datatype Result<+T, +E> = Ok(value: T) | Err(error: E)

  datatype Value =
    | Bool(b: bool)
    | Str(s: string)
    | Int(i: int)
    | Array(items: seq<Value>)
    | Table(entries: seq<Entry>)

  datatype Entry = Entry(key: string, val: Value)

  /** Python truthiness of a TOML value (`if x:`, `not x`). */
  predicate Truthy(v: Value)
  {
    match v
    case Bool(b) => b
    case Str(s) => s != ""
    case Int(i) => i != 0
    case Array(items) => items != []
    case Table(entries) => entries != []
  }

  /** The keys of a table, in order. */
  function KeyList(es: seq<Entry>): (ks: seq<string>)
    ensures |ks| == |es|
  {
    if es == [] then [] else [es[0].key] + KeyList(es[1..])
  }

  /** `k in d` */
  predicate HasKey(es: seq<Entry>, k: string)
  {
    es != [] && (es[0].key == k || HasKey(es[1..], k))
  }

  /** A Python dict never holds one key twice. */
  predicate UniqueKeys(es: seq<Entry>)
  {
    es == [] || (!HasKey(es[1..], es[0].key) && UniqueKeys(es[1..]))
  }

  /** `d.get(k)`: the value stored under `k`, if any. */
  function Lookup(es: seq<Entry>, k: string): (r: Option<Value>)
    ensures r.Some? <==> HasKey(es, k)
  {
    if es == [] then None
    else if es[0].key == k then Some(es[0].val)
    else Lookup(es[1..], k)
  }

  /**
   * `d[k] = v`: an existing key keeps its position and takes the new value,
   * a new key is appended at the end.
   */
  function Put(es: seq<Entry>, k: string, v: Value): seq<Entry>
  {
    if es == [] then [Entry(k, v)]
    else if es[0].key == k then [Entry(k, v)] + es[1..]
    else [es[0]] + Put(es[1..], k, v)
  }

  /** After `d[k] = v`, `k` holds `v` and every other key holds what it held. */
  lemma {:induction false} PutLookup(es: seq<Entry>, k: string, v: Value, j: string)
    ensures Lookup(Put(es, k, v), j) == if j == k then Some(v) else Lookup(es, j)
    ensures HasKey(Put(es, k, v), j) <==> HasKey(es, j) || j == k
  {
    if es != [] {
      var r := Put(es, k, v);
      if es[0].key == k {
        assert r[1..] == es[1..];
      } else {
        PutLookup(es[1..], k, v, j);
        assert r[1..] == Put(es[1..], k, v);
      }
    }
  }

  /** Updating an existing key keeps every key in place; a new key goes last. */
  lemma {:induction false} PutShape(es: seq<Entry>, k: string, v: Value)
    ensures HasKey(es, k) ==> KeyList(Put(es, k, v)) == KeyList(es)
    ensures !HasKey(es, k) ==> Put(es, k, v) == es + [Entry(k, v)]
  {
    if es != [] {
      var r := Put(es, k, v);
      if es[0].key == k {
        assert r[1..] == es[1..];
      } else {
        PutShape(es[1..], k, v);
        var t := Put(es[1..], k, v);
        assert r == [es[0]] + t && r[1..] == t;
        PutLookup(es[1..], k, v, k);
        if !HasKey(es, k) {
          assert es == [es[0]] + es[1..];
        }
      }
    }
  }

  /** Storing under a key never makes a key appear twice. */
  lemma {:induction false} PutUnique(es: seq<Entry>, k: string, v: Value)
    requires UniqueKeys(es)
    ensures UniqueKeys(Put(es, k, v))
  {
    if es != [] {
      var r := Put(es, k, v);
      if es[0].key == k {
        assert r[1..] == es[1..];
      } else {
        var t := Put(es[1..], k, v);
        PutUnique(es[1..], k, v);
        PutLookup(es[1..], k, v, es[0].key);
        assert r == [es[0]] + t && r[1..] == t;
      }
    }
  }
}
