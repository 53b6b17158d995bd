/**
 * JSON values as they come out of parsing `package.json`, and the two
 * path-addressed accessors the manifest handle delegates to (lodash's `get`
 * and `set`), with a path given as a sequence of keys.
 */
module Json {
  import opened Wrappers

  /** A parsed JSON value. Numbers are kept as integers. */
  datatype Json =
    | Null
    | Bool(b: bool)
    | Num(n: int)
    | Str(s: string)
    | Arr(items: seq<Json>)
    | Obj(fields: Object)

  /** A JSON object: the manifest itself, and every nested object in it. */
  type Object = map<string, Json>

  /** JavaScript truthiness of a JSON value. */
  predicate Truthy(v: Json) {
    match v
    case Null => false
    case Bool(b) => b
    case Num(n) => n != 0
    case Str(s) => s != ""
    case Arr(_) => true
    case Obj(_) => true
  }

  /** The keys lodash's `set` refuses: meeting one ends the walk without assigning. */
  predicate Reserved(k: string) {
    k == "__proto__" || k == "constructor" || k == "prototype"
  }

  /**
   * lodash `get(obj, path)`: walks own keys of nested objects. The empty path and
   * any missing key or non-object on the way give `undefined` (None).
   */
  function GetPath(m: Object, p: seq<string>): (r: Option<Json>)
    ensures |p| == 0 ==> r.None?
    ensures |p| == 1 ==> r == (if p[0] in m then Some(m[p[0]]) else None)
    decreases |p|
  {
    if |p| == 0 || p[0] !in m then None
    else if |p| == 1 then Some(m[p[0]])
    else
      match m[p[0]]
      case Obj(f) => GetPath(f, p[1..])
      case _ => None
  }

  /**
   * lodash `set(obj, path, value)`: walks the path, keeping each intermediate
   * object and replacing any other intermediate value by a fresh empty object,
   * then assigns the value at the last key. The empty path assigns nothing; a
   * reserved key stops the walk, keeping the containers created before it.
   */
  function SetPath(m: Object, p: seq<string>, v: Json): (r: Object)
    ensures |p| == 0 || Reserved(p[0]) ==> r == m
    ensures |p| > 0 && !Reserved(p[0]) ==> r.Keys == m.Keys + {p[0]}
    ensures forall k :: k in m && (|p| == 0 || k != p[0]) ==> k in r && r[k] == m[k]
    decreases |p|
  {
    if |p| == 0 || Reserved(p[0]) then m
    else if |p| == 1 then m[p[0] := v]
    else m[p[0] := Obj(SetPath(Child(m, p[0]), p[1..], v))]
  }

  /** The container `set` descends into under key `k`: the object there, or a new empty one. */
  function Child(m: Object, k: string): Object {
    if k in m && m[k].Obj? then m[k].fields else map[]
  }

  /** Paths that part ways: at some position both have a key and the keys differ. */
  predicate Diverge(p: seq<string>, q: seq<string>) {
    exists i :: 0 <= i < |p| && i < |q| && p[i] != q[i]
  }

  /** After `set(p, v)`, `get(p)` reads back `v`, whenever the path is non-empty and free of reserved keys. */
  lemma {:induction false} GetAfterSet(m: Object, p: seq<string>, v: Json)
    requires |p| > 0
    requires forall i :: 0 <= i < |p| ==> !Reserved(p[i])
    ensures GetPath(SetPath(m, p, v), p) == Some(v)
    decreases |p|
  {
    if |p| > 1 {
      assert !Reserved(p[0]);
      forall i | 0 <= i < |p[1..]| ensures !Reserved(p[1..][i]) {
        assert p[1..][i] == p[i + 1];
      }
      GetAfterSet(Child(m, p[0]), p[1..], v);
    }
  }

  /** `set(p, v)` leaves every path that parts ways with `p` reading as before. */
  lemma {:induction false} GetAfterSetElsewhere(m: Object, p: seq<string>, q: seq<string>, v: Json)
    requires Diverge(p, q)
    ensures GetPath(SetPath(m, p, v), q) == GetPath(m, q)
    decreases |p|
  {
    var i :| 0 <= i < |p| && i < |q| && p[i] != q[i];
    var r := SetPath(m, p, v);
    if p[0] == q[0] && !Reserved(p[0]) {
      assert i > 0 && |p| > 1 && |q| > 1;
      assert p[1..][i - 1] != q[1..][i - 1];
      GetAfterSetElsewhere(Child(m, p[0]), p[1..], q[1..], v);
      assert r[p[0]] == Obj(SetPath(Child(m, p[0]), p[1..], v));
      assert GetPath(r, q) == GetPath(SetPath(Child(m, p[0]), p[1..], v), q[1..]);
      if q[0] in m && m[q[0]].Obj? {
        assert GetPath(m, q) == GetPath(Child(m, p[0]), q[1..]);
      } else {
        assert GetPath(Child(m, p[0]), q[1..]) == None;
      }
    }
  }
}
