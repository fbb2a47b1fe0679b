/**
 * The value `json.loads` produces, and the Python dictionary operations the
 * scraper applies to it. An object is kept as the ordered sequence of its
 * (key, value) members, because a Python dict remembers insertion order and the
 * scraper depends on it (it takes the first key of `ItemModule` and walks
 * `CommentItem` in key order). The same ordered-pairs shape models the dicts the
 * extractors build.
 */
module Json {
  import opened Wrappers

  datatype Json =
    | JNull
    | JBool(b: bool)
    | JInt(i: int)
    | JReal(r: real)
    | JStr(s: string)
    | JArr(items: seq<Json>)
    | JObj(members: seq<(string, Json)>)

  /** A Python dict with string keys, in insertion order. */
  type Dict = seq<(string, Json)>

  /** `list(d.keys())` */
  function Keys(d: Dict): (ks: seq<string>)
    ensures |ks| == |d| && forall i :: 0 <= i < |d| ==> ks[i] == d[i].0
  {
    if |d| == 0 then [] else [d[0].0] + Keys(d[1..])
  }

  /** `k in d` */
  predicate HasKey(d: Dict, k: string) {
    k in Keys(d)
  }

  /** `d[k]`, with the KeyError as None: the value of the first member named `k`. */
  function Lookup(d: Dict, k: string): Option<Json> {
    if |d| == 0 then None
    else if d[0].0 == k then Some(d[0].1)
    else Lookup(d[1..], k)
  }

  /** A lookup succeeds exactly for the keys the dict holds. */
  lemma {:induction false} LookupFound(d: Dict, k: string)
    ensures Lookup(d, k).Some? <==> HasKey(d, k)
  {
    if |d| > 0 {
      assert Keys(d) == [d[0].0] + Keys(d[1..]);
      LookupFound(d[1..], k);
    }
  }

  /**
   * `d[k] = v`: a key already present keeps its position and takes the new
   * value; a new key goes to the end.
   */
  function Assign(d: Dict, k: string, v: Json): Dict {
    if |d| == 0 then [(k, v)]
    else if d[0].0 == k then [(k, v)] + d[1..]
    else [d[0]] + Assign(d[1..], k, v)
  }

  /** After `d[k] = v`, `d[k]` is `v` and every other key reads as before. */
  lemma {:induction false} AssignLookup(d: Dict, k: string, v: Json, k': string)
    ensures Lookup(Assign(d, k, v), k') == if k' == k then Some(v) else Lookup(d, k')
  {
    var r := Assign(d, k, v);
    if |d| == 0 {
    } else if d[0].0 == k {
      assert r[1..] == d[1..];
    } else {
      assert r[1..] == Assign(d[1..], k, v);
      AssignLookup(d[1..], k, v, k');
    }
  }

  /** `d[k] = v` keeps the order of the keys and appends `k` when it is new. */
  lemma {:induction false} AssignKeys(d: Dict, k: string, v: Json)
    ensures Keys(Assign(d, k, v)) == if HasKey(d, k) then Keys(d) else Keys(d) + [k]
  {
    var r := Assign(d, k, v);
    if |d| == 0 {
    } else if d[0].0 == k {
      assert r[1..] == d[1..];
      assert Keys(r) == [k] + Keys(d[1..]);
      assert Keys(d) == [k] + Keys(d[1..]);
    } else {
      assert r[1..] == Assign(d[1..], k, v);
      AssignKeys(d[1..], k, v);
      assert Keys(r) == [d[0].0] + Keys(r[1..]);
      assert Keys(d) == [d[0].0] + Keys(d[1..]);
    }
  }

  /** `del d[k]`, or dropping the column `k` from a row. */
  function Remove(d: Dict, k: string): Dict {
    if |d| == 0 then []
    else if d[0].0 == k then Remove(d[1..], k)
    else [d[0]] + Remove(d[1..], k)
  }

  /** After dropping `k` no member is named `k`, and every other key reads as before. */
  lemma {:induction false} RemoveLookup(d: Dict, k: string, k': string)
    ensures Lookup(Remove(d, k), k') == if k' == k then None else Lookup(d, k')
  {
    if |d| > 0 {
      RemoveLookup(d[1..], k, k');
      if d[0].0 != k {
        assert ([d[0]] + Remove(d[1..], k))[1..] == Remove(d[1..], k);
      }
    }
  }

  /** `j[k]` on any value: only an object can be indexed by a string. */
  function Index(j: Json, k: string): Option<Json> {
    match j
    case JObj(ms) => Lookup(ms, k)
    case _ => None
  }

  /** `j[k1][k2]...`: the value at the end of a chain of string subscripts. */
  function Path(j: Json, ks: seq<string>): Option<Json>
    decreases |ks|
  {
    if |ks| == 0 then Some(j)
    else match Index(j, ks[0]) {
      case Some(c) => Path(c, ks[1..])
      case None => None
    }
  }

  /** Assigning a key the dict does not hold appends it. */
  lemma {:induction false} AssignNew(d: Dict, k: string, v: Json)
    requires !HasKey(d, k)
    ensures Assign(d, k, v) == d + [(k, v)]
  {
    if |d| > 0 {
      assert Keys(d) == [d[0].0] + Keys(d[1..]);
      AssignNew(d[1..], k, v);
      assert d == [d[0]] + d[1..];
    }
  }
}
