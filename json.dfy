/** JSON-shaped Python values: what json.dumps accepts and response.json()
    returns, with dicts kept as ordered key lists as Python keeps them. */
module Json {
  import opened Outcomes

  /** A Python value built from None, bool, int, float, str, list and dict.
      `Text(doc)` is a str whose characters are the json.dumps text of `doc`:
      the characters themselves are not modelled, only what was encoded, so a
      doubly encoded value stays inspectable. */
  datatype Json =
    | Null
    | Bool(b: bool)
    | Int(i: int)
    | Float(r: real)
    | Str(s: string)
    | Text(doc: Json)
    | Arr(items: seq<Json>)
    | Obj(fields: seq<(string, Json)>)
  {
    /** True of a value that json.loads can produce: no `Text` anywhere (a
        decoded str is a plain `Str`) and no key twice in an object. */
    predicate Decoded() {
      match this
      case Text(_) => false
      case Arr(items) => forall i | 0 <= i < |items| :: items[i].Decoded()
      case Obj(fields) =>
        && UniqueKeys(fields)
        && forall i | 0 <= i < |fields| :: fields[i].1.Decoded()
      case _ => true
    }
  }

  /** A decoded response body. */
  type Body = j: Json | j.Decoded() witness Null

  /** The entries of a dict, in insertion order. */
  type Fields = seq<(string, Json)>

  function Keys(fs: Fields): (ks: seq<string>)
    ensures |ks| == |fs|
    ensures forall i | 0 <= i < |fs| :: ks[i] == fs[i].0
  {
    if fs == [] then [] else [fs[0].0] + Keys(fs[1..])
  }

  predicate UniqueKeys(fs: Fields) {
    forall i, j | 0 <= i < j < |fs| :: fs[i].0 != fs[j].0
  }

  /** Dict lookup: the value stored under `k`, if the key is present. */
  function Get(fs: Fields, k: string): (r: Option<Json>)
    ensures r.Some? <==> k in Keys(fs)
    ensures r.Some? ==> (k, r.value) in fs
  {
    if fs == [] then None
    else if fs[0].0 == k then assert Keys(fs)[0] == k; Some(fs[0].1)
    else
      assert Keys(fs) == [fs[0].0] + Keys(fs[1..]);
      Get(fs[1..], k)
  }

  /** `d[k] = v`: an existing key keeps its place and takes the new value;
      a new key goes last. */
  function Put(fs: Fields, k: string, v: Json): Fields {
    if fs == [] then [(k, v)]
    else if fs[0].0 == k then [(k, v)] + fs[1..]
    else [fs[0]] + Put(fs[1..], k, v)
  }

  /** Assignment never moves a key: a present key stays where it is, a new
      one is appended. */
  lemma {:induction false} PutKeys(fs: Fields, k: string, v: Json)
    ensures Keys(Put(fs, k, v)) == if k in Keys(fs) then Keys(fs) else Keys(fs) + [k]
  {
    if fs != [] {
      assert Keys(fs) == [fs[0].0] + Keys(fs[1..]);
      if fs[0].0 == k {
        assert Keys([(k, v)] + fs[1..]) == [k] + Keys(fs[1..]);
      } else {
        var rest := Put(fs[1..], k, v);
        PutKeys(fs[1..], k, v);
        assert Keys([fs[0]] + rest) == [fs[0].0] + Keys(rest);
      }
    }
  }

  /** After `d[k] = v`, `d[k]` is `v` and every other key reads as before. */
  lemma {:induction false} PutGet(fs: Fields, k: string, v: Json, k': string)
    ensures Get(Put(fs, k, v), k') == if k' == k then Some(v) else Get(fs, k')
  {
    if fs != [] && fs[0].0 != k {
      PutGet(fs[1..], k, v, k');
      assert Put(fs, k, v)[1..] == Put(fs[1..], k, v);
    }
  }

  /** Assigning the same key twice leaves what the second assignment alone
      would leave. */
  lemma {:induction false} PutPut(fs: Fields, k: string, v: Json, w: Json)
    ensures Put(Put(fs, k, v), k, w) == Put(fs, k, w)
  {
    if fs != [] && fs[0].0 != k {
      PutPut(fs[1..], k, v, w);
      assert Put(fs, k, v)[1..] == Put(fs[1..], k, v);
    }
  }

  /** Assignment keeps a dict's keys distinct. */
  lemma PutUnique(fs: Fields, k: string, v: Json)
    requires UniqueKeys(fs)
    ensures UniqueKeys(Put(fs, k, v))
  {
    var r := Put(fs, k, v);
    PutKeys(fs, k, v);
    forall i, j | 0 <= i < j < |r| ensures r[i].0 != r[j].0 {
      assert Keys(r)[i] == r[i].0 && Keys(r)[j] == r[j].0;
      if k !in Keys(fs) && j == |fs| {
        assert Keys(r)[i] == Keys(fs)[i];
      } else {
        assert Keys(r)[i] == Keys(fs)[i] == fs[i].0;
        assert Keys(r)[j] == Keys(fs)[j] == fs[j].0;
      }
    }
  }

  /** Python's truth value of a JSON value. The json.dumps text is never
      empty, so a `Text` is always true. */
  function Truthy(j: Json): (t: bool)
    ensures !t <==> j in {Null, Bool(false), Int(0), Float(0.0), Str([]), Arr([]), Obj([])}
  {
    match j
    case Null => false
    case Bool(b) => b
    case Int(i) => i != 0
    case Float(r) => r != 0.0
    case Str(s) => s != []
    case Text(_) => true
    case Arr(items) => items != []
    case Obj(fields) => fields != []
  }

  /** Every Python str is either a literal `Str` or encoded `Text`. */
  predicate IsStr(j: Json) {
    j.Str? || j.Text?
  }

  predicate IsSubstring(p: string, s: string)
    decreases |s|
  {
    |p| <= |s| && (s[..|p|] == p || IsSubstring(p, s[1..]))
  }

  /** `key in container` for a decoded value: key membership for a dict,
      element membership for a list, substring test for a str; any other
      value raises TypeError. */
  function Contains(container: Body, key: string): (r: Result<bool>)
    ensures container.Obj? ==> r == Success(key in Keys(container.fields))
    ensures container.Arr? ==> r == Success(Str(key) in container.items)
    ensures r.Failure? <==> container.Null? || container.Bool? || container.Int? || container.Float?
  {
    match container
    case Obj(fields) => Success(key in Keys(fields))
    case Arr(items) => Success(Str(key) in items)
    case Str(s) => Success(IsSubstring(key, s))
    case _ => Failure(TypeError)
  }

  /** `container[key]` for a str key: a dict lookup that raises KeyError
      when the key is missing; every other value raises TypeError. */
  function Index(container: Body, key: string): (r: Result<Body>)
    ensures r.Success? <==> container.Obj? && key in Keys(container.fields)
    ensures r.Success? ==> (key, r.value) in container.fields
    ensures r.Failure? ==> r.error == if container.Obj? then KeyError else TypeError
  {
    match container
    case Obj(fields) =>
      (match Get(fields, key)
       case Some(v) =>
         var i :| 0 <= i < |fields| && fields[i] == (key, v);
         assert fields[i].1.Decoded();
         Success(v)
       case None => Failure(KeyError))
    case _ => Failure(TypeError)
  }

  /** The elements `list.extend` appends from a decoded value: a list's
      items, a str's one-character strings, a dict's keys; any other value
      raises TypeError. */
  function Iterate(j: Body): (r: Result<seq<Json>>)
    ensures j.Arr? ==> r == Success(j.items)
    ensures j.Str? ==> r.Success? && |r.value| == |j.s|
    ensures j.Str? ==> forall i | 0 <= i < |j.s| :: r.value[i] == Str([j.s[i]])
    ensures j.Obj? ==> r.Success? && |r.value| == |j.fields|
    ensures j.Obj? ==> forall i | 0 <= i < |j.fields| :: r.value[i] == Str(j.fields[i].0)
    ensures r.Failure? <==> j.Null? || j.Bool? || j.Int? || j.Float?
  {
    match j
    case Arr(items) => Success(items)
    case Str(s) => Success(seq(|s|, i requires 0 <= i < |s| => Str([s[i]])))
    case Obj(fields) => Success(seq(|fields|, i requires 0 <= i < |fields| => Str(fields[i].0)))
    case _ => Failure(TypeError)
  }
}
