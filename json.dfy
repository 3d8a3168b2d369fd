/** Parsed JSON documents as the router's endpoints return them, and the
    fixed-path lookups (`doc['key'][0]['key']`) that the monitor applies to
    them, with the failure Python raises when a step does not apply. */
module Json {

  /** A document after parsing: numbers keep the literal text they were
      written with; an object is a dictionary from keys to values. */
  datatype Json =
    | JNull
    | JBool(b: bool)
    | JNumber(literal: string)
    | JString(s: string)
    | JArray(items: seq<Json>)
    | JObject(members: map<string, Json>)

  /** One step of a lookup path: `[name]` or `[index]`. */
  datatype Selector = Key(name: string) | Index(index: nat)

  /** Why a subscript failed: `KeyError` (the dictionary lacks the key),
      `IndexError` (the list or string is too short) or `TypeError` (the
      value cannot be subscripted that way). */
  datatype LookupError =
    | KeyError(missing: Selector)
    | IndexError(outOfRange: nat)
    | TypeError

  datatype Result<T> = Ok(value: T) | Err(error: LookupError)

  /** Python's subscript `j[s]` on a value produced by `json.loads`. */
  function Select(j: Json, s: Selector): Result<Json>
  {
    match (j, s)
    case (JObject(m), Key(k)) => if k in m then Ok(m[k]) else Err(KeyError(s))
    // JSON object keys are strings, so an integer key is never present
    case (JObject(_), Index(_)) => Err(KeyError(s))
    case (JArray(xs), Index(i)) => if i < |xs| then Ok(xs[i]) else Err(IndexError(i))
    case (JString(t), Index(i)) => if i < |t| then Ok(JString([t[i]])) else Err(IndexError(i))
    case _ => Err(TypeError)
  }

  /** Applies the steps of `path` left to right; the first step that fails
      aborts the whole lookup with its error. */
  function Lookup(j: Json, path: seq<Selector>): Result<Json>
    decreases |path|
  {
    if path == [] then Ok(j)
    else match Select(j, path[0])
      case Err(e) => Err(e)
      case Ok(v) => Lookup(v, path[1..])
  }

  /** Looking up `p + q` is looking up `p` and then `q` from where `p`
      ended; a failure on `p` is the failure of the whole path. */
  lemma {:induction false} LookupAppend(j: Json, p: seq<Selector>, q: seq<Selector>)
    ensures Lookup(j, p + q) ==
            match Lookup(j, p)
            case Err(e) => Err(e)
            case Ok(v) => Lookup(v, q)
    decreases |p|
  {
    if p == [] {
      assert p + q == q;
    } else {
      assert (p + q)[0] == p[0];
      assert (p + q)[1..] == p[1..] + q;
      match Select(j, p[0])
      case Err(e) =>
      case Ok(v) => LookupAppend(v, p[1..], q);
    }
  }

  /** The smallest document in which `path` leads to `leaf`: each key step
      becomes a one-member object, each index step a list whose element at
      that index is the rest, padded in front with nulls. */
  function Nest(path: seq<Selector>, leaf: Json): Json
    decreases |path|
  {
    if path == [] then leaf
    else
      var inner := Nest(path[1..], leaf);
      match path[0]
      case Key(k) => JObject(map[k := inner])
      case Index(i) => JArray(seq(i, _ => JNull) + [inner])
  }

  /** Every path is satisfiable: looking `path` up in `Nest(path, leaf)`
      finds `leaf`. This is the fact for one path at a time; that all 24
      paths of the sample record succeed in one pair of documents is
      `Witness.SomeCycleSucceeds`. */
  lemma {:induction false} LookupNest(path: seq<Selector>, leaf: Json)
    ensures Lookup(Nest(path, leaf), path) == Ok(leaf)
    decreases |path|
  {
    if path != [] {
      var inner := Nest(path[1..], leaf);
      assert Select(Nest(path, leaf), path[0]) == Ok(inner);
      LookupNest(path[1..], leaf);
    }
  }

  /** A step into the first element of an empty list, or a key the object
      lacks, makes every longer path fail with that same error. */
  lemma FailurePropagates(j: Json, p: seq<Selector>, s: Selector, q: seq<Selector>)
    requires Lookup(j, p).Ok? && Select(Lookup(j, p).value, s).Err?
    ensures Lookup(j, p + [s] + q) == Err(Select(Lookup(j, p).value, s).error)
  {
    LookupAppend(j, p, [s] + q);
    assert p + [s] + q == p + ([s] + q);
  }
}
