/** `keys_exists(element, *keys)`: probing a path of keys in nested dictionaries. */
module KeyPath {
  import opened Common

  /** Where following a path of keys ends: at a value, at the first key a
      dictionary lacks, or at the first value that is not a dictionary (indexing
      a string, list, number or None with a string key raises TypeError). The
      depth is the position in the path of the key that could not be applied. */
  datatype Lookup = Reached(value: Value) | MissingKey(depth: nat) | NotSubscriptable(depth: nat)

  /** Moves the depth of a failed lookup `n` keys further along the path. */
  function ShiftBy(l: Lookup, n: nat): Lookup {
    match l
    case Reached(v) => l
    case MissingKey(d) => MissingKey(d + n)
    case NotSubscriptable(d) => NotSubscriptable(d + n)
  }

  /** The nested indexing `v[keys[0]][keys[1]]...[keys[|keys| - 1]]`. */
  function Walk(v: Value, keys: seq<string>): Lookup
    decreases |keys|
  {
    if keys == [] then Reached(v)
    else match v
      case Dict(fields) =>
        if keys[0] in fields then ShiftBy(Walk(fields[keys[0]], keys[1..]), 1) else MissingKey(0)
      case _ => NotSubscriptable(0)
  }

  /** Continuing a lookup with further keys after a prefix has been followed. */
  function Then(l: Lookup, rest: seq<string>, n: nat): Lookup {
    match l
    case Reached(w) => ShiftBy(Walk(w, rest), n)
    case _ => l
  }

  /** Following `p + q` is following `p`, then `q` from wherever `p` reached;
      a lookup that failed on `p` fails at the same key on `p + q`. */
  lemma {:induction false} WalkAppend(v: Value, p: seq<string>, q: seq<string>)
    ensures Walk(v, p + q) == Then(Walk(v, p), q, |p|)
    decreases |p|
  {
    if p == [] {
      assert p + q == q;
      match Walk(v, q)
      case Reached(w) =>
      case MissingKey(d) =>
      case NotSubscriptable(d) =>
    } else {
      assert (p + q)[0] == p[0] && (p + q)[1..] == p[1..] + q;
      match v
      case Dict(fields) =>
        if p[0] in fields {
          WalkAppend(fields[p[0]], p[1..], q);
        }
      case _ =>
    }
  }

  /** Following a single key. */
  lemma WalkOne(w: Value, k: string)
    ensures Walk(w, [k]) ==
      if w.Dict? && k in w.fields then Reached(w.fields[k])
      else if w.Dict? then MissingKey(0) else NotSubscriptable(0)
  {
    assert [k][1..] == [];
  }

  /** The key at position `i` is applied to a dictionary holding it. */
  predicate PresentAt(v: Value, keys: seq<string>, i: nat)
    requires i < |keys|
  {
    var l := Walk(v, keys[..i]);
    l.Reached? && l.value.Dict? && keys[i] in l.value.fields
  }

  /** A path is fully present exactly when every key in it is found in the value
      reached by the keys before it. */
  lemma {:induction false} ReachedIffAllPresent(v: Value, keys: seq<string>)
    ensures Walk(v, keys).Reached? <==> forall i :: 0 <= i < |keys| ==> PresentAt(v, keys, i)
    decreases |keys|
  {
    if keys != [] {
      var n := |keys| - 1;
      var init := keys[..n];
      ReachedIffAllPresent(v, init);
      WalkAppend(v, init, [keys[n]]);
      assert init + [keys[n]] == keys;
      forall i | 0 <= i < n
        ensures PresentAt(v, keys, i) == PresentAt(v, init, i)
      {
        assert keys[..i] == init[..i];
      }
      assert keys[..n] == init;
      match Walk(v, init)
      case Reached(w) =>
        WalkOne(w, keys[n]);
        assert PresentAt(v, keys, n) <==> w.Dict? && keys[n] in w.fields;
      case MissingKey(d) =>
      case NotSubscriptable(d) =>
    }
  }

  /** A lookup fails with MissingKey at depth `d` exactly when the first `d` keys
      lead to a dictionary that lacks key `d`: the result is false at the first
      missing key. */
  lemma {:induction false} MissingKeyIsFirstMissing(v: Value, keys: seq<string>, d: nat)
    ensures Walk(v, keys) == MissingKey(d) <==>
      d < |keys| && Walk(v, keys[..d]).Reached? && Walk(v, keys[..d]).value.Dict? &&
      keys[d] !in Walk(v, keys[..d]).value.fields
  {
    if d < |keys| {
      WalkAppend(v, keys[..d], keys[d..]);
      assert keys[..d] + keys[d..] == keys;
      var l := Walk(v, keys[..d]);
      if l.Reached? && l.value.Dict? {
        assert keys[d..][0] == keys[d];
      }
      if Walk(v, keys) == MissingKey(d) {
        MissingDepthInRange(v, keys);
        match l
        case Reached(w) => MissingDepthAtStart(w, keys[d..]);
        case MissingKey(e) => MissingDepthInRange(v, keys[..d]);
        case NotSubscriptable(e) =>
      }
    } else {
      MissingDepthInRange(v, keys);
    }
  }

  /** The depth of a missing key is a position in the path. */
  lemma {:induction false} MissingDepthInRange(v: Value, keys: seq<string>)
    ensures Walk(v, keys).MissingKey? ==> Walk(v, keys).depth < |keys|
    ensures Walk(v, keys).NotSubscriptable? ==> Walk(v, keys).depth < |keys|
    decreases |keys|
  {
    if keys != [] && v.Dict? && keys[0] in v.fields {
      MissingDepthInRange(v.fields[keys[0]], keys[1..]);
    }
  }

  /** A walk that misses its first key fails at depth 0 and only there. */
  lemma {:induction false} MissingDepthAtStart(w: Value, rest: seq<string>)
    requires Walk(w, rest) == MissingKey(0)
    ensures rest != [] && w.Dict? && rest[0] !in w.fields
  {
    if rest != [] && w.Dict? && rest[0] in w.fields {
      match Walk(w.fields[rest[0]], rest[1..])
      case Reached(u) =>
      case MissingKey(e) =>
      case NotSubscriptable(e) =>
    }
  }

  const NotDictMessage := "keys_exists() expects dict as first argument."
  const NoKeysMessage := "keys_exists() expects at least two arguments, one given."

  /** Whether the path `keys` exists in the dictionary `element`. Raises
      AttributeError for a non-dictionary or an empty path, answers true when
      every key is found, false at the first missing key, and lets the TypeError
      of indexing a non-dictionary escape. `element` is a value and is not changed. */
  method KeysExists(element: Value, keys: seq<string>) returns (r: PyResult<bool>)
    ensures !element.Dict? ==> r == Raised(AttributeError(NotDictMessage))
    ensures element.Dict? && keys == [] ==> r == Raised(AttributeError(NoKeysMessage))
    ensures element.Dict? && keys != [] ==>
      (r == Returned(true) <==> Walk(element, keys).Reached?) &&
      (r == Returned(false) <==> Walk(element, keys).MissingKey?) &&
      (r == Raised(TypeError) <==> Walk(element, keys).NotSubscriptable?)
  {
    if !element.Dict? {
      return Raised(AttributeError(NotDictMessage));
    }
    if |keys| == 0 {
      return Raised(AttributeError(NoKeysMessage));
    }
    var current := element;
    var i := 0;
    while i < |keys|
      invariant 0 <= i <= |keys|
      invariant Walk(element, keys[..i]) == Reached(current)
    {
      var key := keys[i];
      WalkAppend(element, keys[..i], keys[i..]);
      assert keys[..i] + keys[i..] == keys;
      assert keys[i..][0] == key;
      if current.Dict? && key in current.fields {
        WalkAppend(element, keys[..i], [key]);
        WalkOne(current, key);
        assert keys[..i] + [key] == keys[..i + 1];
        current := current.fields[key];
      } else if current.Dict? {
        return Returned(false);
      } else {
        return Raised(TypeError);
      }
      i := i + 1;
    }
    assert keys[..i] == keys;
    return Returned(true);
  }
}
