/** Values shared by both handlers: optional values, the JSON-like values the
    AWS APIs return, the Python exceptions the handlers raise or catch, and two
    sequence helpers (list concatenation by `extend`, and "last assignment wins"). */
module Common {

  datatype Option<+T> = None | Some(value: T) {
    /** `d.get(key, default)` on an optional entry. */
    function GetOr(default: T): T {
      match this
      case Some(v) => v
      case None => default
    }
  }

  /** A Python value as it appears in an API response (a parsed JSON document). */
  datatype Value =
    | Bool(b: bool)
    | Int(i: int)
    | Str(s: string)
    | List(items: seq<Value>)
    | Dict(fields: map<string, Value>)
    | Null

  /** Python truthiness, as used by `if value:`. */
  predicate Truthy(v: Value) {
    match v
    case Bool(b) => b
    case Int(i) => i != 0
    case Str(s) => s != ""
    case List(items) => items != []
    case Dict(fields) => |fields| != 0
    case Null => false
  }

  /** The exceptions the two handlers raise or catch. `ClientError` is botocore's
      error for a failed AWS call; `ValueError` is the CSV writer rejecting a row
      with the listed keys outside its fieldnames; `PlainException` is a bare
      `Exception(message)`. */
  datatype Exc =
    | ClientError(operation: string)
    | KeyError(key: string)
    | IndexError
    | TypeError
    | AttributeError(message: string)
    | UnboundLocalError(name: string)
    | ValueError(fields: set<string>)
    | PlainException(message: string)

  /** The outcome of a Python call: a returned value or a raised exception. */
  datatype PyResult<+T> = Returned(value: T) | Raised(exc: Exc)

  /** The list built by `xs = []; for page in pages: xs.extend(page)`. */
  function Concat<T>(pages: seq<seq<T>>): seq<T> {
    if pages == [] then [] else Concat(pages[..|pages| - 1]) + pages[|pages| - 1]
  }

  /** Extending with more pages only appends: earlier accumulations are prefixes of later ones. */
  lemma {:induction false} ConcatGrows<T>(pages: seq<seq<T>>, p: nat, q: nat)
    requires p <= q <= |pages|
    ensures Concat(pages[..p]) <= Concat(pages[..q])
    ensures |Concat(pages[..p])| <= |Concat(pages[..q])|
  {
    if p < q {
      ConcatGrows(pages, p, q - 1);
      assert pages[..q][..q - 1] == pages[..q - 1];
    }
  }

  /** The value left in a variable that a loop overwrites whenever the current
      element offers one (`if cond: x = ...`, with no `break`); `None` when no
      iteration assigns it. */
  function LastSome<T>(opts: seq<Option<T>>): Option<T> {
    if opts == [] then None
    else if opts[|opts| - 1].Some? then opts[|opts| - 1]
    else LastSome(opts[..|opts| - 1])
  }

  /** `k` is the last position that offers a value. */
  predicate IsLastSome<T>(opts: seq<Option<T>>, k: int) {
    0 <= k < |opts| && opts[k].Some? && forall m :: k < m < |opts| ==> opts[m].None?
  }

  /** LastSome picks the value at the last position that offers one, and is
      `None` exactly when no position does. */
  lemma {:induction false} LastSomeIsLast<T>(opts: seq<Option<T>>)
    ensures LastSome(opts).None? <==> forall k :: 0 <= k < |opts| ==> opts[k].None?
    ensures forall k :: IsLastSome(opts, k) ==> LastSome(opts) == opts[k]
  {
    if opts != [] {
      var n := |opts| - 1;
      var init := opts[..n];
      LastSomeIsLast(init);
      assert forall k :: 0 <= k < n ==> init[k] == opts[k];
      forall k | IsLastSome(opts, k)
        ensures LastSome(opts) == opts[k]
      {
        if k < n {
          assert IsLastSome(init, k);
        }
      }
    }
  }
}
