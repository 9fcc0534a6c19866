/** Values shared by every module: Python's dynamically typed dictionary values,
    the exceptions the core can raise, and Python's list slicing. */
module Base {

  datatype Option<+T> = None | Some(value: T) {
    /** `x or default` for an optional argument. */
    function GetOr(default: T): T {
      match this
      case Some(v) => v
      case None => default
    }
  }

  /** Success or failure, usable with `:-`. */
  datatype Result<+R, +E> = Success(value: R) | Failure(error: E) {
    predicate IsFailure() {
      Failure?
    }

    function PropagateFailure<U>(): Result<U, E>
      requires Failure?
    {
      Failure(error)
    }

    function Extract(): R
      requires Success?
    {
      value
    }
  }

  /** A value stored in a filter dictionary or a product payload. */
  datatype Value =
    | Str(s: string)
    | Int(i: int)
    | Real(r: real)
    | List(items: seq<Value>)
    | Dict(entries: map<string, Value>)
    | Null

  /** A Python `Dict[str, Any]`: filters, payloads, formatted hits. */
  type Dict = map<string, Value>

  /** The Python exceptions that the modelled code can raise. */
  datatype Fault =
    | KeyError(key: string)          // `d[key]` on a missing key
    | TypeError(key: string)         // arithmetic on a value that is not a number
    | AttributeError(key: string)    // `.lower()` on a value that is not a string
    | MathDomainError                // `math.log` of a non-positive number
    | ZeroDivisionError              // division by a zero logarithm

  /** The number a Python `int` or `float` stands for; None for anything else. */
  function AsNumber(v: Value): (n: Option<real>)
    ensures n.Some? <==> v.Int? || v.Real?
    ensures v.Int? ==> n == Some(v.i as real)
    ensures v.Real? ==> n == Some(v.r)
  {
    match v
    case Int(i) => Some(i as real)
    case Real(r) => Some(r)
    case _ => None
  }

  /** `d[key]`, raising KeyError when the key is missing. */
  function Lookup(d: Dict, key: string): (r: Result<Value, Fault>)
    ensures r.Success? <==> key in d
    ensures r.Success? ==> r.value == d[key]
    ensures r.Failure? ==> r.error == KeyError(key)
  {
    if key in d then Success(d[key]) else Failure(KeyError(key))
  }

  /** A loop that applies f to each element in order and stops at the first
      exception: all the results, or that exception. */
  function Collect<T, U>(xs: seq<T>, f: T -> Result<U, Fault>): (r: Result<seq<U>, Fault>)
    ensures r.Success? ==> |r.value| == |xs|
    ensures r.Success? <==> forall i :: 0 <= i < |xs| ==> f(xs[i]).Success?
    ensures r.Success? ==> forall i :: 0 <= i < |xs| ==> r.value[i] == f(xs[i]).value
  {
    if xs == [] then Success([])
    else
      var first :- f(xs[0]);
      var rest :- Collect(xs[1..], f);
      assert forall i :: 1 <= i < |xs| ==> xs[i] == xs[1..][i - 1];
      Success([first] + rest)
  }

  /** The exception raised is that of the first element that fails. */
  lemma {:induction false} CollectFirstFault<T, U>(xs: seq<T>, f: T -> Result<U, Fault>, i: nat)
    requires i < |xs|
    requires forall j :: 0 <= j < i ==> f(xs[j]).Success?
    requires f(xs[i]).Failure?
    ensures Collect(xs, f) == Failure(f(xs[i]).error)
    decreases i
  {
    if i > 0 {
      assert forall j :: 0 <= j < i - 1 ==> xs[1..][j] == xs[j + 1];
      CollectFirstFault(xs[1..], f, i - 1);
    }
  }

  /** When every element succeeds, the results are exactly theirs, in order. */
  lemma CollectSuccess<T, U>(xs: seq<T>, f: T -> Result<U, Fault>, ys: seq<U>)
    requires |ys| == |xs|
    requires forall j :: 0 <= j < |xs| ==> f(xs[j]).Success? && ys[j] == f(xs[j]).value
    ensures Collect(xs, f) == Success(ys)
  {
    assert Collect(xs, f).value == ys;
  }

  /** `d.get(key, default)`. */
  function GetOrDefault(d: Dict, key: string, default: Value): Value {
    if key in d then d[key] else default
  }

  function Min(a: int, b: int): int { if a <= b then a else b }

  function Max(a: int, b: int): int { if a >= b then a else b }

  /** Python's `s[:k]`: a negative k drops the last -k elements. */
  function PyTake<T>(s: seq<T>, k: int): (r: seq<T>)
    ensures k >= 0 ==> |r| == Min(k, |s|)
    ensures k < 0 ==> |r| == Max(0, |s| + k)
    ensures r == s[..|r|]
  {
    if k >= 0 then (if k <= |s| then s[..k] else s)
    else if |s| + k >= 0 then s[..|s| + k]
    else []
  }
}
