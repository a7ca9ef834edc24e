/** The slice of Python's dynamic values that the automata callbacks read out
    of their context dictionary, with the truthiness, equality, ordering and
    membership tests the callbacks rely on. An operation Python rejects with
    a TypeError yields None here. */
module PyValues {
  import opened Common

  datatype PyValue =
    | PyNone
    | PyBool(b: bool)
    | PyInt(i: int)
    | PyStr(s: string)
    /** A `datetime`, as a count of seconds on one clock. */
    | PyTime(seconds: int)
    | PyList(items: seq<PyValue>)
    | PyDict(entries: map<string, PyValue>)
    /** A reference to an object the callbacks do not look inside. */
    | PyObject(tag: string)

  /** The keyword dictionary handed to condition and action callbacks. */
  type Context = map<string, PyValue>

  /** What a callback call did: returned a value or raised an exception. */
  datatype Outcome = Returned(value: PyValue) | Raised(error: string)

  /** The observable effect of running an action callback. */
  datatype Effect = Performed(what: string) | Failed(error: string)

  type Condition = Context -> Outcome
  type Action = Context -> Effect

  /** `dict.get(key, default)`. */
  function Get(ctx: Context, key: string, default: PyValue): (v: PyValue)
    ensures key in ctx ==> v == ctx[key]
    ensures key !in ctx ==> v == default
  {
    if key in ctx then ctx[key] else default
  }

  /** `bool(v)`. */
  predicate IsTruthy(v: PyValue) {
    match v
    case PyNone => false
    case PyBool(b) => b
    case PyInt(i) => i != 0
    case PyStr(s) => s != ""
    case PyTime(_) => true
    case PyList(items) => items != []
    case PyDict(entries) => entries != map[]
    case PyObject(_) => true
  }

  /** The numeric value of an `int` or a `bool` (a subclass of `int`). */
  function AsNumber(v: PyValue): (r: Option<int>)
    ensures r.Some? <==> v.PyInt? || v.PyBool?
  {
    match v
    case PyInt(i) => Some(i)
    case PyBool(b) => Some(if b then 1 else 0)
    case _ => None
  }

  /** `a == b`: numbers compare by value across `bool` and `int`, lists
      item by item and dictionaries key by key with `==` again; every other
      pair compares structurally. */
  predicate PyEq(a: PyValue, b: PyValue)
    decreases a
  {
    if AsNumber(a).Some? && AsNumber(b).Some? then AsNumber(a) == AsNumber(b)
    else match (a, b)
      case (PyList(x), PyList(y)) => |x| == |y| && forall k :: 0 <= k < |x| ==> PyEq(x[k], y[k])
      case (PyDict(x), PyDict(y)) => x.Keys == y.Keys && forall key :: key in x ==> PyEq(x[key], y[key])
      case _ => a == b
  }

  /** Every value equals itself. */
  lemma {:induction false} PyEqReflexive(v: PyValue)
    ensures PyEq(v, v)
    decreases v
  {
    match v
    case PyList(x) =>
      forall k | 0 <= k < |x|
        ensures PyEq(x[k], x[k])
      {
        PyEqReflexive(x[k]);
      }
    case PyDict(x) =>
      forall key | key in x
        ensures PyEq(x[key], x[key])
      {
        PyEqReflexive(x[key]);
      }
    case _ =>
  }

  lemma PyEqString(v: PyValue, s: string)
    ensures PyEq(v, PyStr(s)) <==> v == PyStr(s)
  {
  }

  /** Python's code-point ordering of strings. */
  predicate StrLess(a: string, b: string) {
    if a == [] then b != []
    else if b == [] then false
    else if a[0] != b[0] then a[0] < b[0]
    else StrLess(a[1..], b[1..])
  }

  lemma {:induction false} StrLessIrreflexive(a: string)
    ensures !StrLess(a, a)
  {
    if a != [] {
      StrLessIrreflexive(a[1..]);
    }
  }

  /** `a > b` (`strict`) or `a >= b`; None where Python raises a
      TypeError. Numbers, datetimes and strings compare as usual; two lists
      compare at the first position where their items differ by `==`, and
      by length when one is a prefix of the other. */
  function PyOrder(a: PyValue, b: PyValue, strict: bool): (r: Option<bool>)
    decreases a, 1, 0
  {
    if AsNumber(a).Some? && AsNumber(b).Some? then
      Some(if strict then AsNumber(a).value > AsNumber(b).value else AsNumber(a).value >= AsNumber(b).value)
    else match (a, b)
      case (PyTime(x), PyTime(y)) => Some(if strict then x > y else x >= y)
      case (PyStr(x), PyStr(y)) => Some(StrLess(y, x) || (!strict && x == y))
      case (PyList(x), PyList(y)) => ListOrder(x, y, 0, strict)
      case _ => None
  }

  /** Python's list comparison from position `i` on. */
  function ListOrder(x: seq<PyValue>, y: seq<PyValue>, i: nat, strict: bool): (r: Option<bool>)
    requires i <= |x| && i <= |y|
    decreases PyList(x), 0, |x| - i
  {
    if i == |x| || i == |y| then Some(if strict then |x| > |y| else |x| >= |y|)
    else if !PyEq(x[i], y[i]) then PyOrder(x[i], y[i], strict)
    else ListOrder(x, y, i + 1, strict)
  }

  /** `a > b`; None where Python raises a TypeError. */
  function PyGreater(a: PyValue, b: PyValue): (r: Option<bool>)
    ensures a.PyTime? && b.PyTime? ==> r == Some(a.seconds > b.seconds)
    ensures AsNumber(a).Some? && AsNumber(b).Some? ==> r == Some(AsNumber(a).value > AsNumber(b).value)
    ensures a.PyStr? && b.PyStr? ==> r == Some(StrLess(b.s, a.s))
    ensures r.Some? ==> (AsNumber(a).Some? && AsNumber(b).Some?) || (a.PyTime? && b.PyTime?) ||
                        (a.PyStr? && b.PyStr?) || (a.PyList? && b.PyList?)
  {
    PyOrder(a, b, true)
  }

  /** `a >= b`; None where Python raises a TypeError. */
  function PyGreaterEq(a: PyValue, b: PyValue): (r: Option<bool>)
    ensures a.PyTime? && b.PyTime? ==> r == Some(a.seconds >= b.seconds)
    ensures AsNumber(a).Some? && AsNumber(b).Some? ==> r == Some(AsNumber(a).value >= AsNumber(b).value)
    ensures a.PyStr? && b.PyStr? ==> r == Some(a == b || StrLess(b.s, a.s))
    ensures r.Some? ==> (AsNumber(a).Some? && AsNumber(b).Some?) || (a.PyTime? && b.PyTime?) ||
                        (a.PyStr? && b.PyStr?) || (a.PyList? && b.PyList?)
  {
    PyOrder(a, b, false)
  }

  /** Two lists that agree item by item up to the shorter length are
      ordered by their lengths. */
  lemma {:induction false} ListOrderOnPrefix(x: seq<PyValue>, y: seq<PyValue>, i: nat, strict: bool)
    requires i <= |x| && i <= |y|
    requires forall k :: i <= k < |x| && k < |y| ==> PyEq(x[k], y[k])
    ensures ListOrder(x, y, i, strict) == Some(if strict then |x| > |y| else |x| >= |y|)
    decreases |x| - i
  {
    if i < |x| && i < |y| {
      ListOrderOnPrefix(x, y, i + 1, strict);
    }
  }

  /** A list is `>=` itself and not `>` itself, as Python's
      lexicographic comparison gives. */
  lemma ListOrderReflexive(x: seq<PyValue>)
    ensures PyGreaterEq(PyList(x), PyList(x)) == Some(true)
    ensures PyGreater(PyList(x), PyList(x)) == Some(false)
  {
    forall k | 0 <= k < |x|
      ensures PyEq(x[k], x[k])
    {
      PyEqReflexive(x[k]);
    }
    ListOrderOnPrefix(x, x, 0, false);
    ListOrderOnPrefix(x, x, 0, true);
  }

  /** At the first position where two lists differ, that pair of items
      decides the comparison. */
  lemma {:induction false} ListOrderFirstDifference(x: seq<PyValue>, y: seq<PyValue>, i: nat, j: nat, strict: bool)
    requires i <= j < |x| && j < |y|
    requires forall k :: i <= k < j ==> PyEq(x[k], y[k])
    requires !PyEq(x[j], y[j])
    ensures ListOrder(x, y, i, strict) == PyOrder(x[j], y[j], strict)
    decreases j - i
  {
    if i < j {
      ListOrderFirstDifference(x, y, i + 1, j, strict);
    }
  }

  predicate IsPrefix(x: string, s: string) {
    |x| <= |s| && s[..|x|] == x
  }

  /** `x in s` for two strings: `x` occurs somewhere in `s`. */
  predicate IsSubstring(x: string, s: string)
    decreases |s|
  {
    IsPrefix(x, s) || (s != [] && IsSubstring(x, s[1..]))
  }

  lemma {:induction false} IsSubstringAt(x: string, s: string, i: nat)
    requires i + |x| <= |s| && s[i..i + |x|] == x
    ensures IsSubstring(x, s)
    decreases i
  {
    if i == 0 {
      assert s[..|x|] == s[0..|x|];
    } else {
      assert s[1..][i - 1..i - 1 + |x|] == s[i..i + |x|];
      IsSubstringAt(x, s[1..], i - 1);
    }
  }

  /** `item in container`; None where Python raises a TypeError (a container
      that is not iterable, an unhashable dictionary key, a non-string looked
      for in a string). */
  function PyContains(container: PyValue, item: PyValue): (r: Option<bool>)
    ensures container.PyList? ==> r == Some(exists k :: 0 <= k < |container.items| && PyEq(container.items[k], item))
    ensures container.PyDict? && item.PyStr? ==> r == Some(item.s in container.entries)
    ensures container.PyStr? && item.PyStr? ==> r == Some(IsSubstring(item.s, container.s))
    ensures !(container.PyList? || container.PyDict? || container.PyStr?) ==> r.None?
  {
    match container
    case PyList(items) => Some(exists k :: 0 <= k < |items| && PyEq(items[k], item))
    case PyDict(entries) =>
      (match item
       case PyStr(s) => Some(s in entries)
       case PyList(_) => None
       case PyDict(_) => None
       case _ => Some(false))
    case PyStr(s) => if item.PyStr? then Some(IsSubstring(item.s, s)) else None
    case _ => None
  }
}
