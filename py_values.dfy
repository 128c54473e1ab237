/** Python values as the scrapers see them: optional values, exceptions that
    escape a call, decoded JSON documents and scalar table cells. */
module PyValues {

  datatype Option<T> = None | Some(value: T)

  /** The exceptions that the modelled code lets propagate. */
  datatype Exc = KeyError | TypeError | ValueError | SyntaxError | AttributeError | ValidationError

  /** The outcome of a Python call: a returned value or a raised exception. */
  datatype Py<T> = Value(value: T) | Raise(exc: Exc)

  /** A decoded JSON document; JSON numbers that are not integers are not modelled.
      Objects keep their keys in document order, as Python dictionaries do. */
  datatype Json =
    | JNull
    | JBool(b: bool)
    | JInt(i: int)
    | JStr(s: string)
    | JList(items: seq<Json>)
    | JDict(fields: seq<(string, Json)>)

  /** One scalar cell of a table read from the database (NaN floats are not modelled). */
  datatype Cell = CNone | CBool(b: bool) | CInt(i: int) | CStr(s: string)

  /** One row of a pandas DataFrame: its cell under each column. */
  type FrameRow = map<string, Cell>

  /** Every row of a DataFrame has exactly the frame's columns. */
  predicate Framed(columns: set<string>, rows: seq<FrameRow>)
  {
    forall i :: 0 <= i < |rows| ==> rows[i].Keys == columns
  }

  /** Python truthiness of a JSON value. */
  predicate Truthy(j: Json)
  {
    match j
    case JNull => false
    case JBool(b) => b
    case JInt(i) => i != 0
    case JStr(s) => s != ""
    case JList(xs) => xs != []
    case JDict(fs) => fs != []
  }

  /** The keys of a JSON object, in order. */
  function Keys(fields: seq<(string, Json)>): (ks: seq<string>)
    ensures |ks| == |fields|
    ensures forall i :: 0 <= i < |fields| ==> ks[i] == fields[i].0
  {
    if fields == [] then [] else [fields[0].0] + Keys(fields[1..])
  }

  /** Dictionary lookup: the value stored under `key`, if any. */
  function Lookup(fields: seq<(string, Json)>, key: string): (r: Option<Json>)
    ensures r.None? <==> key !in Keys(fields)
    ensures r.Some? ==> (key, r.value) in fields
  {
    if fields == [] then None
    else if fields[0].0 == key then Some(fields[0].1)
    else Lookup(fields[1..], key)
  }

  /** A JSON object as keyword arguments (`**d`): each key with its value. */
  function Kwargs(fields: seq<(string, Json)>): (kw: map<string, Json>)
    ensures forall k :: k in kw <==> k in Keys(fields)
    ensures forall k :: k in kw ==> Lookup(fields, k) == Some(kw[k])
  {
    if fields == [] then map[] else Kwargs(fields[1..])[fields[0].0 := fields[0].1]
  }

  /** The values of a JSON object, in order (`d.values()`). */
  function Values(fields: seq<(string, Json)>): (vs: seq<Json>)
    ensures |vs| == |fields| && forall i :: 0 <= i < |fields| ==> vs[i] == fields[i].1
  {
    seq(|fields|, i requires 0 <= i < |fields| => fields[i].1)
  }

  /** Python's `j[key]` with a string key: a dictionary yields its entry or
      raises KeyError; every other JSON value raises TypeError. */
  function Index(j: Json, key: string): (r: Py<Json>)
    ensures r.Raise? ==> r.exc == (if j.JDict? then KeyError else TypeError)
    ensures r.Value? <==> j.JDict? && key in Keys(j.fields)
  {
    match j
    case JDict(fs) => (match Lookup(fs, key) case Some(v) => Value(v) case None => Raise(KeyError))
    case _ => Raise(TypeError)
  }

  /** Python's `d.get(key, default)`: non-dictionaries have no `get`. */
  function GetOr(j: Json, key: string, default: Json): (r: Py<Json>)
    ensures r.Raise? <==> !j.JDict?
    ensures j.JDict? && key !in Keys(j.fields) ==> r == Value(default)
  {
    match j
    case JDict(fs) => (match Lookup(fs, key) case Some(v) => Value(v) case None => Value(default))
    case _ => Raise(AttributeError)
  }

  /** Applies `f` to each element in order, as a loop that appends each
      result would; the first exception stops the loop and propagates. */
  function MapPy<A, B>(f: A -> Py<B>, xs: seq<A>): Py<seq<B>>
  {
    if xs == [] then Value([])
    else match f(xs[0])
      case Raise(e) => Raise(e)
      case Value(y) =>
        match MapPy(f, xs[1..])
        case Raise(e) => Raise(e)
        case Value(ys) => Value([y] + ys)
  }

  /** The map succeeds iff every call does, and then holds each call's
      result at its element's position; otherwise it raises the exception
      of some call. */
  lemma {:induction false} MapPyElementwise<A, B>(f: A -> Py<B>, xs: seq<A>)
    ensures var r := MapPy(f, xs);
      && (r.Value? ==> |r.value| == |xs| && forall i :: 0 <= i < |xs| ==> f(xs[i]) == Value(r.value[i]))
      && (r.Value? <==> forall i :: 0 <= i < |xs| ==> f(xs[i]).Value?)
      && (r.Raise? ==> exists i :: 0 <= i < |xs| && f(xs[i]) == Raise(r.exc))
  {
    if xs != [] {
      var tail := xs[1..];
      MapPyElementwise(f, tail);
      assert forall i :: 1 <= i < |xs| ==> xs[i] == tail[i - 1];
      match f(xs[0])
      case Raise(e) =>
      case Value(y) =>
        match MapPy(f, tail)
        case Raise(e) =>
          var j :| 0 <= j < |tail| && f(tail[j]) == Raise(e);
          assert f(xs[j + 1]) == Raise(e);
        case Value(ys) =>
          var r := [y] + ys;
          assert MapPy(f, xs) == Value(r);
          forall i | 0 <= i < |xs|
            ensures f(xs[i]) == Value(r[i])
          {
            if i > 0 {
              assert r[i] == ys[i - 1];
            }
          }
    }
  }

  /** Mapping over one element is calling `f` on it. */
  lemma MapPyOne<A, B>(f: A -> Py<B>, x: A)
    ensures MapPy(f, [x]) == match f(x) case Raise(e) => Raise(e) case Value(y) => Value([y])
  {
    assert [x][1..] == [];
    if f(x).Value? {
      assert [f(x).value] + [] == [f(x).value];
    }
  }

  /** Mapping over a concatenation maps the first part, then the second,
      and the first exception met is the one raised. */
  lemma {:induction false} MapPyAppend<A, B>(f: A -> Py<B>, a: seq<A>, b: seq<A>)
    ensures MapPy(f, a + b) ==
      match MapPy(f, a)
      case Raise(e) => Raise(e)
      case Value(ys) => (match MapPy(f, b) case Raise(e) => Raise(e) case Value(zs) => Value(ys + zs))
  {
    if a == [] {
      assert a + b == b;
      if MapPy(f, b).Value? {
        assert [] + MapPy(f, b).value == MapPy(f, b).value;
      }
    } else {
      var ab := a + b;
      assert ab[0] == a[0] && ab[1..] == a[1..] + b;
      MapPyAppend(f, a[1..], b);
      match f(a[0])
      case Raise(e) =>
      case Value(y) =>
        match MapPy(f, a[1..])
        case Raise(e) =>
        case Value(ys) =>
          match MapPy(f, b)
          case Raise(e) =>
          case Value(zs) =>
            assert MapPy(f, ab) == Value([y] + (ys + zs));
            assert [y] + (ys + zs) == ([y] + ys) + zs;
    }
  }

  /** The concatenation of a sequence of sequences. */
  function Concat<T>(xss: seq<seq<T>>): seq<T>
  {
    if xss == [] then [] else xss[0] + Concat(xss[1..])
  }

  lemma {:induction false} ConcatAppend<T>(xss: seq<seq<T>>, yss: seq<seq<T>>)
    ensures Concat(xss + yss) == Concat(xss) + Concat(yss)
  {
    if xss == [] {
      assert xss + yss == yss;
    } else {
      assert (xss + yss)[1..] == xss[1..] + yss;
      ConcatAppend(xss[1..], yss);
    }
  }

  lemma {:induction false} ConcatLength<T>(xss: seq<seq<T>>, n: nat)
    requires forall i :: 0 <= i < |xss| ==> |xss[i]| == n
    ensures |Concat(xss)| == |xss| * n
  {
    if xss != [] {
      ConcatLength(xss[1..], n);
    }
  }

  /** The present values of a sequence of options, in order (Python's `filter(None, ...)`
      over results that are either a truthy object or None). */
  function Somes<T>(xs: seq<Option<T>>): (r: seq<T>)
    ensures |r| <= |xs|
  {
    if xs == [] then []
    else if xs[0].Some? then [xs[0].value] + Somes(xs[1..])
    else Somes(xs[1..])
  }

  /** `filter(None, ...)` keeps the present values in their order and with
      their multiplicity: it distributes over concatenation, keeps a present
      value and drops None. */
  lemma {:induction false} SomesAppend<T>(a: seq<Option<T>>, b: seq<Option<T>>)
    ensures Somes(a + b) == Somes(a) + Somes(b)
    ensures forall x: T :: Somes([Some(x)]) == [x]
    ensures Somes<T>([None]) == []
  {
    if a == [] {
      assert a + b == b;
    } else {
      assert (a + b)[0] == a[0];
      assert (a + b)[1..] == a[1..] + b;
      SomesAppend(a[1..], b);
      if a[0].Some? {
        assert [a[0].value] + (Somes(a[1..]) + Somes(b)) == ([a[0].value] + Somes(a[1..])) + Somes(b);
      }
    }
    forall x: T
      ensures Somes([Some(x)]) == [x]
    {
      assert [Some(x)][1..] == [];
    }
    var none: seq<Option<T>> := [None];
    assert none[1..] == [];
  }

  lemma {:induction false} SomesMember<T>(xs: seq<Option<T>>, y: T)
    ensures y in Somes(xs) <==> Some(y) in xs
  {
    if xs != [] {
      SomesMember(xs[1..], y);
      assert xs == [xs[0]] + xs[1..];
    }
  }

  lemma {:induction false} SomesAllPresent<T>(xs: seq<Option<T>>)
    requires forall i :: 0 <= i < |xs| ==> xs[i].Some?
    ensures |Somes(xs)| == |xs|
    ensures forall i :: 0 <= i < |xs| ==> Somes(xs)[i] == xs[i].value
  {
    if xs != [] {
      SomesAllPresent(xs[1..]);
    }
  }

  /** The elements that satisfy `keep`, in order (a boolean-mask selection
      `df[mask]`, or `filter`). */
  function Filter<T(!new)>(xs: seq<T>, keep: T -> bool): (r: seq<T>)
    ensures |r| <= |xs|
    ensures forall x :: x in r <==> x in xs && keep(x)
  {
    if xs == [] then []
    else if keep(xs[0]) then [xs[0]] + Filter(xs[1..], keep)
    else Filter(xs[1..], keep)
  }

  /** The number of elements that satisfy `keep` (a boolean Series' `sum()`). */
  function CountWhere<T>(xs: seq<T>, keep: T -> bool): nat
  {
    if xs == [] then 0 else (if keep(xs[0]) then 1 else 0) + CountWhere(xs[1..], keep)
  }

  /** Counting the matches and selecting them agree. */
  lemma {:induction false} CountIsFilterLength<T(!new)>(xs: seq<T>, keep: T -> bool)
    ensures CountWhere(xs, keep) == |Filter(xs, keep)|
  {
    if xs != [] {
      CountIsFilterLength(xs[1..], keep);
    }
  }

  /** Selecting twice in a row is selecting once by both conditions. */
  lemma {:induction false} FilterThenFilter<T(!new)>(xs: seq<T>, p: T -> bool, q: T -> bool, both: T -> bool)
    requires forall x :: both(x) == (p(x) && q(x))
    ensures Filter(Filter(xs, p), q) == Filter(xs, both)
  {
    if xs != [] {
      FilterThenFilter(xs[1..], p, q, both);
      if p(xs[0]) {
        assert Filter(xs, p) == [xs[0]] + Filter(xs[1..], p);
        assert ([xs[0]] + Filter(xs[1..], p))[1..] == Filter(xs[1..], p);
      }
    }
  }

  /** Selection keeps the selected elements in their original order:
      selecting from a concatenation selects from each part in turn. */
  lemma {:induction false} FilterAppend<T(!new)>(a: seq<T>, b: seq<T>, keep: T -> bool)
    ensures Filter(a + b, keep) == Filter(a, keep) + Filter(b, keep)
  {
    if a == [] {
      assert a + b == b;
    } else {
      assert (a + b)[0] == a[0] && (a + b)[1..] == a[1..] + b;
      FilterAppend(a[1..], b, keep);
    }
  }
}
