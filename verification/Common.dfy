// What every other module shares: optional values, object keys, outcomes of calls, and filtering
// and counting of sequences.
module Common {

  datatype Option<+T> = None | Some(value: T)

  // A namespaced name (types.NamespacedName).
  datatype Key = Key(ns: string, name: string)

  // The answer of a call that may fail with an error message.
  datatype Outcome = Pass | Fail(error: string)

  /** The number of elements of s that satisfy p. */
  function Count<T(!new)>(s: seq<T>, p: T -> bool): (n: nat)
    ensures n <= |s|
  {
    if s == [] then 0 else Count(s[1..], p) + if p(s[0]) then 1 else 0
  }

  /** The elements of s that satisfy p, in order. */
  function Filter<T(!new)>(s: seq<T>, p: T -> bool): (r: seq<T>)
    ensures forall x :: x in r <==> x in s && p(x)
  {
    if s == [] then []
    else if p(s[0]) then [s[0]] + Filter(s[1..], p)
    else Filter(s[1..], p)
  }

  lemma {:induction false} FilterConcat<T(!new)>(a: seq<T>, b: seq<T>, p: T -> bool)
    ensures Filter(a + b, p) == Filter(a, p) + Filter(b, p)
  {
    if a == [] {
      assert a + b == b;
    } else {
      assert (a + b)[1..] == a[1..] + b;
      FilterConcat(a[1..], b, p);
    }
  }

  /** A sequence without repetitions is as long as the set of its elements is large. */
  lemma {:induction false} DistinctSize<T>(s: seq<T>, elements: set<T>)
    requires forall i, j :: 0 <= i < j < |s| ==> s[i] != s[j]
    requires forall x :: x in s <==> x in elements
    ensures |s| == |elements|
  {
    if s == [] {
      assert elements == {};
    } else {
      var last, rest := s[|s| - 1], s[..|s| - 1];
      assert s == rest + [last];
      DistinctSize(rest, elements - {last});
    }
  }
}
