/** The document-store primitives the stores rely on, over a collection held
    as a sequence of rows in insertion order:
    `find_one` is FindFirst, `aggregate` is Filter, `insert_one` is `+ [row]`,
    and the `$setEquals` operator compares Elems of two lists. */
module Collections {
  import opened Common

  /** The set of values in a list: what `$setEquals` and Python's `set()` compare. */
  function Elems<T>(s: seq<T>): set<T> {
    set x | x in s
  }

  /** An empty set of values comes only from the empty list. */
  lemma {:induction false} ElemsEmpty<T>(s: seq<T>)
    ensures Elems(s) == {} <==> s == []
  {
    if s != [] {
      assert s[0] in Elems(s);
    }
  }

  /** `find_one`: the first row, in collection order, that satisfies `p`. */
  function FindFirst<T>(s: seq<T>, p: T -> bool): (r: Option<T>)
    ensures r.None? <==> forall i :: 0 <= i < |s| ==> !p(s[i])
    ensures r.Some? ==> r.value in s && p(r.value)
    ensures r.Some? ==> exists i :: 0 <= i < |s| && s[i] == r.value && forall j :: 0 <= j < i ==> !p(s[j])
  {
    if |s| == 0 then None
    else if p(s[0]) then Some(s[0])
    else FindFirst(s[1..], p)
  }

  /** `aggregate` with `$match` stages: the rows satisfying `p`, in collection order. */
  function Filter<T>(s: seq<T>, p: T -> bool): (r: seq<T>)
    ensures forall i :: 0 <= i < |r| ==> r[i] in s && p(r[i])
    ensures forall i :: 0 <= i < |s| && p(s[i]) ==> s[i] in r
    ensures |r| <= |s|
  {
    if |s| == 0 then []
    else if p(s[0]) then [s[0]] + Filter(s[1..], p)
    else Filter(s[1..], p)
  }

  /** The head of an aggregate result is what `find_one` with the same filter returns. */
  lemma {:induction false} FilterHeadIsFindFirst<T>(s: seq<T>, p: T -> bool)
    ensures |Filter(s, p)| > 0 <==> FindFirst(s, p).Some?
    ensures |Filter(s, p)| > 0 ==> Filter(s, p)[0] == FindFirst(s, p).value
  {
    if |s| > 0 && !p(s[0]) {
      FilterHeadIsFindFirst(s[1..], p);
    }
  }

  /** Two filters that agree on every row of the collection find the same row. */
  lemma {:induction false} FindFirstCongruent<T>(s: seq<T>, p: T -> bool, q: T -> bool)
    requires forall x :: x in s ==> p(x) == q(x)
    ensures FindFirst(s, p) == FindFirst(s, q)
  {
    if |s| > 0 {
      FindFirstCongruent(s[1..], p, q);
    }
  }

  /** Two filters that agree on every row of the collection select the same rows. */
  lemma {:induction false} FilterCongruent<T>(s: seq<T>, p: T -> bool, q: T -> bool)
    requires forall x :: x in s ==> p(x) == q(x)
    ensures Filter(s, p) == Filter(s, q)
  {
    if |s| > 0 {
      FilterCongruent(s[1..], p, q);
    }
  }

  /** Appending a row does not change which row `find_one` returns when one already matched. */
  lemma {:induction false} FindFirstAppendFound<T>(s: seq<T>, p: T -> bool, x: T)
    requires FindFirst(s, p).Some?
    ensures FindFirst(s + [x], p) == FindFirst(s, p)
  {
    if !p(s[0]) {
      assert (s + [x])[1..] == s[1..] + [x];
      FindFirstAppendFound(s[1..], p, x);
    }
  }

  /** When nothing matched, an appended matching row is what `find_one` returns. */
  lemma {:induction false} FindFirstAppendMissing<T>(s: seq<T>, p: T -> bool, x: T)
    requires FindFirst(s, p).None? && p(x)
    ensures FindFirst(s + [x], p) == Some(x)
  {
    if |s| > 0 {
      assert (s + [x])[1..] == s[1..] + [x];
      FindFirstAppendMissing(s[1..], p, x);
    }
  }
}
