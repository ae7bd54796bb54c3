/** Sequence helpers shared by the two tables: the row filter of a SQL `WHERE`, the first row of a result set, reversal. */
module Seqs {
  import opened Wrappers

  /** The elements of `s` satisfying `p`, in their original order (a `WHERE` clause over a table). */
  function Select<T(!new)>(s: seq<T>, p: T -> bool): (r: seq<T>)
    ensures |r| <= |s|
    ensures forall x :: x in r <==> x in s && p(x)
    ensures (forall i | 0 <= i < |s| :: p(s[i])) ==> r == s
  {
    if s == [] then []
    else if p(s[0]) then [s[0]] + Select(s[1..], p)
    else Select(s[1..], p)
  }

  /** The filter keeps every matching element exactly as often as it occurs, and drops the others. */
  lemma {:induction false} SelectCounts<T(!new)>(s: seq<T>, p: T -> bool)
    ensures forall x :: multiset(Select(s, p))[x] == if p(x) then multiset(s)[x] else 0
  {
    if s != [] {
      SelectCounts(s[1..], p);
      assert s == [s[0]] + s[1..];
    }
  }

  /** `result.rows[0]` of an unordered query: some matching element, or none when nothing matches. */
  function AnyMatch<T(!new)>(s: seq<T>, p: T -> bool): (r: Option<T>)
    ensures r.Some? ==> r.value in s && p(r.value)
    ensures r.None? <==> forall x | x in s :: !p(x)
  {
    var m := Select(s, p);
    if |m| > 0 then Some(m[0]) else None
  }

  /** `s` back to front. */
  function Reverse<T(!new)>(s: seq<T>): (r: seq<T>)
    ensures |r| == |s|
    ensures forall x :: x in r <==> x in s
    ensures forall i | 0 <= i < |s| :: r[i] == s[|s| - 1 - i]
  {
    if s == [] then [] else Reverse(s[1..]) + [s[0]]
  }

  /** A non-empty sequence has an element. */
  lemma NonEmptyHasElement<T(!new)>(s: seq<T>)
    ensures s != [] ==> exists x :: x in s
  {
    if s != [] {
      assert s[0] in s;
    }
  }

  /** Filtering twice with a weaker second filter is the first filter alone. */
  lemma {:induction false} SelectAbsorbs<T(!new)>(s: seq<T>, p: T -> bool, q: T -> bool)
    requires forall x :: q(x) ==> p(x)
    ensures Select(Select(s, p), q) == Select(s, q)
  {
    if s != [] {
      SelectAbsorbs(s[1..], p, q);
    }
  }
}
