/**
 * The two collection queries every listing route uses:
 * `Model.find(filter)` and `.sort({ createdAt: -1 })`.
 * The record type is a parameter; `stamp` reads its `createdAt`.
 */
module Query {

  /** `Model.find(filter)`: the records satisfying `keep`, each as often as it is stored. */
  function Filter<T(!new)>(s: seq<T>, keep: T -> bool): (r: seq<T>)
    ensures forall x :: multiset(r)[x] == if keep(x) then multiset(s)[x] else 0
    ensures forall i :: 0 <= i < |r| ==> keep(r[i])
  {
    if s == [] then []
    else
      assert s == [s[0]] + s[1..];
      var rest := Filter(s[1..], keep);
      if keep(s[0]) then [s[0]] + rest else rest
  }

  /** Newest first: along the sequence `createdAt` never increases. */
  ghost predicate NewestFirstOrder<T>(s: seq<T>, stamp: T -> int) {
    forall i, j :: 0 <= i < j < |s| ==> stamp(s[i]) >= stamp(s[j])
  }

  /** Places `x` in a newest-first sequence, ahead of any record with the same `createdAt`. */
  function InsertByStamp<T>(x: T, s: seq<T>, stamp: T -> int): (r: seq<T>)
    requires NewestFirstOrder(s, stamp)
    ensures NewestFirstOrder(r, stamp)
    ensures multiset(r) == multiset(s) + multiset{x}
    ensures forall i :: 0 <= i < |r| ==> r[i] == x || r[i] in s
  {
    if s == [] || stamp(x) >= stamp(s[0]) then [x] + s
    else
      assert s == [s[0]] + s[1..];
      [s[0]] + InsertByStamp(x, s[1..], stamp)
  }

  /**
   * `.sort({ createdAt: -1 })`: the same records, newest first. The database
   * does not promise an order among equal `createdAt`; this is one fixed choice.
   */
  function NewestFirst<T>(s: seq<T>, stamp: T -> int): (r: seq<T>)
    ensures NewestFirstOrder(r, stamp)
    ensures multiset(r) == multiset(s)
  {
    if s == [] then []
    else
      assert s == [s[0]] + s[1..];
      InsertByStamp(s[0], NewestFirst(s[1..], stamp), stamp)
  }

  /** A filter that keeps every record lists the whole collection. */
  lemma {:induction false} FilterKeepAll<T(!new)>(s: seq<T>, keep: T -> bool)
    requires forall i :: 0 <= i < |s| ==> keep(s[i])
    ensures Filter(s, keep) == s
  {
    if s != [] {
      FilterKeepAll(s[1..], keep);
    }
  }

  /** A narrower filter never lists a record more often than a wider one. */
  lemma FilterNarrower<T(!new)>(s: seq<T>, narrow: T -> bool, wide: T -> bool)
    requires forall x :: narrow(x) ==> wide(x)
    ensures multiset(Filter(s, narrow)) <= multiset(Filter(s, wide))
  {
  }
}
