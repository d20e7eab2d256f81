/**
 * `Array.prototype.filter` and the order-preserving sublist relation it
 * establishes. Every list operation of the pages (search filters, delete by
 * id) and the store's key order after a delete are instances of `Filter`.
 */
module Seqs {

  /** `a` is obtained from `b` by dropping some elements, keeping the order of the rest. */
  predicate Sublist<T(==)>(a: seq<T>, b: seq<T>)
    decreases |b|
  {
    if a == [] then true
    else if b == [] then false
    else if a[0] == b[0] then Sublist(a[1..], b[1..])
    else Sublist(a, b[1..])
  }

  /**
   * The elements of `s` that `keep` accepts, in their original order: every
   * copy of an accepted element is kept and no copy of a rejected one.
   */
  function Filter<T(==,!new)>(s: seq<T>, keep: T -> bool): (r: seq<T>)
    ensures |r| <= |s|
    ensures forall x :: multiset(r)[x] == if keep(x) then multiset(s)[x] else 0
    ensures Sublist(r, s)
  {
    if s == [] then []
    else
      var rest := Filter(s[1..], keep);
      assert s == [s[0]] + s[1..];
      assert multiset(s) == multiset{s[0]} + multiset(s[1..]);
      if keep(s[0]) then
        var r := [s[0]] + rest;
        assert multiset(r) == multiset{s[0]} + multiset(rest);
        r
      else
        rest
  }

  /** Membership in the filtered list: its elements are accepted elements of `s`, and every accepted element of `s` is in it. */
  lemma FilterMembers<T(!new)>(s: seq<T>, keep: T -> bool)
    ensures forall i :: 0 <= i < |Filter(s, keep)| ==> Filter(s, keep)[i] in s && keep(Filter(s, keep)[i])
    ensures forall i :: 0 <= i < |s| && keep(s[i]) ==> s[i] in Filter(s, keep)
  {
    var r := Filter(s, keep);
    forall i | 0 <= i < |r| ensures r[i] in s && keep(r[i]) {
      assert multiset(r)[r[i]] > 0;
    }
    forall i | 0 <= i < |s| && keep(s[i]) ensures s[i] in r {
      assert multiset(s)[s[i]] > 0;
    }
  }

  /** When `keep` accepts every element, filtering returns the list unchanged. */
  lemma {:induction false} FilterKeepsAll<T(!new)>(s: seq<T>, keep: T -> bool)
    requires forall i :: 0 <= i < |s| ==> keep(s[i])
    ensures Filter(s, keep) == s
  {
    if s != [] {
      assert forall i :: 0 <= i < |s[1..]| ==> s[1..][i] == s[i + 1];
      FilterKeepsAll(s[1..], keep);
      assert [s[0]] + s[1..] == s;
    }
  }

  /** Filtering preserves the absence of duplicates. */
  lemma {:induction false} FilterNoDuplicates<T(!new)>(s: seq<T>, keep: T -> bool)
    requires NoDuplicates(s)
    ensures NoDuplicates(Filter(s, keep))
  {
    if s != [] {
      assert NoDuplicates(s[1..]) by {
        forall i, j | 0 <= i < j < |s[1..]| ensures s[1..][i] != s[1..][j] {
          assert s[1..][i] == s[i + 1] && s[1..][j] == s[j + 1];
        }
      }
      FilterNoDuplicates(s[1..], keep);
      var rest := Filter(s[1..], keep);
      if keep(s[0]) {
        assert s[0] !in s[1..] by {
          forall k | 0 <= k < |s[1..]| ensures s[1..][k] != s[0] {
            assert s[1..][k] == s[k + 1];
          }
        }
        assert s[0] !in rest;
        var r := [s[0]] + rest;
        forall i, j | 0 <= i < j < |r| ensures r[i] != r[j] {
          if i == 0 {
            assert r[j] == rest[j - 1];
          } else {
            assert r[i] == rest[i - 1] && r[j] == rest[j - 1];
          }
        }
      }
    }
  }

  /** No element occurs twice. */
  predicate NoDuplicates<T(==)>(s: seq<T>) {
    forall i, j :: 0 <= i < j < |s| ==> s[i] != s[j]
  }
}
