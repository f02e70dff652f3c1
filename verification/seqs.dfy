/** Collection helpers: row selection by a boolean mask, as a data frame
    indexed with a boolean series does it (the kept rows, in their original
    order), and picking a member of a non-empty set. */
module Seqs {

  /** A member of a non-empty set. */
  lemma MemberOf<T>(s: set<T>) returns (x: T)
    requires s != {}
    ensures x in s
  {
    x :| x in s;
  }

  /** The elements of `s` that satisfy `keep`, in order. */
  function Filter<T>(s: seq<T>, keep: T -> bool): seq<T>
  {
    if s == [] then [] else (if keep(s[0]) then [s[0]] else []) + Filter(s[1..], keep)
  }

  /** An element is kept exactly when it occurs in the input and satisfies
      the mask, and then as often as it occurs in the input. */
  lemma {:induction false} FilterProperties<T(!new)>(s: seq<T>, keep: T -> bool)
    ensures |Filter(s, keep)| <= |s|
    ensures forall x :: x in Filter(s, keep) <==> x in s && keep(x)
    ensures forall x :: multiset(Filter(s, keep))[x] == if keep(x) then multiset(s)[x] else 0
  {
    if s != [] {
      FilterProperties(s[1..], keep);
      assert s == [s[0]] + s[1..];
    }
  }

  /** Filtering twice by the same mask keeps the same rows. */
  lemma {:induction false} FilterIdempotent<T>(s: seq<T>, keep: T -> bool)
    ensures Filter(Filter(s, keep), keep) == Filter(s, keep)
  {
    if s != [] {
      FilterIdempotent(s[1..], keep);
      if keep(s[0]) {
        var t := Filter(s, keep);
        assert t == [s[0]] + Filter(s[1..], keep);
        assert t[0] == s[0] && t[1..] == Filter(s[1..], keep);
        assert Filter(t, keep) == [s[0]] + Filter(t[1..], keep);
      } else {
        assert Filter(s, keep) == [] + Filter(s[1..], keep) == Filter(s[1..], keep);
      }
    }
  }

  /** Nothing is kept exactly when no element satisfies the mask. */
  lemma FilterEmptyIff<T(!new)>(s: seq<T>, keep: T -> bool)
    ensures Filter(s, keep) == [] <==> forall x :: x in s ==> !keep(x)
  {
    FilterProperties(s, keep);
  }

  /** Rows the mask rejects, appended after the input, are not kept. */
  lemma {:induction false} FilterAppendRejected<T(!new)>(s: seq<T>, rejected: seq<T>, keep: T -> bool)
    requires forall x :: x in rejected ==> !keep(x)
    ensures Filter(s + rejected, keep) == Filter(s, keep)
  {
    if s == [] {
      FilterEmptyIff(rejected, keep);
      assert s + rejected == rejected;
    } else {
      FilterAppendRejected(s[1..], rejected, keep);
      assert (s + rejected)[0] == s[0];
      assert (s + rejected)[1..] == s[1..] + rejected;
    }
  }

  /** Rows the mask rejects, placed before the input, are not kept. */
  lemma {:induction false} FilterPrependRejected<T>(s: seq<T>, rejected: seq<T>, keep: T -> bool)
    requires forall x :: x in rejected ==> !keep(x)
    ensures Filter(rejected + s, keep) == Filter(s, keep)
  {
    if rejected == [] {
      assert rejected + s == s;
    } else {
      FilterPrependRejected(s, rejected[1..], keep);
      assert (rejected + s)[0] == rejected[0];
      assert (rejected + s)[1..] == rejected[1..] + s;
    }
  }
}
