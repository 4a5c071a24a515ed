/** Sorting by an order that need not tell all elements apart. */
module Sorting {

  ghost predicate Transitive<T(!new)>(le: (T, T) -> bool) {
    forall x, y, z :: le(x, y) && le(y, z) ==> le(x, z)
  }

  ghost predicate Total<T(!new)>(le: (T, T) -> bool) {
    forall x, y :: le(x, y) || le(y, x)
  }

  ghost predicate Ordered<T>(s: seq<T>, le: (T, T) -> bool) {
    forall i, j | 0 <= i < j < |s| :: le(s[i], s[j])
  }

  function InsertAt<T>(s: seq<T>, k: nat, x: T): seq<T>
    requires k <= |s|
  {
    s[..k] + [x] + s[k..]
  }

  lemma InsertKeepsOrder<T(!new)>(s: seq<T>, le: (T, T) -> bool, k: nat, x: T)
    requires Transitive(le) && Total(le) && Ordered(s, le) && k <= |s|
    requires (k > 0 ==> le(s[k - 1], x)) && (k < |s| ==> !le(s[k], x))
    ensures Ordered(InsertAt(s, k, x), le)
  {
    forall j | 0 <= j < k ensures le(s[j], x) {
      assert j < k - 1 ==> le(s[j], s[k - 1]);
    }
    forall j | k <= j < |s| ensures le(x, s[j]) {
      assert k < j ==> le(s[k], s[j]);
    }
  }

  lemma InsertKeeps<T>(s: seq<T>, k: nat, x: T)
    requires k <= |s|
    ensures multiset(InsertAt(s, k, x)) == multiset(s) + multiset{x}
  {
    assert s == s[..k] + s[k..];
  }

  /** Which of the orders of equivalent elements comes out is nobody's business. */
  method SortBy<T(!new)>(s: seq<T>, le: (T, T) -> bool) returns (sorted: seq<T>)
    requires Transitive(le) && Total(le)
    ensures multiset(sorted) == multiset(s) && Ordered(sorted, le)
  {
    sorted := [];
    assert Ordered(sorted, le);
    hide Ordered, InsertAt, Transitive, Total;
    for i := 0 to |s|
      invariant multiset(sorted) == multiset(s[..i]) && Ordered(sorted, le)
    {
      assert s[..i + 1] == s[..i] + [s[i]];
      var k := |sorted|;
      while k > 0 && !le(sorted[k - 1], s[i])
        invariant 0 <= k <= |sorted| && (k < |sorted| ==> !le(sorted[k], s[i]))
      {
        k := k - 1;
      }
      InsertKeepsOrder(sorted, le, k, s[i]);
      InsertKeeps(sorted, k, s[i]);
      sorted := InsertAt(sorted, k, s[i]);
    }
    assert s[..|s|] == s;
  }
}
