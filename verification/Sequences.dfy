/** Facts about sequences that several components share. */
module Sequences {
  predicate Distinct<T(==)>(s: seq<T>) {
    forall i, j :: 0 <= i < j < |s| ==> s[i] != s[j]
  }

  lemma DistinctInit<T>(init: seq<T>, last: T)
    requires Distinct(init + [last])
    ensures Distinct(init) && last !in init
  {
    var s := init + [last];
    forall i, j | 0 <= i < j < |init| ensures init[i] != init[j] {
      assert s[i] == init[i] && s[j] == init[j];
    }
    forall i | 0 <= i < |init| ensures init[i] != last {
      assert s[i] == init[i] && s[|init|] == last;
    }
  }

  lemma NonemptyHasMember<T>(s: seq<T>)
    ensures s == [] || exists x :: x in s
  {
    if s != [] { assert s[0] in s; }
  }

  // Two ways to split one sequence: the shorter first part is a prefix of the longer one.
  lemma SplitTwice<T>(a: seq<T>, b: seq<T>, c: seq<T>, d: seq<T>)
    requires a + b == c + d && |a| <= |c|
    ensures c == a + c[|a|..] && b == c[|a|..] + d
  {
    assert c == (a + b)[..|c|];
    assert b == (c + d)[|a|..];
  }
}
