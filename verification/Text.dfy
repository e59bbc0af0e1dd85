/** Text as the Python and SQL sources handle it: prefixes, folding and the order in which they sort. */
module Text {
  import opened Sequences

  predicate StartsWith(text: string, prefix: string) {
    |prefix| <= |text| && text[..|prefix|] == prefix
  }

  predicate EndsWith(text: string, suffix: string) {
    |suffix| <= |text| && text[|text| - |suffix|..] == suffix
  }

  function FoldChar(c: char): char {
    if 'A' <= c <= 'Z' then ((c as int) + 32) as char else c
  }

  // str.casefold on ASCII letters; other characters are their own fold.
  function Fold(text: string): string {
    seq(|text|, i requires 0 <= i < |text| => FoldChar(text[i]))
  }

  function UpperChar(c: char): char {
    if 'a' <= c <= 'z' then ((c as int) - 32) as char else c
  }

  // upper() on ASCII letters.
  function Upper(text: string): string {
    seq(|text|, i requires 0 <= i < |text| => UpperChar(text[i]))
  }

  // btrim(): blanks only, at both ends.
  function Trim(text: string): string {
    if text != [] && text[0] == ' ' then Trim(text[1..])
    else if text != [] && text[|text| - 1] == ' ' then Trim(text[..|text| - 1])
    else text
  }

  // The order of sorted(): by code point, a proper prefix first.
  predicate Leq(a: string, b: string) {
    a == [] || (b != [] && (a[0] < b[0] || (a[0] == b[0] && Leq(a[1..], b[1..]))))
  }

  lemma {:induction false} LeqTotal(a: string, b: string)
    ensures Leq(a, b) || Leq(b, a)
  {
    if a != [] && b != [] && a[0] == b[0] { LeqTotal(a[1..], b[1..]); }
  }

  lemma {:induction false} LeqTransitive(a: string, b: string, c: string)
    requires Leq(a, b) && Leq(b, c)
    ensures Leq(a, c)
  {
    if a != [] && a[0] == b[0] && b[0] == c[0] { LeqTransitive(a[1..], b[1..], c[1..]); }
  }

  lemma {:induction false} LeqAntisymmetric(a: string, b: string)
    requires Leq(a, b) && Leq(b, a)
    ensures a == b
  {
    if a != [] && b != [] {
      LeqAntisymmetric(a[1..], b[1..]);
      assert a == [a[0]] + a[1..] && b == [b[0]] + b[1..];
    }
  }

  ghost predicate Ascending(s: seq<string>) {
    forall i, j :: 0 <= i < j < |s| ==> s[i] != s[j] && Leq(s[i], s[j])
  }

  lemma {:induction false} LeastExists(s: set<string>)
    requires s != {}
    ensures exists m :: IsLeast(s, m)
    decreases |s|
  {
    var y :| y in s;
    var rest := s - {y};
    if rest == {} {
      LeqTotal(y, y);
      forall x | x in s ensures x == y { assert x !in rest; }
      assert IsLeast(s, y);
    } else {
      LeastExists(rest);
      var m :| IsLeast(rest, m);
      LeqTotal(y, m);
      var least := if Leq(m, y) then m else y;
      forall x | x in s ensures Leq(least, x) {
        LeqTotal(y, y);
        if x != y {
          assert x in rest;
          if least == y { LeqTransitive(y, m, x); }
        }
      }
      assert IsLeast(s, least);
    }
  }

  predicate IsLeast(s: set<string>, m: string) {
    m in s && forall x :: x in s ==> Leq(m, x)
  }

  lemma LeastUnique(s: set<string>)
    ensures forall m, n :: IsLeast(s, m) && IsLeast(s, n) ==> m == n
  {
    forall m, n | IsLeast(s, m) && IsLeast(s, n) ensures m == n {
      LeqAntisymmetric(m, n);
    }
  }

  function Least(s: set<string>): (m: string)
    requires s != {}
    ensures IsLeast(s, m)
  {
    LeastExists(s);
    LeastUnique(s);
    var m :| IsLeast(s, m);
    m
  }

  // sorted() of a set: every element once, in ascending order.
  function Sorted(s: set<string>): (r: seq<string>)
    ensures forall x :: x in r <==> x in s
    ensures Ascending(r)
  {
    if s == {} then [] else
      var m := Least(s);
      var rest := Sorted(s - {m});
      assert forall i :: 0 <= i < |rest| ==> rest[i] in s - {m};
      [m] + rest
  }

  lemma AscendingTail(r: seq<string>)
    requires Ascending(r) && r != []
    ensures Ascending(r[1..]) && forall x :: x in r[1..] <==> x in r && x != r[0]
    ensures forall x :: x in r ==> Leq(r[0], x)
  {
    hide Leq;
    LeqReflexive(r[0]);
    assert forall i :: 0 <= i < |r[1..]| ==> r[1..][i] == r[i + 1];
    assert r == [r[0]] + r[1..];
    forall x | x in r[1..]
      ensures x != r[0] && Leq(r[0], x)
    {
      var k :| 0 <= k < |r[1..]| && r[1..][k] == x;
      assert r[0] != r[k + 1] && Leq(r[0], r[k + 1]);
    }
  }

  lemma LeqReflexive(a: string)
    ensures Leq(a, a)
  {
    LeqTotal(a, a);
  }

  // Sorting is determined: a listing of the set in ascending order is its sorted sequence.
  lemma {:induction false} SortedUnique(s: set<string>, r: seq<string>)
    requires forall x :: x in r <==> x in s
    requires Ascending(r)
    ensures r == Sorted(s)
    decreases |s|
  {
    hide Leq;
    hide Ascending;
    if s == {} {
      NonemptyHasMember(r);
    } else {
      var m := Least(s);
      assert m in r;
      assert r[0] in r;
      AscendingTail(r);
      LeqAntisymmetric(r[0], m);
      SortedUnique(s - {m}, r[1..]);
      assert r == [r[0]] + r[1..];
    }
  }
}
