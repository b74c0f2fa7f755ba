/** Lists of strings: removing duplicates and sorting bytewise. For UTF-8 text bytewise
    order is the order of the characters. */
module Strings {
  import opened Order

  ghost predicate Distinct<T>(s: seq<T>) {
    forall i, j | 0 <= i < j < |s| :: s[i] != s[j]
  }

  /** Keeps the first occurrence of every element. */
  function Dedupe<T(==)>(s: seq<T>): seq<T> {
    if s == [] then []
    else
      var rest, last := Dedupe(s[..|s| - 1]), s[|s| - 1];
      if last in rest then rest else rest + [last]
  }

  lemma DedupeSnoc<T>(s: seq<T>, x: T)
    ensures Dedupe(s + [x]) == if x in Dedupe(s) then Dedupe(s) else Dedupe(s) + [x]
  {
    assert (s + [x])[..|s|] == s;
  }

  lemma {:induction false} DedupeFacts<T>(s: seq<T>)
    ensures Distinct(Dedupe(s))
    ensures forall x :: x in multiset(Dedupe(s)) <==> x in multiset(s)
  {
    if s != [] {
      var init, last := s[..|s| - 1], s[|s| - 1];
      DedupeFacts(init);
      assert s == init + [last];
      var rest := Dedupe(init);
      assert last in rest <==> last in multiset(rest);
      if last !in rest {
        forall i | 0 <= i < |rest| ensures rest[i] != last {
          assert rest[i] in rest;
        }
      }
    }
  }

  /** Elements stay in the order in which they first appear: what a prefix yields is a
      prefix of what the whole yields. */
  lemma {:induction false} DedupeOrder<T>(s: seq<T>, n: nat)
    requires n <= |s|
    ensures Dedupe(s[..n]) <= Dedupe(s)
  {
    if n < |s| {
      assert s[..|s| - 1][..n] == s[..n];
      DedupeOrder(s[..|s| - 1], n);
    } else {
      assert s[..n] == s;
    }
  }

  function Codes(s: string): seq<int> {
    seq(|s|, i requires 0 <= i < |s| => s[i] as int)
  }

  predicate StrLe(a: string, b: string) {
    LexLe(Codes(a), Codes(b))
  }

  lemma StrLePreorder()
    ensures TotalPreorder(StrLe)
  {
    forall x: string, y: string ensures StrLe(x, y) || StrLe(y, x) {
      LexTotal(Codes(x), Codes(y));
    }
    forall x: string, y: string, z: string | StrLe(x, y) && StrLe(y, z) ensures StrLe(x, z) {
      LexTransitive(Codes(x), Codes(y), Codes(z));
    }
  }

  lemma StrLeAntisymmetric(a: string, b: string)
    requires StrLe(a, b) && StrLe(b, a)
    ensures a == b
  {
    LexAntisymmetric(Codes(a), Codes(b));
    assert |a| == |Codes(a)| == |Codes(b)| == |b|;
    forall i | 0 <= i < |a| ensures a[i] == b[i] {
      assert Codes(a)[i] == Codes(b)[i];
    }
  }

  /** Increasing, so also without duplicates. */
  ghost predicate Increasing(s: seq<string>) {
    Sorted(StrLe, s) && Distinct(s)
  }

  lemma DistinctCounts<T>(s: seq<T>, x: T)
    requires Distinct(s)
    ensures multiset(s)[x] == if x in s then 1 else 0
  {
    if s != [] {
      var init, last := s[..|s| - 1], s[|s| - 1];
      assert s == init + [last];
      DistinctCounts(init, x);
      assert last !in init;
    }
  }

  /** There is only one increasing list of a given set of strings. */
  lemma IncreasingUnique(a: seq<string>, b: seq<string>)
    requires Increasing(a) && Increasing(b) && forall x :: x in a <==> x in b
    ensures a == b
  {
    forall x ensures multiset(a)[x] == multiset(b)[x] {
      DistinctCounts(a, x);
      DistinctCounts(b, x);
    }
    forall x, y | x in a && y in a && StrLe(x, y) && StrLe(y, x) ensures x == y {
      StrLeAntisymmetric(x, y);
    }
    SortedUnique(StrLe, a, b);
  }

  function UniqueSorted(values: seq<string>): seq<string> {
    Sort(StrLe, Dedupe(values))
  }

  lemma TwiceCounts<T>(t: seq<T>, i: nat, j: nat)
    requires i < j < |t| && t[i] == t[j]
    ensures 2 <= multiset(t)[t[i]]
  {
    assert t == t[..j] + [t[j]] + t[j + 1..];
    assert t[i] in t[..j];
    assert multiset(t) == multiset(t[..j]) + multiset{t[j]} + multiset(t[j + 1..]);
  }

  lemma SortDistinct<T>(le: (T, T) -> bool, s: seq<T>)
    requires Distinct(s)
    ensures Distinct(Sort(le, s))
  {
    SortPermutes(le, s);
    var t := Sort(le, s);
    forall i, j | 0 <= i < j < |t| ensures t[i] != t[j] {
      DistinctCounts(s, t[i]);
      if t[i] == t[j] {
        TwiceCounts(t, i, j);
      }
    }
  }

  lemma UniqueSortedFacts(values: seq<string>)
    ensures Increasing(UniqueSorted(values))
    ensures forall x :: x in UniqueSorted(values) <==> x in values
  {
    DedupeFacts(values);
    StrLePreorder();
    SortSorts(StrLe, Dedupe(values));
    SortDistinct(StrLe, Dedupe(values));
    SortPermutes(StrLe, Dedupe(values));
    forall x ensures x in UniqueSorted(values) <==> x in values {
      assert x in multiset(UniqueSorted(values)) <==> x in multiset(Dedupe(values));
      assert x in multiset(values) <==> x in multiset(Dedupe(values));
    }
  }

  /** Drops repeated values in one pass, then sorts. */
  method UniqueSortedStrings(values: seq<string>) returns (out: seq<string>)
    ensures out == UniqueSorted(values)
    ensures Increasing(out) && forall x :: x in out <==> x in values
  {
    UniqueSortedFacts(values);
    if values == [] {
      return [];
    }
    var seen: set<string> := {};
    out := [];
    for i := 0 to |values|
      invariant out == Dedupe(values[..i])
      invariant forall x :: x in seen <==> x in out
    {
      assert values[..i + 1][..i] == values[..i];
      if values[i] in seen {
        continue;
      }
      seen := seen + {values[i]};
      out := out + [values[i]];
    }
    assert values[..|values|] == values;
    out := Sort(StrLe, out);
  }
}
