/**
 Byte-wise string order, and insertion into a sequence ordered by a two-part rank. Sorting fetch
 keys, listing configuration rows and sorting message results all use Insert.
 */
module Ordering {
  import opened Prelude

  /** Go's string comparison a < b. */
  predicate Before(a: string, b: string) {
    |b| > 0 && (|a| == 0 || a[0] < b[0] || (a[0] == b[0] && Before(a[1..], b[1..])))
  }

  lemma {:induction false} BeforeIrreflexive(a: string)
    ensures !Before(a, a)
  {
    if a != [] { BeforeIrreflexive(a[1..]); }
  }

  lemma {:induction false} BeforeTransitive(a: string, b: string, c: string)
    requires Before(a, b) && Before(b, c)
    ensures Before(a, c)
  {
    if a != [] && a[0] == b[0] == c[0] { BeforeTransitive(a[1..], b[1..], c[1..]); }
  }

  lemma {:induction false} BeforeTotal(a: string, b: string)
    ensures a == b || Before(a, b) || Before(b, a)
  {
    if a != [] && b != [] && a[0] == b[0] {
      BeforeTotal(a[1..], b[1..]);
      assert a == [a[0]] + a[1..] && b == [b[0]] + b[1..];
    }
  }

  /** What a value is sorted by: the major text, then the minor one. */
  datatype Rank = Rank(major: string, minor: string)

  predicate Precedes(a: Rank, b: Rank) {
    if a.major != b.major then Before(a.major, b.major) else Before(a.minor, b.minor)
  }

  lemma PrecedesTransitive(a: Rank, b: Rank, c: Rank)
    requires Precedes(a, b) && Precedes(b, c)
    ensures Precedes(a, c)
  {
    if a.major == b.major == c.major {
      BeforeTransitive(a.minor, b.minor, c.minor);
    } else if a.major != b.major && b.major != c.major {
      BeforeTransitive(a.major, b.major, c.major);
      if a.major == c.major { BeforeIrreflexive(a.major); }
    }
  }

  lemma PrecedesTotal(a: Rank, b: Rank)
    ensures a == b || Precedes(a, b) || Precedes(b, a)
    ensures !Precedes(a, a)
  {
    BeforeTotal(a.major, b.major);
    BeforeTotal(a.minor, b.minor);
    BeforeIrreflexive(a.minor);
  }

  /** "Not after" is transitive, which is what a comparison sort needs. */
  lemma NotAfterTransitive(a: Rank, b: Rank, c: Rank)
    requires !Precedes(b, a) && !Precedes(c, b)
    ensures !Precedes(c, a)
  {
    PrecedesTotal(a, b);
    PrecedesTotal(b, c);
    if Precedes(c, a) {
      if a != b { PrecedesTransitive(c, a, b); }
    }
  }

  lemma NotBothPrecede(a: Rank, b: Rank)
    requires Precedes(a, b)
    ensures !Precedes(b, a)
  {
    if Precedes(b, a) {
      PrecedesTransitive(a, b, a);
      PrecedesTotal(a, a);
    }
  }

  ghost predicate Ascending<T>(rank: T -> Rank, s: seq<T>) {
    forall i, j :: 0 <= i < j < |s| ==> !Precedes(rank(s[j]), rank(s[i]))
  }

  /** The first index holding an element ranked after x. */
  function Position<T>(rank: T -> Rank, x: T, s: seq<T>): (p: nat)
    ensures p <= |s| && (p < |s| ==> Precedes(rank(x), rank(s[p])))
    ensures forall i :: 0 <= i < p ==> !Precedes(rank(x), rank(s[i]))
  {
    if s == [] || Precedes(rank(x), rank(s[0])) then 0 else 1 + Position(rank, x, s[1..])
  }

  /** x placed after every element that is not ranked after it. */
  function Insert<T>(rank: T -> Rank, x: T, s: seq<T>): (r: seq<T>)
    ensures |r| == |s| + 1
  {
    var p := Position(rank, x, s);
    s[..p] + [x] + s[p..]
  }

  function InsertionSorted<T>(rank: T -> Rank, s: seq<T>): (r: seq<T>)
    ensures |r| == |s|
  {
    if s == [] then []
    else
      var n := |s| - 1;
      Insert(rank, s[n], InsertionSorted(rank, s[..n]))
  }

  lemma InsertElems<T>(rank: T -> Rank, x: T, s: seq<T>)
    ensures Elems(Insert(rank, x, s)) == Elems(s) + {x}
    ensures multiset(Insert(rank, x, s)) == multiset(s) + multiset{x}
  {
    var p := Position(rank, x, s);
    assert s == s[..p] + s[p..];
  }

  lemma InsertAscending<T>(rank: T -> Rank, x: T, s: seq<T>)
    requires Ascending(rank, s)
    ensures Ascending(rank, Insert(rank, x, s))
  {
    var p, r := Position(rank, x, s), Insert(rank, x, s);
    forall i, j | 0 <= i < j < |r| ensures !Precedes(rank(r[j]), rank(r[i])) {
      if i == p {
        NotBothPrecede(rank(x), rank(s[p]));
        if j - 1 > p { NotAfterTransitive(rank(x), rank(s[p]), rank(s[j - 1])); }
      }
    }
  }

  /** In an ordered sequence the insertion point is found just as well from the right. */
  lemma InsertFromTheRight<T>(rank: T -> Rank, x: T, s: seq<T>, j: nat)
    requires Ascending(rank, s) && j <= |s|
    requires j < |s| ==> Precedes(rank(x), rank(s[j]))
    requires j > 0 ==> !Precedes(rank(x), rank(s[j - 1]))
    ensures Insert(rank, x, s) == s[..j] + [x] + s[j..]
  {
    var p := Position(rank, x, s);
    if p < j - 1 {
      NotAfterTransitive(rank(s[p]), rank(s[j - 1]), rank(x));
    }
  }

  lemma {:induction false} InsertionSortedCorrect<T>(rank: T -> Rank, s: seq<T>)
    ensures Ascending(rank, InsertionSorted(rank, s))
    ensures multiset(InsertionSorted(rank, s)) == multiset(s)
  {
    if s != [] {
      var n := |s| - 1;
      assert s == s[..n] + [s[n]];
      InsertionSortedCorrect(rank, s[..n]);
      InsertElems(rank, s[n], InsertionSorted(rank, s[..n]));
      InsertAscending(rank, s[n], InsertionSorted(rank, s[..n]));
    }
  }

  const ByText: string -> Rank := (a: string) => Rank(a, "")

  /** The rows of a child table in ORDER BY order. */
  ghost function Listing(s: set<string>): (r: seq<string>)
    ensures Elems(r) == s && |r| == |s|
    decreases |s|
  {
    if s == {} then []
    else
      var x :| x in s;
      InsertElems(ByText, x, Listing(s - {x}));
      Insert(ByText, x, Listing(s - {x}))
  }

  /** There is only one way to list a set in order. */
  lemma {:induction false} OneListing(a: seq<string>, b: seq<string>)
    requires Elems(a) == Elems(b) && NoDup(a) && NoDup(b) && Ascending(ByText, a) && Ascending(ByText, b)
    ensures a == b
    decreases |a|
  {
    NoDupSize(a);
    NoDupSize(b);
    if a != [] {
      var n := |a| - 1;
      LastIsGreatest(a, b);
      assert a == a[..n] + [a[n]] && b == b[..n] + [b[n]];
      assert Elems(a[..n]) == Elems(a) - {a[n]} && Elems(b[..n]) == Elems(b) - {b[n]};
      OneListing(a[..n], b[..n]);
    }
  }

  lemma LastIsGreatest(a: seq<string>, b: seq<string>)
    requires Elems(a) == Elems(b) && |a| == |b| > 0 && Ascending(ByText, a) && Ascending(ByText, b)
    ensures a[|a| - 1] == b[|b| - 1]
  {
    var x, y := a[|a| - 1], b[|b| - 1];
    assert x in Elems(b) && y in Elems(a);
    var i :| 0 <= i < |b| && b[i] == x;
    var j :| 0 <= j < |a| && a[j] == y;
    PrecedesTotal(ByText(x), ByText(y));
  }

  lemma {:induction false} ListingOrdered(s: set<string>)
    ensures Ascending(ByText, Listing(s)) && NoDup(Listing(s))
    decreases |s|
  {
    SameSizeNoDup(Listing(s));
    if s != {} {
      forall x | x in s ensures Ascending(ByText, Insert(ByText, x, Listing(s - {x}))) {
        ListingOrdered(s - {x});
        InsertAscending(ByText, x, Listing(s - {x}));
      }
    }
  }
}
