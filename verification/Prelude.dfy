/** Stock datatypes and collection vocabulary shared by every module. */
module Prelude {

  datatype Option<+T> = None | Some(value: T)

  datatype Result<+T> = Ok(value: T) | Err(error: string)

  /** How a write can go wrong: the error may arrive before or after the write is committed. */
  datatype Fault = NoFault | BeforeCommit | AfterCommit

  predicate NoDup<T(==)>(s: seq<T>) {
    forall i, j :: 0 <= i < j < |s| ==> s[i] != s[j]
  }

  function Elems<T>(s: seq<T>): set<T> {
    set x | x in s
  }

  /** A duplicate-free sequence has as many elements as its set. */
  lemma NoDupSize<T>(s: seq<T>)
    requires NoDup(s)
    ensures |Elems(s)| == |s|
  {
    if s != [] {
      var last := s[|s| - 1];
      NoDupSize(s[..|s| - 1]);
      assert Elems(s) == Elems(s[..|s| - 1]) + {last};
    }
  }

  lemma {:induction false} ElemsAreFew<T>(s: seq<T>)
    ensures |Elems(s)| <= |s|
  {
    if s != [] {
      ElemsAreFew(s[..|s| - 1]);
      assert Elems(s) == Elems(s[..|s| - 1]) + {s[|s| - 1]};
    }
  }

  lemma {:induction false} SameSizeNoDup<T>(s: seq<T>)
    requires |Elems(s)| == |s|
    ensures NoDup(s)
  {
    if s != [] {
      var n := |s| - 1;
      assert Elems(s) == Elems(s[..n]) + {s[n]};
      ElemsAreFew(s[..n]);
      assert |Elems(s[..n])| == n && s[n] !in Elems(s[..n]);
      SameSizeNoDup(s[..n]);
      forall i, j | 0 <= i < j < |s| ensures s[i] != s[j] {
        assert s[i] == s[..n][i];
        if j < n { assert s[j] == s[..n][j]; }
      }
    }
  }

  lemma NoDupConcat<T>(a: seq<T>, b: seq<T>)
    requires NoDup(a) && NoDup(b) && forall x :: x in b ==> x !in a
    ensures NoDup(a + b)
  {
    forall i, j | 0 <= i < j < |a + b| ensures (a + b)[i] != (a + b)[j] {
      if i < |a| <= j { assert a[i] in a && b[j - |a|] in b; }
    }
  }

  lemma {:induction false} CountsOnce<T>(s: seq<T>, x: T)
    requires NoDup(s)
    ensures multiset(s)[x] == if x in s then 1 else 0
  {
    if s != [] {
      var n := |s| - 1;
      assert s == s[..n] + [s[n]];
      CountsOnce(s[..n], x);
    }
  }

  lemma SameMembers<T>(a: seq<T>, b: seq<T>)
    requires multiset(a) == multiset(b)
    ensures forall x :: x in a <==> x in b
  {
    forall x ensures x in a <==> x in b {
      assert x in a <==> x in multiset(a);
    }
  }

  lemma ConcatAssociative<T>(a: seq<T>, b: seq<T>, c: seq<T>)
    ensures (a + b) + c == a + (b + c)
  {
  }

  lemma Spliced<T>(s: seq<T>, x: T, j: nat, t: seq<T>)
    requires j <= |s| && |t| == |s| + 1
    requires (forall k :: 0 <= k < j ==> t[k] == s[k]) && t[j] == x
    requires forall k :: j <= k < |s| ==> t[k + 1] == s[k]
    ensures t == s[..j] + [x] + s[j..]
  {
    assert t[j + 1..] == s[j..];
  }

  /** The sequence with the first occurrence of a value removed, or the value appended. */
  function Toggled<T(==)>(values: seq<T>, value: T): seq<T> {
    if values == [] then [value]
    else if values[0] == value then values[1..]
    else [values[0]] + Toggled(values[1..], value)
  }

  /** The values without the first occurrence of one, or with it appended. */
  ghost predicate WithoutOrWith<T>(values: seq<T>, value: T, toggled: seq<T>) {
    if value in values
    then exists i: nat :: RemovedAt(values, value, i, toggled)
    else toggled == values + [value]
  }

  predicate RemovedAt<T(==)>(values: seq<T>, value: T, i: nat, rest: seq<T>) {
    i < |values| && values[i] == value && value !in values[..i] && rest == values[..i] + values[i + 1..]
  }

  lemma ToggledIsWithoutOrWith<T>(values: seq<T>, value: T)
    ensures WithoutOrWith(values, value, Toggled(values, value))
  {
    if value in values {
      var i := FirstAt(values, value);
      ToggledRemoves(values, value, i);
      assert RemovedAt(values, value, i, Toggled(values, value));
    } else {
      ToggledAppends(values, value);
    }
  }

  lemma {:induction false} FirstAt<T>(values: seq<T>, value: T) returns (i: nat)
    requires value in values
    ensures i < |values| && values[i] == value && value !in values[..i]
  {
    if values[0] == value {
      i := 0;
    } else {
      i := FirstAt(values[1..], value);
      i := i + 1;
      assert values[..i] == [values[0]] + values[1..][..i - 1];
    }
  }

  lemma {:induction false} ToggledRemoves<T>(values: seq<T>, value: T, i: nat)
    requires i < |values| && values[i] == value && value !in values[..i]
    ensures Toggled(values, value) == values[..i] + values[i + 1..]
  {
    if i > 0 {
      assert values[0] in values[..i];
      assert values[1..][..i - 1] == values[..i][1..];
      ToggledRemoves(values[1..], value, i - 1);
    }
  }

  lemma {:induction false} ToggledAppends<T>(values: seq<T>, value: T)
    requires value !in values
    ensures Toggled(values, value) == values + [value]
  {
    if values != [] {
      assert forall x :: x in values[1..] ==> x in values;
      ToggledAppends(values[1..], value);
    }
  }
  /** The members of values that are also members of allowed, in their original order. */
  function Filtered<T(==)>(values: seq<T>, allowed: seq<T>): seq<T> {
    if values == [] then []
    else (if values[0] in allowed then [values[0]] else []) + Filtered(values[1..], allowed)
  }

  /** at lists, in ascending order, exactly the positions below n that are chosen. */
  ghost predicate ListsPositions(at: seq<nat>, n: nat, chosen: nat -> bool) {
    && (forall a, b :: 0 <= a < b < |at| ==> at[a] < at[b])
    && (forall i: nat :: i in at <==> i < n && chosen(i))
  }

  /** picked holds the values at these positions. */
  ghost predicate Picks<T>(values: seq<T>, at: seq<nat>, picked: seq<T>) {
    |picked| == |at| && forall k :: 0 <= k < |at| ==> at[k] < |values| && picked[k] == values[at[k]]
  }

  function OneOn(at: seq<nat>): (r: seq<nat>)
    ensures |r| == |at| && forall k :: 0 <= k < |at| ==> r[k] == at[k] + 1
  {
    if at == [] then [] else [at[0] + 1] + OneOn(at[1..])
  }

  lemma {:induction false} OneOnHas(at: seq<nat>, i: nat)
    ensures i in OneOn(at) <==> i > 0 && i - 1 in at
  {
    if at != [] { OneOnHas(at[1..], i); }
  }

  /** The positions in a sequence are those in its tail, one on, and perhaps the first. */
  lemma PositionsFirst(at: seq<nat>, n: nat, chosen: nat -> bool, inTail: nat -> bool)
    requires ListsPositions(at, n, inTail) && forall i: nat :: i < n ==> inTail(i) == chosen(i + 1)
    ensures ListsPositions((if chosen(0) then [0] else []) + OneOn(at), n + 1, chosen)
  {
    var first: seq<nat> := if chosen(0) then [0] else [];
    forall i: nat ensures i in first + OneOn(at) <==> i < n + 1 && chosen(i) {
      OneOnHas(at, i);
      if i > 0 { assert inTail(i - 1) == chosen(i) || i - 1 >= n; }
    }
  }

  /** The positions in a sequence are those in all but its last, and perhaps the last. */
  lemma PositionsLast(at: seq<nat>, n: nat, chosen: nat -> bool)
    requires ListsPositions(at, n, chosen)
    ensures ListsPositions(at + (if chosen(n) then [n] else []), n + 1, chosen)
  {
    forall k | 0 <= k < |at| ensures at[k] < n { assert at[k] in at; }
  }

  /** Whether the value at a position is allowed. */
  function AllowedAt<T(==)>(values: seq<T>, allowed: seq<T>): nat -> bool {
    (i: nat) => i < |values| && values[i] in allowed
  }

  /** Filtering picks exactly the positions of allowed values. */
  lemma {:induction false} FilteredPicks<T>(values: seq<T>, allowed: seq<T>) returns (at: seq<nat>)
    ensures ListsPositions(at, |values|, AllowedAt(values, allowed)) && Picks(values, at, Filtered(values, allowed))
  {
    at := [];
    if values != [] {
      var later := FilteredPicks(values[1..], allowed);
      PositionsFirst(later, |values| - 1, AllowedAt(values, allowed), AllowedAt(values[1..], allowed));
      at := (if values[0] in allowed then [0] else []) + OneOn(later);
    }
  }
}
