/** Message construction of internal/notification/message.go. */
module Messages {
  import opened Prelude
  import opened Ordering
  import opened Domain

  datatype PriceResult = Unavailable(name: Symbol) | Available(change: PriceChange) {
    function Symbol(): Symbol {
      match this
      case Unavailable(name) => name
      case Available(change) => change.symbol
    }
  }

  /** A line is an abstract function of a result: number formatting is not modelled. */
  datatype Line = PeriodLine(start: Minutes,
      end: Minutes) | UnavailableLine(symbol: Symbol) | PriceLine(change: PriceChange)

  datatype Message = Message(period: Period, lines: seq<Line>)

  function LineFor(result: PriceResult): Line {
    match result
    case Unavailable(name) => UnavailableLine(name)
    case Available(change) => PriceLine(change)
  }

  function LinesFor(results: seq<PriceResult>): (lines: seq<Line>)
    ensures |lines| == |results|
    ensures forall i :: 0 <= i < |results| ==> lines[i] == LineFor(results[i])
  {
    if results == [] then [] else [LineFor(results[0])] + LinesFor(results[1..])
  }

  const BySymbol: PriceResult -> Rank := (r: PriceResult) => Rank(r.Symbol(), "")

  lemma BySymbolComparesSymbols(a: PriceResult, b: PriceResult)
    ensures Precedes(BySymbol(a), BySymbol(b)) <==> Before(a.Symbol(), b.Symbol())
  {
    BeforeIrreflexive(a.Symbol());
  }

  predicate Unnamed(results: seq<PriceResult>) {
    exists r :: r in results && r.Symbol() == ""
  }

  /** The message for these results, or the reason there is none. */
  function MessageFor(period: Period, results: seq<PriceResult>): Result<Message> {
    if !period.Valid() then Err("validate message period")
    else if results == [] then Err("message results must not be empty")
    else if Unnamed(results) then Err("message symbol is required")
    else Ok(Message(period, [PeriodLine(period.start, period.end)] + LinesFor(InsertionSorted(BySymbol, results))))
  }

  /** The results naming one symbol, in order. */
  function Naming(results: seq<PriceResult>, symbol: Symbol): seq<PriceResult> {
    if results == [] then []
    else Naming(results[..|results| - 1], symbol)
         + (if results[|results| - 1].Symbol() == symbol then [results[|results| - 1]] else [])
  }

  lemma {:induction false} NamingConcat(a: seq<PriceResult>, b: seq<PriceResult>, symbol: Symbol)
    ensures Naming(a + b, symbol) == Naming(a, symbol) + Naming(b, symbol)
  {
    if b == [] {
      assert a + b == a;
    } else {
      var n := |b| - 1;
      assert (a + b)[..|a + b| - 1] == a + b[..n];
      NamingConcat(a, b[..n], symbol);
    }
  }

  lemma {:induction false} NamingNothing(results: seq<PriceResult>, symbol: Symbol)
    requires forall r :: r in results ==> r.Symbol() != symbol
    ensures Naming(results, symbol) == []
  {
    if results != [] { NamingNothing(results[..|results| - 1], symbol); }
  }

  lemma NamingInserted(x: PriceResult, before: seq<PriceResult>, after: seq<PriceResult>, symbol: Symbol)
    requires x.Symbol() == symbol ==> forall r :: r in after ==> r.Symbol() != symbol
    ensures Naming(before + [x] + after, symbol)
         == Naming(before + after, symbol) + (if x.Symbol() == symbol then [x] else [])
  {
    NamingConcat(before, after, symbol);
    NamingConcat(before + [x], after, symbol);
    assert (before + [x])[..|before|] == before;
    if x.Symbol() == symbol { NamingNothing(after, symbol); }
  }

  lemma NothingEqualAfter(x: PriceResult, sorted: seq<PriceResult>)
    requires Ascending(BySymbol, sorted)
    ensures forall r :: r in sorted[Position(BySymbol, x, sorted)..] ==> r.Symbol() != x.Symbol()
  {
    var p := Position(BySymbol, x, sorted);
    forall j | p <= j < |sorted| ensures sorted[j].Symbol() != x.Symbol() {
      PrecedesTotal(BySymbol(x), BySymbol(sorted[p]));
    }
  }

  lemma InsertKeepsOthers(x: PriceResult, sorted: seq<PriceResult>, symbol: Symbol)
    requires Ascending(BySymbol, sorted)
    ensures Naming(Insert(BySymbol, x, sorted), symbol)
         == Naming(sorted, symbol) + (if x.Symbol() == symbol then [x] else [])
  {
    var p := Position(BySymbol, x, sorted);
    NothingEqualAfter(x, sorted);
    NamingInserted(x, sorted[..p], sorted[p..], symbol);
    assert sorted == sorted[..p] + sorted[p..];
  }

  /** The sort is stable: results for one symbol keep their relative order. */
  lemma {:induction false} SortIsStable(results: seq<PriceResult>, symbol: Symbol)
    ensures Naming(InsertionSorted(BySymbol, results), symbol) == Naming(results, symbol)
  {
    if results != [] {
      var n := |results| - 1;
      SortIsStable(results[..n], symbol);
      InsertionSortedCorrect(BySymbol, results[..n]);
      InsertKeepsOthers(results[n], InsertionSorted(BySymbol, results[..n]), symbol);
    }
  }

  /**
   A built message is the period header followed by one line per result: the lines are those of a
   permutation of the results that is ordered by symbol and keeps the order of equal symbols.
   */
  lemma MessageIsComplete(period: Period, results: seq<PriceResult>)
    requires MessageFor(period, results).Ok?
    ensures var m, sorted := MessageFor(period, results).value, InsertionSorted(BySymbol, results);
            && m.period == period
            && m.lines == [PeriodLine(period.start, period.end)] + LinesFor(sorted)
            && |m.lines| == 1 + |results|
            && multiset(sorted) == multiset(results)
            && (forall i, j :: 0 <= i < j < |sorted| ==> !Before(sorted[j].Symbol(), sorted[i].Symbol()))
            && (forall symbol :: Naming(sorted, symbol) == Naming(results, symbol))
  {
    InsertionSortedCorrect(BySymbol, results);
    var sorted := InsertionSorted(BySymbol, results);
    forall i, j | 0 <= i < j < |sorted| ensures !Before(sorted[j].Symbol(), sorted[i].Symbol()) {
      BySymbolComparesSymbols(sorted[j], sorted[i]);
    }
    forall symbol ensures Naming(sorted, symbol) == Naming(results, symbol) {
      SortIsStable(results, symbol);
    }
  }

  lemma FoundFromTheRight(x: PriceResult, sorted: seq<PriceResult>, j: nat)
    requires Ascending(BySymbol, sorted) && j <= |sorted|
    requires j < |sorted| ==> Before(x.Symbol(), sorted[j].Symbol())
    requires j > 0 ==> !Before(x.Symbol(), sorted[j - 1].Symbol())
    ensures Insert(BySymbol, x, sorted) == sorted[..j] + [x] + sorted[j..]
  {
    if j < |sorted| { BySymbolComparesSymbols(x, sorted[j]); }
    if j > 0 { BySymbolComparesSymbols(x, sorted[j - 1]); }
    InsertFromTheRight(BySymbol, x, sorted, j);
  }

  /** One more element moved into place extends the sorted prefix by one. */
  lemma SortedOneMore(was: seq<PriceResult>, i: nat, j: nat)
    requires i < |was| && j <= i
    requires var sorted := InsertionSorted(BySymbol, was[..i]);
             && (j < i ==> Before(was[i].Symbol(), sorted[j].Symbol()))
             && (j > 0 ==> !Before(was[i].Symbol(), sorted[j - 1].Symbol()))
    ensures var sorted := InsertionSorted(BySymbol, was[..i]);
            InsertionSorted(BySymbol, was[..i + 1]) == sorted[..j] + [was[i]] + sorted[j..]
  {
    hide Before, Insert, Ascending;
    InsertionSortedCorrect(BySymbol, was[..i]);
    FoundFromTheRight(was[i], InsertionSorted(BySymbol, was[..i]), j);
    assert was[..i + 1][..i] == was[..i];
  }

  /** sort.SliceStable on the caller's slice. */
  method StableSort(a: array<PriceResult>)
    modifies a
    ensures a[..] == InsertionSorted(BySymbol, old(a[..]))
  {
    ghost var was := a[..];
    for i := 0 to a.Length
      invariant a[..i] == InsertionSorted(BySymbol, was[..i])
      invariant forall k :: i <= k < a.Length ==> a[k] == was[k]
    {
      var j := MoveLeft((x: PriceResult, y: PriceResult) => Before(x.Symbol(), y.Symbol()), a, i);
      SortedOneMore(was, i, j);
    }
    assert a[..] == a[..a.Length] && was == was[..a.Length];
  }

  /** Moves a[i] left past every element it is less than, to index j. */
  method MoveLeft<T>(less: (T, T) -> bool, a: array<T>, i: nat) returns (j: nat)
    requires i < a.Length
    modifies a
    ensures j <= i
    ensures var s := old(a[..i]); a[..i + 1] == s[..j] + [old(a[i])] + s[j..]
    ensures forall k :: i < k < a.Length ==> a[k] == old(a[k])
    ensures j < i ==> less(old(a[i]), old(a[..i])[j])
    ensures j > 0 ==> !less(old(a[i]), old(a[..i])[j - 1])
  {
    ghost var s := a[..i];
    var x := a[i];
    j := i;
    while j > 0 && less(x, a[j - 1])
      invariant j <= i
      invariant forall k :: 0 <= k < j ==> a[k] == s[k]
      invariant forall k :: j <= k < i ==> a[k + 1] == s[k]
      invariant forall k :: i < k < a.Length ==> a[k] == old(a[k])
      invariant j < i ==> less(x, s[j])
    {
      a[j] := a[j - 1];
      j := j - 1;
    }
    a[j] := x;
    Spliced(s, x, j, a[..i + 1]);
  }

  /** One line per result, in order, unless a result is unnamed. */
  method RenderLines(results: array<PriceResult>) returns (r: Result<seq<Line>>)
    ensures Unnamed(results[..]) ==> r == Err("message symbol is required")
    ensures !Unnamed(results[..]) ==> r == Ok(LinesFor(results[..]))
  {
    var lines: seq<Line> := [];
    for i := 0 to results.Length
      invariant |lines| == i
      invariant forall k :: 0 <= k < i ==> results[k].Symbol() != "" && lines[k] == LineFor(results[k])
    {
      if results[i].Symbol() == "" {
        assert results[i] in results[..];
        return Err("message symbol is required");
      }
      lines := lines + [LineFor(results[i])];
    }
    assert lines == LinesFor(results[..]);
    return Ok(lines);
  }

  /** Sorts the results it is given in place, then turns them into lines. */
  method BuildMessage(period: Period, results: array<PriceResult>) returns (r: Result<Message>)
    modifies results
    ensures r == MessageFor(period, old(results[..]))
    ensures r.Ok? <==> period.Valid() && results.Length > 0 && forall x :: x in old(results[..]) ==> x.Symbol() != ""
    ensures results[..] == if period.Valid() then InsertionSorted(BySymbol, old(results[..])) else old(results[..])
  {
    if !period.Valid() {
      return Err("validate message period");
    }
    if results.Length == 0 {
      assert results[..] == [];
      return Err("message results must not be empty");
    }
    ghost var was := results[..];
    StableSort(results);
    InsertionSortedCorrect(BySymbol, was);
    SameMembers(results[..], was);
    var lines := RenderLines(results);
    match lines
    case Err(e) => return Err(e);
    case Ok(rendered) => return Ok(Message(period, [PeriodLine(period.start, period.end)] + rendered));
  }
}
