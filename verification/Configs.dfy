/** The alert configuration tables of internal/repository/postgres.go and chat_repository.go. */
module Configs {
  import opened Prelude
  import opened Ordering
  import opened Domain

  datatype ConfigRow = ConfigRow(provider: MarketProvider, enabled: bool, version: nat, updatedBy: string)

  /** alert_configs and its two child tables, whose keys make each child unique per target. */
  datatype Tables = Tables(rows: map<string, ConfigRow>, symbols: map<string, set<Symbol>>,
      intervals: map<string, set<Interval>>)

  function Children<T>(table: map<string, set<T>>, target: string): set<T> {
    if target in table then table[target] else {}
  }

  predicate ValidConfig(target: string, c: AlertConfig) {
    && target != "" && c.updatedBy != "" && KnownProvider(c.provider)
    && c.symbols != [] && "" !in c.symbols && NoDup(c.symbols)
    && c.intervals != [] && (forall i :: i in c.intervals ==> Duration(i).Some?) && NoDup(c.intervals)
  }

  /** The tables after one configuration was written under a version. */
  function Written(t: Tables, target: string, c: AlertConfig, version: nat): Tables {
    Tables(t.rows[target := ConfigRow(c.provider, c.enabled, version, c.updatedBy)],
           t.symbols[target := Elems(c.symbols)], t.intervals[target := Elems(c.intervals)])
  }

  /** CREATE succeeds on a target without a row; children exist only under a row. */
  predicate CreateSucceeds(t: Tables, target: string, c: AlertConfig) {
    ValidConfig(target, c) && target !in t.rows
  }

  predicate ReplaceSucceeds(t: Tables, target: string, c: AlertConfig, expected: nat) {
    ValidConfig(target, c) && target in t.rows && t.rows[target].version == expected
  }

  /** What is stored for a target passes validation when it is written back. */
  predicate Rewritable(t: Tables, target: string, updatedBy: string) {
    && target in t.rows && target != "" && updatedBy != "" && KnownProvider(t.rows[target].provider)
    && Children(t.symbols, target) != {} && "" !in Children(t.symbols, target)
    && Children(t.intervals, target) != {} && (forall i :: i in Children(t.intervals, target) ==> Duration(i).Some?)
  }

  /** The configuration assembled from a row and the children listed for it. */
  ghost function Assembled(row: ConfigRow, symbols: set<Symbol>, intervals: set<Interval>): AlertConfig {
    AlertConfig(row.provider, row.enabled, Listing(symbols), Listing(intervals), row.version, row.updatedBy)
  }

  ghost predicate ChildrenHaveParents(t: Tables) {
    t.symbols.Keys <= t.rows.Keys && t.intervals.Keys <= t.rows.Keys
  }

  /** AlertConfig.Validate, with its two passes over seen values. */
  method Validate(target: string, c: AlertConfig) returns (ok: bool)
    ensures ok == ValidConfig(target, c)
  {
    if target == "" || c.updatedBy == "" || !KnownProvider(c.provider) || c.symbols == [] || c.intervals == [] {
      return false;
    }
    var seenSymbols := {};
    for i := 0 to |c.symbols|
      invariant seenSymbols == Elems(c.symbols[..i]) && NoDup(c.symbols[..i]) && "" !in c.symbols[..i]
    {
      assert c.symbols[..i + 1] == c.symbols[..i] + [c.symbols[i]];
      if c.symbols[i] == "" || c.symbols[i] in seenSymbols {
        if c.symbols[i] != "" { Repeated(c.symbols, i); }
        return false;
      }
      seenSymbols := seenSymbols + {c.symbols[i]};
    }
    assert c.symbols[..|c.symbols|] == c.symbols;
    ok := ValidateIntervals(c.intervals);
  }

  method ValidateIntervals(intervals: seq<Interval>) returns (ok: bool)
    ensures ok <==> NoDup(intervals) && forall i :: i in intervals ==> Duration(i).Some?
  {
    var seen := {};
    for i := 0 to |intervals|
      invariant seen == Elems(intervals[..i]) && NoDup(intervals[..i])
      invariant forall x :: x in intervals[..i] ==> Duration(x).Some?
    {
      assert intervals[..i + 1] == intervals[..i] + [intervals[i]];
      if Duration(intervals[i]).None? || intervals[i] in seen {
        if Duration(intervals[i]).Some? { Repeated(intervals, i); }
        assert intervals[i] in intervals;
        return false;
      }
      seen := seen + {intervals[i]};
    }
    assert intervals[..|intervals|] == intervals;
    return true;
  }

  class ConfigTables {
    var rows: map<string, ConfigRow>
    var symbols: map<string, set<Symbol>>
    var intervals: map<string, set<Interval>>

    function View(): Tables
      reads this
    {
      Tables(rows, symbols, intervals)
    }

    constructor ()
      ensures View() == Tables(map[], map[], map[])
    {
      rows, symbols, intervals := map[], map[], map[];
    }

    method InsertChildren(target: string, c: AlertConfig, budget: nat) returns (ok: bool)
      requires Children(symbols, target) == {} && Children(intervals, target) == {}
      modifies this`symbols, this`intervals
      ensures ok <==> NoDup(c.symbols) && NoDup(c.intervals) && budget >= |c.symbols| + |c.intervals|
      ensures ok ==> symbols == old(symbols)[target := Elems(c.symbols)]
      ensures ok ==> intervals == old(intervals)[target := Elems(c.intervals)]
    {
      var symbolsOk, symbolRows := InsertEach(c.symbols, budget);
      if !symbolsOk {
        return false;
      }
      symbols := symbols[target := symbolRows];
      var intervalsOk, intervalRows := InsertEach(c.intervals, budget - |c.symbols|);
      if !intervalsOk {
        return false;
      }
      intervals := intervals[target := intervalRows];
      return true;
    }

    /** INSERT of a row and its children, in one transaction. */
    method CreateAlertConfig(target: string, c: AlertConfig, budget: nat) returns (err: Option<string>)
      requires ChildrenHaveParents(View())
      modifies this
      ensures err.None? <==> CreateSucceeds(old(View()), target, c) && budget > |c.symbols| + |c.intervals|
      ensures View() == if err.None? then Written(old(View()), target, c, c.version) else old(View())
      ensures ChildrenHaveParents(View())
    {
      var valid := Validate(target, c);
      if !valid {
        return Some("validate alert config");
      }
      if target in rows || budget == 0 {
        return Some("create alert config");
      }
      var before := (rows, symbols, intervals);
      rows := rows[target := ConfigRow(c.provider, c.enabled, c.version, c.updatedBy)];
      var ok := InsertChildren(target, c, budget - 1);
      if !ok {
        rows, symbols, intervals := before.0, before.1, before.2;
        return Some("create alert config");
      }
      return None;
    }

    /** Three separate statements: the row, then its symbols in order, then its intervals in order. */
    method GetAlertConfig(target: string) returns (r: Option<AlertConfig>)
      ensures r == if target !in rows then None
                   else Some(Assembled(rows[target], Children(symbols, target), Children(intervals, target)))
    {
      if target !in rows {
        return None;
      }
      var row := rows[target];
      var s := List(Children(symbols, target));
      var i := List(Children(intervals, target));
      return Some(AlertConfig(row.provider, row.enabled, s, i, row.version, row.updatedBy));
    }

    /** The version-checked replace transaction: all of its statements take effect, or none. */
    method ReplaceAlertConfig(target: string, c: AlertConfig, expected: nat, budget: nat)
      returns (r: Result<AlertConfig>)
      requires ChildrenHaveParents(View())
      modifies this
      ensures r.Ok? <==> ReplaceSucceeds(old(View()), target, c, expected) && budget >= 3 + |c.symbols| + |c.intervals|
      ensures View() == if r.Ok? then Written(old(View()), target, c, expected + 1) else old(View())
      ensures r.Ok? ==> r.value == c.(version := expected + 1)
      ensures ChildrenHaveParents(View())
    {
      var valid := Validate(target, c);
      if !valid {
        return Err("validate alert config");
      }
      if target !in rows || rows[target].version != expected || budget < 3 {
        return Err("replace alert config");
      }
      var before := (rows, symbols, intervals);
      rows := rows[target := ConfigRow(c.provider, c.enabled, rows[target].version + 1, c.updatedBy)];
      symbols := symbols - {target};
      intervals := intervals - {target};
      var ok := InsertChildren(target, c, budget - 3);
      if !ok {
        rows, symbols, intervals := before.0, before.1, before.2;
        return Err("replace alert config");
      }
      assert View().symbols == before.1[target := Elems(c.symbols)];
      assert View().intervals == before.2[target := Elems(c.intervals)];
      return Ok(c.(version := expected + 1));
    }

    /** Reads the configuration and writes it back with only the flag and the author changed. */
    method SetAlertConfigEnabled(target: string, enabled: bool, updatedBy: string, expected: nat, budget: nat)
      returns (r: Result<AlertConfig>)
      requires ChildrenHaveParents(View())
      modifies this
      ensures r.Ok? <==> && Rewritable(old(View()), target, updatedBy) && old(rows)[target].version == expected
                         && budget >= 3 + |Children(old(symbols), target)| + |Children(old(intervals), target)|
      ensures r.Ok? ==> View() == old(View()).(
                rows := old(rows)[target := ConfigRow(old(rows)[target].provider, enabled, expected + 1, updatedBy)])
      ensures r.Err? ==> View() == old(View())
      ensures ChildrenHaveParents(View())
    {
      var read := GetAlertConfig(target);
      if read.None? {
        return Err("alert config not found");
      }
      ListedIsRewritable(View(), target, enabled, updatedBy);
      hide ValidConfig, Rewritable, Listing;
      r := ReplaceAlertConfig(target, read.value.(enabled := enabled, updatedBy := updatedBy), expected, budget);
      if r.Ok? {
        assert symbols == old(symbols)[target := Children(old(symbols), target)];
        assert intervals == old(intervals)[target := Children(old(intervals), target)];
        ChildrenWrittenBack(old(View()), target);
      }
    }
  }

  /**
   Inserts child rows into an empty child table one statement at a time. A repeated value violates the
   primary key, and the budget says how many statements the database will carry out.
   */
  method InsertEach(values: seq<string>, budget: nat) returns (ok: bool, stored: set<string>)
    ensures ok <==> NoDup(values) && budget >= |values|
    ensures ok ==> stored == Elems(values)
  {
    stored := {};
    for i := 0 to |values|
      invariant stored == Elems(values[..i]) && NoDup(values[..i]) && budget >= i
    {
      assert values[..i + 1] == values[..i] + [values[i]];
      if values[i] in stored || budget == i {
        if values[i] in stored { Repeated(values, i); }
        return false, stored;
      }
      stored := stored + {values[i]};
    }
    assert values[..|values|] == values;
    return true, stored;
  }

  /** The elements of a set in order, each once. */
  method List(s: set<string>) returns (r: seq<string>)
    ensures r == Listing(s)
  {
    r := [];
    var rest := s;
    while rest != {}
      invariant rest <= s && Elems(r) == s - rest && |r| + |rest| == |s|
      invariant Ascending(ByText, r)
      decreases rest
    {
      var x :| x in rest;
      InsertElems(ByText, x, r);
      InsertAscending(ByText, x, r);
      r := Insert(ByText, x, r);
      rest := rest - {x};
    }
    SameSizeNoDup(r);
    ListingOrdered(s);
    OneListing(r, Listing(s));
  }

  /** What was read back is valid under another author exactly when what is stored can be rewritten. */
  lemma ListedIsRewritable(t: Tables, target: string, enabled: bool, updatedBy: string)
    requires target in t.rows
    ensures var s, i := Children(t.symbols, target), Children(t.intervals, target);
            var c := Assembled(t.rows[target], s, i).(enabled := enabled, updatedBy := updatedBy);
            && (ValidConfig(target, c) <==> Rewritable(t, target, updatedBy))
            && Elems(c.symbols) == s && Elems(c.intervals) == i && |c.symbols| == |s| && |c.intervals| == |i|
  {
    var s, i := Children(t.symbols, target), Children(t.intervals, target);
    ListingOrdered(s);
    ListingOrdered(i);
    SameAsListed(s, Listing(s));
    SameAsListed(i, Listing(i));
  }

  lemma ChildrenWrittenBack(t: Tables, target: string)
    ensures Children(t.symbols, target) != {} ==> t.symbols[target := Children(t.symbols, target)] == t.symbols
    ensures Children(t.intervals, target) != {} ==> t.intervals[target := Children(t.intervals, target)] == t.intervals
  {
  }

  lemma SameAsListed(s: set<string>, listed: seq<string>)
    requires Elems(listed) == s && NoDup(listed)
    ensures |listed| == |s| && (listed == [] <==> s == {}) && forall x :: x in listed <==> x in s
  {
    NoDupSize(listed);
  }

  lemma Repeated<T>(s: seq<T>, i: nat)
    requires i < |s| && s[i] in s[..i]
    ensures !NoDup(s)
  {
  }
}
