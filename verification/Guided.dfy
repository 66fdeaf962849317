/** The guided selection controls of internal/chat/telegram/webhook.go and internal/chat/slack/webhook.go. */
module Guided {
  import opened Prelude
  import opened Ordering
  import opened Domain
  import opened Registry
  import opened ConfigServices

  datatype Selection = Selection(provider: MarketProvider, symbols: seq<Symbol>, intervals: seq<Interval>)

  /** A press of one control of the guided keyboard. */
  datatype Press =
    | ChooseProvider(provider: MarketProvider)
    | PressSymbol(symbol: Symbol)
    | PressInterval(interval: Interval)

  /** A symbol is offered when the provider supports it at some configured interval. */
  predicate SymbolOffered(settings: Settings, provider: MarketProvider, symbol: Symbol) {
    exists i :: i in settings.defaultIntervals && settings.resolver.Supports(provider, symbol, i)
  }

  predicate IntervalOffered(settings: Settings, provider: MarketProvider, interval: Interval) {
    exists s :: s in settings.defaultSymbols && settings.resolver.Supports(provider, s, interval)
  }

  function OfferedSymbols(settings: Settings, provider: MarketProvider, among: seq<Symbol>): seq<Symbol> {
    if among == [] then []
    else (if SymbolOffered(settings, provider, among[0]) then [among[0]]
      else []) + OfferedSymbols(settings, provider, among[1..])
  }

  function OfferedIntervals(settings: Settings, provider: MarketProvider, among: seq<Interval>): seq<Interval> {
    if among == [] then []
    else (if IntervalOffered(settings, provider, among[0]) then [among[0]]
      else []) + OfferedIntervals(settings, provider, among[1..])
  }

  function SymbolControls(settings: Settings, provider: MarketProvider): seq<Symbol> {
    OfferedSymbols(settings, provider, settings.defaultSymbols)
  }

  function IntervalControls(settings: Settings, provider: MarketProvider): seq<Interval> {
    OfferedIntervals(settings, provider, settings.defaultIntervals)
  }

  lemma {:induction false} OfferedSymbolsAt(
    settings: Settings, provider: MarketProvider, among: seq<Symbol>, symbol: Symbol)
    ensures symbol in OfferedSymbols(settings, provider, among)
            <==> symbol in among && SymbolOffered(settings, provider, symbol)
  {
    if among != [] { OfferedSymbolsAt(settings, provider, among[1..], symbol); }
  }

  lemma {:induction false} OfferedIntervalsAt(
    settings: Settings, provider: MarketProvider, among: seq<Interval>, interval: Interval)
    ensures interval in OfferedIntervals(settings, provider, among)
            <==> interval in among && IntervalOffered(settings, provider, interval)
  {
    if among != [] { OfferedIntervalsAt(settings, provider, among[1..], interval); }
  }

  lemma {:induction false} OfferedSymbolsOneMore(
    settings: Settings, provider: MarketProvider, among: seq<Symbol>, last: Symbol)
    ensures OfferedSymbols(settings, provider, among + [last])
         == OfferedSymbols(settings, provider, among) + (if SymbolOffered(settings, provider, last) then [last] else [])
  {
    if among == [] {
      assert among + [last] == [last] && [last][1..] == [];
    } else {
      assert (among + [last])[1..] == among[1..] + [last];
      OfferedSymbolsOneMore(settings, provider, among[1..], last);
    }
  }

  method AvailableSymbols(settings: Settings, provider: MarketProvider) returns (r: seq<Symbol>)
    ensures r == SymbolControls(settings, provider)
  {
    var symbols := settings.defaultSymbols;
    r := [];
    for i := 0 to |symbols|
      invariant r == OfferedSymbols(settings, provider, symbols[..i])
    {
      var offered := false;
      for j := 0 to |settings.defaultIntervals|
        invariant !offered
        invariant forall x :: x in settings.defaultIntervals[..j] ==>
                    !settings.resolver.Supports(provider, symbols[i], x)
      {
        if settings.resolver.Supports(provider, symbols[i], settings.defaultIntervals[j]) {
          assert settings.defaultIntervals[j] in settings.defaultIntervals;
          offered := true;
          break;
        }
      }
      assert !offered ==> settings.defaultIntervals[..|settings.defaultIntervals|] == settings.defaultIntervals;
      OfferedSymbolsOneMore(settings, provider, symbols[..i], symbols[i]);
      assert symbols[..i + 1] == symbols[..i] + [symbols[i]];
      if offered { r := r + [symbols[i]]; }
    }
    assert symbols[..|symbols|] == symbols;
  }

  lemma {:induction false} FilteredAt(values: seq<string>, allowed: seq<string>, x: string)
    ensures x in Filtered(values, allowed) <==> x in values && x in allowed
  {
    if values != [] { FilteredAt(values[1..], allowed, x); }
  }

  lemma {:induction false} FilteredNoDup(values: seq<string>, allowed: seq<string>)
    requires NoDup(values)
    ensures NoDup(Filtered(values, allowed))
  {
    if values != [] {
      FilteredNoDup(values[1..], allowed);
      FilteredAt(values[1..], allowed, values[0]);
    }
  }

  lemma {:induction false} FilteredOneMore(values: seq<string>, allowed: seq<string>, last: string)
    ensures Filtered(values + [last], allowed) == Filtered(values, allowed) + (if last in allowed then [last] else [])
  {
    if values == [] {
      assert values + [last] == [last] && [last][1..] == [];
    } else {
      assert (values + [last])[1..] == values[1..] + [last];
      FilteredOneMore(values[1..], allowed, last);
    }
  }

  method FilterStrings(values: seq<string>, allowed: seq<string>) returns (r: seq<string>)
    ensures r == Filtered(values, allowed)
  {
    r := [];
    for i := 0 to |values|
      invariant r == Filtered(values[..i], allowed)
    {
      FilteredOneMore(values[..i], allowed, values[i]);
      assert values[..i + 1] == values[..i] + [values[i]];
      for j := 0 to |allowed|
        invariant values[i] !in allowed[..j] && r == Filtered(values[..i], allowed)
      {
        assert allowed[..j + 1] == allowed[..j] + [allowed[j]];
        if values[i] == allowed[j] {
          r := r + [values[i]];
          break;
        }
      }
      assert allowed[..|allowed|] == allowed;
    }
    assert values[..|values|] == values;
  }

  /** A toggle is a symmetric difference, and keeps a selection free of duplicates. */
  lemma {:induction false} ToggledSet(values: seq<string>, x: string)
    requires NoDup(values)
    ensures NoDup(Toggled(values, x))
    ensures Elems(Toggled(values, x)) == if x in values then Elems(values) - {x} else Elems(values) + {x}
  {
    if values != [] {
      var head, rest := values[0], values[1..];
      assert values == [head] + rest;
      if head == x {
        assert x !in rest;
      } else {
        ToggledSet(rest, x);
        assert head in Toggled(rest, x) ==> head in Elems(Toggled(rest, x));
        assert Toggled(values, x) == [head] + Toggled(rest, x);
        assert Elems(values) == {head} + Elems(rest);
        assert Elems(Toggled(values, x)) == {head} + Elems(Toggled(rest, x));
      }
    }
  }

  /** Pressing the same control twice restores the set that was selected. */
  lemma TogglingTwiceRestores(values: seq<string>, x: string)
    requires NoDup(values)
    ensures Elems(Toggled(Toggled(values, x), x)) == Elems(values)
  {
    ToggledSet(values, x);
    ToggledSet(Toggled(values, x), x);
    assert x in Toggled(values, x) <==> x in Elems(Toggled(values, x));
  }

  /** processCallback and processInteraction on the fetched session; a disabled provider is refused. */
  function Pressed(settings: Settings, sel: Selection, press: Press): Selection {
    match press
    case ChooseProvider(provider) =>
      if !settings.resolver.Get(provider) then sel
      else Selection(provider, Filtered(sel.symbols, SymbolControls(settings, provider)),
          Filtered(sel.intervals, IntervalControls(settings, provider)))
    case PressSymbol(symbol) => sel.(symbols := Toggled(sel.symbols, symbol))
    case PressInterval(interval) => sel.(intervals := Toggled(sel.intervals, interval))
  }

  /** The positions of the symbols that some configured interval is supported for. */
  function OfferedAt(settings: Settings, provider: MarketProvider, among: seq<Symbol>): nat -> bool {
    (i: nat) => i < |among| && exists x :: x in settings.defaultIntervals
                                           && settings.resolver.Supports(provider, among[i], x)
  }

  /** The symbol controls are exactly these, in order. */
  lemma {:induction false} OfferedPicks(settings: Settings, provider: MarketProvider, among: seq<Symbol>)
    returns (at: seq<nat>)
    ensures ListsPositions(at, |among|, OfferedAt(settings, provider, among))
    ensures Picks(among, at, OfferedSymbols(settings, provider, among))
  {
    at := [];
    if among != [] {
      var later := OfferedPicks(settings, provider, among[1..]);
      PositionsFirst(later, |among| - 1, OfferedAt(settings, provider, among),
                     OfferedAt(settings, provider, among[1..]));
      at := (if SymbolOffered(settings, provider, among[0]) then [0] else []) + OneOn(later);
    }
  }

  /** after holds, in their order, exactly the values of before that are among the controls. */
  ghost predicate KeptFrom(before: seq<string>, controls: seq<string>, after: seq<string>) {
    exists at: seq<nat> :: ListsPositions(at, |before|, AllowedAt(before, controls)) && Picks(before, at, after)
  }

  /**
   What a press does: an enabled provider is taken over and keeps the selected values that it offers, a symbol
   or an interval leaves the selection at its first place or joins it at the end, and nothing else changes.
   */
  lemma PressesExactly(settings: Settings, sel: Selection, press: Press)
    ensures var n := Pressed(settings, sel, press);
            match press
            case ChooseProvider(provider) =>
              if settings.resolver.Get(provider) then
                && n.provider == provider
                && KeptFrom(sel.symbols, SymbolControls(settings, provider), n.symbols)
                && KeptFrom(sel.intervals, IntervalControls(settings, provider), n.intervals)
              else n == sel
            case PressSymbol(symbol) =>
              && n.provider == sel.provider && n.intervals == sel.intervals
              && WithoutOrWith(sel.symbols, symbol, n.symbols)
            case PressInterval(interval) =>
              && n.provider == sel.provider && n.symbols == sel.symbols
              && WithoutOrWith(sel.intervals, interval, n.intervals)
  {
    hide ListsPositions, Picks;
    match press {
      case ChooseProvider(provider) =>
        var _ := FilteredPicks(sel.symbols, SymbolControls(settings, provider));
        var _ := FilteredPicks(sel.intervals, IntervalControls(settings, provider));
      case PressSymbol(symbol) => ToggledIsWithoutOrWith(sel.symbols, symbol);
      case PressInterval(interval) => ToggledIsWithoutOrWith(sel.intervals, interval);
    }
  }

  /** The keyboard shown with a selection has this control. */
  predicate OnKeyboard(settings: Settings, sel: Selection, press: Press) {
    match press
    case ChooseProvider(provider) => settings.resolver.Get(provider)
    case PressSymbol(symbol) => symbol in SymbolControls(settings, sel.provider)
    case PressInterval(interval) => interval in IntervalControls(settings, sel.provider)
  }

  /** Every press is of a control on the keyboard that the press before it left. */
  ghost predicate FollowsKeyboard(settings: Settings, sel: Selection, presses: seq<Press>)
    decreases |presses|
  {
    presses == [] || (OnKeyboard(settings, sel, presses[0])
      && FollowsKeyboard(settings, Pressed(settings, sel, presses[0]), presses[1..]))
  }

  function AfterPresses(settings: Settings, sel: Selection, presses: seq<Press>): Selection
    decreases |presses|
  {
    if presses == [] then sel else AfterPresses(settings, Pressed(settings, sel, presses[0]), presses[1..])
  }

  predicate DuplicateFree(sel: Selection) {
    NoDup(sel.symbols) && NoDup(sel.intervals)
  }

  ghost predicate Offerable(settings: Settings, sel: Selection) {
    && DuplicateFree(sel) && settings.resolver.Get(sel.provider)
    && (forall s :: s in sel.symbols ==> s in SymbolControls(settings, sel.provider))
    && (forall i :: i in sel.intervals ==> i in IntervalControls(settings, sel.provider))
  }

  /** The configured symbols are written in the form the service normalizes to. */
  predicate SymbolsNormalized(settings: Settings) {
    forall s :: s in settings.defaultSymbols ==> settings.normalize(s) == s
  }

  lemma ToggleStays(values: seq<string>, x: string, controls: seq<string>)
    requires NoDup(values) && x in controls && forall v :: v in values ==> v in controls
    ensures NoDup(Toggled(values, x)) && forall v :: v in Toggled(values, x) ==> v in controls
  {
    ToggledSet(values, x);
    forall v | v in Toggled(values, x) ensures v in controls {
      assert v in Elems(Toggled(values, x));
    }
  }

  lemma ChoosingIsOfferable(settings: Settings, sel: Selection, provider: MarketProvider)
    requires DuplicateFree(sel) && settings.resolver.Get(provider)
    ensures Offerable(settings, Pressed(settings, sel, ChooseProvider(provider)))
  {
    var symbols, intervals := SymbolControls(settings, provider), IntervalControls(settings, provider);
    FilteredNoDup(sel.symbols, symbols);
    FilteredNoDup(sel.intervals, intervals);
    forall s | s in Filtered(sel.symbols, symbols) ensures s in symbols { FilteredAt(sel.symbols, symbols, s); }
    forall i | i in Filtered(sel.intervals,
        intervals) ensures i in intervals { FilteredAt(sel.intervals, intervals, i); }
  }

  lemma PressStays(settings: Settings, sel: Selection, press: Press)
    requires Offerable(settings, sel) && OnKeyboard(settings, sel, press)
    ensures Offerable(settings, Pressed(settings, sel, press))
  {
    match press {
      case ChooseProvider(provider) => ChoosingIsOfferable(settings, sel, provider);
      case PressSymbol(symbol) => ToggleStays(sel.symbols, symbol, SymbolControls(settings, sel.provider));
      case PressInterval(interval) => ToggleStays(sel.intervals, interval, IntervalControls(settings, sel.provider));
    }
  }

  lemma {:induction false} PressesStay(settings: Settings, sel: Selection, presses: seq<Press>)
    requires Offerable(settings, sel) && FollowsKeyboard(settings, sel, presses)
    ensures Offerable(settings, AfterPresses(settings, sel, presses))
    decreases |presses|
  {
    if presses != [] {
      PressStays(settings, sel, presses[0]);
      PressesStay(settings, Pressed(settings, sel, presses[0]), presses[1..]);
    }
  }

  lemma {:induction false} NormalizedAlready(settings: Settings, symbols: seq<Symbol>)
    requires forall s :: s in symbols ==> settings.normalize(s) == s
    ensures settings.Normalized(symbols) == symbols
  {
    if symbols != [] { NormalizedAlready(settings, symbols[1..]); }
  }

  /** Two controls of the same provider are always supported together. */
  lemma ControlsCombine(settings: Settings, provider: MarketProvider, symbol: Symbol, interval: Interval)
    requires symbol in SymbolControls(settings, provider) && interval in IntervalControls(settings, provider)
    ensures settings.resolver.Supports(provider, symbol, interval)
    ensures symbol in settings.defaultSymbols && interval in settings.defaultIntervals
  {
    OfferedSymbolsAt(settings, provider, settings.defaultSymbols, symbol);
    OfferedIntervalsAt(settings, provider, settings.defaultIntervals, interval);
    var i :| i in settings.defaultIntervals && settings.resolver.Supports(provider, symbol, i);
    var s :| s in settings.defaultSymbols && settings.resolver.Supports(provider, s, interval);
    SupportIsProductForm(settings.resolver, provider, symbol, i, s, interval);
  }

  lemma OfferableIsAccepted(settings: Settings, sel: Selection, actor: string)
    requires settings.Valid() && SymbolsNormalized(settings) && Offerable(settings, sel)
    ensures settings.Accepts(sel.provider, sel.symbols, sel.intervals, actor)
            <==> 1 <= |sel.symbols| <= settings.maxSymbols && sel.intervals != [] && settings.trim(actor) != ""
  {
    forall s | s in sel.symbols ensures s in settings.defaultSymbols {
      OfferedSymbolsAt(settings, sel.provider, settings.defaultSymbols, s);
    }
    forall i | i in sel.intervals ensures i in settings.defaultIntervals {
      OfferedIntervalsAt(settings, sel.provider, settings.defaultIntervals, i);
    }
    NormalizedAlready(settings, sel.symbols);
    assert forall s :: s in sel.symbols ==> settings.Allowed(s);
    forall s, i | s in sel.symbols && i in sel.intervals ensures settings.resolver.Supports(sel.provider, s, i) {
      ControlsCombine(settings, sel.provider, s, i);
    }
  }

  /** The selection a session starts from, when it was opened on a stored configuration. */
  lemma StoredIsOfferable(settings: Settings, provider: MarketProvider, symbols: set<Symbol>, intervals: set<Interval>)
    requires SymbolsNormalized(settings) && settings.Storable(provider, symbols, intervals)
    ensures Offerable(settings, Selection(provider, Listing(symbols), Listing(intervals)))
  {
    ListingOrdered(symbols);
    ListingOrdered(intervals);
    var anySymbol, anyInterval :| anySymbol in symbols && anyInterval in intervals;
    forall s | s in Listing(symbols) ensures s in SymbolControls(settings, provider) {
      assert s in symbols && settings.Allowed(s) && settings.resolver.Supports(provider, s, anyInterval);
      OfferedSymbolsAt(settings, provider, settings.defaultSymbols, s);
    }
    forall i | i in Listing(intervals) ensures i in IntervalControls(settings, provider) {
      assert i in intervals && settings.Allowed(anySymbol) && settings.resolver.Supports(provider, anySymbol, i);
      OfferedIntervalsAt(settings, provider, settings.defaultIntervals, i);
    }
  }

  /** Editing a stored configuration through its keyboard, without choosing a provider, is as safe. */
  lemma EditsOfStoredAreSaveable(
    settings: Settings, provider: MarketProvider, symbols: set<Symbol>, intervals: set<Interval>, presses: seq<Press>,
    actor: string)
    requires settings.Valid() && SymbolsNormalized(settings) && settings.Storable(provider, symbols, intervals)
    requires FollowsKeyboard(settings, Selection(provider, Listing(symbols), Listing(intervals)), presses)
    ensures var final := AfterPresses(settings, Selection(provider, Listing(symbols), Listing(intervals)), presses);
            settings.Accepts(final.provider, final.symbols, final.intervals, actor)
            <==> 1 <= |final.symbols| <= settings.maxSymbols && final.intervals != [] && settings.trim(actor) != ""
  {
    var start := Selection(provider, Listing(symbols), Listing(intervals));
    StoredIsOfferable(settings, provider, symbols, intervals);
    PressesStay(settings, start, presses);
    OfferableIsAccepted(settings, AfterPresses(settings, start, presses), actor);
  }

  /**
   From any selection without duplicates, once an enabled provider has been chosen, no sequence of
   presses on the controls shown can lead to a selection that a save refuses, except by selecting no
   symbol, too many, or no interval.
   */
  lemma GuidedSelectionsAreSaveable(
    settings: Settings, sel: Selection, provider: MarketProvider, presses: seq<Press>, actor: string)
    requires settings.Valid() && SymbolsNormalized(settings) && DuplicateFree(sel)
    requires FollowsKeyboard(settings, sel, [ChooseProvider(provider)] + presses)
    ensures var final := AfterPresses(settings, sel, [ChooseProvider(provider)] + presses);
            && DuplicateFree(final)
            && (settings.Accepts(final.provider, final.symbols, final.intervals, actor)
                <==> 1 <= |final.symbols| <= settings.maxSymbols && final.intervals != [] && settings.trim(actor) != "")
  {
    assert ([ChooseProvider(provider)] + presses)[1..] == presses;
    var chosen := Pressed(settings, sel, ChooseProvider(provider));
    ChoosingIsOfferable(settings, sel, provider);
    PressesStay(settings, chosen, presses);
    OfferableIsAccepted(settings, AfterPresses(settings, chosen, presses), actor);
  }
}
