/** The sessions that Configure opens, and what saving one untouched does: internal/chat/service.go. */
module Openings {
  import opened Prelude
  import opened Ordering
  import opened Domain
  import opened ConfigServices
  import opened ChatProtocol
  import opened ChatTheorems
  import opened Guided
  import opened GuidedSessions

  /** The elements of a set in ascending order, each once. */
  ghost predicate ListedInOrder(listed: seq<string>, all: set<string>) {
    && (forall x :: x in listed <==> x in all) && NoDup(listed)
    && forall i, j :: 0 <= i < j < |listed| ==> Before(listed[i], listed[j])
  }

  lemma ListingListsInOrder(all: set<string>)
    ensures ListedInOrder(Listing(all), all)
  {
    ListingOrdered(all);
    var r := Listing(all);
    forall x ensures x in r <==> x in all { assert x in r <==> x in Elems(r); }
    forall i, j | 0 <= i < j < |r| ensures Before(r[i], r[j]) {
      assert !Precedes(ByText(r[j]), ByText(r[i]));
      PrecedesTotal(ByText(r[i]), ByText(r[j]));
    }
  }

  /** The provider that was read, or the default one where it is no longer enabled. */
  function StillEnabled(settings: Settings, provider: MarketProvider): MarketProvider {
    if settings.resolver.Get(provider) then provider else settings.defaultProvider
  }

  /** Each symbol in the form the registry knows it under, if it does. */
  predicate EachCanonical(settings: Settings, provider: MarketProvider, symbols: seq<Symbol>, result: seq<Symbol>) {
    && |result| == |symbols|
    && forall i :: 0 <= i < |symbols| ==>
         var known := settings.canonical(provider, symbols[i]);
         result[i] == if known.Some? then known.value else symbols[i]
  }

  /** The selection of a new session: a configuration created just now as read, any other made usable. */
  ghost predicate SelectsWhatWasRead(settings: Settings, p: Proc, v: Session)
    requires p.Configuring? && p.read.Done?
  {
    && ListedInOrder(v.intervals, p.read.intervals)
    && if p.attempt == Recheck(true)
       then v.provider == p.read.row.provider && ListedInOrder(v.symbols, p.read.symbols)
       else && v.provider == StillEnabled(settings, p.read.row.provider)
            && exists listed :: ListedInOrder(listed, p.read.symbols)
                                && EachCanonical(settings, v.provider, listed, v.symbols)
  }

  /**
   Configure opens one session, of its own actor and target, that runs out ttl after the clock and is based on
   the version of the row it read; all intervals read are selected, in order, and the symbols and the provider
   that were read. Nothing else changes.
   */
  lemma OpensExactly(settings: Settings, s: State, pid: nat, sid: nat, ttl: nat)
    requires Reachable(settings, s) && Enabled(settings, s, OpenSession(pid, sid, ttl))
    ensures var p, n := s.procs[pid], Next(settings, s, OpenSession(pid, sid, ttl));
            && sid in n.born
            && var v := n.born[sid];
               && n == s.(procs := s.procs - {pid}, sessions := s.sessions[sid := v], born := s.born[sid := v])
               && v.target == p.target && v.actor == p.actor && v.expiresAt == s.clock + ttl
               && v.base == p.read.row.version && SelectsWhatWasRead(settings, p, v)
  {
    hide Reachable, ListedInOrder, EachCanonical, Settings.CanonicalSymbols;
    var p := s.procs[pid];
    ListingListsInOrder(p.read.intervals);
    ListingListsInOrder(p.read.symbols);
    var provider := StillEnabled(settings, p.read.row.provider);
    CanonicalEach(settings, provider, Listing(p.read.symbols));
  }

  lemma CanonicalEach(settings: Settings, provider: MarketProvider, symbols: seq<Symbol>)
    ensures EachCanonical(settings, provider, symbols, settings.CanonicalSymbols(provider, symbols))
  {
  }

  /** What was read without being torn is the content of the version the session is based on. */
  lemma OpensOnItsVersion(settings: Settings, s: State, pid: nat)
    requires Reachable(settings, s) && Opening(s, pid)
    ensures var p := s.procs[pid];
            && p.target in s.history && p.read.row.version < |s.history[p.target]|
            && s.history[p.target][p.read.row.version].content
               == Content(p.read.row.provider, p.read.row.enabled, p.read.symbols, p.read.intervals)
  {
    ConfigureReadIsSound(settings, s, pid);
    hide Reachable;
  }

  /** The symbols that were read are those the session shows: just created, or left alone by the mapping. */
  ghost predicate LeftAlone(settings: Settings, p: Proc)
    requires p.Configuring? && p.read.Done?
  {
    p.attempt == Recheck(true) || CanonicalLeaves(settings, p.read.row.provider, Listing(p.read.symbols))
  }

  /** Such a session shows what was read, and a save of it is accepted for any named actor. */
  lemma UntouchedIsAccepted(settings: Settings, s: State, pid: nat, expiresAt: Nanos, actor: string)
    requires Reachable(settings, s) && Opening(s, pid) && SymbolsNormalized(settings)
    requires LeftAlone(settings, s.procs[pid])
    ensures var read, v := s.procs[pid].read, Opened(settings, s.procs[pid], expiresAt);
            && v.provider == read.row.provider && settings.resolver.Get(v.provider)
            && Elems(settings.Normalized(v.symbols)) == read.symbols && Elems(v.intervals) == read.intervals
            && (settings.Accepts(v.provider, v.symbols, v.intervals, actor) <==> settings.trim(actor) != "")
  {
    var read, v := s.procs[pid].read, Opened(settings, s.procs[pid], expiresAt);
    OpeningReadsStored(settings, s, pid);
    if s.procs[pid].attempt != Recheck(true) {
      CanonicalUnchanged(settings, read.row.provider, Listing(read.symbols));
    }
    assert v.symbols == Listing(read.symbols) && v.intervals == Listing(read.intervals);
    assert v.provider == read.row.provider;
    ListedIsAccepted(settings, read.row.provider, read.symbols, read.intervals, actor);
  }

  lemma ListedIsAccepted(
    settings: Settings, provider: MarketProvider, symbols: set<Symbol>, intervals: set<Interval>, actor: string)
    requires settings.Valid() && SymbolsNormalized(settings) && settings.Storable(provider, symbols, intervals)
    ensures Elems(settings.Normalized(Listing(symbols))) == symbols
    ensures settings.Accepts(provider, Listing(symbols), Listing(intervals), actor) <==> settings.trim(actor) != ""
  {
    StoredIsOfferable(settings, provider, symbols, intervals);
    OfferableIsAccepted(settings, Selection(provider, Listing(symbols), Listing(intervals)), actor);
    var any :| any in intervals;
    assert any in Elems(Listing(intervals));
    hide Settings.Accepts;
    forall x | x in Listing(symbols) ensures settings.normalize(x) == x {
      assert x in Elems(Listing(symbols));
      OfferedSymbolsAt(settings, provider, settings.defaultSymbols, x);
    }
    NormalizedAlready(settings, Listing(symbols));
  }

  /** An operation is about to save the session as it was opened. */
  predicate SavesUntouched(d: State, q: nat, sid: nat, v: Session) {
    && q in d.procs && d.procs[q].Saving? && d.procs[q].read.Done?
    && d.procs[q].sid == sid && d.procs[q].session == v
  }

  lemma RowOfSaving(settings: Settings, d: State, q: nat)
    requires Reachable(settings, d) && q in d.procs && d.procs[q].Saving? && d.procs[q].read.Done?
    ensures d.procs[q].session.target in d.tables.rows
  {
    ReachableKeeps(settings, d);
    TargetOfRead(settings, d, q);
  }

  /** A stored selection that is the content it replaces, under the same flag, is that content again. */
  lemma StoresBase(settings: Settings, d: State, n: State, p: Proc, content: Content)
    requires p.Saving? && SelectionStored(settings, d, n, p)
    requires settings.resolver.Get(p.session.provider)
    requires var target, base := p.session.target, p.session.base;
             && target in d.history && base < |d.history[target]| && d.history[target][base].content == content
             && content == Content(p.session.provider, content.enabled, Elems(settings.Normalized(p.session.symbols)),
                                   Elems(p.session.intervals))
    ensures var target, base := p.session.target, p.session.base;
            && target in n.history && |n.history[target]| == base + 2
            && n.history[target][base + 1].content == content
  {
  }

  lemma OpensThis(settings: Settings, s: State, pid: nat, sid: nat, ttl: nat)
    requires settings.Valid() && Enabled(settings, s, OpenSession(pid, sid, ttl))
    ensures var o, v := Next(settings, s, OpenSession(pid, sid, ttl)), Opened(settings, s.procs[pid], s.clock + ttl);
            && sid in o.born && o.born[sid] == v && o.history == s.history
            && v.target == s.procs[pid].target && v.base == s.procs[pid].read.row.version
  {
  }

  lemma UntouchedStores(settings: Settings, d: State, q: nat, v: Session, content: Content)
    requires Reachable(settings, d) && q in d.procs && d.procs[q].Saving? && d.procs[q].read.Done?
    requires d.procs[q].session == v && settings.resolver.Get(v.provider)
    requires v.target in d.history && v.base < |d.history[v.target]| && d.history[v.target][v.base].content == content
    requires content
          == Content(v.provider, content.enabled, Elems(settings.Normalized(v.symbols)), Elems(v.intervals))
    requires settings.Accepts(v.provider, v.symbols, v.intervals, d.procs[q].actor)
        <==> settings.trim(d.procs[q].actor) != ""
    ensures var n := Next(settings, d, Perform(q));
            && v.target in d.tables.rows
            && if d.procs[q].read.row.version == v.base && d.tables.rows[v.target].version == v.base
                  && settings.trim(d.procs[q].actor) != ""
               then && v.target in n.history && |n.history[v.target]| == v.base + 2
                    && n.history[v.target][v.base + 1].content == content
               else n == d.(procs := d.procs - {q})
  {
    SavesAreAtomic(settings, d, q);
    RowOfSaving(settings, d, q);
    hide Next, Reachable, Settings.Accepts, SelectionStored;
    if CanSave(settings, d, d.procs[q]) {
      StoresBase(settings, d, Next(settings, d, Perform(q)), d.procs[q], content);
    }
  }

  /**
   Opening a session on an untorn read and saving it without a press stores the content of its base version
   again, as the next version, exactly when nothing was committed in between and the actor is named.
   */
  lemma UntouchedSavesRestore(
    settings: Settings, s: State, pid: nat, sid: nat, ttl: nat, steps: seq<Step>, q: nat)
    requires Reachable(settings, s) && Enabled(settings, s, OpenSession(pid, sid, ttl)) && Opening(s, pid)
    requires SymbolsNormalized(settings) && LeftAlone(settings, s.procs[pid])
    requires Feasible(settings, Next(settings, s, OpenSession(pid, sid, ttl)), steps)
    requires var o := Next(settings, s, OpenSession(pid, sid, ttl));
             SavesUntouched(After(settings, o, steps), q, sid, o.born[sid])
    ensures var target, base := s.procs[pid].target, s.procs[pid].read.row.version;
            var d := After(settings, Next(settings, s, OpenSession(pid, sid, ttl)), steps);
            var n := Next(settings, d, Perform(q));
            && target in s.history && base < |s.history[target]| && target in d.tables.rows
            && if d.procs[q].read.row.version == base && d.tables.rows[target].version == base
                  && settings.trim(d.procs[q].actor) != ""
               then && target in n.history && |n.history[target]| == base + 2
                    && n.history[target][base + 1].content == s.history[target][base].content
               else n == d.(procs := d.procs - {q})
  {
    var o := Next(settings, s, OpenSession(pid, sid, ttl));
    var v := Opened(settings, s.procs[pid], s.clock + ttl);
    OpensThis(settings, s, pid, sid, ttl);
    OpensOnItsVersion(settings, s, pid);
    ReachesNext(settings, s, OpenSession(pid, sid, ttl));
    hide Next, Reachable, Feasible, After, Opened, Settings.Accepts, LeftAlone, Opening, SelectionStored, CanSave,
        CanonicalLeaves, SymbolsNormalized;
    CommitsAreKept(settings, o, steps);
    ReachesAfter(settings, o, steps);
    var d := After(settings, o, steps);
    assert s.history[s.procs[pid].target] <= d.history[s.procs[pid].target];
    UntouchedIsAccepted(settings, s, pid, s.clock + ttl, d.procs[q].actor);
    UntouchedStores(settings, d, q, v, s.history[s.procs[pid].target][s.procs[pid].read.row.version].content);
  }
}
