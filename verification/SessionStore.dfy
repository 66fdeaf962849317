/**
 The memory session store of internal/chat/session.go on the heap: selections are Go slices, so what
 is stored, what is passed in and what is handed out could share memory.
 */
module SessionStores {
  import opened Prelude
  import opened Domain

  /** A Go slice from the start of its backing array: length is |Text()|, capacity is data.Length. */
  datatype Slice = Slice(data: array<string>, len: nat) {
    predicate Valid() {
      len <= data.Length
    }

    function Text(): seq<string>
      requires Valid()
      reads data
    {
      data[..len]
    }
  }

  datatype ConfigSession = ConfigSession(
    id: string, target: string, actor: string, base: nat, provider: MarketProvider,
    symbols: Slice, intervals: Slice, expiresAt: Nanos)
  {
    ghost predicate Valid() {
      symbols.Valid() && intervals.Valid()
    }

    ghost function Arrays(): set<array<string>> {
      {symbols.data, intervals.data}
    }

    /** The session as an immutable value. */
    ghost function Value(): SessionValue
      requires Valid()
      reads symbols.data, intervals.data
    {
      SessionValue(id, target, actor, base, provider, symbols.Text(), intervals.Text(), expiresAt)
    }

    /** ConfigSession.Validate. */
    predicate Alive(now: Nanos) {
      id != "" && target != "" && actor != "" && expiresAt != ZERO_TIME && now < expiresAt
    }
  }

  datatype SessionValue = SessionValue(
    id: string, target: string, actor: string, base: nat, provider: MarketProvider,
    symbols: seq<string>, intervals: seq<string>, expiresAt: Nanos)
  {
    /** Every field is there, and the time has not come. */
    predicate Usable(now: Nanos) {
      !(id == "" || target == "" || actor == "" || expiresAt == ZERO_TIME || expiresAt <= now)
    }
  }

  /** The store as a plain map of values. */
  type Sessions = map<string, SessionValue>

  /** append([]string(nil), values...): a new array, with whatever spare capacity append leaves. */
  method Clone(values: Slice) returns (r: Slice)
    requires values.Valid()
    ensures r.Valid() && fresh(r.data) && r.Text() == values.Text()
  {
    var spare :| 0 <= spare;
    var data := new string[values.len + spare];
    for i := 0 to values.len
      invariant data[..i] == values.data[..i]
    {
      data[i] := values.data[i];
    }
    r := Slice(data, values.len);
  }

  method CloneSession(session: ConfigSession) returns (r: ConfigSession)
    requires session.Valid()
    ensures r.Valid() && fresh(r.Arrays()) && r.symbols.data != r.intervals.data
    ensures r.id == session.id && r.Value() == session.Value()
  {
    var symbols := Clone(session.symbols);
    var intervals := Clone(session.intervals);
    r := session.(symbols := symbols, intervals := intervals);
  }

  class MemorySessionStore {
    var sessions: map<string, ConfigSession>

    /** The arrays that sessions were ever stored in. */
    ghost var owned: set<array<string>>

    ghost predicate Valid()
      reads this
    {
      forall id :: id in sessions ==>
        sessions[id].Valid() && sessions[id].id == id && sessions[id].symbols.data in owned
          && sessions[id].intervals.data in owned
    }

    ghost function View(): Sessions
      requires Valid()
      reads this, owned
    {
      map id | id in sessions :: sessions[id].Value()
    }

    constructor ()
      ensures Valid() && View() == map[] && owned == {}
    {
      sessions, owned := map[], {};
    }

    method Hold(copy: ConfigSession)
      requires Valid() && copy.Valid()
      modifies this
      ensures Valid() && owned == old(owned) + {copy.symbols.data, copy.intervals.data}
      ensures View() == old(View())[copy.id := copy.Value()]
    {
      hide ConfigSession.Value, Slice.Text;
      sessions, owned := sessions[copy.id := copy], owned + {copy.symbols.data, copy.intervals.data};
    }

    method Put(session: ConfigSession)
      requires Valid() && session.Valid()
      modifies this
      ensures Valid() && fresh(owned - old(owned))
      ensures View() == old(View())[session.id := session.Value()]
    {
      hide MemorySessionStore.View, MemorySessionStore.Valid, ConfigSession.Value;
      var copy := CloneSession(session);
      Hold(copy);
    }

    /** Whatever the caller does to its own slices afterwards cannot reach the store, which keeps copies. */
    method Create(session: ConfigSession, now: Nanos) returns (ok: bool)
      requires Valid() && session.Valid()
      modifies this
      ensures Valid() && fresh(owned - old(owned))
      ensures ok <==> session.id !in old(View()) && session.id != "" && session.target != "" && session.actor != ""
                      && session.expiresAt != ZERO_TIME && now < session.expiresAt
      ensures View() == if ok then old(View())[session.id := session.Value()] else old(View())
    {
      if !session.Alive(now) || session.id in sessions {
        return false;
      }
      Put(session);
      return true;
    }

    /** What is handed out is a copy in fresh arrays. */
    method Get(id: string, now: Nanos) returns (r: Option<ConfigSession>)
      requires Valid()
      modifies this
      ensures Valid() && owned <= old(owned)
      ensures r.Some? <==>
                && id in old(View())
                && var v := old(View())[id];
                   v.id != "" && v.target != "" && v.actor != "" && v.expiresAt != ZERO_TIME && now < v.expiresAt
      ensures r.Some? ==> r.value.Valid() && fresh(r.value.Arrays()) && r.value.symbols.data != r.value.intervals.data
      ensures r.Some? ==> r.value.id == id && r.value.Value() == old(View())[id]
      ensures View() == if r.Some? then old(View()) else old(View()) - {id}
    {
      if id !in sessions {
        return None;
      }
      var session := sessions[id];
      if !session.Alive(now) {
        sessions := sessions - {id};
        return None;
      }
      var copy := CloneSession(session);
      return Some(copy);
    }

    method Update(session: ConfigSession, now: Nanos) returns (ok: bool)
      requires Valid() && session.Valid()
      modifies this
      ensures Valid() && fresh(owned - old(owned))
      ensures ok <==> session.id in old(View()) && session.id != "" && session.target != "" && session.actor != ""
                      && session.expiresAt != ZERO_TIME && now < session.expiresAt
      ensures View() == if ok then old(View())[session.id := session.Value()] else old(View())
    {
      if !session.Alive(now) || session.id !in sessions {
        return false;
      }
      Put(session);
      return true;
    }

    method Delete(id: string) returns (ok: bool)
      requires Valid()
      modifies this
      ensures Valid() && owned <= old(owned)
      ensures ok == (id in old(View()))
      ensures View() == old(View()) - {id}
    {
      ok := id in sessions;
      sessions := sessions - {id};
    }
  }

  /** The Telegram toggle: removal shifts the rest of the caller's array to the left, in place. */
  method ToggleInPlace(values: Slice, value: string) returns (r: Slice)
    requires values.Valid()
    modifies values.data
    ensures r.Valid() && r.Text() == Toggled(old(values.Text()), value)
    ensures r.data == values.data || fresh(r.data)
  {
    ghost var was := values.Text();
    for i := 0 to values.len
      invariant values.data[..] == old(values.data[..])
      invariant value !in was[..i]
    {
      if values.data[i] == value {
        RemoveAt(values, i);
        ToggledRemoves(was, value, i);
        return Slice(values.data, values.len - 1);
      }
      assert was[..i + 1] == was[..i] + [was[i]];
    }
    assert was[..values.len] == was;
    ToggledAppends(was, value);
    r := Append(values, value);
  }

  /** append(values[:i], values[i+1:]...) fits in place. */
  method RemoveAt(values: Slice, i: nat)
    requires values.Valid() && i < values.len
    modifies values.data
    ensures values.data[..values.len - 1] == old(values.data[..i] + values.data[i + 1..values.len])
  {
    ghost var was := values.data[..values.len];
    for k := i to values.len - 1
      invariant forall j :: 0 <= j < i ==> values.data[j] == was[j]
      invariant forall j :: i <= j < k ==> values.data[j] == was[j + 1]
      invariant forall j :: k <= j < values.len ==> values.data[j] == was[j]
    {
      values.data[k] := values.data[k + 1];
    }
    assert values.data[..values.len - 1] == was[..i] + was[i + 1..];
  }

  /** append(values, value) writes behind the slice while there is room, and moves it otherwise. */
  method Append(values: Slice, value: string) returns (r: Slice)
    requires values.Valid()
    modifies values.data
    ensures r.Valid() && r.Text() == old(values.Text()) + [value]
    ensures r.data == values.data || fresh(r.data)
  {
    if values.len < values.data.Length {
      values.data[values.len] := value;
      assert values.data[..values.len + 1] == values.data[..values.len] + [value];
      return Slice(values.data, values.len + 1);
    }
    var spare :| 0 <= spare;
    var data := new string[values.len + 1 + spare];
    for i := 0 to values.len
      invariant data[..i] == values.data[..i] && values.data[..] == old(values.data[..])
    {
      data[i] := values.data[i];
    }
    assert data[..values.len] == old(values.Text());
    data[values.len] := value;
    assert data[..values.len] == old(values.Text());
    assert data[..values.len + 1] == data[..values.len] + [value];
    r := Slice(data, values.len + 1);
  }

  /** The Slack toggle builds a new slice and leaves the caller's alone. */
  method ToggleCopy(values: Slice, value: string) returns (r: Slice)
    requires values.Valid()
    ensures r.Valid() && fresh(r.data) && r.Text() == Toggled(values.Text(), value)
  {
    ghost var was := values.Text();
    for i := 0 to values.len
      invariant value !in was[..i]
    {
      if values.data[i] == value {
        r := Clone(Slice(values.data, i));
        var k := i + 1;
        while k < values.len
          invariant i < k <= values.len && r.Valid() && fresh(r.data) && values.Text() == was
          invariant r.Text() == was[..i] + was[i + 1..k]
        {
          r := Append(r, values.data[k]);
          assert was[i + 1..k + 1] == was[i + 1..k] + [was[k]];
          k := k + 1;
        }
        assert was[i + 1..values.len] == was[i + 1..];
        ToggledRemoves(was, value, i);
        return;
      }
      assert was[..i + 1] == was[..i] + [was[i]];
    }
    assert was[..values.len] == was;
    ToggledAppends(was, value);
    r := Clone(values);
    r := Append(r, value);
  }

  /** The selections of one session were replaced: its other fields and all other sessions are as before. */
  predicate OnlySelected(
    before: Sessions, after: Sessions, id: string, provider: MarketProvider, symbols: seq<string>,
    intervals: seq<string>)
  {
    && id in before && after.Keys == before.Keys
    && (forall other :: other in before && other != id ==> after[other] == before[other])
    && var v := before[id];
       after[id] == SessionValue(v.id, v.target, v.actor, v.base, provider, symbols, intervals, v.expiresAt)
  }

  /** The session is there, usable, and the actor's own. */
  predicate Owns(m: Sessions, id: string, place: string, actor: string, now: Nanos) {
    id in m && m[id].Usable(now) && m[id].target == place && m[id].actor == actor
  }

  /** What a fetch at this time leaves: a session that is no longer usable is gone. */
  function Fetched(m: Sessions, id: string, now: Nanos): Sessions {
    if id in m && !m[id].Usable(now) then m - {id} else m
  }

  /**
   Exactly when the session is the actor's own and usable at both times, its three selections are replaced;
   otherwise nothing but the purge of a session found unusable happens.
   */
  method UpdateSession(
    store: MemorySessionStore, id: string, place: string, actor: string, provider: MarketProvider, symbols: Slice,
    intervals: Slice, fetchedAt: Nanos, storedAt: Nanos)
    returns (ok: bool)
    requires store.Valid() && symbols.Valid() && intervals.Valid()
    modifies store
    ensures store.Valid() && fresh(store.owned - old(store.owned))
    ensures ok ==> OnlySelected(old(store.View()), store.View(), id, provider, symbols.Text(), intervals.Text())
    ensures !ok ==> store.View() == Fetched(old(store.View()), id, fetchedAt)
    ensures ok <==> Owns(old(store.View()), id, place, actor, fetchedAt) && old(store.View())[id].Usable(storedAt)
  {
    hide MemorySessionStore.View, MemorySessionStore.Valid;
    ghost var m := store.View();
    var found := store.Get(id, fetchedAt);
    if found.None? {
      assert id in m ==> !m[id].Usable(fetchedAt);
      return false;
    }
    var session := found.value;
    if session.target != place || session.actor != actor {
      return false;
    }
    var ownSymbols := Clone(symbols);
    var ownIntervals := Clone(intervals);
    var updated := session.(provider := provider, symbols := ownSymbols, intervals := ownIntervals);
    assert updated.Value() == m[id].(provider := provider, symbols := symbols.Text(), intervals := intervals.Text());
    ok := store.Update(updated, storedAt);
  }

  /**
   The Telegram symbol control: fetch the session, toggle its symbols in place, and update the session.
   Between the two store calls the store still holds what the fetch left: the toggle wrote to a copy.
   */
  method ToggleSymbol(
    store: MemorySessionStore, id: string, place: string, actor: string, symbol: string, readAt: Nanos,
    fetchedAt: Nanos, storedAt: Nanos)
    returns (ok: bool, ghost between: Sessions)
    requires store.Valid()
    modifies store
    ensures store.Valid() && fresh(store.owned - old(store.owned))
    ensures between == Fetched(old(store.View()), id, readAt)
    ensures ok <==> Owns(old(store.View()), id, place, actor, readAt) && old(store.View())[id].Usable(fetchedAt)
                    && old(store.View())[id].Usable(storedAt)
    ensures ok ==> id in store.View()
                   && WithoutOrWith(old(store.View())[id].symbols, symbol, store.View()[id].symbols)
    ensures ok ==> var v := old(store.View())[id];
                   OnlySelected(old(store.View()), store.View(), id, v.provider, store.View()[id].symbols, v.intervals)
    ensures !ok ==> store.View() == Fetched(old(store.View()), id,
                      if Owns(old(store.View()), id, place, actor, readAt) then fetchedAt else readAt)
  {
    hide MemorySessionStore.View, MemorySessionStore.Valid, Toggled;
    ghost var m := store.View();
    var found := store.Get(id, readAt);
    between := store.View();
    if found.None? || found.value.target != place || found.value.actor != actor {
      assert id in m && found.None? ==> !m[id].Usable(readAt);
      return false, between;
    }
    var session := found.value;
    ToggledIsWithoutOrWith(session.symbols.Text(), symbol);
    var symbols := ToggleInPlace(session.symbols, symbol);
    between := store.View();
    ok := UpdateSession(store, id, place, actor, session.provider, symbols, session.intervals, fetchedAt, storedAt);
  }
}
