/**
 The storage interface as the in-memory store implements it. `Store` is the value of a
 store; the class `Memory` updates its fields in place and is specified by functions on it.
 */
module MemoryStore {
  import opened Types
  import opened Sorting

  datatype Store = Store(
    states: map<string, SiteState>,
    alerts: seq<AlertRecord>,
    domains: map<string, DomainCache>,
    nextID: int)

  const EMPTY_STORE := Store(map[], [], map[], 0)

  /** A missing row reads as the zero value. */
  function StateOf(states: map<string, SiteState>, name: string): SiteState {
    if name in states then states[name] else NO_STATE
  }

  function CacheOf(domains: map<string, DomainCache>, name: string): DomainCache {
    if name in domains then domains[name] else NO_CACHE
  }

  /** The record as it is kept: numbered, and with "sent" for a missing status. */
  function Kept(store: Store, a: AlertRecord): AlertRecord {
    a.(id := store.nextID + 1, status := if a.status == Unset then Sent else a.status)
  }

  function Recorded(store: Store, a: AlertRecord): Store {
    store.(alerts := store.alerts + [Kept(store, a)], nextID := store.nextID + 1)
  }

  /** Record ids are 1, 2, 3, ... in log order. */
  predicate Numbered(store: Store) {
    store.nextID == |store.alerts| && forall i | 0 <= i < |store.alerts| :: store.alerts[i].id == i + 1
  }

  predicate Selected(a: AlertRecord, siteName: string, alertType: AlertType, since: Time) {
    a.siteName == siteName && a.alertType == alertType && a.sentAt >= since
  }

  /** The records of one site and type from `since` on, in log order. */
  function Recent(alerts: seq<AlertRecord>, siteName: string, alertType: AlertType, since: Time): (r: seq<AlertRecord>)
    ensures forall a :: a in r <==> a in alerts && Selected(a, siteName, alertType, since)
  {
    if alerts == [] then []
    else
      var last := alerts[|alerts| - 1];
      var before := alerts[..|alerts| - 1];
      assert alerts == before + [last];
      Recent(before, siteName, alertType, since) + if Selected(last, siteName, alertType, since) then [last] else []
  }

  predicate NotSentBefore(a: AlertRecord, b: AlertRecord) {
    a.sentAt >= b.sentAt
  }

  class Memory {
    var states: map<string, SiteState>
    var alerts: seq<AlertRecord>
    var domains: map<string, DomainCache>
    var nextID: int

    function Value(): Store
      reads this
    {
      Store(states, alerts, domains, nextID)
    }

    constructor ()
      ensures Value() == EMPTY_STORE && Numbered(Value())
    {
      states, alerts, domains, nextID := map[], [], map[], 0;
    }

    method GetSiteState(name: string) returns (state: SiteState, ok: bool)
      ensures state == StateOf(states, name) && ok == (name in states)
    {
      ok := name in states;
      state := if ok then states[name] else NO_STATE;
    }

    method UpsertSiteState(s: SiteState)
      modifies this
      ensures Value() == old(Value()).(states := old(states)[s.siteName := s])
    {
      states := states[s.siteName := s];
    }

    method RecordAlert(a: AlertRecord)
      modifies this
      ensures Value() == Recorded(old(Value()), a)
      ensures alerts == old(alerts) + [a.(id := old(nextID) + 1, status := if a.status == Unset then Sent
                else a.status)]
      ensures old(Numbered(Value())) ==> Numbered(Value())
    {
      nextID := nextID + 1;
      var kept := a.(id := nextID);
      if kept.status == Unset {
        kept := kept.(status := Sent);
      }
      alerts := alerts + [kept];
    }

    /** Newest first, in some order among records of the same instant. */
    method FindRecentAlerts(siteName: string, alertType: AlertType, since: Time) returns (out: seq<AlertRecord>)
      ensures multiset(out) == multiset(Recent(alerts, siteName, alertType, since))
      ensures SortedBy(out, NotSentBefore)
    {
      out := [];
      for i := 0 to |alerts|
        invariant out == Recent(alerts[..i], siteName, alertType, since)
      {
        assert alerts[..i + 1][..i] == alerts[..i];
        if Selected(alerts[i], siteName, alertType, since) {
          out := out + [alerts[i]];
        }
      }
      assert alerts[..|alerts|] == alerts;
      out := Sort(out, NotSentBefore);
    }

    method GetDomainCache(name: string) returns (cache: DomainCache, ok: bool)
      ensures cache == CacheOf(domains, name) && ok == (name in domains)
    {
      ok := name in domains;
      cache := if ok then domains[name] else NO_CACHE;
    }

    method UpsertDomainCache(d: DomainCache)
      modifies this
      ensures Value() == old(Value()).(domains := old(domains)[d.siteName := d])
    {
      domains := domains[d.siteName := d];
    }
  }

  /** Reading the newest-first answer finds exactly the records the filter selects. */
  lemma SameMembers(out: seq<AlertRecord>, r: seq<AlertRecord>)
    requires multiset(out) == multiset(r)
    ensures forall a :: a in out <==> a in r
  {
    forall a ensures a in out <==> a in r {
      assert a in multiset(out) <==> a in out;
      assert a in multiset(r) <==> a in r;
    }
  }
}
