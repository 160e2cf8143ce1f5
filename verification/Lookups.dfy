/**
 The domain cache in the running system, and what a degraded-monitoring alert says: the row a
 domain check works on is the one its own worker left, because there is one domain worker for
 a site, so the row is the closed form of the site's lookups in every reachable state.
 */
module Lookups {
  import opened Types
  import opened MemoryStore
  import opened Backends
  import opened Alerting
  import opened DomainCheck
  import opened System
  import opened SystemLog
  import opened Queue
  import opened Deduplication

  /** A worker past its cache holds the row as it is, and started after every lookup of its site. */
  predicate LookingOK(c: Setup, s: State, w: nat)
    requires w < |s.workers| == |c.jobs|
  {
    var p, site := s.workers[w].phase, c.jobs[w].site;
    p.LookingUp? ==>
      && p.cached == CacheOf(s.store.domains, site)
      && ZERO_TIME < p.checkedAt <= s.now
      && forall l | l in LookupsOf(s.lookups, site) :: l.at <= p.checkedAt
  }

  /** What the engine read of a site's cache is what the lookups up to then had left. */
  predicate ReadOK(s: State, cache: DomainCache, lookups: nat, site: string) {
    lookups <= |s.lookups| && cache == Replay(LookupsOf(s.lookups[..lookups], site))
  }

  predicate CacheInv(c: Setup, s: State) {
    && |s.workers| == |c.jobs|
    && s.now > ZERO_TIME
    && (forall l | l in s.lookups :: ZERO_TIME < l.at <= s.now)
    && (forall w | 0 <= w < |s.workers| :: LookingOK(c, s, w))
    && (s.consumer.WithCache? ==> ReadOK(s, s.consumer.cache, s.consumer.lookups, s.consumer.item.result.siteName))
    && (forall q | 0 <= q < |s.handled| && NeedsCache(s.handled[q].seen.r) ::
          ReadOK(s, s.handled[q].cache, s.handled[q].lookups, s.handled[q].seen.r.siteName))
  }

  ghost predicate RowsMatch(s: State) {
    forall site :: CacheMatches(s.store.domains, s.lookups, site) && Chronological(LookupsOf(s.lookups, site))
  }

  lemma LookupAppended(lookups: seq<Lookup>, l: Lookup, site: string)
    ensures LookupsOf(lookups + [l], site) == LookupsOf(lookups, site) + if l.site == site then [l] else []
  {
  }

  lemma OneMoreLookup(before: seq<Lookup>, l: Lookup)
    requires Chronological(before) && forall k | k in before :: k.at <= l.at
    ensures Chronological(before + [l])
    ensures Replay(before + [l]) == AfterLookup(Replay(before), l.site, l.at, l.outcome)
  {
  }

  lemma LookupKeepsRows(c: Setup, s: State, w: nat, outcome: DomainCheck.Outcome, days: int)
    requires CacheInv(c, s) && RowsMatch(s) && Enabled(c, s, LookupEnds(w, outcome, days))
    ensures RowsMatch(Apply(c, s, LookupEnds(w, outcome, days)))
  {
    hide LookupsOf, LookupResult, Chronological, Replay, AfterLookup;
    var t := Apply(c, s, LookupEnds(w, outcome, days));
    var p := s.workers[w].phase;
    var l := Lookup(c.jobs[w].site, p.checkedAt, outcome);
    assert LookingOK(c, s, w);
    forall site ensures CacheMatches(t.store.domains, t.lookups, site) && Chronological(LookupsOf(t.lookups, site)) {
      assert CacheMatches(s.store.domains, s.lookups, site) && Chronological(LookupsOf(s.lookups, site));
      LookupAppended(s.lookups, l, site);
      if site == l.site {
        OneMoreLookup(LookupsOf(s.lookups, site), l);
      } else {
        assert LookupsOf(t.lookups, site) == LookupsOf(s.lookups, site);
      }
    }
  }

  /** The step of a domain lookup, seen from every worker: only its own site's row changes. */
  lemma LookupKeepsLooking(c: Setup, s: State, w: nat, outcome: DomainCheck.Outcome, days: int)
    requires ValidSetup(c) && CacheInv(c, s) && WorkersDomainOnly(c, s) && Enabled(c, s, LookupEnds(w, outcome, days))
    ensures var t := Apply(c, s, LookupEnds(w, outcome, days));
            |t.workers| == |c.jobs| && forall v | 0 <= v < |t.workers| :: LookingOK(c, t, v)
  {
    hide LookupsOf, LookupResult, AfterLookup;
    var t := Apply(c, s, LookupEnds(w, outcome, days));
    var p := s.workers[w].phase;
    forall v | 0 <= v < |t.workers| ensures LookingOK(c, t, v) {
      assert LookingOK(c, s, v);
      if v != w && t.workers[v].phase.LookingUp? {
        assert c.jobs[v].check == Domain && c.jobs[w].check == Domain;
        assert c.jobs[v].site != c.jobs[w].site;
        LookupAppended(s.lookups, Lookup(c.jobs[w].site, p.checkedAt, outcome), c.jobs[v].site);
      }
    }
  }

  predicate WorkersDomainOnly(c: Setup, s: State)
    requires |s.workers| == |c.jobs|
  {
    forall w | 0 <= w < |s.workers| && s.workers[w].phase.LookingUp? :: c.jobs[w].check == Domain
  }

  /** Lookups are only appended, so what was read of them stays read of them. */
  lemma ReadsFrame(s: State, t: State, cache: DomainCache, lookups: nat, site: string)
    requires ReadOK(s, cache, lookups, site) && s.lookups <= t.lookups
    ensures ReadOK(t, cache, lookups, site)
  {
    assert t.lookups[..lookups] == s.lookups[..lookups];
  }

  lemma ReadingTheCache(c: Setup, s: State)
    requires CacheInv(c, s) && RowsMatch(s) && Enabled(c, s, ConsumerReadsCache)
    ensures CacheInv(c, Apply(c, s, ConsumerReadsCache))
  {
    hide LookupsOf, Replay;
    var t := Apply(c, s, ConsumerReadsCache);
    assert s.lookups[..|s.lookups|] == s.lookups;
    assert CacheMatches(s.store.domains, s.lookups, s.consumer.item.result.siteName);
    forall v | 0 <= v < |t.workers| ensures LookingOK(c, t, v) {
      assert LookingOK(c, s, v);
    }
    forall q | 0 <= q < |t.handled| && NeedsCache(t.handled[q].seen.r)
      ensures ReadOK(t, t.handled[q].cache, t.handled[q].lookups, t.handled[q].seen.r.siteName)
    {
      ReadsFrame(s, t, s.handled[q].cache, s.handled[q].lookups, s.handled[q].seen.r.siteName);
    }
  }

  lemma DecidingKeepsReads(c: Setup, s: State)
    requires CacheInv(c, s) && Enabled(c, s, ConsumerDecides)
    ensures CacheInv(c, Apply(c, s, ConsumerDecides))
  {
    hide LookupsOf, Replay, DecideAlerts, NewState;
    var t := Apply(c, s, ConsumerDecides);
    forall v | 0 <= v < |t.workers| ensures LookingOK(c, t, v) {
      assert LookingOK(c, s, v);
    }
    forall q | 0 <= q < |t.handled| && NeedsCache(t.handled[q].seen.r)
      ensures ReadOK(t, t.handled[q].cache, t.handled[q].lookups, t.handled[q].seen.r.siteName)
    {
      if q < |s.handled| {
        assert t.handled[q] == s.handled[q];
      }
    }
  }

  /** Steps that decide nothing and read no cache. */
  lemma CacheFrame(c: Setup, s: State, t: State)
    requires CacheInv(c, s) && |t.workers| == |c.jobs| && s.lookups <= t.lookups && t.now >= s.now
    requires t.handled == s.handled
    requires forall l | l in t.lookups :: ZERO_TIME < l.at <= t.now
    requires t.consumer.WithCache? ==> t.consumer == s.consumer
    requires forall v | 0 <= v < |t.workers| :: LookingOK(c, t, v)
    ensures CacheInv(c, t)
  {
    hide LookupsOf, Replay;
    if t.consumer.WithCache? {
      ReadsFrame(s, t, s.consumer.cache, s.consumer.lookups, s.consumer.item.result.siteName);
    }
    forall q | 0 <= q < |t.handled| && NeedsCache(t.handled[q].seen.r)
      ensures ReadOK(t, t.handled[q].cache, t.handled[q].lookups, t.handled[q].seen.r.siteName)
    {
      ReadsFrame(s, t, s.handled[q].cache, s.handled[q].lookups, s.handled[q].seen.r.siteName);
    }
  }

  lemma OtherStepKeepsLooking(c: Setup, s: State, a: Action)
    requires CacheInv(c, s) && Enabled(c, s, a) && !a.LookupEnds?
    ensures var t := Apply(c, s, a); |t.workers| == |c.jobs| && forall v | 0 <= v < |t.workers| :: LookingOK(c, t, v)
  {
    hide LookupsOf, DecideAlerts, NewState, PrevState, NewSenders, Fresh;
    var t := Apply(c, s, a);
    assert t.lookups == s.lookups && t.store.domains == s.store.domains;
    forall v | 0 <= v < |t.workers| ensures LookingOK(c, t, v) {
      assert LookingOK(c, s, v);
      assert forall l | l in LookupsOf(s.lookups, c.jobs[v].site) :: l in s.lookups;
    }
  }

  lemma CacheStep(c: Setup, s: State, a: Action)
    requires ValidSetup(c) && CacheInv(c, s) && WorkersDomainOnly(c, s) && RowsMatch(s) && Enabled(c, s, a)
    ensures CacheInv(c, Apply(c, s, a)) && RowsMatch(Apply(c, s, a))
  {
    hide LookupsOf, Replay, DecideAlerts, NewState, PrevState, NewSenders, Fresh, AfterLookup;
    var t := Apply(c, s, a);
    if a.LookupEnds? {
      LookupKeepsRows(c, s, a.w, a.outcome, a.days);
      LookupKeepsLooking(c, s, a.w, a.outcome, a.days);
      assert LookingOK(c, s, a.w);
      CacheFrame(c, s, t);
    } else if a.ConsumerReadsCache? {
      ReadingTheCache(c, s);
      SameRows(s, t);
    } else if a.ConsumerDecides? {
      DecidingKeepsReads(c, s);
      SameRows(s, t);
    } else {
      OtherStepKeepsLooking(c, s, a);
      CacheFrame(c, s, t);
      SameRows(s, t);
    }
  }

  lemma SameRows(s: State, t: State)
    requires RowsMatch(s) && t.store.domains == s.store.domains && t.lookups == s.lookups
    ensures RowsMatch(t)
  {
  }

  lemma {:induction false} CacheAlways(c: Setup, states: seq<State>, actions: seq<Action>, i: nat)
    requires IsRun(c, states, actions) && i < |states|
    ensures CacheInv(c, states[i]) && RowsMatch(states[i])
  {
    hide LookupsOf, Replay;
    if i == 0 {
    } else {
      hide Apply, Enabled;
      CacheAlways(c, states, actions, i - 1);
      QueueAlways(c, states, actions, i - 1);
      LookersAreDomain(c, states, actions, i - 1);
      CacheStep(c, states[i - 1], actions[i - 1]);
    }
  }

  /** In every reachable state the cached row of every site is the closed form of its lookups. */
  lemma SystemCache(c: Setup, s: State, site: string)
    requires Reachable(c, s)
    ensures CacheMatches(s.store.domains, s.lookups, site) && Chronological(LookupsOf(s.lookups, site))
    ensures forall l | l in s.lookups :: ZERO_TIME < l.at <= s.now
  {
    var states, actions :| IsRun(c, states, actions) && states[|states| - 1] == s;
    CacheAlways(c, states, actions, |states| - 1);
  }

  // ---- lookups when they are due ----

  /**
   In every reachable state, a domain check that reads its cache goes on to a lookup exactly when
   one is due after the site's lookups so far; otherwise it answers with the expiry of the last
   successful one.
   */
  lemma CheckLooksUpWhenDue(c: Setup, s: State, w: nat, days: int)
    requires Reachable(c, s) && Enabled(c, s, CacheIsRead(w, days))
    ensures var site, began := c.jobs[w].site, s.workers[w].phase.startedAt;
            var lookups, t := LookupsOf(s.lookups, site), Apply(c, s, CacheIsRead(w, days));
            && |t.workers| == |s.workers| && t.lookups == s.lookups
            && (LookupDue(lookups, s.now, c.cacheTTL) ==>
                  t.workers[w].phase == LookingUp(began, s.now, CacheOf(s.store.domains, site)))
            && (!LookupDue(lookups, s.now, c.cacheTTL) ==>
                  t.workers[w].phase == Sending(began,
                    CheckResult(site, Domain, Up, 0, "", false, false, 0,
                                lookups[LastFound(lookups).value].outcome.expiry, days, true, "")))
  {
    hide LookupsOf, Replay, LastFound, Reachable, Fresh;
    SystemCache(c, s, c.jobs[w].site);
    FreshExactly(LookupsOf(s.lookups, c.jobs[w].site), s.now, c.cacheTTL);
    ReplayClosedForm(LookupsOf(s.lookups, c.jobs[w].site));
  }

  // ---- spacing ----

  /** A worker past its cache found no fresh row. */
  predicate LookingStale(c: Setup, s: State, w: nat)
    requires w < |s.workers| == |c.jobs|
  {
    var p := s.workers[w].phase;
    p.LookingUp? ==> !Fresh(p.cached, LookupsOf(s.lookups, c.jobs[w].site) != [], p.checkedAt, c.cacheTTL)
  }

  ghost predicate AllSpaced(c: Setup, s: State) {
    forall site :: Spaced(LookupsOf(s.lookups, site), c.cacheTTL)
  }

  predicate AllStale(c: Setup, s: State)
    requires |s.workers| == |c.jobs|
  {
    forall w | 0 <= w < |s.workers| :: LookingStale(c, s, w)
  }

  /** A lookup made because the row was not fresh keeps the distance to the one before. */
  lemma SpacedAppend(before: seq<Lookup>, l: Lookup, ttl: Duration)
    requires Spaced(before, ttl) && !Fresh(Replay(before), before != [], l.at, ttl)
    ensures Spaced(before + [l], ttl)
  {
    hide Replay;
    ReplayClosedForm(before);
    var after := before + [l];
    forall i | 0 < i <= |before| ensures after[..i] == before[..i] {
    }
    assert before[..|before|] == before;
  }

  lemma LookupKeepsSpacing(c: Setup, s: State, w: nat, outcome: DomainCheck.Outcome, days: int)
    requires ValidSetup(c) && CacheInv(c, s) && RowsMatch(s) && WorkersDomainOnly(c, s) && AllStale(c, s)
    requires AllSpaced(c, s)
    requires Enabled(c, s, LookupEnds(w, outcome, days))
    ensures var t := Apply(c, s, LookupEnds(w, outcome, days));
              |t.workers| == |c.jobs| && AllStale(c, t) && AllSpaced(c, t)
  {
    hide LookupsOf, Replay, Spaced, Fresh, LookupResult, AfterLookup;
    var t := Apply(c, s, LookupEnds(w, outcome, days));
    var l := Lookup(c.jobs[w].site, s.workers[w].phase.checkedAt, outcome);
    assert LookingOK(c, s, w) && LookingStale(c, s, w);
    forall site ensures Spaced(LookupsOf(t.lookups, site), c.cacheTTL) {
      assert CacheMatches(s.store.domains, s.lookups, site) && Spaced(LookupsOf(s.lookups, site), c.cacheTTL);
      LookupAppended(s.lookups, l, site);
      if site == l.site {
        SpacedAppend(LookupsOf(s.lookups, site), l, c.cacheTTL);
      } else {
        assert LookupsOf(t.lookups, site) == LookupsOf(s.lookups, site);
      }
    }
    forall v | 0 <= v < |t.workers| ensures LookingStale(c, t, v) {
      assert LookingStale(c, s, v);
      if v != w && t.workers[v].phase.LookingUp? {
        assert c.jobs[v].check == Domain && c.jobs[w].check == Domain;
        assert c.jobs[v].site != c.jobs[w].site;
        LookupAppended(s.lookups, l, c.jobs[v].site);
      }
    }
  }

  lemma OtherKeepsSpacing(c: Setup, s: State, a: Action)
    requires CacheInv(c, s) && RowsMatch(s) && AllStale(c, s) && AllSpaced(c, s) && Enabled(c, s, a) && !a.LookupEnds?
    ensures var t := Apply(c, s, a); |t.workers| == |c.jobs| && AllStale(c, t) && AllSpaced(c, t)
  {
    hide LookupsOf, Replay, Spaced, Fresh, DecideAlerts, NewState, PrevState, NewSenders;
    var t := Apply(c, s, a);
    assert t.lookups == s.lookups;
    forall v | 0 <= v < |t.workers| ensures LookingStale(c, t, v) {
      assert LookingStale(c, s, v);
      assert CacheMatches(s.store.domains, s.lookups, c.jobs[v].site);
    }
  }

  lemma {:induction false} SpacingAlways(c: Setup, states: seq<State>, actions: seq<Action>, i: nat)
    requires IsRun(c, states, actions) && i < |states| && AllSpaced(c, states[0])
    ensures |states[i].workers| == |c.jobs| && AllStale(c, states[i]) && AllSpaced(c, states[i])
  {
    hide LookupsOf, Replay, Spaced, Fresh;
    if i == 0 {
    } else {
      SpacingAlways(c, states, actions, i - 1);
      CacheAlways(c, states, actions, i - 1);
      LookersAreDomain(c, states, actions, i - 1);
      if actions[i - 1].LookupEnds? {
        var a := actions[i - 1];
        LookupKeepsSpacing(c, states[i - 1], a.w, a.outcome, a.days);
      } else {
        OtherKeepsSpacing(c, states[i - 1], actions[i - 1]);
      }
    }
  }

  lemma LookersAreDomain(c: Setup, states: seq<State>, actions: seq<Action>, i: nat)
    requires IsRun(c, states, actions) && i < |states|
    ensures |states[i].workers| == |c.jobs| && WorkersDomainOnly(c, states[i])
  {
    hide Apply, Enabled, Init;
    QueueAlways(c, states, actions, i);
    forall w | 0 <= w < |states[i].workers| && states[i].workers[w].phase.LookingUp? ensures c.jobs[w].check == Domain {
      assert WorkerOK(c, states[i], w);
    }
  }

  /**
   Under every interleaving, in every state of a run that starts so: once an expiry is cached for
   a site, two lookups of it in a row began at least the cache's lifetime apart, failed ones included.
   */
  lemma LookupsAreSpaced(c: Setup, states: seq<State>, actions: seq<Action>, i: nat, site: string)
    requires IsRun(c, states, actions) && i < |states|
    requires forall name :: Spaced(LookupsOf(states[0].lookups, name), c.cacheTTL)
    ensures Spaced(LookupsOf(states[i].lookups, site), c.cacheTTL)
  {
    hide Apply, Enabled, Init;
    SpacingAlways(c, states, actions, i);
  }

  lemma {:induction false} PrefixOfLookups(lookups: seq<Lookup>, n: nat, site: string)
    requires n <= |lookups|
    ensures LookupsOf(lookups[..n], site) <= LookupsOf(lookups, site)
  {
    if n == |lookups| {
      assert lookups[..n] == lookups;
    } else {
      assert lookups[..|lookups| - 1][..n] == lookups[..n];
      PrefixOfLookups(lookups[..|lookups| - 1], n, site);
    }
  }

  /**
   Degraded monitoring is sound: when the alert is raised at time t, the lookups of the site
   that had finished when the engine read the cache include a successful one, and every
   successful one among them began more than three days before t.
   */
  lemma DegradedIsSound(c: Setup, s: State, i: nat)
    requires Reachable(c, s) && i < |s.raised| && s.raised[i].a.alert.alertType == DegradedMonitor
    ensures s.raised[i].cause < |s.handled| && s.handled[s.raised[i].cause].lookups <= |s.lookups|
    ensures var known := LookupsOf(s.lookups[..s.handled[s.raised[i].cause].lookups], s.raised[i].a.alert.siteName);
            && (exists l | l in known :: l.outcome.Found?)
            && forall l | l in known && l.outcome.Found? :: l.at < s.raised[i].a.alert.at - DEGRADED_AFTER
  {
    hide DecideAlerts, LookupsOf, Replay;
    var states, actions :| IsRun(c, states, actions) && states[|states| - 1] == s;
    CacheAlways(c, states, actions, |states| - 1);
    LogAlways(c, states, actions, |states| - 1);
    RaisedClock(c, s, i);
    var h := s.handled[s.raised[i].cause];
    var site := s.raised[i].a.alert.siteName;
    DegradedDecision(c.backend, c.thresholds, h.prev, h.cache, s.store.alerts[..h.logLen], h.seen.r, h.seen.now,
        s.raised[i].a);
    assert ReadOK(s, h.cache, h.lookups, site);
    var known := LookupsOf(s.lookups[..h.lookups], site);
    ReplayClosedForm(known);
    PrefixOfLookups(s.lookups, h.lookups, site);
    assert Chronological(LookupsOf(s.lookups, site));
    NoneFoundLater(known, LookupsOf(s.lookups, site));
  }

  lemma NoneFoundLater(known: seq<Lookup>, all: seq<Lookup>)
    requires known <= all && Chronological(all) && LastFound(known).Some?
    ensures var last := known[LastFound(known).value];
            last in known && last.outcome.Found? && forall l | l in known && l.outcome.Found? :: l.at <= last.at
  {
  }

  lemma DegradedDecision(backend: Backend, thresholds: Thresholds, prev: SiteState, cache: DomainCache,
                         log: seq<AlertRecord>, r: CheckResult, now: Time, a: AlertWithMeta)
    requires a in DecideAlerts(backend, thresholds, prev, cache, log, r, now) && a.alert.alertType == DegradedMonitor
    ensures NeedsCache(r) && a.alert.at == now && a.alert.siteName == r.siteName
    ensures cache.lastOkAt != ZERO_TIME && now - cache.lastOkAt > DEGRADED_AFTER
  {
    hide CurrentThresholdBand, Durations.FormatDuration, ExpiryKey, RecentOn, SentAlready;
  }
}
