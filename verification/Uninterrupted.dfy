/**
 The methods of the components and the steps of the system agree: run without another step in
 between (but for the wait before a retry), the consumer's steps do to the store what
 Scheduler.Process does, a send's steps what Dispatcher.SendOne does, and a domain worker's steps
 what DomainChecker.Check does.
 */
module Uninterrupted {
  import opened Types
  import opened MemoryStore
  import opened Config
  import opened Backends
  import opened Alerting
  import opened History
  import opened DomainCheck
  import opened Dispatching
  import opened Scheduler
  import opened System
  import Shutdown

  /** The actions are possible one after the other from s, and lead to t. */
  ghost predicate Leads(c: Setup, s: State, actions: seq<Action>, t: State)
    decreases |actions|
  {
    if actions == [] then s == t
    else Enabled(c, s, actions[0]) && Leads(c, Apply(c, s, actions[0]), actions[1..], t)
  }

  lemma LeadsOn(c: Setup, s: State, a: Action, actions: seq<Action>, t: State)
    requires Enabled(c, s, a) && Leads(c, Apply(c, s, a), actions, t)
    ensures Leads(c, s, [a] + actions, t)
  {
    assert ([a] + actions)[1..] == actions;
  }

  lemma TwoSteps(c: Setup, s: State, a: Action, m: State, b: Action, t: State)
    requires Enabled(c, s, a) && Apply(c, s, a) == m && Enabled(c, m, b) && Apply(c, m, b) == t
    ensures Leads(c, s, [a, b], t)
  {
    hide Enabled, Apply;
    LeadsOn(c, m, b, [], t);
    LeadsOn(c, s, a, [b], t);
    assert [a] + [b] == [a, b];
  }

  // ---- the consumer ----

  /** Only a failed domain lookup makes the cache matter. */
  lemma CacheUnread(backend: Backend, thresholds: Thresholds, prev: SiteState, cache: DomainCache,
      log: seq<AlertRecord>, r: CheckResult, now: Time)
    requires !NeedsCache(r)
    ensures DecideAlerts(backend, thresholds, prev, cache, log, r, now)
              == DecideAlerts(backend, thresholds, prev, NO_CACHE, log, r, now)
  {
    hide Durations.FormatDuration, CurrentThresholdBand, ExpiryKey, RecentOn, SentAlready;
  }

  /** What Process dispatches for the result in hand. */
  function AlertsFor(c: Setup, s: State, r: CheckResult): seq<AlertWithMeta> {
    DecideAlerts(c.backend, c.thresholds, PrevState(s.store.states, r.siteName, s.now),
        CacheOf(s.store.domains, r.siteName),
                 s.store.alerts, r, s.now)
  }

  /** The sends behind a part of the senders. */
  function SendsOf(s: State, from: nat): seq<Send>
    requires from <= |s.senders| && forall k | from <= k < |s.senders| :: s.senders[k].alert < |s.raised|
  {
    seq(|s.senders| - from, i requires 0 <= i < |s.senders| - from =>
      Send(s.senders[from + i].notifier, s.raised[s.senders[from + i].alert].a))
  }

  lemma UpToTheDecision(c: Setup, s: State) returns (actions: seq<Action>, t: State)
    requires s.consumer.Holding?
    ensures var item := s.consumer.item;
            && Leads(c, s, actions, t)
            && t.consumer == Decided(item, NewState(PrevState(s.store.states, item.result.siteName, s.now),
                item.result, s.now))
            && t.store == s.store && t.senders == s.senders && t.dispatched == s.dispatched && t.now == s.now
            && |t.raised| == |s.raised| + |AlertsFor(c, s, item.result)|
            && t.raised[..|s.raised|] == s.raised
            && forall i | 0 <= i < |AlertsFor(c, s, item.result)| ::
                t.raised[|s.raised| + i].a == AlertsFor(c, s, item.result)[i]
  {
    hide DecideAlerts, NewState, PrevState;
    var r := s.consumer.item.result;
    var s1 := Apply(c, s, ConsumerStarts);
    if NeedsCache(r) {
      var s2 := Apply(c, s1, ConsumerReadsCache);
      t := Apply(c, s2, ConsumerDecides);
      TwoSteps(c, s1, ConsumerReadsCache, s2, ConsumerDecides, t);
      actions := [ConsumerReadsCache, ConsumerDecides];
    } else {
      CacheUnread(c.backend, c.thresholds, s1.consumer.prev, CacheOf(s.store.domains, r.siteName), s.store.alerts, r,
          s.now);
      t := Apply(c, s1, ConsumerDecides);
      actions := [ConsumerDecides];
      LeadsOn(c, s1, ConsumerDecides, [], t);
    }
    LeadsOn(c, s, ConsumerStarts, actions, t);
    actions := [ConsumerStarts] + actions;
  }

  lemma {:induction false} LeadsThrough(c: Setup, s: State, first: seq<Action>, m: State, second: seq<Action>, t: State)
    requires Leads(c, s, first, m) && Leads(c, m, second, t)
    ensures Leads(c, s, first + second, t)
    decreases |first|
  {
    if first == [] {
      assert first + second == second;
    } else {
      LeadsThrough(c, Apply(c, s, first[0]), first[1..], m, second, t);
      assert (first + second)[1..] == first[1..] + second;
    }
  }

  /** A pass of the consumer over one result, as Scheduler.Process promises it. */
  lemma ConsumerPass(c: Setup, s: State) returns (actions: seq<Action>, t: State)
    requires s.consumer.Holding? && s.dispatched == |s.raised|
    ensures var r := s.consumer.item.result;
            && Leads(c, s, actions, t)
            && t.consumer == Idle && t.dispatched == |t.raised|
            && t.store == s.store.(states := Step(s.store.states, Seen(r, s.now)))
            && s.senders <= t.senders
            && (forall k | |s.senders| <= k < |t.senders| ::
                  t.senders[k].alert < |t.raised| && t.senders[k].phase == Calling)
            && SendsOf(t, |s.senders|) == Spawns(c.routing, c.known, AlertsFor(c, s, r))
  {
    hide DecideAlerts, NewState, PrevState, TypeName, Recipients, NotifiersFor;
    var r := s.consumer.item.result;
    var alerts := AlertsFor(c, s, r);
    Shutdown.AtMostOneAlert(c, PrevState(s.store.states, r.siteName, s.now), CacheOf(s.store.domains, r.siteName),
                            s.store.alerts, r, s.now);
    var first, m := UpToTheDecision(c, s);
    var m1 := Apply(c, m, ConsumerStores);
    var second: seq<Action>;
    if alerts == [] {
      t := Apply(c, m1, ConsumerReturns);
      LeadsOn(c, m1, ConsumerReturns, [], t);
      second := [ConsumerReturns];
    } else {
      var m2 := Apply(c, m1, ConsumerDispatches);
      t := Apply(c, m2, ConsumerReturns);
      TwoSteps(c, m1, ConsumerDispatches, m2, ConsumerReturns, t);
      second := [ConsumerDispatches, ConsumerReturns];
      assert alerts == [alerts[0]] && alerts[..0] == [];
    }
    LeadsOn(c, m, ConsumerStores, second, t);
    second := [ConsumerStores] + second;
    LeadsThrough(c, s, first, m, second, t);
    actions := first + second;
  }

  // ---- a send ----

  /** The wait before the retry, and the retry. */
  lemma RetryPass(c: Setup, s: State, k: nat, ok: bool) returns (actions: seq<Action>, t: State)
    requires k < |s.senders| && s.senders[k].phase == Waiting && s.senders[k].since == s.now
    ensures Leads(c, s, actions, t)
    ensures t == s.(now := s.now + RETRY_DELAY,
                    senders := s.senders[k := s.senders[k].(phase := Finished(if ok then Sent else Failed),
                                                            calls := s.senders[k].calls + [ok],
                                                            since := s.now + RETRY_DELAY)])
  {
    var later := Apply(c, s, TimePasses(RETRY_DELAY));
    var m := Apply(c, later, RetryStarts(k));
    t := Apply(c, m, NotifyReturns(k, ok));
    TwoSteps(c, later, RetryStarts(k), m, NotifyReturns(k, ok), t);
    LeadsOn(c, s, TimePasses(RETRY_DELAY), [RetryStarts(k), NotifyReturns(k, ok)], t);
    actions := [TimePasses(RETRY_DELAY)] + [RetryStarts(k), NotifyReturns(k, ok)];
    assert t.senders == s.senders[k := t.senders[k]];
  }

  /** What the clock shows when the calls are over. */
  function CallsEnd(now: Time, first: bool, cancelled: bool): Time {
    if first || cancelled then now else now + RETRY_DELAY
  }

  /** The calls of a send, up to its status. */
  lemma CallsPass(c: Setup, s: State, k: nat, first: bool, cancelled: bool, second: bool)
      returns (actions: seq<Action>, t: State)
    requires k < |s.senders| && s.senders[k].phase == Calling && s.senders[k].calls == []
    requires cancelled ==> Cancelled(s)
    ensures Leads(c, s, actions, t)
    ensures t == s.(now := CallsEnd(s.now, first, cancelled),
                    senders := s.senders[k := s.senders[k].(
                      phase := Finished(if first || (!cancelled && second) then Sent else Failed),
                      calls := if first || cancelled then [first] else [first, second],
                      since := CallsEnd(s.now, first, cancelled))])
  {
    var s1 := Apply(c, s, NotifyReturns(k, first));
    if first {
      t, actions := s1, [];
    } else if cancelled {
      t := Apply(c, s1, SendGivesUp(k));
      LeadsOn(c, s1, SendGivesUp(k), [], t);
      actions := [SendGivesUp(k)];
    } else {
      actions, t := RetryPass(c, s1, k, second);
    }
    LeadsOn(c, s, NotifyReturns(k, first), actions, t);
    actions := [NotifyReturns(k, first)] + actions;
    assert t.senders == s.senders[k := t.senders[k]];
    assert [first] + [second] == [first, second];
    assert [] + [first] == [first];
  }

  /** The record of a finished send. */
  lemma RecordPass(c: Setup, s: State, k: nat) returns (t: State)
    requires k < |s.senders| && s.senders[k].phase.Finished? && s.senders[k].alert < |s.raised|
    ensures Leads(c, s, [SendIsStamped(k), SendIsLogged(k)], t)
    ensures |t.senders| == |s.senders| && t.senders[k].phase.Logged? && t.senders[k].calls == s.senders[k].calls
    ensures t.store == Recorded(s.store, RecordOf(s.raised[s.senders[k].alert].a, s.senders[k].notifier, s.now,
                                                  s.senders[k].phase.status))
  {
    hide Recorded, RecordOf;
    var m := Apply(c, s, SendIsStamped(k));
    t := Apply(c, m, SendIsLogged(k));
    TwoSteps(c, s, SendIsStamped(k), m, SendIsLogged(k), t);
  }

  /** A send from its first call to its record, as Dispatcher.SendOne promises it. */
  lemma SendPass(c: Setup, s: State, k: nat, first: bool, cancelled: bool, second: bool)
      returns (actions: seq<Action>, t: State)
    requires k < |s.senders| && s.senders[k].phase == Calling && s.senders[k].calls == []
    requires s.senders[k].alert < |s.raised|
    requires cancelled ==> Cancelled(s)
    ensures var sender := s.senders[k];
            && Leads(c, s, actions, t)
            && |t.senders| == |s.senders| && t.senders[k].phase.Logged?
            && t.senders[k].calls == (if first || cancelled then [first] else [first, second])
            && t.store == Recorded(s.store, RecordOf(s.raised[sender.alert].a, sender.notifier,
                CallsEnd(s.now, first, cancelled),
                                                     if first || (!cancelled && second) then Sent else Failed))
  {
    hide Recorded, RecordOf, Enabled, Apply, Leads;
    var calls, m := CallsPass(c, s, k, first, cancelled, second);
    t := RecordPass(c, m, k);
    LeadsThrough(c, s, calls, m, [SendIsStamped(k), SendIsLogged(k)], t);
    actions := calls + [SendIsStamped(k), SendIsLogged(k)];
  }

  // ---- a domain check ----

  /** A domain check from its start to its result, as DomainChecker.Check promises it. */
  lemma DomainPass(c: Setup, s: State, w: nat, badHost: Option<string>, outcome: DomainCheck.Outcome, days: int)
    returns (actions: seq<Action>, t: State)
    requires IsWorker(c, s, w) && s.workers[w].phase.Checking? && c.jobs[w].check == Domain
    ensures var site := c.jobs[w].site;
            var cached := CacheOf(s.store.domains, site);
            var lookedUp := badHost.None? && !Fresh(cached, site in s.store.domains, s.now, c.cacheTTL);
            && Leads(c, s, actions, t)
            && IsWorker(c, t, w) && t.workers[w].phase.Sending?
            && t.workers[w].phase.result == (if badHost.Some? then UnresolvableResult(site, badHost.value)
                                             else if lookedUp then LookupResult(site, outcome, days)
                                             else FoundResult(site, cached.expiresAt, days))
            && t.store == s.store.(domains :=
                 if lookedUp then s.store.domains[site := AfterLookup(cached, site, s.now, outcome)]
                     else s.store.domains)
  {
    hide Fresh, AfterLookup, LookupResult;
    if badHost.Some? {
      t := Apply(c, s, HostFails(w, badHost.value));
      LeadsOn(c, s, HostFails(w, badHost.value), [], t);
      actions := [HostFails(w, badHost.value)];
    } else {
      var s1 := Apply(c, s, CacheIsRead(w, days));
      if s1.workers[w].phase.LookingUp? {
        t := Apply(c, s1, LookupEnds(w, outcome, days));
        TwoSteps(c, s, CacheIsRead(w, days), s1, LookupEnds(w, outcome, days), t);
        actions := [CacheIsRead(w, days), LookupEnds(w, outcome, days)];
      } else {
        t := s1;
        LeadsOn(c, s, CacheIsRead(w, days), [], t);
        actions := [CacheIsRead(w, days)];
      }
    }
  }
}
