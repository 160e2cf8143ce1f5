/**
 What an OK domain result carries, in the running system: the expiry of the most recent
 successful lookup of its site at the time the result was sent, whichever later lookups there are.
 */
module DomainResults {
  import opened Types
  import opened Alerting
  import opened DomainCheck
  import opened System
  import opened Queue
  import opened Lookups
  import opened Spacing

  /** The expiry is that of the last successful lookup among those that began by t. */
  ghost predicate Carries(lookups: seq<Lookup>, expiry: Time, t: Time) {
    exists k | 0 <= k < |lookups| && lookups[k].outcome.Found? && lookups[k].at <= t ::
      && lookups[k].outcome.expiry == expiry
      && forall j | k < j < |lookups| && lookups[j].outcome.Found? :: lookups[j].at > t
  }

  /** A later lookup does not matter to an earlier result. */
  lemma CarriesOn(lookups: seq<Lookup>, l: Lookup, expiry: Time, t: Time)
    requires Carries(lookups, expiry, t) && l.at > t
    ensures Carries(lookups + [l], expiry, t)
  {
    var k :| 0 <= k < |lookups| && lookups[k].outcome.Found? && lookups[k].at <= t
             && lookups[k].outcome.expiry == expiry
             && forall j | k < j < |lookups| && lookups[j].outcome.Found? :: lookups[j].at > t;
    var longer := lookups + [l];
    assert longer[k] == lookups[k];
  }

  /** The result has the expiry of the last successful lookup so far. */
  predicate IsCurrent(lookups: seq<Lookup>, r: CheckResult) {
    r.domainLookupOK ==>
      LastFound(lookups).Some? && r.domainExpiry == lookups[LastFound(lookups).value].outcome.expiry
  }

  lemma CurrentCarries(lookups: seq<Lookup>, r: CheckResult, now: Time)
    requires IsCurrent(lookups, r) && r.domainLookupOK && forall l | l in lookups :: l.at <= now
    ensures Carries(lookups, r.domainExpiry, now)
  {
    var k := LastFound(lookups).value;
    assert lookups[k] in lookups;
  }

  ghost predicate WorkerTruth(c: Setup, s: State, w: nat)
    requires w < |s.workers| == |c.jobs|
  {
    var p, lookups := s.workers[w].phase, LookupsOf(s.lookups, c.jobs[w].site);
    c.jobs[w].check == Domain ==>
      && PhaseClock(s, p)
      && (p.Sending? ==> IsCurrent(lookups, p.result))
      && forall item | item in Items(s) && item.worker == w ::
           && (!p.Exited? ==> item.sentAt < EarliestStart(p))
           && (item.result.domainLookupOK ==> Carries(lookups, item.result.domainExpiry, item.sentAt))
  }

  ghost predicate TruthInv(c: Setup, s: State) {
    |s.workers| == |c.jobs| && forall w | 0 <= w < |s.workers| :: WorkerTruth(c, s, w)
  }

  /** A step that touches neither the worker nor its items nor its site's lookups. */
  lemma TruthFrame(c: Setup, s: State, t: State, w: nat)
    requires w < |s.workers| == |t.workers| == |c.jobs| && WorkerTruth(c, s, w)
    requires t.workers[w].phase == s.workers[w].phase && t.now >= s.now
    requires c.jobs[w].check == Domain ==> LookupsOf(t.lookups, c.jobs[w].site) == LookupsOf(s.lookups, c.jobs[w].site)
    requires forall item | item in Items(t) && item.worker == w :: item in Items(s)
    ensures WorkerTruth(c, t, w)
  {
    hide LookupsOf, Carries, IsCurrent;
  }

  lemma ReadKeepsTruth(c: Setup, s: State, w: nat, days: int)
    requires RowsMatch(s) && |s.workers| == |c.jobs| && Enabled(c, s, CacheIsRead(w, days)) && WorkerTruth(c, s, w)
    ensures WorkerTruth(c, Apply(c, s, CacheIsRead(w, days)), w)
  {
    hide LookupsOf, Carries, Replay, LastFound;
    var site := c.jobs[w].site;
    assert CacheMatches(s.store.domains, s.lookups, site);
    ReplayClosedForm(LookupsOf(s.lookups, site));
  }

  lemma LookupKeepsTruth(c: Setup, s: State, w: nat, outcome: DomainCheck.Outcome, days: int)
    requires |s.workers| == |c.jobs| && WorkersDomainOnly(c, s)
    requires Enabled(c, s, LookupEnds(w, outcome, days)) && WorkerTruth(c, s, w)
    ensures WorkerTruth(c, Apply(c, s, LookupEnds(w, outcome, days)), w)
  {
    hide LookupsOf, Carries, LastFound, AfterLookup;
    var t := Apply(c, s, LookupEnds(w, outcome, days));
    var site, p := c.jobs[w].site, s.workers[w].phase;
    var l, before := Lookup(site, p.checkedAt, outcome), LookupsOf(s.lookups, site);
    LookupAppended(s.lookups, l, site);
    LastFoundOfLast(before + [l]);
    forall item | item in Items(t) && item.worker == w && item.result.domainLookupOK
      ensures Carries(before + [l], item.result.domainExpiry, item.sentAt)
    {
      assert item in Items(s);
      CarriesOn(before, l, item.result.domainExpiry, item.sentAt);
    }
  }

  lemma SendKeepsTruth(c: Setup, s: State, w: nat)
    requires ValidSetup(c) && CacheInv(c, s) && Enabled(c, s, ResultIsSent(w)) && WorkerTruth(c, s, w)
    ensures WorkerTruth(c, Apply(c, s, ResultIsSent(w)), w)
  {
    hide LookupsOf, Carries, IsCurrent;
    var t := Apply(c, s, ResultIsSent(w));
    var item := t.channel[|s.channel|];
    var lookups := LookupsOf(s.lookups, c.jobs[w].site);
    assert Items(t) == Items(s) + [item];
    if c.jobs[w].check == Domain && item.result.domainLookupOK {
      CurrentCarries(lookups, item.result, s.now);
    }
  }

  /** The worker's other own steps. */
  lemma OwnKeepsTruth(c: Setup, s: State, a: Action)
    requires Bounds(c, s) && Enabled(c, s, a) && IsWorkerStep(a) && !a.CacheIsRead? && !a.LookupEnds?
    requires WorkerTruth(c, s, a.w)
    ensures WorkerTruth(c, Apply(c, s, a), a.w)
  {
    hide LookupsOf, Carries, LastFound;
    assert c.jobs[a.w].interval > 0;
  }

  lemma WorkerStepKeepsTruth(c: Setup, s: State, a: Action)
    requires Bounds(c, s) && CacheInv(c, s) && RowsMatch(s) && WorkersDomainOnly(c, s) && TruthInv(c, s)
    requires Enabled(c, s, a) && (IsWorkerStep(a) || a.ResultIsSent?)
    ensures WorkerTruth(c, Apply(c, s, a), a.w)
  {
    hide Apply, WorkerTruth, Bounds, CacheInv, RowsMatch;
    assert WorkerTruth(c, s, a.w);
    if a.CacheIsRead? {
      ReadKeepsTruth(c, s, a.w, a.days);
    } else if a.LookupEnds? {
      LookupKeepsTruth(c, s, a.w, a.outcome, a.days);
    } else if a.ResultIsSent? {
      assert ValidSetup(c) by { SetupOfBounds(c, s); }
      SendKeepsTruth(c, s, a.w);
    } else {
      OwnKeepsTruth(c, s, a);
    }
  }

  lemma SetupOfBounds(c: Setup, s: State)
    requires Bounds(c, s)
    ensures ValidSetup(c) && |s.workers| == |c.jobs|
  {
  }

  /** The step of one worker, seen from another. */
  lemma OthersKeepTruth(c: Setup, s: State, a: Action, v: nat)
    requires Bounds(c, s) && WorkersDomainOnly(c, s) && TruthInv(c, s) && Enabled(c, s, a) && v < |c.jobs|
    requires IsWorkerStep(a) || a.ResultIsSent? ==> a.w != v
    ensures v < |Apply(c, s, a).workers| == |c.jobs| && WorkerTruth(c, Apply(c, s, a), v)
  {
    hide LookupsOf, WorkerTruth, DecideAlerts, NewState, PrevState, NewSenders, Fresh, AfterLookup, LookupResult;
    var t := Apply(c, s, a);
    if a.LookupEnds? {
      assert c.jobs[a.w].check == Domain;
      LookupAppended(s.lookups, Lookup(c.jobs[a.w].site, s.workers[a.w].phase.checkedAt, a.outcome), c.jobs[v].site);
    }
    if a.ResultIsSent? {
      assert Items(t) == Items(s) + [t.channel[|s.channel|]];
    } else {
      assert Items(t) == Items(s);
    }
    assert WorkerTruth(c, s, v);
    TruthFrame(c, s, t, v);
  }

  lemma TruthStep(c: Setup, s: State, a: Action)
    requires Bounds(c, s) && CacheInv(c, s) && RowsMatch(s) && WorkersDomainOnly(c, s) && TruthInv(c, s)
    requires Enabled(c, s, a)
    ensures TruthInv(c, Apply(c, s, a))
  {
    hide Apply, Enabled, WorkerTruth, WorkersDomainOnly, CacheInv, RowsMatch;
    BoundsStep(c, s, a);
    var t := Apply(c, s, a);
    forall v | 0 <= v < |t.workers| ensures WorkerTruth(c, t, v) {
      if (IsWorkerStep(a) || a.ResultIsSent?) && a.w == v {
        WorkerStepKeepsTruth(c, s, a);
      } else {
        OthersKeepTruth(c, s, a, v);
      }
    }
  }

  lemma {:induction false} TruthAlways(c: Setup, states: seq<State>, actions: seq<Action>, i: nat)
    requires IsRun(c, states, actions) && i < |states|
    ensures TruthInv(c, states[i])
  {
    if i == 0 {
      assert Items(states[0]) == [];
    } else {
      hide Apply, Enabled, Init, TruthInv, CacheInv, RowsMatch, WorkersDomainOnly;
      TruthAlways(c, states, actions, i - 1);
      QueueAlways(c, states, actions, i - 1);
      CacheAlways(c, states, actions, i - 1);
      LookersAreDomain(c, states, actions, i - 1);
      TruthStep(c, states[i - 1], actions[i - 1]);
    }
  }

  /**
   Every handled domain result that is marked OK carries the expiry of the last successful lookup
   of its site that had begun when the result was sent.
   */
  lemma HandledCarriesExpiry(c: Setup, s: State, q: nat)
    requires Reachable(c, s) && q < |s.handled|
    requires s.handled[q].seen.r.check == Domain && s.handled[q].seen.r.domainLookupOK
    ensures q < |s.taken| && s.taken[q].result == s.handled[q].seen.r
    ensures Carries(LookupsOf(s.lookups, s.handled[q].seen.r.siteName), s.handled[q].seen.r.domainExpiry,
              s.taken[q].sentAt)
  {
    hide LookupsOf, Carries, IsCurrent;
    var states, actions :| IsRun(c, states, actions) && states[|states| - 1] == s;
    TruthAlways(c, states, actions, |states| - 1);
    QueueAlways(c, states, actions, |states| - 1);
    var item := s.taken[q];
    assert ResultFits(c, item.worker, item.result);
    assert Items(s)[q] == item;
    assert WorkerTruth(c, s, item.worker);
  }
}
