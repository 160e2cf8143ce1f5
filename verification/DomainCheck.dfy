/**
 The domain check and its cache. A registrar lookup is an oracle that gives an expiry or an
 error; the check reads the cached row, may look up, and writes the row back. The row is a
 closed form of the lookups made for the site.
 */
module DomainCheck {
  import opened Types
  import opened MemoryStore

  const CACHE_TTL: Duration := 6 * HOUR

  datatype Outcome = Found(expiry: Time, source: string) | NotFound(error: string)

  /** A lookup that was made: for which site, when its check started, and how it ended. */
  datatype Lookup = Lookup(site: string, at: Time, outcome: Outcome)

  /** Whether the cached row answers the check; `present` tells whether there is one. */
  predicate Fresh(cached: DomainCache, present: bool, now: Time, ttl: Duration) {
    present && now - cached.lastLookupAt < ttl && cached.expiresAt != ZERO_TIME
  }

  /** The row after a lookup: a failure keeps the last success, a success replaces the row. */
  function AfterLookup(cached: DomainCache, site: string, at: Time, outcome: Outcome): DomainCache {
    match outcome
    case NotFound(error) => cached.(siteName := site, lastLookupAt := at, error := error)
    case Found(expiry, source) => DomainCache(site, expiry, at, at, source, "")
  }

  /** `days` is the whole days left that the clock gives while the result is filled in. */
  function FoundResult(site: string, expiry: Time, days: int): CheckResult {
    BlankResult(site, Domain).(status := Up, domainExpiry := expiry, daysUntilDomainExpiry := days,
        domainLookupOK := true)
  }

  function FailedResult(site: string, error: string): CheckResult {
    BlankResult(site, Domain).(status := Up, error := error)
  }

  function UnresolvableResult(site: string, error: string): CheckResult {
    BlankResult(site, Domain).(status := Down, error := error)
  }

  function LookupResult(site: string, outcome: Outcome, days: int): CheckResult {
    match outcome
    case Found(expiry, _) => FoundResult(site, expiry, days)
    case NotFound(error) => FailedResult(site, error)
  }

  class DomainChecker {
    const store: Memory
    const cacheTTL: Duration

    constructor (store: Memory, cacheTTL: Duration)
      ensures this.store == store && this.cacheTTL == cacheTTL
    {
      this.store, this.cacheTTL := store, cacheTTL;
    }

    /** `badHost` is the error of a URL without a registrable domain. */
    method Check(site: string, badHost: Option<string>, now: Time, outcome: Outcome, days: int)
      returns (r: CheckResult, lookedUp: bool)
      modifies store
      ensures lookedUp <==> badHost.None? && !Fresh(CacheOf(old(store.domains), site), site in old(store.domains),
                now, cacheTTL)
      ensures r == (if badHost.Some? then UnresolvableResult(site, badHost.value)
                    else if lookedUp then LookupResult(site, outcome, days)
                    else FoundResult(site, CacheOf(old(store.domains), site).expiresAt, days))
      ensures store.Value() == old(store.Value()).(domains :=
                if lookedUp then old(store.domains)[site := AfterLookup(CacheOf(old(store.domains), site), site, now,
                    outcome)]
                else old(store.domains))
      ensures badHost.Some? ==> !lookedUp
      ensures badHost.None? ==>
                (lookedUp <==> (site !in old(store.domains) || old(store.domains)[site].expiresAt == 0
                                || now - old(store.domains)[site].lastLookupAt >= cacheTTL))
      ensures badHost.Some? ==>
                r == CheckResult(site, Domain, Down, 0, "", false, false, 0, 0, 0, false, badHost.value)
      ensures lookedUp && outcome.NotFound? ==>
                r == CheckResult(site, Domain, Up, 0, "", false, false, 0, 0, 0, false, outcome.error)
      ensures lookedUp && outcome.Found? ==>
                r == CheckResult(site, Domain, Up, 0, "", false, false, 0, outcome.expiry, days, true, "")
      ensures badHost.None? && !lookedUp ==>
                && site in old(store.domains)
                && r == CheckResult(site, Domain, Up, 0, "", false, false, 0, old(store.domains)[site].expiresAt,
                    days, true, "")
      ensures r == ResultOf(old(store.domains), site, cacheTTL, Attempt(now, badHost, outcome, days))
      ensures store.domains == RowsAfter(old(store.domains), site, cacheTTL, Attempt(now, badHost, outcome, days))
    {
      if badHost.Some? {
        return UnresolvableResult(site, badHost.value), false;
      }
      var cached, ok := store.GetDomainCache(site);
      r := BlankResult(site, Domain);
      if ok && now - cached.lastLookupAt < cacheTTL && cached.expiresAt != ZERO_TIME {
        r := r.(status := Up, domainExpiry := cached.expiresAt, daysUntilDomainExpiry := days, domainLookupOK := true);
        return r, false;
      }
      match outcome
      case NotFound(error) =>
        var row := cached.(siteName := site, lastLookupAt := now, error := error);
        store.UpsertDomainCache(row);
        r := r.(status := Up, domainLookupOK := false, error := error);
        return r, true;
      case Found(expiry, source) =>
        store.UpsertDomainCache(DomainCache(site, expiry, now, now, source, ""));
        r := r.(status := Up, domainExpiry := expiry, daysUntilDomainExpiry := days, domainLookupOK := true);
        return r, true;
    }
  }

  // ---- the cached row as a closed form of the lookups ----

  /** The row that a site's lookups leave behind, starting from none. */
  function Replay(lookups: seq<Lookup>): DomainCache {
    if lookups == [] then NO_CACHE
    else
      var last := lookups[|lookups| - 1];
      AfterLookup(Replay(lookups[..|lookups| - 1]), last.site, last.at, last.outcome)
  }

  /** The index of the most recent successful lookup. */
  function LastFound(lookups: seq<Lookup>): (k: Option<nat>)
    ensures k.Some? ==> k.value < |lookups| && lookups[k.value].outcome.Found?
                        && forall j | k.value < j < |lookups| :: lookups[j].outcome.NotFound?
    ensures k.None? ==> forall j | 0 <= j < |lookups| :: lookups[j].outcome.NotFound?
  {
    if lookups == [] then None
    else if lookups[|lookups| - 1].outcome.Found? then Some(|lookups| - 1)
    else LastFound(lookups[..|lookups| - 1])
  }

  /** The row holds the start of the last lookup, and the start and expiry of the last successful one. */
  lemma {:induction false} ReplayClosedForm(lookups: seq<Lookup>)
    ensures var row, found := Replay(lookups), LastFound(lookups);
            && row.lastLookupAt == (if lookups == [] then ZERO_TIME else lookups[|lookups| - 1].at)
            && row.lastOkAt == (if found.Some? then lookups[found.value].at else ZERO_TIME)
            && row.expiresAt == (if found.Some? then lookups[found.value].outcome.expiry else ZERO_TIME)
            && row.source == (if found.Some? then lookups[found.value].outcome.source else "")
            && (lookups != [] ==>
                  var last := lookups[|lookups| - 1];
                  row.siteName == last.site && row.error == if last.outcome.Found? then "" else last.outcome.error)
  {
    if lookups == [] {
    } else {
      ReplayClosedForm(lookups[..|lookups| - 1]);
    }
  }

  // ---- any run of checks of one site ----

  /** What one check of a site meets: the clock, the host's error, the lookup if it makes one, the days left. */
  datatype Attempt = Attempt(now: Time, badHost: Option<string>, outcome: Outcome, days: int)

  predicate LooksUp(domains: map<string, DomainCache>, site: string, ttl: Duration, a: Attempt) {
    a.badHost.None? && !Fresh(CacheOf(domains, site), site in domains, a.now, ttl)
  }

  /** The result and the rows that DomainChecker.Check is proved to leave. */
  function ResultOf(domains: map<string, DomainCache>, site: string, ttl: Duration, a: Attempt): CheckResult {
    if a.badHost.Some? then UnresolvableResult(site, a.badHost.value)
    else if LooksUp(domains, site, ttl, a) then LookupResult(site, a.outcome, a.days)
    else FoundResult(site, CacheOf(domains, site).expiresAt, a.days)
  }

  function RowsAfter(domains: map<string, DomainCache>, site: string, ttl: Duration, a: Attempt): map<string,
      DomainCache> {
    if LooksUp(domains, site, ttl, a) then domains[site := AfterLookup(CacheOf(domains, site), site, a.now, a.outcome)]
    else domains
  }

  /** What a run has done: the lookups it made and, for each check, its result and how many lookups it had behind it. */
  datatype Answer = Answer(r: CheckResult, lookups: nat)

  datatype Trace = Trace(lookups: seq<Lookup>, answers: seq<Answer>)

  function CheckStep(site: string, ttl: Duration, trace: Trace, a: Attempt): Trace {
    var cached := Replay(trace.lookups);
    if a.badHost.Some? then
      trace.(answers := trace.answers + [Answer(UnresolvableResult(site, a.badHost.value), |trace.lookups|)])
    else if Fresh(cached, trace.lookups != [], a.now, ttl) then
      trace.(answers := trace.answers + [Answer(FoundResult(site, cached.expiresAt, a.days), |trace.lookups|)])
    else
      Trace(trace.lookups + [Lookup(site, a.now, a.outcome)],
            trace.answers + [Answer(LookupResult(site, a.outcome, a.days), |trace.lookups| + 1)])
  }

  function RunChecks(site: string, ttl: Duration, attempts: seq<Attempt>): Trace {
    if attempts == [] then Trace([], [])
    else CheckStep(site, ttl, RunChecks(site, ttl, attempts[..|attempts| - 1]), attempts[|attempts| - 1])
  }

  /** The stored row is what the trace's lookups left. */
  predicate RowMatches(domains: map<string, DomainCache>, site: string, lookups: seq<Lookup>) {
    CacheOf(domains, site) == Replay(lookups) && (site in domains <==> lookups != [])
  }

  /** The rows that checks one after the other leave, and their results. */
  function RowsAfterAll(site: string, ttl: Duration, attempts: seq<Attempt>): map<string, DomainCache> {
    if attempts == [] then map[]
    else RowsAfter(RowsAfterAll(site, ttl, attempts[..|attempts| - 1]), site, ttl, attempts[|attempts| - 1])
  }

  /** A step of the trace is a call of DomainChecker.Check on a store whose row matches. */
  lemma StepIsCheck(domains: map<string, DomainCache>, site: string, ttl: Duration, trace: Trace, a: Attempt)
    requires RowMatches(domains, site, trace.lookups)
    ensures var after := CheckStep(site, ttl, trace, a);
            && after.answers == trace.answers + [Answer(ResultOf(domains, site, ttl, a), |after.lookups|)]
            && RowMatches(RowsAfter(domains, site, ttl, a), site, after.lookups)
  {
    var l := Lookup(site, a.now, a.outcome);
    assert (trace.lookups + [l])[..|trace.lookups|] == trace.lookups;
  }

  /** The trace of a run is that of DomainChecker.Check called again and again, from an empty store. */
  lemma {:induction false} RunIsChecks(site: string, ttl: Duration, attempts: seq<Attempt>)
    ensures var trace := RunChecks(site, ttl, attempts);
            && RowMatches(RowsAfterAll(site, ttl, attempts), site, trace.lookups)
            && |trace.answers| == |attempts|
            && forall i | 0 <= i < |attempts| ::
                 trace.answers[i].r == ResultOf(RowsAfterAll(site, ttl, attempts[..i]), site, ttl, attempts[i])
  {
    hide CheckStep, ResultOf, RowsAfter, Replay;
    if attempts == [] {
      EmptyRow(site);
    } else {
      var init := attempts[..|attempts| - 1];
      RunIsChecks(site, ttl, init);
      StepIsCheck(RowsAfterAll(site, ttl, init), site, ttl, RunChecks(site, ttl, init), attempts[|init|]);
      forall i | 0 <= i < |init| ensures init[..i] == attempts[..i] {
      }
    }
  }

  /** A lookup is due after these: there was none, none has given an expiry, or the last one began a TTL or more ago. */
  predicate LookupDue(lookups: seq<Lookup>, now: Time, ttl: Duration) {
    || lookups == []
    || LastFound(lookups).None?
    || lookups[LastFound(lookups).value].outcome.expiry == 0
    || now - lookups[|lookups| - 1].at >= ttl
  }

  /** The row's answer to a check, by the lookups behind it. */
  lemma FreshExactly(lookups: seq<Lookup>, now: Time, ttl: Duration)
    ensures Fresh(Replay(lookups), lookups != [], now, ttl) <==> !LookupDue(lookups, now, ttl)
  {
    hide Replay, LastFound;
    ReplayClosedForm(lookups);
  }

  /** Each check of a usable host makes a lookup, at its own time, exactly when one is due; no other check makes any. */
  lemma LooksUpWhenDue(site: string, ttl: Duration, attempts: seq<Attempt>)
    requires attempts != []
    ensures var before, a := RunChecks(site, ttl, attempts[..|attempts| - 1]).lookups, attempts[|attempts| - 1];
            RunChecks(site, ttl, attempts).lookups
            == before + if a.badHost.None? && LookupDue(before, a.now, ttl) then [Lookup(site, a.now, a.outcome)]
                else []
  {
    hide Replay, LastFound, Fresh, LookupDue;
    FreshExactly(RunChecks(site, ttl, attempts[..|attempts| - 1]).lookups, attempts[|attempts| - 1].now, ttl);
  }

  lemma EmptyRow(site: string)
    ensures RowMatches(map[], site, [])
  {
  }

  predicate InOrder(attempts: seq<Attempt>) {
    && (forall i | 0 <= i < |attempts| :: attempts[i].now > ZERO_TIME)
    && (forall i, j | 0 <= i < j < |attempts| :: attempts[i].now <= attempts[j].now)
  }

  /** Two lookups in a row are a TTL apart when the first left a usable expiry. */
  predicate Spaced(lookups: seq<Lookup>, ttl: Duration) {
    forall i | 0 < i < |lookups| ::
      Replay(lookups[..i]).expiresAt != ZERO_TIME ==> lookups[i].at - lookups[i - 1].at >= ttl
  }

  /** Every result marked OK carries the expiry of the last successful lookup behind it. */
  predicate Truthful(trace: Trace) {
    forall i | 0 <= i < |trace.answers| ::
      && trace.answers[i].lookups <= |trace.lookups|
      && (trace.answers[i].r.domainLookupOK ==>
            var found := LastFound(trace.lookups[..trace.answers[i].lookups]);
            found.Some? && trace.answers[i].r.domainExpiry == trace.lookups[found.value].outcome.expiry)
  }

  lemma StepKeepsTruth(site: string, ttl: Duration, trace: Trace, a: Attempt)
    requires Truthful(trace)
    ensures Truthful(CheckStep(site, ttl, trace, a))
  {
    hide Replay, LastFound;
    var after := CheckStep(site, ttl, trace, a);
    ReplayClosedForm(trace.lookups);
    forall i | 0 <= i < |trace.answers|
      ensures after.lookups[..trace.answers[i].lookups] == trace.lookups[..trace.answers[i].lookups]
    {
    }
    assert after.lookups[..|after.lookups|] == after.lookups;
    LastFoundOfLast(after.lookups);
  }

  lemma LastFoundOfLast(lookups: seq<Lookup>)
    ensures lookups != [] && lookups[|lookups| - 1].outcome.Found? ==> LastFound(lookups) == Some(|lookups| - 1)
  {
  }

  lemma StepKeepsSpacing(site: string, ttl: Duration, trace: Trace, a: Attempt)
    requires Spaced(trace.lookups, ttl)
    ensures Spaced(CheckStep(site, ttl, trace, a).lookups, ttl)
  {
    hide Replay;
    var n := |trace.lookups|;
    var after := CheckStep(site, ttl, trace, a).lookups;
    ReplayClosedForm(trace.lookups);
    forall i | 0 < i <= n ensures after[..i] == trace.lookups[..i] {
    }
    assert trace.lookups[..n] == trace.lookups;
  }

  predicate Chronological(lookups: seq<Lookup>) {
    forall i, j | 0 <= i < j < |lookups| :: lookups[i].at <= lookups[j].at
  }

  lemma {:induction false} RunKeepsTimes(site: string, ttl: Duration, attempts: seq<Attempt>)
    requires InOrder(attempts)
    ensures forall l | l in RunChecks(site, ttl, attempts).lookups ::
              l.at > ZERO_TIME && (attempts != [] ==> l.at <= attempts[|attempts| - 1].now)
    ensures attempts == [] ==> RunChecks(site, ttl, attempts).lookups == []
    ensures Chronological(RunChecks(site, ttl, attempts).lookups)
  {
    if attempts == [] {
    } else {
      var init := attempts[..|attempts| - 1];
      RunKeepsTimes(site, ttl, init);
      var before := RunChecks(site, ttl, init).lookups;
      var after := RunChecks(site, ttl, attempts).lookups;
      assert after == before || after == before + [Lookup(site, attempts[|attempts| - 1].now,
          attempts[|attempts| - 1].outcome)];
      forall i | 0 <= i < |before| ensures before[i].at <= attempts[|attempts| - 1].now {
        assert before[i] in before;
      }
    }
  }

  /**
   The cache protocol over any run: the last success is not after the last lookup, an expiry is
   cached exactly when the last success gave one, every OK result carries the expiry of the
   last success, and once an expiry is cached lookups are a TTL apart, failed ones included.
   */
  lemma {:induction false} CacheProtocol(site: string, ttl: Duration, attempts: seq<Attempt>)
    requires InOrder(attempts)
    ensures var trace := RunChecks(site, ttl, attempts);
            var row, found := Replay(trace.lookups), LastFound(trace.lookups);
            && row.lastOkAt <= row.lastLookupAt
            && (row.lastOkAt != ZERO_TIME <==> found.Some?)
            && (row.expiresAt != ZERO_TIME <==> found.Some? && trace.lookups[found.value].outcome.expiry != ZERO_TIME)
            && Truthful(trace)
            && Spaced(trace.lookups, ttl)
  {
    hide Replay, LastFound, CheckStep;
    RunKeepsTimes(site, ttl, attempts);
    var trace := RunChecks(site, ttl, attempts);
    ReplayClosedForm(trace.lookups);
    RunIsTruthfulAndSpaced(site, ttl, attempts);
    if trace.lookups != [] {
      assert trace.lookups[|trace.lookups| - 1] in trace.lookups;
      if LastFound(trace.lookups).Some? {
        assert trace.lookups[LastFound(trace.lookups).value] in trace.lookups;
      }
    }
  }

  lemma {:induction false} RunIsTruthfulAndSpaced(site: string, ttl: Duration, attempts: seq<Attempt>)
    ensures Truthful(RunChecks(site, ttl, attempts)) && Spaced(RunChecks(site, ttl, attempts).lookups, ttl)
  {
    hide Replay, LastFound, CheckStep;
    if attempts == [] {
    } else {
      var init := attempts[..|attempts| - 1];
      RunIsTruthfulAndSpaced(site, ttl, init);
      StepKeepsTruth(site, ttl, RunChecks(site, ttl, init), attempts[|attempts| - 1]);
      StepKeepsSpacing(site, ttl, RunChecks(site, ttl, init), attempts[|attempts| - 1]);
    }
  }
}
