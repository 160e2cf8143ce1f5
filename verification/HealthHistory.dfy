/** What /healthz says, in terms of the results handled so far instead of the stored rows. */
module HealthHistory {
  import opened Types
  import opened MemoryStore
  import opened Config
  import opened History
  import opened Health

  /** A result that refreshes the check time of a configured site. */
  predicate Counts(sites: seq<Site>, e: Seen) {
    e.r.check != OtherCheck && exists s | s in sites :: s.name == e.r.siteName
  }

  ghost predicate CheckedSince(sites: seq<Site>, seen: seq<Seen>, since: Time) {
    exists e | e in seen :: Counts(sites, e) && e.now >= since
  }

  ghost predicate HTTPCheckedSince(sites: seq<Site>, seen: seq<Seen>, since: Time) {
    exists e | e in seen :: Counts(sites, e) && e.r.check == HTTP && e.now >= since
  }

  ghost predicate OtherwiseCheckedSince(sites: seq<Site>, seen: seq<Seen>, since: Time) {
    exists e | e in seen :: Counts(sites, e) && e.r.check != HTTP && e.now >= since
  }

  predicate InClockOrder(seen: seq<Seen>, started: Time) {
    && (forall i | 0 <= i < |seen| :: seen[i].now >= started)
    && (forall i, j | 0 <= i < j < |seen| :: seen[i].now <= seen[j].now)
  }

  /** The starting store is keyed, and from before the process started. */
  predicate FromBefore(start: States, started: Time) {
    WellKeyed(start) && forall name | name in start :: start[name].lastCheckAt <= started
  }

  /**
   No result of the site is later than its row, and the row's check time is that of some result, or still the
   starting one.
   */
  ghost predicate RowIsLatest(start: States, states: States, seen: seq<Seen>, name: string) {
    && (name in start ==> name in states && start[name].lastCheckAt <= states[name].lastCheckAt)
    && (forall e | e in seen && e.r.siteName == name && e.r.check != OtherCheck ::
          name in states && e.now <= states[name].lastCheckAt)
    && (name in states && states[name].lastCheckAt != ZERO_TIME ==>
          || (name in start && start[name].lastCheckAt == states[name].lastCheckAt)
          || exists e | e in seen :: e.r.siteName == name && e.r.check != OtherCheck
              && e.now == states[name].lastCheckAt)
  }

  lemma StampedStep(states: States, e: Seen)
    requires WellKeyed(states)
    ensures var name, after := e.r.siteName, Step(states, e);
            name in after && after == states[name := after[name]]
            && after[name].lastCheckAt == if e.r.check != OtherCheck then e.now else StateOf(states, name).lastCheckAt
  {
    hide Durations.FormatDuration;
  }

  lemma RowStep(start: States, states: States, before: seq<Seen>, e: Seen, name: string, started: Time)
    requires WellKeyed(states) && RowIsLatest(start, states, before, name) && FromBefore(start, started)
    requires ZERO_TIME < started <= e.now && forall d | d in before :: d.now <= e.now
    ensures RowIsLatest(start, Step(states, e), before + [e], name)
  {
    hide Step;
    StampedStep(states, e);
    assert forall d | d in before + [e] :: d in before || d == e;
    assert e in before + [e] && forall d | d in before :: d in before + [e];
  }

  lemma {:induction false} RowsAreLatest(start: States, seen: seq<Seen>, started: Time, name: string)
    requires ZERO_TIME < started && FromBefore(start, started) && InClockOrder(seen, started)
    ensures WellKeyed(After(start, seen)) && RowIsLatest(start, After(start, seen), seen, name)
  {
    hide Step, RowIsLatest, FromBefore;
    assert WellKeyed(start) by { KeyedBefore(start, started); }
    AfterKeepsKeys(start, seen);
    if seen == [] {
      RowsAtTheStart(start, name);
    } else {
      var before, e := seen[..|seen| - 1], seen[|seen| - 1];
      RowsAreLatest(start, before, started, name);
      assert seen == before + [e];
      RowStep(start, After(start, before), before, e, name, started);
    }
  }

  lemma KeyedBefore(start: States, started: Time)
    requires FromBefore(start, started)
    ensures WellKeyed(start)
  {
  }

  lemma RowsAtTheStart(start: States, name: string)
    ensures RowIsLatest(start, start, [], name)
  {
  }

  /** The newest check time is the starting store's, or that of a counting result; it is not before any of them. */
  lemma LatestOfStream(start: States, sites: seq<Site>, seen: seq<Seen>, started: Time)
    requires ZERO_TIME < started && FromBefore(start, started) && InClockOrder(seen, started)
    ensures var latest := LatestCheck(After(start, seen), sites);
            && LatestCheck(start, sites) <= latest
            && (forall e | e in seen && Counts(sites, e) :: e.now <= latest)
            && (latest == LatestCheck(start, sites) || exists e | e in seen :: Counts(sites, e) && e.now == latest)
  {
    hide After;
    var states := After(start, seen);
    var latest, before := LatestCheck(states, sites), LatestCheck(start, sites);
    forall name ensures RowIsLatest(start, states, seen, name) {
      RowsAreLatest(start, seen, started, name);
    }
    if before != ZERO_TIME {
      var s :| s in sites && s.name in start && start[s.name].lastCheckAt == before;
      assert RowIsLatest(start, states, seen, s.name);
    }
    forall e | e in seen && Counts(sites, e) ensures e.now <= latest {
      var s :| s in sites && s.name == e.r.siteName;
      assert RowIsLatest(start, states, seen, s.name);
    }
    if latest != ZERO_TIME && latest != before {
      var s :| s in sites && s.name in states && states[s.name].lastCheckAt == latest;
      assert RowIsLatest(start, states, seen, s.name);
      var e :| e in seen && e.r.siteName == s.name && e.r.check != OtherCheck && e.now == latest;
      assert Counts(sites, e);
    }
  }

  /**
   What the starting store contributes: its newest check time while that is recent, or the startup window if it
   has none.
   */
  predicate StartIsRecent(start: States, sites: seq<Site>, started: Time, now: Time) {
    var before := LatestCheck(start, sites);
    if before == ZERO_TIME then now - started <= StaleThreshold(sites) else now - before <= StaleThreshold(sites)
  }

  /**
   On whatever store the process starts: the answer is 200 exactly when some check of a
   configured site, of any kind, was handled within the threshold, or the store's newest check
   time from before is within it, or the store had none and the process started within it.
   */
  lemma HealthyExactly(start: States, sites: seq<Site>, seen: seq<Seen>, started: Time, now: Time)
    requires ZERO_TIME < started && FromBefore(start, started) && InClockOrder(seen, started)
    ensures !IsStale(sites, After(start, seen), started, now)
       <==> CheckedSince(sites, seen, now - StaleThreshold(sites)) || StartIsRecent(start, sites, started, now)
  {
    hide After, StaleThreshold, FromBefore, Counts, LatestCheck;
    LatestOfStream(start, sites, seen, started);
    StartIsOld(start, sites, started);
  }

  lemma StartIsOld(start: States, sites: seq<Site>, started: Time)
    requires ZERO_TIME < started && FromBefore(start, started)
    ensures LatestCheck(start, sites) <= started
  {
  }

  /** What the documentation says: an HTTP check within the threshold, or the startup window. */
  ghost predicate DocumentedHealthy(sites: seq<Site>, seen: seq<Seen>, started: Time, now: Time) {
    HTTPCheckedSince(sites, seen, now - StaleThreshold(sites)) || now - started <= StaleThreshold(sites)
  }

  /**
   On whatever store the process starts, the endpoint answers as documented exactly unless
   either, past the startup window and with no HTTP check within the threshold, an SSL or domain
   check is within it; or, in the startup window and before any check, the store holds a check
   time from before and even the newest is older than the threshold.
   */
  lemma DocumentedExactly(start: States, sites: seq<Site>, seen: seq<Seen>, started: Time, now: Time)
    requires ZERO_TIME < started && FromBefore(start, started) && InClockOrder(seen, started)
    ensures (!IsStale(sites, After(start, seen), started, now) <==> DocumentedHealthy(sites, seen, started, now))
       <==> && (OtherwiseCheckedSince(sites, seen, now - StaleThreshold(sites)) ==>
           DocumentedHealthy(sites, seen, started, now))
            && (now - started <= StaleThreshold(sites) && !CheckedSince(sites, seen, now - StaleThreshold(sites)) ==>
                  LatestCheck(start, sites) == ZERO_TIME || now - LatestCheck(start, sites) <= StaleThreshold(sites))
  {
    hide IsStale, After, StaleThreshold, Counts, FromBefore, LatestCheck;
    HealthyExactly(start, sites, seen, started, now);
    StartIsOld(start, sites, started);
  }

  /** One SSL result hides that no HTTP check has ever ended, however long ago the process started. */
  lemma HealthyWithoutHTTP(site: Site, started: Time) returns (seen: seq<Seen>, now: Time)
    requires ZERO_TIME < started && site.interval > 0
    ensures InClockOrder(seen, started) && HTTPHistory(seen, site.name) == []
    ensures !IsStale([site], After(map[], seen), started, now) && !DocumentedHealthy([site], seen, started, now)
  {
    hide IsStale, After;
    now := started + StaleThreshold([site]) + 1;
    var e := Seen(BlankResult(site.name, SSL), now);
    seen := [e];
    assert site in [site] && Counts([site], e) && e in seen;
    assert seen[..0] == [];
    HealthyExactly(map[], [site], seen, started, now);
  }
}
