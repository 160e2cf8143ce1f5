/** The /healthz decision: the newest check time of all sites against twice the longest interval. */
module Health {
  import opened Types
  import opened MemoryStore
  import opened Config

  const FALLBACK_INTERVAL: Duration := 60 * SECOND

  function MaxInterval(sites: seq<Site>): (m: Duration)
    ensures m >= 0 && forall s | s in sites :: s.interval <= m
    ensures m != 0 ==> exists s | s in sites :: s.interval == m
  {
    if sites == [] then 0
    else
      var init, last := MaxInterval(sites[..|sites| - 1]), sites[|sites| - 1];
      assert sites == sites[..|sites| - 1] + [last];
      if last.interval > init then last.interval else init
  }

  /** Twice the longest interval, or two minutes. */
  function StaleThreshold(sites: seq<Site>): (d: Duration)
    ensures MaxInterval(sites) == 0 ==> d == 120 * 1_000_000_000
    ensures forall s | s in sites :: 2 * s.interval <= d
    ensures MaxInterval(sites) != 0 ==> exists s | s in sites :: d == 2 * s.interval
  {
    2 * if MaxInterval(sites) == 0 then FALLBACK_INTERVAL else MaxInterval(sites)
  }

  function LatestCheck(states: map<string, SiteState>, sites: seq<Site>): (t: Time)
    ensures t >= ZERO_TIME && forall s | s in sites && s.name in states :: states[s.name].lastCheckAt <= t
    ensures t != ZERO_TIME ==> exists s | s in sites && s.name in states :: states[s.name].lastCheckAt == t
  {
    if sites == [] then ZERO_TIME
    else
      var init, last := LatestCheck(states, sites[..|sites| - 1]), sites[|sites| - 1];
      assert sites == sites[..|sites| - 1] + [last];
      if last.name in states && states[last.name].lastCheckAt > init then states[last.name].lastCheckAt else init
  }

  /** With no check recorded the start of the process stands in for one. */
  predicate IsStale(sites: seq<Site>, states: map<string, SiteState>, started: Time, now: Time) {
    var latest, threshold := LatestCheck(states, sites), StaleThreshold(sites);
    if latest == ZERO_TIME then now - started > threshold else now - latest > threshold
  }

  class Server {
    const sites: seq<Site>
    const store: Memory
    const started: Time

    constructor (sites: seq<Site>, store: Memory, started: Time)
      ensures this.sites == sites && this.store == store && this.started == started
    {
      this.sites, this.store, this.started := sites, store, started;
    }

    method Threshold() returns (threshold: Duration)
      ensures threshold == StaleThreshold(sites)
    {
      var max: Duration := 0;
      for i := 0 to |sites|
        invariant max == MaxInterval(sites[..i])
      {
        assert sites[..i + 1][..i] == sites[..i];
        if sites[i].interval > max {
          max := sites[i].interval;
        }
      }
      assert sites[..|sites|] == sites;
      if max == 0 {
        max := FALLBACK_INTERVAL;
      }
      return 2 * max;
    }

    method HealthState() returns (latest: Time)
      ensures latest == LatestCheck(store.states, sites)
    {
      latest := ZERO_TIME;
      for i := 0 to |sites|
        invariant latest == LatestCheck(store.states, sites[..i])
      {
        assert sites[..i + 1][..i] == sites[..i];
        var st, ok := store.GetSiteState(sites[i].name);
        if !ok {
          continue;
        }
        if st.lastCheckAt > latest {
          latest := st.lastCheckAt;
        }
      }
      assert sites[..|sites|] == sites;
    }

    /** 503 exactly when the monitor is stale. */
    method HandleHealthz(now: Time) returns (code: int)
      ensures code == if IsStale(sites, store.states, started, now) then 503 else 200
    {
      var latest := HealthState();
      var threshold := Threshold();
      var stale := false;
      if latest == ZERO_TIME {
        if now - started > threshold {
          stale := true;
        }
      } else if now - latest > threshold {
        stale := true;
      }
      code := 200;
      if stale {
        code := 503;
      }
    }
  }

  /** No stale answer in the startup window, while the store stays as it is. */
  ghost predicate Grace(sites: seq<Site>, states: map<string, SiteState>, started: Time) {
    forall now | started <= now <= started + StaleThreshold(sites) :: !IsStale(sites, states, started, now)
  }

  /**
   The startup grace, exactly: a store gives it if and only if it holds no check time of a
   configured site, or one of this process already.
   */
  lemma GraceExactly(sites: seq<Site>, states: map<string, SiteState>, started: Time)
    ensures Grace(sites, states, started)
       <==> LatestCheck(states, sites) == ZERO_TIME || LatestCheck(states, sites) >= started
  {
    hide LatestCheck, MaxInterval;
    assert StaleThreshold(sites) >= 0;
    if ZERO_TIME != LatestCheck(states, sites) < started {
      assert IsStale(sites, states, started, started + StaleThreshold(sites));
    }
  }

  /** A store whose check times are all too old makes a fresh process stale from its start on. */
  lemma NoGraceAfterOldChecks(sites: seq<Site>, states: map<string, SiteState>, started: Time, s: Site)
    requires s in sites && s.name in states
    requires forall t | t in sites && t.name in states ::
               ZERO_TIME < states[t.name].lastCheckAt < started - StaleThreshold(sites)
    ensures forall now | now >= started :: IsStale(sites, states, started, now)
  {
    assert states[s.name].lastCheckAt <= LatestCheck(states, sites);
  }
}
