/** The scheduler: its job list, the size of its channel, and what the consumer does with one result. */
module Scheduler {
  import opened Types
  import opened MemoryStore
  import opened Config
  import opened Backends
  import opened Alerting
  import opened History
  import opened Dispatching

  datatype Job = Job(site: string, check: CheckType, interval: Duration)

  const INITIAL_JITTER_CAP: Duration := 5 * SECOND

  function SiteJobs(c: Settings, site: Site, hasSSL: bool, hasDomain: bool): seq<Job> {
    [Job(site.name, HTTP, site.interval)]
    + (if site.checkSSL && hasSSL then [Job(site.name, SSL, c.sslCheckInterval)] else [])
    + (if site.checkDomain && hasDomain then [Job(site.name, Domain, c.domainCheckInterval)] else [])
  }

  function JobsOf(c: Settings, sites: seq<Site>, hasSSL: bool, hasDomain: bool): seq<Job> {
    if sites == [] then []
    else JobsOf(c, sites[..|sites| - 1], hasSSL, hasDomain) + SiteJobs(c, sites[|sites| - 1], hasSSL, hasDomain)
  }

  /** No two jobs run the same check of the same site. */
  predicate DistinctJobs(jobs: seq<Job>) {
    forall i, j | 0 <= i < j < |jobs| :: !(jobs[i].site == jobs[j].site && jobs[i].check == jobs[j].check)
  }

  method BuildJobs(c: Settings, hasSSL: bool, hasDomain: bool) returns (jobs: seq<Job>)
    ensures jobs == JobsOf(c, c.sites, hasSSL, hasDomain)
  {
    jobs := [];
    for i := 0 to |c.sites|
      invariant jobs == JobsOf(c, c.sites[..i], hasSSL, hasDomain)
    {
      var site := c.sites[i];
      assert c.sites[..i + 1][..i] == c.sites[..i];
      ghost var before := jobs;
      jobs := jobs + [Job(site.name, HTTP, site.interval)];
      if site.checkSSL && hasSSL {
        jobs := jobs + [Job(site.name, SSL, c.sslCheckInterval)];
      }
      if site.checkDomain && hasDomain {
        jobs := jobs + [Job(site.name, Domain, c.domainCheckInterval)];
      }
      assert jobs == before + SiteJobs(c, site, hasSSL, hasDomain);
    }
    assert c.sites[..|c.sites|] == c.sites;
  }

  lemma SiteJobsAreDistinct(c: Settings, site: Site, hasSSL: bool, hasDomain: bool)
    ensures DistinctJobs(SiteJobs(c, site, hasSSL, hasDomain))
    ensures forall job | job in SiteJobs(c, site, hasSSL, hasDomain) :: job.site == site.name && job.check != OtherCheck
  {
  }

  lemma AppendDistinct(jobs: seq<Job>, more: seq<Job>)
    requires DistinctJobs(jobs) && DistinctJobs(more)
    requires forall a, b | a in jobs && b in more :: a.site != b.site
    ensures DistinctJobs(jobs + more)
  {
  }

  /** Site names are unique, so there is one worker for each check of each site. */
  lemma {:induction false} JobsAreDistinct(c: Settings, sites: seq<Site>, hasSSL: bool, hasDomain: bool)
    requires DistinctSites(sites)
    ensures DistinctJobs(JobsOf(c, sites, hasSSL, hasDomain))
    ensures forall job | job in JobsOf(c, sites, hasSSL, hasDomain) ::
              job.check != OtherCheck && exists s | s in sites :: s.name == job.site
  {
    if sites == [] {
    } else {
      hide SiteJobs, DistinctJobs;
      var init, site := sites[..|sites| - 1], sites[|sites| - 1];
      assert sites == init + [site];
      JobsAreDistinct(c, init, hasSSL, hasDomain);
      SiteJobsAreDistinct(c, site, hasSSL, hasDomain);
      forall s | s in init ensures s.name != site.name && s in sites {
      }
      forall job | job in JobsOf(c, init, hasSSL, hasDomain)
        ensures job.site != site.name && exists s | s in sites :: s.name == job.site
      {
        var s :| s in init && s.name == job.site;
      }
      AppendDistinct(JobsOf(c, init, hasSSL, hasDomain), SiteJobs(c, site, hasSSL, hasDomain));
    }
  }

  /** The jobs that a site calls for. */
  predicate CallsFor(c: Settings, s: Site, hasSSL: bool, hasDomain: bool, job: Job) {
    || (job.site == s.name && job.check == HTTP && job.interval == s.interval)
    || (job.site == s.name && job.check == SSL && job.interval == c.sslCheckInterval && s.checkSSL && hasSSL)
    || (job.site == s.name && job.check == Domain && job.interval == c.domainCheckInterval && s.checkDomain
        && hasDomain)
  }

  /** There is a worker for each enabled check of each site, at the check's own interval, and there are no others. */
  lemma {:induction false} JobsExactly(c: Settings, sites: seq<Site>, hasSSL: bool, hasDomain: bool, job: Job)
    ensures job in JobsOf(c, sites, hasSSL, hasDomain)
       <==> exists s | s in sites :: CallsFor(c, s, hasSSL, hasDomain, job)
  {
    if sites == [] {
    } else {
      var init, last := sites[..|sites| - 1], sites[|sites| - 1];
      assert sites == init + [last];
      JobsExactly(c, init, hasSSL, hasDomain, job);
      assert job in SiteJobs(c, last, hasSSL, hasDomain) <==> CallsFor(c, last, hasSSL, hasDomain, job);
    }
  }

  /** The HTTP worker of site i comes right after the workers of the sites before it. */
  function HTTPWorker(c: Settings, sites: seq<Site>, hasSSL: bool, hasDomain: bool, i: nat): nat
    requires i < |sites|
  {
    |JobsOf(c, sites[..i], hasSSL, hasDomain)|
  }

  /** Every configured site has an HTTP worker at its own interval. */
  lemma {:induction false} HTTPWorkerOf(c: Settings, sites: seq<Site>, hasSSL: bool, hasDomain: bool, i: nat)
    requires i < |sites|
    ensures var w := HTTPWorker(c, sites, hasSSL, hasDomain, i);
            && w < |JobsOf(c, sites, hasSSL, hasDomain)|
            && JobsOf(c, sites, hasSSL, hasDomain)[w] == Job(sites[i].name, HTTP, sites[i].interval)
  {
    var init := sites[..|sites| - 1];
    if i == |init| {
    } else {
      assert init[..i] == sites[..i];
      HTTPWorkerOf(c, init, hasSSL, hasDomain, i);
    }
  }

  function ChannelCapacity(jobs: nat): (n: nat)
    ensures n >= 16 && n >= 4 * jobs && (n == 16 || n == 4 * jobs)
  {
    if 4 * jobs > 16 then 4 * jobs else 16
  }

  /** A random offset below d; `random` is the 63-bit number read. */
  function JitterDuration(d: Duration, random: nat): (j: Duration)
    ensures d > 0 ==> 0 <= j < d
    ensures d <= 0 ==> j == 0
  {
    if d <= 0 then 0 else random % d
  }

  function FirstDelay(interval: Duration, random: nat): (j: Duration)
    ensures interval > 0 ==> 0 <= j < interval && j < 5_000_000_000
    ensures interval > 0 ==> j == random % if interval < 5_000_000_000 then interval else 5_000_000_000
  {
    JitterDuration(if interval < INITIAL_JITTER_CAP then interval else INITIAL_JITTER_CAP, random)
  }

  /** The sends that a list of alerts spawns. */
  function Spawns(routing: Routing, known: set<string>, alerts: seq<AlertWithMeta>): seq<Send> {
    if alerts == [] then []
    else
      var a := alerts[|alerts| - 1];
      Spawns(routing, known, alerts[..|alerts| - 1])
      + SendsFor(a, Recipients(known, NotifiersFor(routing, TypeName(a.alert.alertType))))
  }

  lemma {:induction false} SpawnsAppend(routing: Routing, known: set<string>, a: seq<AlertWithMeta>,
      b: seq<AlertWithMeta>)
    ensures Spawns(routing, known, a + b) == Spawns(routing, known, a) + Spawns(routing, known, b)
  {
    hide SendsFor, Recipients, NotifiersFor, TypeName;
    if b == [] {
      assert a + b == a;
    } else {
      assert (a + b)[..|a + b| - 1] == a + b[..|b| - 1];
      SpawnsAppend(routing, known, a, b[..|b| - 1]);
    }
  }

  /** The routing group of each alert type, as a configuration file names it. */
  predicate InGroup(alertType: AlertType, group: string) {
    || (alertType == DownAlert && group == "down")
    || (alertType == RecoveredAlert && group == "recovered")
    || (alertType == SSLExpiring && group == "ssl_expiring")
    || (alertType == DomainExpiring && group == "domain_expiring")
    || (alertType == SSLUntrusted && group == "ssl_untrusted")
    || (alertType == DegradedMonitor && group == "degraded_monitoring")
  }

  /**
   The names that a configuration gives for a group: the group's own if there are any rules for it, else the
   default.
   */
  function GroupNames(routing: Routing, group: string): seq<string> {
    if group in routing.perType then routing.perType[group] else routing.default
  }

  /** Every alert goes, whatever else is dispatched with it, to the known ones of the names given for its group. */
  lemma SpawnsByGroup(routing: Routing, known: set<string>, before: seq<AlertWithMeta>, a: AlertWithMeta,
                      after: seq<AlertWithMeta>, group: string)
    requires InGroup(a.alert.alertType, group)
    ensures Spawns(routing, known, before + [a] + after)
         == Spawns(routing, known, before) + SendsFor(a, Recipients(known, GroupNames(routing, group)))
            + Spawns(routing, known, after)
  {
    hide SendsFor, Recipients;
    SpawnsAppend(routing, known, before + [a], after);
    SpawnsAppend(routing, known, before, [a]);
    assert [a][..0] == [];
  }

  class Scheduler {
    const routing: Routing
    const store: Memory
    const engine: Engine
    const dispatcher: Dispatcher

    constructor (routing: Routing, store: Memory, engine: Engine, dispatcher: Dispatcher)
      requires engine.store == store
      ensures this.routing == routing && this.store == store && this.engine == engine && this.dispatcher == dispatcher
    {
      this.routing, this.store, this.engine, this.dispatcher := routing, store, engine, dispatcher;
    }

    /** One result, taken up at `now`: the stored states take a step and the alerts are dispatched. */
    method Process(r: CheckResult, now: Time)
      requires engine.store == store
      modifies store, dispatcher`spawned
      ensures store.Value() == old(store.Value()).(states := Step(old(store.states), Seen(r, now)))
      ensures dispatcher.spawned == old(dispatcher.spawned) + Spawns(routing, dispatcher.notifiers,
                DecideAlerts(InMemory, Thresholds(engine.sslWarnDays, engine.domainWarnDays),
                    PrevState(old(store.states), r.siteName, now),
                             CacheOf(old(store.domains), r.siteName), old(store.alerts), r, now))
    {
      hide DecideAlerts, NewState, TypeName;
      var out := engine.Process(r, now);
      store.UpsertSiteState(out.newState);
      for i := 0 to |out.alerts|
        invariant store.Value() == old(store.Value()).(states := Step(old(store.states), Seen(r, now)))
        invariant dispatcher.spawned == old(dispatcher.spawned) + Spawns(routing, dispatcher.notifiers, out.alerts[..i])
      {
        var a := out.alerts[i];
        assert out.alerts[..i + 1][..i] == out.alerts[..i];
        dispatcher.Dispatch(a, NotifiersFor(routing, TypeName(a.alert.alertType)));
      }
      assert out.alerts[..|out.alerts|] == out.alerts;
    }
  }
}
