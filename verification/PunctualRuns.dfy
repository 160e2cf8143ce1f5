/**
 Runs in which nothing is late, of the setup that main makes of a configuration: time passes only
 while no timer is overdue, no result is under way and the consumer is idle. With one site whose
 certificate is checked, the two workers' rounds are built step by step, and repeated up to any
 time.
 */
module PunctualRuns {
  import opened Types
  import opened MemoryStore
  import opened Backends
  import opened Config
  import opened Alerting
  import opened History
  import opened Dispatching
  import opened Scheduler
  import opened System
  import Sends

  /** Time does not pass over a timer, nor while a result is on its way. */
  predicate Punctual(s: State, a: Action) {
    a.TimePasses? ==>
      && s.consumer.Idle? && s.channel == []
      && forall w | 0 <= w < |s.workers| ::
           !s.workers[w].phase.Sending? && (s.workers[w].phase.Parked? ==> s.now + a.d <= s.workers[w].phase.wake)
  }

  /** Some run in which nothing is late leads to the state. */
  ghost predicate ReachedOnTime(c: Setup, s: State) {
    exists states, actions ::
      && IsRun(c, states, actions) && states[|states| - 1] == s
      && forall i | 0 <= i < |actions| :: Punctual(states[i], actions[i])
  }

  lemma OnTimeIsReachable(c: Setup, s: State)
    requires ReachedOnTime(c, s)
    ensures Reachable(c, s)
  {
  }

  lemma OnTimeStep(c: Setup, s: State, a: Action)
    requires ReachedOnTime(c, s) && Enabled(c, s, a) && Punctual(s, a)
    ensures ReachedOnTime(c, Apply(c, s, a))
  {
    hide Enabled, Apply, Init, Punctual;
    var states, actions :| && IsRun(c, states, actions) && states[|states| - 1] == s
                           && forall i | 0 <= i < |actions| :: Punctual(states[i], actions[i]);
    var longer, more := states + [Apply(c, s, a)], actions + [a];
    assert longer[0] == states[0];
    forall i | 0 <= i < |more|
      ensures Enabled(c, longer[i], more[i]) && longer[i + 1] == Apply(c, longer[i], more[i])
      ensures Punctual(longer[i], more[i])
    {
    }
    assert IsRun(c, longer, more);
  }

  // ---- the configurations ----

  const HTTP_WORKER := 0
  const SSL_WORKER := 1

  /** A validated configuration with one site, whose certificate is checked and whose registration is not. */
  predicate OneSite(c: Settings) {
    Valid(c) && |c.sites| == 1 && c.sites[0].checkSSL && !c.sites[0].checkDomain && c.sslCheckInterval > 0
  }

  /** There are such configurations, for any intervals, timeout and thresholds that are valid, and any known routes. */
  lemma SuchConfigurations(interval: Duration, timeout: Duration, sslInterval: Duration, warnDays: seq<int>)
      returns (c: Settings)
    requires interval >= SECOND && timeout >= SECOND && sslInterval > 0 && AllPositive(warnDays)
    ensures OneSite(c) && c.sites[0].interval == interval && c.sites[0].timeout == timeout
    ensures c.sslCheckInterval == sslInterval && c.sslWarnDays == warnDays
    ensures NotifiersFor(c.routing, TypeName(SSLExpiring)) == ["ops"]
  {
    var site := Site("site", URL("https", "example.org"), [DEFAULT_STATUS], true, false, interval, timeout,
        DEFAULT_RETRIES);
    var ops := Notifier("ops", Slack, "https://hooks.example.org", "", 0, "", []);
    c := Settings(interval, sslInterval, DEFAULT_DOMAIN_INTERVAL, [site], warnDays, [], [ops], Routing(["ops"], map[]),
                  DEFAULT_PATH, true);
    assert ops in c.notifiers;
  }

  /** The two workers of such a configuration. */
  lemma TwoJobs(c: Settings, backend: Backend)
    requires OneSite(c)
    ensures var site := c.sites[0];
            Sends.SetupOf(c, backend).jobs == [Job(site.name, HTTP, site.interval),
                Job(site.name, SSL, c.sslCheckInterval)]
    ensures ValidSetup(Sends.SetupOf(c, backend))
  {
    var site := c.sites[0];
    assert c.sites == [site] && c.sites[..0] == [];
    assert site in c.sites;
    assert SiteJobs(c, site, true, true) == [Job(site.name, HTTP, site.interval),
        Job(site.name, SSL, c.sslCheckInterval)];
    assert JobsOf(c, [], true, true) == [];
  }

  /** What the rounds need of the setup. */
  predicate TwoWorkers(c: Setup, site: string) {
    && site != "" && |c.jobs| == 2
    && c.jobs[HTTP_WORKER].site == site && c.jobs[HTTP_WORKER].check == HTTP && c.jobs[HTTP_WORKER].interval > 0
    && c.jobs[SSL_WORKER].site == site && c.jobs[SSL_WORKER].check == SSL && c.jobs[SSL_WORKER].interval > 0
  }

  // ---- rounds ----

  predicate NotDown(states: States, site: string) {
    WellKeyed(states) && StartRow(states, site).status != Down
  }

  /** Nothing is under way; the workers' timers are due at `http` and `ssl`. */
  predicate AtRest(s: State, site: string, http: Time, ssl: Time) {
    && s.consumer == Idle && s.channel == [] && s.dispatched == |s.raised| && s.cancelledAt == None
    && |s.workers| == 2 && s.workers[HTTP_WORKER].phase == Parked(http) && s.workers[SSL_WORKER].phase == Parked(ssl)
    && s.now <= http && s.now <= ssl && NotDown(s.store.states, site)
  }

  /** The same alerts, sends and log; more results may have been handled. */
  predicate SameAlerts(s: State, t: State) {
    && t.store.alerts == s.store.alerts && t.store.nextID == s.store.nextID && t.start == s.start
    && t.startedAt == s.startedAt
    && t.senders == s.senders && t.raised == s.raised && t.dispatched == s.dispatched && t.loggedBy == s.loggedBy
    && s.handled <= t.handled
  }

  /** Worker w is due and the consumer free. */
  predicate Due(c: Setup, s: State, w: nat, r: CheckResult) {
    && s.consumer == Idle && s.channel == [] && s.cancelledAt == None && w < |s.workers| == |c.jobs|
    && s.workers[w].phase.Parked? && s.workers[w].phase.wake <= s.now
    && c.jobs[w].check != Domain && r.check == c.jobs[w].check && r.siteName == c.jobs[w].site
  }

  /** From the timer to the consumer's hand. */
  lemma Deliver(c: Setup, s: State, w: nat, r: CheckResult) returns (t: State)
    requires ReachedOnTime(c, s) && Due(c, s, w, r)
    ensures ReachedOnTime(c, t) && t.consumer.Holding? && t.consumer.item.result == r
    ensures t == s.(consumer := t.consumer, workers := t.workers, taken := t.taken)
    ensures |t.workers| == |s.workers| && t.workers[w].phase == Parked(s.now + c.jobs[w].interval)
    ensures forall v | 0 <= v < |s.workers| && v != w :: t.workers[v] == s.workers[v]
  {
    hide ReachedOnTime;
    var s1 := Apply(c, s, WorkerWakes(w));
    OnTimeStep(c, s, WorkerWakes(w));
    var s2 := Apply(c, s1, CheckEnds(w, r));
    OnTimeStep(c, s1, CheckEnds(w, r));
    var s3 := Apply(c, s2, ResultIsSent(w));
    OnTimeStep(c, s2, ResultIsSent(w));
    t := Apply(c, s3, ConsumerTakes);
    OnTimeStep(c, s3, ConsumerTakes);
  }

  /** What the engine decides on a result that is taken up now. */
  function DecisionNow(c: Setup, s: State, r: CheckResult): seq<AlertWithMeta> {
    DecideAlerts(c.backend, c.thresholds, PrevState(s.store.states, r.siteName, s.now), NO_CACHE, s.store.alerts, r,
        s.now)
  }

  lemma DecideNow(c: Setup, s: State, r: CheckResult) returns (t: State)
    requires ReachedOnTime(c, s) && s.consumer.Holding? && s.consumer.item.result == r && !NeedsCache(r)
    ensures ReachedOnTime(c, t) && t.consumer.Decided?
    ensures t.consumer.newState == NewState(PrevState(s.store.states, r.siteName, s.now), r, s.now)
    ensures t == s.(consumer := t.consumer, handled := t.handled, raised := t.raised)
    ensures t.raised == s.raised + seq(|DecisionNow(c, s, r)|, i requires 0 <= i < |DecisionNow(c, s, r)| =>
                                         Raised(DecisionNow(c, s, r)[i], |s.handled|))
    ensures s.handled <= t.handled && |t.handled| == |s.handled| + 1
    ensures t.handled[|s.handled|].logLen == |s.store.alerts| && t.handled[|s.handled|].seen == Seen(r, s.now)
  {
    hide ReachedOnTime, NewState, PrevState, DecideAlerts;
    var s1 := Apply(c, s, ConsumerStarts);
    OnTimeStep(c, s, ConsumerStarts);
    t := Apply(c, s1, ConsumerDecides);
    OnTimeStep(c, s1, ConsumerDecides);
  }

  /** Storing a decision without alerts. */
  lemma StoreOnly(c: Setup, s: State) returns (t: State)
    requires ReachedOnTime(c, s) && s.consumer.Decided? && s.dispatched == |s.raised|
    ensures ReachedOnTime(c, t)
    ensures t == s.(consumer := Idle, store := s.store.(states :=
                      s.store.states[s.consumer.newState.siteName := s.consumer.newState]))
  {
    hide ReachedOnTime;
    var s1 := Apply(c, s, ConsumerStores);
    OnTimeStep(c, s, ConsumerStores);
    t := Apply(c, s1, ConsumerReturns);
    OnTimeStep(c, s1, ConsumerReturns);
  }

  function RecipientsOf(c: Setup, t: AlertType): seq<string> {
    Recipients(c.known, NotifiersFor(c.routing, TypeName(t)))
  }

  /** The sends that start now for raised alert i. */
  function Starting(names: seq<string>, i: nat, now: Time): seq<Sender> {
    seq(|names|, k requires 0 <= k < |names| => Sender(i, names[k], Calling, [], now))
  }

  /** Storing a decision with one alert, and dispatching it. */
  lemma StoreAndDispatch(c: Setup, s: State) returns (t: State)
    requires ReachedOnTime(c, s) && s.consumer.Decided? && s.dispatched + 1 == |s.raised|
    ensures ReachedOnTime(c, t)
    ensures var names := RecipientsOf(c, s.raised[s.dispatched].a.alert.alertType);
            t == s.(consumer := Idle, dispatched := |s.raised|,
                    store := s.store.(states := s.store.states[s.consumer.newState.siteName := s.consumer.newState]),
                    senders := s.senders + Starting(names, s.dispatched, s.now))
  {
    hide ReachedOnTime, Recipients, TypeName, NotifiersFor;
    var s1 := Apply(c, s, ConsumerStores);
    OnTimeStep(c, s, ConsumerStores);
    var s2 := Apply(c, s1, ConsumerDispatches);
    OnTimeStep(c, s1, ConsumerDispatches);
    t := Apply(c, s2, ConsumerReturns);
    OnTimeStep(c, s2, ConsumerReturns);
    assert NewSenders(c, s1) == Starting(RecipientsOf(c, s.raised[s.dispatched].a.alert.alertType), s.dispatched,
        s.now);
  }

  /** A certificate result, and an HTTP success, leave a site that is not down as it is. */
  lemma StaysNotDown(states: States, r: CheckResult, now: Time)
    requires NotDown(states, r.siteName) && r.siteName != "" && (r.check == SSL || (r.check == HTTP && r.status == Up))
    ensures NotDown(Step(states, Seen(r, now)), r.siteName)
  {
    hide Durations.FormatDuration;
  }

  /** The timers after a round of worker w. */
  function NextHTTP(c: Setup, s: State, w: nat, http: Time): Time
    requires |c.jobs| == 2
  {
    if w == HTTP_WORKER then s.now + c.jobs[HTTP_WORKER].interval else http
  }

  function NextSSL(c: Setup, s: State, w: nat, ssl: Time): Time
    requires |c.jobs| == 2
  {
    if w == SSL_WORKER then s.now + c.jobs[SSL_WORKER].interval else ssl
  }

  /** A check whose result raises nothing. */
  lemma QuietRound(c: Setup, s: State, site: string, w: nat, r: CheckResult, http: Time, ssl: Time) returns (t: State)
    requires ReachedOnTime(c, s) && TwoWorkers(c, site) && AtRest(s, site, http, ssl) && Due(c, s, w, r)
    requires (r.check == SSL || r.status == Up) && DecisionNow(c, s, r) == []
    ensures ReachedOnTime(c, t) && SameAlerts(s, t) && t.now == s.now
    ensures AtRest(t, site, NextHTTP(c, s, w, http), NextSSL(c, s, w, ssl))
  {
    hide ReachedOnTime, DecideAlerts, NewState, PrevState, NotDown;
    var held := Deliver(c, s, w, r);
    var decided := DecideNow(c, held, r);
    t := StoreOnly(c, decided);
    StaysNotDown(s.store.states, r, s.now);
    assert t.store.states == Step(s.store.states, Seen(r, s.now));
  }

  /** A check whose result raises one alert. */
  lemma AlertRound(c: Setup, s: State, site: string, w: nat, r: CheckResult, http: Time, ssl: Time, a: AlertWithMeta)
    returns (t: State)
    requires ReachedOnTime(c, s) && TwoWorkers(c, site) && AtRest(s, site, http, ssl) && Due(c, s, w, r)
    requires (r.check == SSL || r.status == Up) && DecisionNow(c, s, r) == [a]
    ensures ReachedOnTime(c, t) && t.now == s.now
    ensures AtRest(t, site, NextHTTP(c, s, w, http), NextSSL(c, s, w, ssl))
    ensures t.raised == s.raised + [Raised(a, |s.handled|)]
    ensures t.senders == s.senders + Starting(RecipientsOf(c, a.alert.alertType), |s.raised|, s.now)
    ensures s.handled <= t.handled && |t.handled| == |s.handled| + 1
    ensures t.handled[|s.handled|].logLen == |s.store.alerts|
    ensures t.store.alerts == s.store.alerts && t.store.nextID == s.store.nextID
    ensures t.start == s.start && t.startedAt == s.startedAt && t.loggedBy == s.loggedBy
  {
    hide ReachedOnTime, DecideAlerts, NewState, PrevState, NotDown, RecipientsOf;
    var held := Deliver(c, s, w, r);
    var decided := DecideNow(c, held, r);
    assert decided.raised == s.raised + [Raised(a, |s.handled|)];
    t := StoreAndDispatch(c, decided);
    StaysNotDown(s.store.states, r, s.now);
    assert t.store.states == Step(s.store.states, Seen(r, s.now));
  }

  function UpResult(site: string): CheckResult {
    BlankResult(site, HTTP).(status := Up)
  }

  lemma UpIsQuiet(c: Setup, s: State, site: string)
    requires NotDown(s.store.states, site) && site != ""
    ensures DecisionNow(c, s, UpResult(site)) == []
  {
    hide Durations.FormatDuration;
  }

  /** Time passes while everything is at rest, up to the next timer. */
  lemma Pass(c: Setup, s: State, site: string, http: Time, ssl: Time, until: Time) returns (t: State)
    requires ReachedOnTime(c, s) && AtRest(s, site, http, ssl) && s.now <= until <= http && until <= ssl
    ensures ReachedOnTime(c, t) && t == s.(now := until) && AtRest(t, site, http, ssl)
  {
    hide ReachedOnTime, NotDown;
    if s.now == until {
      t := s;
    } else {
      t := Apply(c, s, TimePasses(until - s.now));
      OnTimeStep(c, s, TimePasses(until - s.now));
    }
  }

  /** The HTTP checks that are due up to a time, all of them up, while no certificate check is due before it. */
  lemma {:induction false} Advance(c: Setup, s: State, site: string, http: Time, ssl: Time, until: Time)
    returns (t: State, next: Time)
    requires ReachedOnTime(c, s) && TwoWorkers(c, site) && AtRest(s, site, http, ssl) && s.now <= until <= ssl
    ensures ReachedOnTime(c, t) && SameAlerts(s, t) && t.now == until && AtRest(t, site, next, ssl)
    decreases until - http
  {
    hide ReachedOnTime, Durations.FormatDuration, NotDown, DecisionNow;
    if http > until {
      t := Pass(c, s, site, http, ssl, until);
      next := http;
    } else {
      var due := Pass(c, s, site, http, ssl, http);
      UpIsQuiet(c, due, site);
      var done := QuietRound(c, due, site, HTTP_WORKER, UpResult(site), http, ssl);
      t, next := Advance(c, done, site, http + c.jobs[HTTP_WORKER].interval, ssl, until);
    }
  }

  /** The first start, with both workers due at once. */
  lemma Start(settings: Settings, backend: Backend, now: Time) returns (s: State)
    requires OneSite(settings) && now > ZERO_TIME
    ensures ReachedOnTime(Sends.SetupOf(settings, backend), s) && s.now == s.startedAt == now
    ensures AtRest(s, settings.sites[0].name, now, now)
    ensures TwoWorkers(Sends.SetupOf(settings, backend), settings.sites[0].name)
    ensures s.store == s.start == EMPTY_STORE && s.raised == [] && s.handled == [] && s.senders == []
    ensures s.loggedBy == []
  {
    var c := Sends.SetupOf(settings, backend);
    assert settings.sites[0] in settings.sites;
    TwoJobs(settings, backend);
    hide Sends.SetupOf, Valid;
    s := Boot(c, now, [0, 0]);
    BootIsInit(c, now, [0, 0]);
    assert IsRun(c, [s], []);
    assert [s][|[s]| - 1] == s;
  }
}
