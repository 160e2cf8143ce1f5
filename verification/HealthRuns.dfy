/** /healthz in the running system: the statements about streams of results, for every reachable state. */
module HealthRuns {
  import opened Types
  import opened MemoryStore
  import opened Config
  import opened Backends
  import opened Alerting
  import opened History
  import opened Health
  import opened HealthHistory
  import opened Scheduler
  import opened System
  import opened SystemLog
  import opened Stream
  import opened PunctualRuns
  import Sends

  /** The store that the run started on comes from the past. */
  predicate StartsOnOldRows(s: State) {
    forall name | name in s.start.states :: s.start.states[name].lastCheckAt <= s.startedAt
  }

  /** The handled results are a stream as HealthHistory takes them, and the stored rows are what it leaves. */
  lemma HandledIsAStream(c: Setup, s: State)
    requires Reachable(c, s) && StartsOnOldRows(s)
    ensures ZERO_TIME < s.startedAt && InClockOrder(SeenOf(s.handled), s.startedAt)
    ensures FromBefore(s.start.states, s.startedAt)
    ensures !s.consumer.Decided? ==> s.store.states == After(s.start.states, SeenOf(s.handled))
  {
    hide After;
    LogReachable(c, s);
    forall q | 0 <= q < |s.handled| ensures s.handled[q].seen.now >= s.startedAt {
      assert HandledOK(c, s, q);
    }
    var states, actions :| IsRun(c, states, actions) && states[|states| - 1] == s;
    StreamAlways(c, states, actions, |states| - 1, "");
  }

  /**
   In every reachable state in which the last decision is stored, whatever store the run started
   on: the answer is 200 exactly when a check of a configured site was handled within the
   threshold, or what the starting store holds is recent.
   */
  lemma SystemHealthy(c: Setup, s: State, sites: seq<Site>)
    requires Reachable(c, s) && StartsOnOldRows(s) && !s.consumer.Decided?
    ensures !IsStale(sites, s.store.states, s.startedAt, s.now)
       <==> CheckedSince(sites, SeenOf(s.handled), s.now - StaleThreshold(sites))
            || StartIsRecent(s.start.states, sites, s.startedAt, s.now)
  {
    hide IsStale, CheckedSince, StartIsRecent, InClockOrder, FromBefore, Reachable;
    HandledIsAStream(c, s);
    HealthyExactly(s.start.states, sites, SeenOf(s.handled), s.startedAt, s.now);
  }

  /** And it is the documented answer exactly under the two conditions of DocumentedExactly. */
  lemma SystemDocumented(c: Setup, s: State, sites: seq<Site>)
    requires Reachable(c, s) && StartsOnOldRows(s) && !s.consumer.Decided?
    ensures var seen, threshold := SeenOf(s.handled), StaleThreshold(sites);
            (IsStale(sites, s.store.states, s.startedAt, s.now) != DocumentedHealthy(sites, seen, s.startedAt, s.now))
            <==>
            && (OtherwiseCheckedSince(sites, seen, s.now - threshold) ==>
                DocumentedHealthy(sites, seen, s.startedAt, s.now))
            && (s.now - s.startedAt <= threshold && !CheckedSince(sites, seen, s.now - threshold) ==>
                  LatestCheck(s.start.states, sites) == ZERO_TIME
                      || s.now - LatestCheck(s.start.states, sites) <= threshold)
  {
    hide IsStale, CheckedSince, OtherwiseCheckedSince, DocumentedHealthy, InClockOrder, FromBefore, Reachable,
        LatestCheck;
    HandledIsAStream(c, s);
    DocumentedExactly(s.start.states, sites, SeenOf(s.handled), s.startedAt, s.now);
  }

  /**
   A run in which nothing is late and the two differ: the first HTTP check is still within its
   timeout, which is longer than the threshold, and one certificate check has ended meanwhile.
   */
  lemma HealthyWhileHTTPHangs(settings: Settings, backend: Backend, now: Time) returns (s: State)
    requires OneSite(settings) && now > ZERO_TIME
    requires settings.sites[0].timeout > 2 * settings.sites[0].interval
    requires settings.sslCheckInterval >= 2 * settings.sites[0].interval
    ensures ReachedOnTime(Sends.SetupOf(settings, backend), s) && s.startedAt == now && s.start.states == map[]
    ensures s.workers != [] && s.workers[HTTP_WORKER].phase == Checking(now) && s.now <= now + settings.sites[0].timeout
    ensures !IsStale(settings.sites, s.store.states, s.startedAt, s.now)
    ensures !DocumentedHealthy(settings.sites, SeenOf(s.handled), s.startedAt, s.now)
  {
    hide ReachedOnTime, IsStale, Valid, DocumentedHealthy, Durations.FormatDuration;
    var site := settings.sites[0];
    assert settings.sites == [site] && site in settings.sites;
    s := HangingStart(settings, backend, now);
    OnTimeIsReachable(Sends.SetupOf(settings, backend), s);
    var e := Seen(BlankResult(site.name, SSL), now + 1);
    assert SeenOf(s.handled) == [e];
    assert Counts([site], e) && e in [e];
    assert StaleThreshold([site]) == 2 * site.interval by { OneSiteThreshold(site, settings); }
    SystemHealthy(Sends.SetupOf(settings, backend), s, [site]);
    NoHTTPSeen(site, e, now, s.now);
  }

  lemma OneSiteThreshold(site: Site, settings: Settings)
    requires Valid(settings) && settings.sites == [site]
    ensures StaleThreshold([site]) == 2 * site.interval
  {
    assert site in settings.sites && [site][..0] == [];
  }

  lemma NoHTTPSeen(site: Site, e: Seen, started: Time, now: Time)
    requires e.r.check != HTTP && now - started > StaleThreshold([site])
    ensures !DocumentedHealthy([site], [e], started, now)
  {
  }

  /**
   Worker HTTP is in its first check since `began`, the certificate's timer is due at `ssl`, and all else is at
   rest.
   */
  predicate Hanging(s: State, began: Time, ssl: Time) {
    && s.consumer == Idle && s.channel == [] && s.cancelledAt == None && s.raised == [] && s.dispatched == 0
    && |s.workers| == 2 && s.workers[HTTP_WORKER].phase == Checking(began) && s.workers[SSL_WORKER].phase == Parked(ssl)
    && s.startedAt == began && s.start == EMPTY_STORE
  }

  /** A start whose first HTTP check is due at once, and whose first certificate check a moment later. */
  lemma BootAt(c: Setup, site: string, now: Time) returns (s: State)
    requires ValidSetup(c) && TwoWorkers(c, site) && c.jobs[SSL_WORKER].interval > 1 && now > ZERO_TIME
    ensures ReachedOnTime(c, s) && s.now == s.startedAt == now && s.start == EMPTY_STORE
    ensures s.consumer == Idle && s.channel == [] && s.cancelledAt == None && s.raised == [] && s.dispatched == 0
    ensures s.handled == []
    ensures |s.workers| == 2 && s.workers[HTTP_WORKER].phase == Parked(now)
    ensures s.workers[SSL_WORKER].phase == Parked(now + 1)
  {
    hide ReachedOnTime;
    assert FirstDelay(c.jobs[HTTP_WORKER].interval, 0) == 0 && FirstDelay(c.jobs[SSL_WORKER].interval, 1) == 1;
    hide FirstDelay;
    s := Boot(c, now, [0, 1]);
    BootIsInit(c, now, [0, 1]);
    BootIsOnTime(c, s);
  }

  lemma BeginAndHang(c: Setup, site: string, now: Time) returns (s: State)
    requires ValidSetup(c) && TwoWorkers(c, site) && c.jobs[SSL_WORKER].interval > 1 && now > ZERO_TIME
    ensures ReachedOnTime(c, s) && Hanging(s, now, now + 1) && s.now == now + 1 && s.handled == []
  {
    hide ReachedOnTime;
    s := BootAt(c, site, now);
    var begun := Apply(c, s, WorkerWakes(HTTP_WORKER));
    OnTimeStep(c, s, WorkerWakes(HTTP_WORKER));
    s := Apply(c, begun, TimePasses(1));
    OnTimeStep(c, begun, TimePasses(1));
  }

  lemma CertificateChecked(c: Setup, s: State, site: string, began: Time) returns (t: State)
    requires ReachedOnTime(c, s) && TwoWorkers(c, site) && Hanging(s, began, s.now) && s.handled == []
    ensures ReachedOnTime(c, t) && Hanging(t, began, s.now + c.jobs[SSL_WORKER].interval) && t.now == s.now
    ensures |t.handled| == 1 && t.handled[0].seen == Seen(BlankResult(site, SSL), s.now)
  {
    hide ReachedOnTime, DecisionNow, NewState, PrevState;
    var r := BlankResult(site, SSL);
    var held := Deliver(c, s, SSL_WORKER, r);
    NoExpiryIsQuiet(c, held, r);
    var decided := DecideNow(c, held, r);
    t := StoreOnly(c, decided);
  }

  lemma HangOn(c: Setup, s: State, began: Time, ssl: Time, d: Duration) returns (t: State)
    requires ReachedOnTime(c, s) && Hanging(s, began, ssl) && d > 0 && s.now + d <= ssl
    ensures ReachedOnTime(c, t) && Hanging(t, began, ssl) && t == s.(now := s.now + d)
  {
    hide ReachedOnTime;
    t := Apply(c, s, TimePasses(d));
    OnTimeStep(c, s, TimePasses(d));
  }

  /** The HTTP check begins at once and hangs; the certificate is checked a moment later; then the threshold passes. */
  lemma HangingStart(settings: Settings, backend: Backend, now: Time) returns (s: State)
    requires OneSite(settings) && now > ZERO_TIME
    requires settings.sites[0].timeout > 2 * settings.sites[0].interval
    requires settings.sslCheckInterval >= 2 * settings.sites[0].interval
    ensures ReachedOnTime(Sends.SetupOf(settings, backend), s) && s.startedAt == now && s.start.states == map[]
    ensures |s.workers| == 2 && s.workers[HTTP_WORKER].phase == Checking(now) && !s.consumer.Decided?
    ensures s.now == now + 1 + 2 * settings.sites[0].interval <= now + settings.sites[0].timeout
    ensures |s.handled| == 1 && s.handled[0].seen == Seen(BlankResult(settings.sites[0].name, SSL), now + 1)
  {
    hide ReachedOnTime;
    var c, site := Sends.SetupOf(settings, backend), settings.sites[0];
    assert site in settings.sites;
    TwoJobs(settings, backend);
    hide Valid, Sends.SetupOf;
    s := BeginAndHang(c, site.name, now);
    s := CertificateChecked(c, s, site.name, now);
    s := HangOn(c, s, now, now + 1 + settings.sslCheckInterval, 2 * site.interval);
  }

  lemma BootIsOnTime(c: Setup, s: State)
    requires Init(c, s)
    ensures ReachedOnTime(c, s)
  {
    assert IsRun(c, [s], []);
    assert [s][|[s]| - 1] == s;
  }

  /** A certificate result without an expiry raises nothing. */
  lemma NoExpiryIsQuiet(c: Setup, s: State, r: CheckResult)
    requires r.check == SSL && !r.certUntrusted && !r.certSelfSigned && r.certNotAfter == ZERO_TIME
    ensures DecisionNow(c, s, r) == []
  {
  }
}
