/**
 Bands that are alerted twice, in runs of validated configurations in which nothing is late. The
 first alert has then no record yet, or none at all because nobody receives it; or its send has
 failed; or its record has left the window. `CausesOfRepeats` shows that there are no other causes.
 */
module RepeatedAlerts {
  import opened Types
  import opened MemoryStore
  import opened Backends
  import opened Config
  import opened Alerting
  import opened Dispatching
  import opened System
  import opened SystemLog
  import opened Deduplication
  import opened PunctualRuns
  import Sends

  // ---- no other causes ----

  /** Where a send of the first alert stood when the second was decided. */
  predicate LeftNothing(c: Setup, s: State, j: nat, k: nat)
    requires j < |s.loggedBy| && LogIndex(s, j) < |s.store.alerts| && k < |s.raised|
  {
    var rec, a := s.store.alerts[LogIndex(s, j)], s.raised[k].a;
    || !LoggedBefore(s, j, k)
    || (rec.status == Failed && (a.alert.alertType == SSLExpiring || a.alert.alertType == DomainExpiring))
    || !NotBefore(c.backend, rec.sentAt, a.alert.at - Window(a.alert.alertType))
  }

  /**
   When a key is alerted twice, each record of the first alert was made only after the second was
   decided, or says that the send failed (for the expiry alerts), or was outside the window by then.
   */
  lemma CausesOfRepeats(c: Setup, s: State, i: nat, k: nat, j: nat)
    requires Reachable(c, s) && i < k < |s.raised| && j < |s.loggedBy| && FromAlert(s, j, i)
    requires SameKey(s.raised[i].a, s.raised[k].a) && Deduplicated(s.raised[i].a.alert.alertType)
    ensures LogIndex(s, j) < |s.store.alerts| && LeftNothing(c, s, j, k)
  {
    hide DecisionInv, DueOn, Silenced, NotBefore, Window, Reachable, Silences;
    LogReachable(c, s);
    assert RecordOK(s, j);
    RecordStatus(s, j);
    EveryAlertVisited(c, s, k);
    hide LogInv;
    var a, rec := s.raised[k].a, s.store.alerts[LogIndex(s, j)];
    if LoggedBefore(s, j, k) && NotBefore(c.backend, rec.sentAt, a.alert.at - Window(a.alert.alertType)) {
      var log := s.store.alerts[..s.handled[s.raised[k].cause].logLen];
      assert log[LogIndex(s, j)] == rec;
      if Silences(rec, a) {
        UnsilencedIsQuiet(c.backend, log, a, rec);
      } else {
        SameKeySilences(s, j, i, k);
      }
    }
  }

  lemma RecordStatus(s: State, j: nat)
    requires j < |s.loggedBy| == |s.store.alerts| - |s.start.alerts| && RecordOK(s, j)
    ensures s.store.alerts[LogIndex(s, j)].status == Sent || s.store.alerts[LogIndex(s, j)].status == Failed
  {
  }

  // ---- certificates ----

  /** A trusted certificate that is in a band. */
  predicate InBand(r: CheckResult, warnDays: seq<int>) {
    && r.check == SSL && !r.certUntrusted && !r.certSelfSigned && r.certNotAfter != ZERO_TIME
    && CurrentThresholdBand(r.daysUntilCertExpiry, warnDays) != 0
  }

  /** Two results of one certificate in one band. */
  predicate SameBand(r: CheckResult, other: CheckResult, warnDays: seq<int>) {
    && InBand(r, warnDays) && InBand(other, warnDays) && r.siteName == other.siteName
    && r.certSerial == other.certSerial
    && CurrentThresholdBand(r.daysUntilCertExpiry, warnDays)
        == CurrentThresholdBand(other.daysUntilCertExpiry, warnDays)
  }

  function DueFor(r: CheckResult, warnDays: seq<int>, now: Time): AlertWithMeta {
    var band := CurrentThresholdBand(r.daysUntilCertExpiry, warnDays);
    AlertWithMeta(Alert(r.siteName, SSLExpiring, SeverityOf(band), NoDetails, now), band, r.certSerial)
  }

  lemma DecidesExactly(c: Setup, s: State, r: CheckResult, warnDays: seq<int>)
    requires InBand(r, warnDays) && c.thresholds.sslWarnDays == warnDays
    ensures var a := DueFor(r, warnDays, s.now);
            DecisionNow(c, s, r) == if Silenced(c.backend, s.store.alerts, a) then [] else [a]
  {
    hide CurrentThresholdBand, DecideAlerts, Silenced;
    RaisedExactly(c.backend, c.thresholds, PrevState(s.store.states, r.siteName, s.now), NO_CACHE, s.store.alerts, r,
        s.now);
  }

  /** The configurations and certificates of this module. */
  predicate Case(settings: Settings, r: CheckResult) {
    OneSite(settings) && r.siteName == settings.sites[0].name && InBand(r, settings.sslWarnDays)
  }

  /** The first check of the certificate, at the start, raises its alert. */
  lemma FirstAlertOf(settings: Settings, backend: Backend, r: CheckResult, now: Time) returns (s: State, http: Time)
    requires Case(settings, r) && now > ZERO_TIME
    ensures var c := Sends.SetupOf(settings, backend);
            && ReachedOnTime(c, s) && TwoWorkers(c, r.siteName)
            && AtRest(s, r.siteName, http, now + settings.sslCheckInterval)
            && c.jobs[SSL_WORKER].interval == settings.sslCheckInterval
            && s.now == now && s.store.alerts == [] && s.store.nextID == 0 && s.start == EMPTY_STORE && s.loggedBy == []
            && s.raised == [Raised(DueFor(r, settings.sslWarnDays, now), 0)] && |s.handled| == 1
            && s.senders == Starting(RecipientsOf(c, SSLExpiring), 0, now)
  {
    hide ReachedOnTime, CurrentThresholdBand, Valid, RecipientsOf, DecisionNow;
    var c, site := Sends.SetupOf(settings, backend), settings.sites[0].name;
    TwoJobs(settings, backend);
    s := Start(settings, backend, now);
    http := now;
    DecidesExactly(c, s, r, settings.sslWarnDays);
    s := AlertRound(c, s, site, SSL_WORKER, r, now, now, DueFor(r, settings.sslWarnDays, now));
  }

  /** A later check of the certificate, at its time, raises the alert again. */
  lemma AlertAgain(c: Setup, s: State, first: CheckResult, r: CheckResult, warnDays: seq<int>, http: Time, ssl: Time)
    returns (t: State)
    requires ReachedOnTime(c, s) && TwoWorkers(c, r.siteName) && AtRest(s, r.siteName, http, ssl) && s.now == ssl
    requires SameBand(first, r, warnDays) && c.thresholds.sslWarnDays == warnDays
    requires |s.raised| == 1 && IsAlert(s.raised[0].a, r.siteName, SSLExpiring)
    requires KeyOf(s.raised[0].a) == KeyOf(DueFor(first, warnDays, s.raised[0].a.alert.at))
    requires !Silenced(c.backend, s.store.alerts, DueFor(r, warnDays, s.now))
    ensures ReachedOnTime(c, t) && t.now == s.now && t.start == s.start && t.loggedBy == s.loggedBy
    ensures s.senders <= t.senders && t.store.alerts == s.store.alerts
    ensures |t.raised| == 2 && t.raised[0] == s.raised[0] && t.raised[1].a.alert.at == s.now
    ensures t.raised[1].cause < |t.handled| && t.handled[t.raised[1].cause].logLen == |s.store.alerts|
    ensures !DistinctKeys(t, r.siteName, SSLExpiring)
  {
    hide ReachedOnTime, CurrentThresholdBand, DecisionNow, Silenced, RecipientsOf;
    DecidesExactly(c, s, r, warnDays);
    t := AlertRound(c, s, r.siteName, SSL_WORKER, r, http, ssl, DueFor(r, warnDays, s.now));
    assert IsAlert(t.raised[1].a, r.siteName, SSLExpiring) && KeyOf(t.raised[0].a) == KeyOf(t.raised[1].a);
  }

  // ---- no record ----

  /**
   No record: as long as the first alert's sends have made none, be it that they are still under
   way or that nobody receives the alert, the next check of the certificate raises it again.
   */
  lemma RepeatBeforeRecord(settings: Settings, backend: Backend, r: CheckResult, next: CheckResult, now: Time)
      returns (s: State)
    requires Case(settings, r) && SameBand(r, next, settings.sslWarnDays) && now > ZERO_TIME
    ensures ReachedOnTime(Sends.SetupOf(settings, backend), s) && s.store.alerts == []
    ensures |s.raised| == 2 && s.raised[0].a.alert.at == now
    ensures s.raised[1].a.alert.at == now + settings.sslCheckInterval
    ensures !DistinctKeys(s, r.siteName, SSLExpiring)
  {
    hide ReachedOnTime, CurrentThresholdBand, Valid, RecipientsOf;
    var c, http := Sends.SetupOf(settings, backend), now;
    s, http := FirstAlertOf(settings, backend, r, now);
    s, http := Advance(c, s, r.siteName, http, now + settings.sslCheckInterval, now + settings.sslCheckInterval);
    s := AlertAgain(c, s, r, next, settings.sslWarnDays, http, now + settings.sslCheckInterval);
  }

  // ---- a failed send ----

  /** The configuration sends expiry alerts of certificates to one notifier. */
  predicate OneRecipient(settings: Settings) {
    |NotifiersFor(settings.routing, TypeName(SSLExpiring))| == 1
  }

  lemma OneSend(settings: Settings, backend: Backend)
    requires Valid(settings) && OneRecipient(settings)
    ensures |RecipientsOf(Sends.SetupOf(settings, backend), SSLExpiring)| == 1
  {
    hide TypeName;
    RoutingIsTotal(settings, SSLExpiring);
    NobodySkipped(Buildable(settings.notifiers), NotifiersFor(settings.routing, TypeName(SSLExpiring)));
  }

  /** The only send of the only alert. */
  predicate OnlySend(s: State, phase: SendPhase, calls: seq<bool>, since: Time) {
    && |s.senders| == 1 && s.senders[0].phase == phase && s.senders[0].calls == calls && s.senders[0].since == since
    && s.senders[0].alert == 0 && |s.raised| == 1 && s.loggedBy == [] && s.store.alerts == []
  }

  /** A step of the only send that makes no record. */
  lemma SendMoves(c: Setup, s: State, a: Action) returns (t: State)
    requires ReachedOnTime(c, s) && Enabled(c, s, a) && (a.NotifyReturns? || a.RetryStarts?)
    ensures ReachedOnTime(c, t) && t == Apply(c, s, a)
  {
    hide ReachedOnTime;
    t := Apply(c, s, a);
    OnTimeStep(c, s, a);
  }

  /** The record of the only send. */
  lemma RecordNow(c: Setup, s: State, site: string, http: Time, ssl: Time, status: SendStatus, calls: seq<bool>)
    returns (t: State)
    requires ReachedOnTime(c, s) && AtRest(s, site, http, ssl) && OnlySend(s, Finished(status), calls, s.now)
    requires status != Unset
    ensures ReachedOnTime(c, t) && AtRest(t, site, http, ssl) && t.now == s.now
    ensures t.raised == s.raised && t.handled == s.handled && t.start == s.start && t.startedAt == s.startedAt
    ensures t.loggedBy == [0] && |t.senders| == 1 && t.senders[0].alert == 0
    ensures |t.store.alerts| == 1
    ensures var rec := t.store.alerts[0];
            rec.sentAt == s.now && rec.status == status && rec.siteName == s.raised[0].a.alert.siteName
            && rec.alertType == s.raised[0].a.alert.alertType
            && rec.threshold == s.raised[0].a.threshold && rec.certSerial == s.raised[0].a.certSerial
  {
    hide ReachedOnTime, NotDown;
    var m := Apply(c, s, SendIsStamped(0));
    OnTimeStep(c, s, SendIsStamped(0));
    t := Apply(c, m, SendIsLogged(0));
    OnTimeStep(c, m, SendIsLogged(0));
  }

  /** Both calls fail, with the wait between them, while the HTTP checks go on. */
  lemma SendFails(c: Setup, s: State, site: string, http: Time, ssl: Time) returns (t: State, next: Time)
    requires ReachedOnTime(c, s) && TwoWorkers(c, site) && AtRest(s, site, http, ssl)
    requires OnlySend(s, Calling, [], s.now) && s.now + RETRY_DELAY <= ssl
    ensures ReachedOnTime(c, t) && AtRest(t, site, next, ssl) && t.now == s.now + RETRY_DELAY
    ensures OnlySend(t, Finished(Failed), [false, false], t.now)
    ensures t.raised == s.raised && t.start == s.start && t.startedAt == s.startedAt && s.handled <= t.handled
  {
    hide ReachedOnTime, NotDown;
    t := SendMoves(c, s, NotifyReturns(0, false));
    t, next := Advance(c, t, site, http, ssl, s.now + RETRY_DELAY);
    t := SendMoves(c, t, RetryStarts(0));
    t := SendMoves(c, t, NotifyReturns(0, false));
    assert [] + [false] == [false] && [false] + [false] == [false, false];
  }

  /**
   A failed send: with the first alert's only send tried twice and recorded as failed, well inside
   the window, the next check of the certificate raises the alert again.
   */
  lemma RepeatAfterFailure(settings: Settings, backend: Backend, r: CheckResult, next: CheckResult, now: Time)
    returns (s: State)
    requires Case(settings, r) && SameBand(r, next, settings.sslWarnDays) && now > ZERO_TIME
    requires OneRecipient(settings) && settings.sslCheckInterval >= RETRY_DELAY
    ensures ReachedOnTime(Sends.SetupOf(settings, backend), s)
    ensures |s.raised| == 2 && s.raised[0].a.alert.at == now
    ensures s.raised[1].a.alert.at == now + settings.sslCheckInterval
    ensures |s.store.alerts| == 1 && s.store.alerts[0].status == Failed && s.store.alerts[0].sentAt == now + RETRY_DELAY
    ensures |s.loggedBy| == 1 && FromAlert(s, 0, 0) && LoggedBefore(s, 0, 1)
    ensures !DistinctKeys(s, r.siteName, SSLExpiring)
  {
    hide ReachedOnTime, CurrentThresholdBand, Valid, RecipientsOf, NotBefore;
    var c, ssl := Sends.SetupOf(settings, backend), now + settings.sslCheckInterval;
    OneSend(settings, backend);
    var http;
    s, http := FirstAlertOf(settings, backend, r, now);
    s, http := SendFails(c, s, r.siteName, http, ssl);
    s := RecordNow(c, s, r.siteName, http, ssl, Failed, [false, false]);
    s, http := Advance(c, s, r.siteName, http, ssl, ssl);
    s := AlertAgain(c, s, r, next, settings.sslWarnDays, http, ssl);
  }

  // ---- a record outside the window ----

  /** Whether the store finds the record of an alert at `now` when the certificate is checked n intervals later. */
  predicate FindsAt(backend: Backend, now: Time, interval: Duration, n: nat) {
    NotBefore(backend, now, now + n * interval - SSL_WINDOW)
  }

  /** The state before check n: one alert, sent and recorded at `first`. */
  predicate Recorded1(s: State, r: CheckResult, warnDays: seq<int>, first: Time) {
    && |s.raised| == 1 && s.raised[0].a == DueFor(r, warnDays, first)
    && s.loggedBy == [0] && |s.senders| == 1 && s.senders[0].alert == 0 && s.start == EMPTY_STORE
    && |s.store.alerts| == 1
    && var rec := s.store.alerts[0];
    && rec.sentAt == first && rec.status == Sent && rec.siteName == r.siteName && rec.alertType == SSLExpiring
    && rec.threshold == s.raised[0].a.threshold && rec.certSerial == r.certSerial
  }

  /** The one record silences a later check of the band exactly as long as the store finds it. */
  lemma SilencedWhileFound(c: Setup, s: State, first: CheckResult, r: CheckResult, warnDays: seq<int>, at: Time, n: nat,
                           interval: Duration)
    requires Recorded1(s, first, warnDays, at) && SameBand(first, r, warnDays) && s.now == at + n * interval
    ensures Silenced(c.backend, s.store.alerts, DueFor(r, warnDays, s.now)) <==> FindsAt(c.backend, at, interval, n)
  {
    hide CurrentThresholdBand, NotBefore;
    assert s.store.alerts[0] in s.store.alerts;
    assert s.store.alerts == [s.store.alerts[0]];
  }

  /** Check n and the later ones, silenced as long as the store finds the record; results[n] is what check n brings. */
  lemma {:induction false} ChecksUntilLost(c: Setup, s: State, results: seq<CheckResult>, warnDays: seq<int>,
      first: Time, n: nat,
                                           http: Time)
    returns (t: State, k: nat)
    requires ReachedOnTime(c, s) && 0 < n < |results| && results[0].siteName != "" && TwoWorkers(c, results[0].siteName)
    requires c.thresholds.sslWarnDays == warnDays && forall r | r in results :: SameBand(results[0], r, warnDays)
    requires AtRest(s, results[0].siteName, http, first + n * c.jobs[SSL_WORKER].interval)
    requires Recorded1(s, results[0], warnDays, first)
    requires !FindsAt(c.backend, first, c.jobs[SSL_WORKER].interval, |results| - 1)
    requires forall m | 0 < m < n :: FindsAt(c.backend, first, c.jobs[SSL_WORKER].interval, m)
    ensures ReachedOnTime(c, t) && 0 < k < |results|
    ensures !FindsAt(c.backend, first, c.jobs[SSL_WORKER].interval, k)
    ensures forall m | 0 < m < k :: FindsAt(c.backend, first, c.jobs[SSL_WORKER].interval, m)
    ensures |t.raised| == 2 && t.raised[0].a.alert.at == first
    ensures t.raised[1].a.alert.at == first + k * c.jobs[SSL_WORKER].interval
    ensures t.raised[1].cause < |t.handled| && SentByThen(t, 0, t.raised[1].cause)
    ensures !DistinctKeys(t, results[0].siteName, SSLExpiring)
    decreases |results| - n
  {
    hide ReachedOnTime, CurrentThresholdBand, NotBefore, FindsAt, NotDown, Silenced, DecisionNow;
    var site, interval := results[0].siteName, c.jobs[SSL_WORKER].interval;
    var due := first + n * interval;
    var m, h := Advance(c, s, site, http, due, due);
    assert results[n] in results;
    SilencedWhileFound(c, m, results[0], results[n], warnDays, first, n, interval);
    if FindsAt(c.backend, first, interval, n) {
      DecidesExactly(c, m, results[n], warnDays);
      var q := QuietRound(c, m, site, SSL_WORKER, results[n], h, due);
      assert due + interval == first + (n + 1) * interval;
      t, k := ChecksUntilLost(c, q, results, warnDays, first, n + 1, h);
    } else {
      k := n;
      t := AlertAgain(c, m, results[0], results[n], warnDays, h, due);
      assert FromAlert(t, 0, 0);
    }
  }

  /**
   A record outside the window: with the alert sent and recorded at once and the certificate
   checked on time and staying in its band, check after check is silenced up to the first one at
   which the store does not find the record any more, and that one raises the alert again. So it is
   for every certificate and check interval as soon as the band lasts longer than the window:
   `results[n]` is what check n brings, and the last one is beyond the window.
   */
  lemma RepeatAfterWindow(settings: Settings, backend: Backend, results: seq<CheckResult>, now: Time)
      returns (s: State, k: nat)
    requires |results| > 1 && Case(settings, results[0]) && OneRecipient(settings) && now > ZERO_TIME
    requires forall r | r in results :: SameBand(results[0], r, settings.sslWarnDays)
    requires (|results| - 1) * settings.sslCheckInterval > SSL_WINDOW + Tolerance(backend)
    requires Comparable(backend, now)
    requires Comparable(backend, now + (|results| - 1) * settings.sslCheckInterval - SSL_WINDOW)
    ensures ReachedOnTime(Sends.SetupOf(settings, backend), s) && 0 < k < |results|
    ensures !FindsAt(backend, now, settings.sslCheckInterval, k)
    ensures forall m | 0 < m < k :: FindsAt(backend, now, settings.sslCheckInterval, m)
    ensures |s.raised| == 2 && s.raised[0].a.alert.at == now
    ensures s.raised[1].a.alert.at == now + k * settings.sslCheckInterval
    ensures s.raised[1].cause < |s.handled| && SentByThen(s, 0, s.raised[1].cause)
    ensures !DistinctKeys(s, results[0].siteName, SSLExpiring)
  {
    hide ReachedOnTime, CurrentThresholdBand, Valid, RecipientsOf, NotBefore, Timestamps.InRange;
    var c, ssl, site := Sends.SetupOf(settings, backend), now + settings.sslCheckInterval, results[0].siteName;
    OneSend(settings, backend);
    var http;
    s, http := FirstAlertOf(settings, backend, results[0], now);
    s := SendMoves(c, s, NotifyReturns(0, true));
    s := RecordNow(c, s, site, http, ssl, Sent, s.senders[0].calls);
    ComparedRightly(backend, now, now + (|results| - 1) * settings.sslCheckInterval - SSL_WINDOW);
    assert settings.sites[0] in settings.sites;
    s, k := ChecksUntilLost(c, s, results, settings.sslWarnDays, now, 1, http);
  }
}
