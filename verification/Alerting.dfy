/**
 The alerting engine: what one check result does to a site's state and which alert it raises.
 The decisions are functions of what the engine reads; the class `Engine` reads the store,
 loops over the records it finds, and is proved to compute those functions.
 */
module Alerting {
  import opened Types
  import opened MemoryStore
  import opened Backends
  import opened Sorting
  import opened Durations
  import opened Timestamps
  import SQLiteStore

  const UNTRUSTED_WINDOW: Duration := 7 * DAY
  const DEGRADED_WINDOW: Duration := 7 * DAY
  const DEGRADED_AFTER: Duration := 3 * DAY
  const SSL_WINDOW: Duration := 90 * DAY
  const DOMAIN_WINDOW: Duration := 365 * DAY

  /** The state a result is compared with: a missing row is a site of unknown status. */
  function PrevState(states: map<string, SiteState>, siteName: string, now: Time): SiteState {
    var stored := StateOf(states, siteName);
    if stored.siteName == "" then
      stored.(siteName := siteName, status := Unknown, lastStatusChangeAt := now)
    else stored
  }

  function DecideHTTP(prev: SiteState, r: CheckResult, now: Time): (SiteState, seq<AlertWithMeta>) {
    var ns := prev.(lastCheckAt := now, lastError := r.error);
    if r.status == Up then
      var up := ns.(consecutiveFailures := 0, status := Up, lastError := "");
      if prev.status == Down then
        var downtime := FormatDuration(now - prev.lastStatusChangeAt);
        (up.(lastStatusChangeAt := now),
         [AlertWithMeta(Alert(r.siteName, RecoveredAlert, Info, RecoveredDetails(downtime), now), 0, "")])
      else if prev.status != Up then (up.(lastStatusChangeAt := now), [])
      else (up, [])
    else
      var failed := ns.(consecutiveFailures := prev.consecutiveFailures + 1);
      if prev.status == Down then (failed, [])
      else
        var down := failed.(status := Down, lastStatusChangeAt := now);
        if prev.status == Unknown || prev.status == Blank then (down, [])
        else
          (down,
           [AlertWithMeta(Alert(r.siteName, DownAlert, Critical,
                                DownDetails(r.error, down.consecutiveFailures), now), 0, "")])
  }

  /** The state that is stored after a result; it does not depend on the alert log. */
  function NewState(prev: SiteState, r: CheckResult, now: Time): SiteState {
    match r.check
    case HTTP => DecideHTTP(prev, r, now).0
    case SSL => prev.(lastCheckAt := now)
    case Domain => prev.(lastCheckAt := now)
    case OtherCheck => prev
  }

  /** The smallest threshold at or above daysLeft, or 0 when daysLeft is above all of them. */
  function CurrentThresholdBand(daysLeft: int, thresholds: seq<int>): (band: int)
    ensures (forall t | t in thresholds :: t < daysLeft) ==> band == 0
    ensures (exists t | t in thresholds :: daysLeft <= t) ==>
              band in thresholds && daysLeft <= band && forall t | t in thresholds && daysLeft <= t :: band <= t
  {
    if thresholds == [] then 0
    else
      var t, rest := thresholds[0], CurrentThresholdBand(daysLeft, thresholds[1..]);
      assert thresholds == [t] + thresholds[1..];
      assert t in thresholds && forall u | u in thresholds[1..] :: u in thresholds;
      if t < daysLeft then rest
      else if exists u | u in thresholds[1..] :: daysLeft <= u && u < t then rest
      else t
  }

  function SeverityOf(threshold: int): Severity {
    if threshold <= 7 then Critical else Warning
  }

  predicate SentAlready(recent: seq<AlertRecord>, threshold: int, certSerial: string) {
    exists a | a in recent :: a.threshold == threshold && a.certSerial == certSerial && a.status == Sent
  }

  function DecideSSL(backend: Backend, warnDays: seq<int>, log: seq<AlertRecord>, r: CheckResult, now: Time)
    : seq<AlertWithMeta>
  {
    if r.certUntrusted || r.certSelfSigned then
      if RecentOn(backend, log, r.siteName, SSLUntrusted, now - UNTRUSTED_WINDOW) == [] then
        [AlertWithMeta(Alert(r.siteName, SSLUntrusted, Warning, NoDetails, now), 0, r.certSerial)]
      else []
    else if r.certNotAfter == ZERO_TIME then []
    else
      var threshold := CurrentThresholdBand(r.daysUntilCertExpiry, warnDays);
      if threshold == 0 then []
      else
        var recent := RecentOn(backend, log, r.siteName, SSLExpiring, now - SSL_WINDOW);
        var alert := Alert(r.siteName, SSLExpiring, SeverityOf(threshold), NoDetails, now);
        if SentAlready(recent, threshold, r.certSerial) then [] else [AlertWithMeta(alert, threshold, r.certSerial)]
  }

  /** The dedup key of a registration: its expiry to the second. */
  function ExpiryKey(expiry: Time): string {
    FormatSeconds(expiry)
  }

  function DecideDomain(backend: Backend, warnDays: seq<int>, cache: DomainCache, log: seq<AlertRecord>,
                        r: CheckResult, now: Time)
    : seq<AlertWithMeta>
  {
    if !r.domainLookupOK then
      if cache.lastOkAt == ZERO_TIME || now - cache.lastOkAt <= DEGRADED_AFTER then []
      else if RecentOn(backend, log, r.siteName, DegradedMonitor, now - DEGRADED_WINDOW) != [] then []
      else [AlertWithMeta(Alert(r.siteName, DegradedMonitor, Warning, NoDetails, now), 0, "")]
    else if r.domainExpiry == ZERO_TIME then []
    else
      var threshold := CurrentThresholdBand(r.daysUntilDomainExpiry, warnDays);
      if threshold == 0 then []
      else
        var key := ExpiryKey(r.domainExpiry);
        if SentAlready(RecentOn(backend, log, r.siteName, DomainExpiring, now - DOMAIN_WINDOW), threshold, key) then []
        else [AlertWithMeta(Alert(r.siteName, DomainExpiring, SeverityOf(threshold), NoDetails, now), threshold, key)]
  }

  datatype Thresholds = Thresholds(sslWarnDays: seq<int>, domainWarnDays: seq<int>)

  function DecideAlerts(backend: Backend, thresholds: Thresholds, prev: SiteState, cache: DomainCache,
                        log: seq<AlertRecord>, r: CheckResult, now: Time): seq<AlertWithMeta>
  {
    match r.check
    case HTTP => DecideHTTP(prev, r, now).1
    case SSL => DecideSSL(backend, thresholds.sslWarnDays, log, r, now)
    case Domain => DecideDomain(backend, thresholds.domainWarnDays, cache, log, r, now)
    case OtherCheck => []
  }

  // ---- deduplication, in one form for the four alert types that have it ----

  predicate Deduplicated(t: AlertType) {
    t == SSLExpiring || t == DomainExpiring || t == SSLUntrusted || t == DegradedMonitor
  }

  function Window(t: AlertType): Duration {
    match t
    case SSLExpiring => SSL_WINDOW
    case DomainExpiring => DOMAIN_WINDOW
    case SSLUntrusted => UNTRUSTED_WINDOW
    case DegradedMonitor => DEGRADED_WINDOW
    case _ => 0
  }

  /** The two expiry alerts are keyed by threshold and serial; the other two by site alone. */
  predicate SameKey(a: AlertWithMeta, b: AlertWithMeta) {
    && a.alert.siteName == b.alert.siteName && a.alert.alertType == b.alert.alertType
    && (a.alert.alertType == SSLExpiring || a.alert.alertType == DomainExpiring ==>
          a.threshold == b.threshold && a.certSerial == b.certSerial)
  }

  /** A record that silences an alert while it is young: sent, or for the site-wide two merely attempted. */
  predicate Silences(rec: AlertRecord, a: AlertWithMeta) {
    && rec.siteName == a.alert.siteName && rec.alertType == a.alert.alertType
    && (a.alert.alertType == SSLExpiring || a.alert.alertType == DomainExpiring ==>
          rec.threshold == a.threshold && rec.certSerial == a.certSerial && rec.status == Sent)
  }

  /** The alert that an SSL or domain result calls for, whatever has been sent before. */
  function DueAlert(thresholds: Thresholds, cache: DomainCache, r: CheckResult, now: Time): Option<AlertWithMeta> {
    if r.check == SSL && (r.certUntrusted || r.certSelfSigned) then
      Some(AlertWithMeta(Alert(r.siteName, SSLUntrusted, Warning, NoDetails, now), 0, r.certSerial))
    else if r.check == SSL && r.certNotAfter != ZERO_TIME then
      DueExpiry(r.siteName, SSLExpiring, CurrentThresholdBand(r.daysUntilCertExpiry, thresholds.sslWarnDays),
          r.certSerial, now)
    else if r.check == Domain && r.domainLookupOK && r.domainExpiry != ZERO_TIME then
      DueExpiry(r.siteName, DomainExpiring, CurrentThresholdBand(r.daysUntilDomainExpiry, thresholds.domainWarnDays),
                ExpiryKey(r.domainExpiry), now)
    else if r.check == Domain && !r.domainLookupOK && cache.lastOkAt != ZERO_TIME
        && now > cache.lastOkAt + DEGRADED_AFTER then
      Some(AlertWithMeta(Alert(r.siteName, DegradedMonitor, Warning, NoDetails, now), 0, ""))
    else None
  }

  function DueExpiry(siteName: string, alertType: AlertType, band: int, key: string, now: Time): Option<AlertWithMeta> {
    if band == 0 then None
    else Some(AlertWithMeta(Alert(siteName, alertType, SeverityOf(band), NoDetails, now), band, key))
  }

  /** A record in the window of an alert silences it. */
  predicate Silenced(backend: Backend, log: seq<AlertRecord>, a: AlertWithMeta) {
    exists rec | rec in log :: Silences(rec, a)
        && NotBefore(backend, rec.sentAt, a.alert.at - Window(a.alert.alertType))
  }

  lemma QueriesAnswer(backend: Backend, log: seq<AlertRecord>, a: AlertWithMeta)
    requires Deduplicated(a.alert.alertType)
    ensures var recent := RecentOn(backend, log, a.alert.siteName, a.alert.alertType,
              a.alert.at - Window(a.alert.alertType));
            Silenced(backend, log, a) <==>
              if a.alert.alertType == SSLExpiring || a.alert.alertType == DomainExpiring
              then SentAlready(recent, a.threshold, a.certSerial)
              else recent != []
  {
    hide NotBefore, RecentOn, Window;
    var recent := RecentOn(backend, log, a.alert.siteName, a.alert.alertType, a.alert.at - Window(a.alert.alertType));
    if recent != [] {
      assert recent[0] in recent;
    }
    if Silenced(backend, log, a) {
      var rec :| rec in log && Silences(rec, a)
          && NotBefore(backend, rec.sentAt, a.alert.at - Window(a.alert.alertType));
      assert rec in recent;
    }
  }

  /**
   An SSL or domain result raises the alert it calls for exactly when no record in the window silences it, and no
   other.
   */
  lemma RaisedExactly(backend: Backend, thresholds: Thresholds, prev: SiteState, cache: DomainCache,
                      log: seq<AlertRecord>, r: CheckResult, now: Time)
    requires r.check == SSL || r.check == Domain
    ensures var due := DueAlert(thresholds, cache, r, now);
            DecideAlerts(backend, thresholds, prev, cache, log, r, now)
            == if due.None? || Silenced(backend, log, due.value) then [] else [due.value]
  {
    hide CurrentThresholdBand, ExpiryKey, RecentOn, NotBefore, SentAlready, Silenced;
    var due := DueAlert(thresholds, cache, r, now);
    if due.Some? {
      QueriesAnswer(backend, log, due.value);
    }
  }

  /** A due alert has a deduplicated type, and its result is of a check whose decision is exact. */
  lemma DueShape(thresholds: Thresholds, cache: DomainCache, r: CheckResult, now: Time)
    ensures var due := DueAlert(thresholds, cache, r, now);
            due.Some? ==> (r.check == SSL || r.check == Domain) && Deduplicated(due.value.alert.alertType)
                          && due.value.alert.siteName == r.siteName && due.value.alert.at == now
  {
    hide CurrentThresholdBand, ExpiryKey;
  }

  /** A result of the up/down machine raises none of the four types. */
  lemma OthersRaiseNone(backend: Backend, thresholds: Thresholds, prev: SiteState, cache: DomainCache,
                        log: seq<AlertRecord>, r: CheckResult, now: Time)
    requires r.check != SSL && r.check != Domain
    ensures forall a | a in DecideAlerts(backend, thresholds, prev, cache, log, r, now) ::
              a.alert.at == now && a.alert.siteName == r.siteName && !Deduplicated(a.alert.alertType)
  {
    hide FormatDuration;
  }

  lemma UnsilencedIsQuiet(backend: Backend, log: seq<AlertRecord>, a: AlertWithMeta, rec: AlertRecord)
    requires !Silenced(backend, log, a) && rec in log && Silences(rec, a)
    ensures !NotBefore(backend, rec.sentAt, a.alert.at - Window(a.alert.alertType))
  {
    hide NotBefore, Window, Silences;
  }

  /** An alert is raised only when no record that silences it is inside the window. */
  lemma RaisedOnlyIfQuiet(backend: Backend, thresholds: Thresholds, prev: SiteState, cache: DomainCache,
                          log: seq<AlertRecord>, r: CheckResult, now: Time)
    ensures forall a | a in DecideAlerts(backend, thresholds, prev, cache, log, r, now) ::
              && a.alert.at == now && a.alert.siteName == r.siteName
              && (Deduplicated(a.alert.alertType) ==>
                    forall rec | rec in log && Silences(rec, a) ::
                        !NotBefore(backend, rec.sentAt, now - Window(a.alert.alertType)))
  {
    hide *;
    if r.check == SSL || r.check == Domain {
      RaisedExactly(backend, thresholds, prev, cache, log, r, now);
      DueShape(thresholds, cache, r, now);
      forall a, rec | a in DecideAlerts(backend, thresholds, prev, cache, log, r, now) && rec in log && Silences(rec, a)
        ensures !NotBefore(backend, rec.sentAt, now - Window(a.alert.alertType))
      {
        UnsilencedIsQuiet(backend, log, a, rec);
      }
    } else {
      OthersRaiseNone(backend, thresholds, prev, cache, log, r, now);
    }
  }

  /** On SQLite a record that silences a raised alert is before the window, or misjudged within the cutoff's second. */
  lemma QuietOnSQLite(thresholds: Thresholds, prev: SiteState, cache: DomainCache, log: seq<AlertRecord>,
                      r: CheckResult, now: Time, a: AlertWithMeta, rec: AlertRecord)
    requires a in DecideAlerts(OnSQLite, thresholds, prev, cache, log, r, now) && Deduplicated(a.alert.alertType)
    requires rec in log && Silences(rec, a) && InRange(rec.sentAt) && InRange(now - Window(a.alert.alertType))
    ensures rec.sentAt < now - Window(a.alert.alertType)
            || SQLiteStore.Misjudged(rec, r.siteName, a.alert.alertType, now - Window(a.alert.alertType))
  {
    hide DecideAlerts, SQLiteStore.Misjudged, InRange, FormatTS;
    RaisedOnlyIfQuiet(OnSQLite, thresholds, prev, cache, log, r, now);
    SQLiteStore.MisjudgedExactly(rec, r.siteName, a.alert.alertType, now - Window(a.alert.alertType));
  }

  /** An alert whose send has left no record is raised again by the next result of the same band. */
  lemma UnrecordedAlertRepeats(thresholds: Thresholds, prev: SiteState, cache: DomainCache, log: seq<AlertRecord>,
                               r: CheckResult, now: Time, later: Time)
    requires r.check == SSL && now <= later
    ensures var due := DueAlert(thresholds, cache, r, now);
            due.Some? && DecideAlerts(InMemory, thresholds, prev, cache, log, r, now) == [due.value] ==>
              DecideAlerts(InMemory, thresholds, prev, cache, log, r, later)
                  == [due.value.(alert := due.value.alert.(at := later))]
  {
    hide CurrentThresholdBand, ExpiryKey, RecentOn, SentAlready;
    RaisedExactly(InMemory, thresholds, prev, cache, log, r, now);
    RaisedExactly(InMemory, thresholds, prev, cache, log, r, later);
  }

  /** With fewer days left the band is at most as large: bands of one expiry only shrink. */
  lemma BandsShrink(days: int, fewer: int, thresholds: seq<int>)
    requires fewer <= days
    requires CurrentThresholdBand(days, thresholds) != 0
    requires forall t | t in thresholds :: t > 0
    ensures CurrentThresholdBand(fewer, thresholds) != 0
    ensures CurrentThresholdBand(fewer, thresholds) <= CurrentThresholdBand(days, thresholds)
  {
  }

  // ---- the engine over a store ----

  datatype Outcome = Outcome(newState: SiteState, alerts: seq<AlertWithMeta>)

  predicate AtMost(a: int, b: int) {
    a <= b
  }

  /** The first of the sorted thresholds that the days have reached is the band. */
  lemma FirstReached(daysLeft: int, thresholds: seq<int>, sorted: seq<int>, i: nat)
    requires SortedBy(sorted, AtMost) && forall t :: t in sorted <==> t in thresholds
    requires i < |sorted| && daysLeft <= sorted[i] && forall j | 0 <= j < i :: sorted[j] < daysLeft
    ensures CurrentThresholdBand(daysLeft, thresholds) == sorted[i]
  {
    hide CurrentThresholdBand;
    assert sorted[i] in thresholds;
    var band := CurrentThresholdBand(daysLeft, thresholds);
    assert band in sorted;
    var k :| 0 <= k < |sorted| && sorted[k] == band;
    assert k > i ==> AtMost(sorted[i], sorted[k]);
  }

  /** Sorts a copy of the thresholds and scans it for the first one that daysLeft has reached. */
  method ScanThresholds(daysLeft: int, thresholds: seq<int>) returns (band: int)
    ensures band == CurrentThresholdBand(daysLeft, thresholds)
  {
    if |thresholds| == 0 {
      return 0;
    }
    var sorted := Sort(thresholds, AtMost);
    forall t ensures t in sorted <==> t in thresholds {
      assert t in multiset(sorted) <==> t in multiset(thresholds);
    }
    for i := 0 to |sorted|
      invariant forall j | 0 <= j < i :: sorted[j] < daysLeft
    {
      if daysLeft <= sorted[i] {
        FirstReached(daysLeft, thresholds, sorted, i);
        return sorted[i];
      }
    }
    return 0;
  }

  class Engine {
    const store: Memory
    const sslWarnDays: seq<int>
    const domainWarnDays: seq<int>

    constructor (store: Memory, sslWarnDays: seq<int>, domainWarnDays: seq<int>)
      ensures this.store == store && this.sslWarnDays == sslWarnDays && this.domainWarnDays == domainWarnDays
    {
      this.store, this.sslWarnDays, this.domainWarnDays := store, sslWarnDays, domainWarnDays;
    }

    /** `now` is what the engine's clock shows when the result is taken up. */
    method Process(r: CheckResult, now: Time) returns (out: Outcome)
      ensures var prev := PrevState(store.states, r.siteName, now);
              out.newState == NewState(prev, r, now)
              && out.alerts == DecideAlerts(InMemory, Thresholds(sslWarnDays, domainWarnDays), prev,
                                            CacheOf(store.domains, r.siteName), store.alerts, r, now)
    {
      hide FormatDuration, ExpiryKey, CurrentThresholdBand, Recent;
      var prev, _ := store.GetSiteState(r.siteName);
      if prev.siteName == "" {
        prev := prev.(siteName := r.siteName, status := Unknown, lastStatusChangeAt := now);
      }
      match r.check
      case HTTP =>
        var decided := DecideHTTP(prev, r, now);
        out := Outcome(decided.0, decided.1);
      case SSL =>
        var alerts := ProcessSSL(r, now);
        out := Outcome(prev.(lastCheckAt := now), alerts);
      case Domain =>
        var alerts := ProcessDomain(r, now);
        out := Outcome(prev.(lastCheckAt := now), alerts);
      case OtherCheck =>
        out := Outcome(prev, []);
    }

    /** Looks through the records found for one that was sent with the threshold and serial. */
    method AlreadySent(recent: seq<AlertRecord>, threshold: int, certSerial: string) returns (found: bool)
      ensures found == SentAlready(recent, threshold, certSerial)
    {
      for i := 0 to |recent|
        invariant forall j | 0 <= j < i ::
          !(recent[j].threshold == threshold && recent[j].certSerial == certSerial && recent[j].status == Sent)
      {
        if recent[i].threshold == threshold && recent[i].certSerial == certSerial && recent[i].status == Sent {
          assert recent[i] in recent;
          return true;
        }
      }
      return false;
    }

    method ProcessSSL(r: CheckResult, now: Time) returns (alerts: seq<AlertWithMeta>)
      ensures alerts == DecideSSL(InMemory, sslWarnDays, store.alerts, r, now)
    {
      hide CurrentThresholdBand;
      if r.certUntrusted || r.certSelfSigned {
        var recent := store.FindRecentAlerts(r.siteName, SSLUntrusted, now - UNTRUSTED_WINDOW);
        SameLength(recent, Recent(store.alerts, r.siteName, SSLUntrusted, now - UNTRUSTED_WINDOW));
        if |recent| == 0 {
          return [AlertWithMeta(Alert(r.siteName, SSLUntrusted, Warning, NoDetails, now), 0, r.certSerial)];
        }
        return [];
      }
      if r.certNotAfter == ZERO_TIME {
        return [];
      }
      var threshold := ScanThresholds(r.daysUntilCertExpiry, sslWarnDays);
      if threshold == 0 {
        return [];
      }
      var recent := store.FindRecentAlerts(r.siteName, SSLExpiring, now - SSL_WINDOW);
      SameMembers(recent, Recent(store.alerts, r.siteName, SSLExpiring, now - SSL_WINDOW));
      var sent := AlreadySent(recent, threshold, r.certSerial);
      if sent {
        return [];
      }
      return [AlertWithMeta(Alert(r.siteName, SSLExpiring, SeverityOf(threshold), NoDetails, now), threshold,
          r.certSerial)];
    }

    method ProcessDomain(r: CheckResult, now: Time) returns (alerts: seq<AlertWithMeta>)
      ensures alerts == DecideDomain(InMemory, domainWarnDays, CacheOf(store.domains, r.siteName), store.alerts, r, now)
    {
      hide CurrentThresholdBand, ExpiryKey;
      if !r.domainLookupOK {
        var cache, _ := store.GetDomainCache(r.siteName);
        if cache.lastOkAt == ZERO_TIME || now - cache.lastOkAt <= DEGRADED_AFTER {
          return [];
        }
        var recent := store.FindRecentAlerts(r.siteName, DegradedMonitor, now - DEGRADED_WINDOW);
        SameLength(recent, Recent(store.alerts, r.siteName, DegradedMonitor, now - DEGRADED_WINDOW));
        if |recent| > 0 {
          return [];
        }
        return [AlertWithMeta(Alert(r.siteName, DegradedMonitor, Warning, NoDetails, now), 0, "")];
      }
      if r.domainExpiry == ZERO_TIME {
        return [];
      }
      var threshold := ScanThresholds(r.daysUntilDomainExpiry, domainWarnDays);
      if threshold == 0 {
        return [];
      }
      var key := ExpiryKey(r.domainExpiry);
      var recent := store.FindRecentAlerts(r.siteName, DomainExpiring, now - DOMAIN_WINDOW);
      SameMembers(recent, Recent(store.alerts, r.siteName, DomainExpiring, now - DOMAIN_WINDOW));
      var sent := AlreadySent(recent, threshold, key);
      if sent {
        return [];
      }
      return [AlertWithMeta(Alert(r.siteName, DomainExpiring, SeverityOf(threshold), NoDetails, now), threshold, key)];
    }
  }

  lemma SameLength(out: seq<AlertRecord>, r: seq<AlertRecord>)
    requires multiset(out) == multiset(r)
    ensures |out| == |r|
  {
    assert |multiset(out)| == |out| && |multiset(r)| == |r|;
  }
}
