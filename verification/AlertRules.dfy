/**
 The rules by which certificate and registration results raise alerts, each in one statement with
 its numbers written out: the windows, the grace before degraded monitoring, and the severity.
 */
module AlertRules {
  import opened Types
  import opened Timestamps
  import opened MemoryStore
  import opened Backends
  import opened Alerting

  /** A number of days in nanoseconds. */
  function Days(n: nat): Duration {
    n * 24 * 60 * 60 * 1_000_000_000
  }

  /** A record that the store finds in the last `days` days. */
  predicate FoundWithin(backend: Backend, log: seq<AlertRecord>, rec: AlertRecord, siteName: string,
                        alertType: AlertType, now: Time, days: nat)
  {
    && rec in log && rec.siteName == siteName && rec.alertType == alertType
    && NotBefore(backend, rec.sentAt, now - Days(days))
  }

  /** Whether the log holds a sent record of the site, type, threshold and key of the last `days` days. */
  predicate SentWithin(backend: Backend, log: seq<AlertRecord>, siteName: string, alertType: AlertType, threshold: int,
                       key: string, now: Time, days: nat)
  {
    exists rec | rec in log ::
      && FoundWithin(backend, log, rec, siteName, alertType, now, days)
      && rec.threshold == threshold && rec.certSerial == key && rec.status == Sent
  }

  /** Whether the log holds any record of the site and type of the last `days` days. */
  predicate AnyWithin(backend: Backend, log: seq<AlertRecord>, siteName: string, alertType: AlertType, now: Time,
                      days: nat)
  {
    exists rec | rec in log :: FoundWithin(backend, log, rec, siteName, alertType, now, days)
  }

  /** The two ways in which the engine searches a log, said of its records. */
  lemma Searches(backend: Backend, log: seq<AlertRecord>, siteName: string, alertType: AlertType, threshold: int,
                 key: string, now: Time, days: nat)
    ensures var recent := RecentOn(backend, log, siteName, alertType, now - Days(days));
            && (SentAlready(recent, threshold, key)
                <==> SentWithin(backend, log, siteName, alertType, threshold, key, now, days))
            && (recent != [] <==> AnyWithin(backend, log, siteName, alertType, now, days))
  {
    hide NotBefore, RecentOn, Days;
    var recent := RecentOn(backend, log, siteName, alertType, now - Days(days));
    if recent != [] {
      assert recent[0] in recent;
    }
  }

  /** ssl_expiring: a trusted certificate in a band, unless that was sent for its serial within 90 days. */
  lemma SSLExpiringExactly(backend: Backend, thresholds: Thresholds, prev: SiteState, cache: DomainCache,
                           log: seq<AlertRecord>, r: CheckResult, now: Time)
    requires r.check == SSL && !r.certUntrusted && !r.certSelfSigned
    ensures var band := CurrentThresholdBand(r.daysUntilCertExpiry, thresholds.sslWarnDays);
            DecideAlerts(backend, thresholds, prev, cache, log, r, now)
            == if r.certNotAfter == 0 || band == 0
                  || SentWithin(backend, log, r.siteName, SSLExpiring, band, r.certSerial, now, 90)
               then []
               else
                 var severity := if band <= 7 then Critical else Warning;
                 [AlertWithMeta(Alert(r.siteName, SSLExpiring, severity, NoDetails, now), band, r.certSerial)]
  {
    hide CurrentThresholdBand, RecentOn, SentAlready, SentWithin;
    Searches(backend, log, r.siteName, SSLExpiring,
             CurrentThresholdBand(r.daysUntilCertExpiry, thresholds.sslWarnDays), r.certSerial, now, 90);
  }

  /** ssl_untrusted: an untrusted or self-signed certificate, unless any such record is from within 7 days. */
  lemma SSLUntrustedExactly(backend: Backend, thresholds: Thresholds, prev: SiteState, cache: DomainCache,
                            log: seq<AlertRecord>, r: CheckResult, now: Time)
    requires r.check == SSL && (r.certUntrusted || r.certSelfSigned)
    ensures DecideAlerts(backend, thresholds, prev, cache, log, r, now)
            == if AnyWithin(backend, log, r.siteName, SSLUntrusted, now, 7) then []
               else [AlertWithMeta(Alert(r.siteName, SSLUntrusted, Warning, NoDetails, now), 0, r.certSerial)]
  {
    hide RecentOn, SentAlready, AnyWithin;
    Searches(backend, log, r.siteName, SSLUntrusted, 0, "", now, 7);
  }

  /** domain_expiring: a registration in a band, unless that was sent for its expiry, to the second, within 365 days. */
  lemma DomainExpiringExactly(backend: Backend, thresholds: Thresholds, prev: SiteState, cache: DomainCache,
                              log: seq<AlertRecord>, r: CheckResult, now: Time)
    requires r.check == Domain && r.domainLookupOK
    ensures var band := CurrentThresholdBand(r.daysUntilDomainExpiry, thresholds.domainWarnDays);
            var key := FormatSeconds(r.domainExpiry);
            DecideAlerts(backend, thresholds, prev, cache, log, r, now)
            == if r.domainExpiry == 0 || band == 0
                  || SentWithin(backend, log, r.siteName, DomainExpiring, band, key, now, 365)
               then []
               else
                 var severity := if band <= 7 then Critical else Warning;
                 [AlertWithMeta(Alert(r.siteName, DomainExpiring, severity, NoDetails, now), band, key)]
  {
    hide CurrentThresholdBand, RecentOn, SentAlready, SentWithin, FormatSeconds;
    Searches(backend, log, r.siteName, DomainExpiring,
             CurrentThresholdBand(r.daysUntilDomainExpiry, thresholds.domainWarnDays), FormatSeconds(r.domainExpiry),
             now, 365);
  }

  /**
   degraded_monitoring: a failed lookup more than 3 days after the last success, unless any record is from within
   7 days.
   */
  lemma DegradedExactly(backend: Backend, thresholds: Thresholds, prev: SiteState, cache: DomainCache,
                        log: seq<AlertRecord>, r: CheckResult, now: Time)
    requires r.check == Domain && !r.domainLookupOK
    ensures DecideAlerts(backend, thresholds, prev, cache, log, r, now)
            == if cache.lastOkAt == 0 || now - cache.lastOkAt <= Days(3)
                  || AnyWithin(backend, log, r.siteName, DegradedMonitor, now, 7)
               then []
               else [AlertWithMeta(Alert(r.siteName, DegradedMonitor, Warning, NoDetails, now), 0, "")]
  {
    hide RecentOn, SentAlready, AnyWithin;
    Searches(backend, log, r.siteName, DegradedMonitor, 0, "", now, 7);
  }

  /** In memory: a sent record in the last 90 days prevents the alert; with none of them that recent it is raised. */
  lemma NinetyDays(thresholds: Thresholds, prev: SiteState, cache: DomainCache, log: seq<AlertRecord>, r: CheckResult,
                   now: Time)
    requires r.check == SSL && !r.certUntrusted && !r.certSelfSigned && r.certNotAfter != 0
    requires CurrentThresholdBand(r.daysUntilCertExpiry, thresholds.sslWarnDays) != 0
    ensures var band := CurrentThresholdBand(r.daysUntilCertExpiry, thresholds.sslWarnDays);
            DecideAlerts(InMemory, thresholds, prev, cache, log, r, now) == []
            <==> exists rec | rec in log ::
                   && rec.siteName == r.siteName && rec.alertType == SSLExpiring && rec.threshold == band
                   && rec.certSerial == r.certSerial && rec.status == Sent
                   && rec.sentAt >= now - 90 * 86_400_000_000_000
  {
    hide CurrentThresholdBand, DecideAlerts;
    SSLExpiringExactly(InMemory, thresholds, prev, cache, log, r, now);
  }

  /** The dedup key of a registration is its expiry, read back to the second. */
  lemma ExpiryKeyReadsBack(expiry: Time)
    requires InRange(expiry)
    ensures ParseTS(ExpiryKey(expiry)) == expiry - expiry % 1_000_000_000
  {
    hide FormatSeconds, ParseTS, InRange;
    OlderEntries(expiry);
  }
}
