/**
 The entities that flow between the parts of the monitor: check results, stored
 site states, alert records and cached domain lookups.

 A Time is an integer count of nanoseconds since 0001-01-01T00:00:00Z, so that the
 number 0 is Go's zero time.Time and `IsZero` is a comparison with 0.
 */
module Types {
  type Time = int
  type Duration = int

  const ZERO_TIME: Time := 0
  const MILLISECOND: Duration := 1_000_000
  const SECOND: Duration := 1_000_000_000
  const MINUTE: Duration := 60 * SECOND
  const HOUR: Duration := 60 * MINUTE
  const DAY: Duration := 24 * HOUR

  datatype Option<+T> = None | Some(value: T)

  datatype CheckType = HTTP | SSL | Domain | OtherCheck

  /** The up/down status of a site. `Blank` is the empty string of a row that was never written. */
  datatype Status = Blank | Up | Down | Unknown

  /** One result of one check; the fields a check does not use keep their zero values. */
  datatype CheckResult = CheckResult(
    siteName: string,
    check: CheckType,
    status: Status,
    certNotAfter: Time,
    certSerial: string,
    certSelfSigned: bool,
    certUntrusted: bool,
    daysUntilCertExpiry: int,
    domainExpiry: Time,
    daysUntilDomainExpiry: int,
    domainLookupOK: bool,
    error: string)

  /** A result of the given check whose other fields are zero. */
  function BlankResult(siteName: string, check: CheckType): CheckResult {
    CheckResult(siteName, check, Blank, ZERO_TIME, "", false, false, 0, ZERO_TIME, 0, false, "")
  }

  datatype SiteState = SiteState(
    siteName: string,
    status: Status,
    lastCheckAt: Time,
    lastStatusChangeAt: Time,
    consecutiveFailures: int,
    lastError: string)

  const NO_STATE := SiteState("", Blank, ZERO_TIME, ZERO_TIME, 0, "")

  datatype AlertType =
    | DownAlert
    | RecoveredAlert
    | SSLExpiring
    | DomainExpiring
    | SSLUntrusted
    | DegradedMonitor

  /** What the log says of a send; `Unset` is the empty string a caller may leave there. */
  datatype SendStatus = Unset | Sent | Failed

  datatype AlertRecord = AlertRecord(
    id: int,
    siteName: string,
    alertType: AlertType,
    threshold: int,
    certSerial: string,
    sentAt: Time,
    notifier: string,
    status: SendStatus)

  datatype DomainCache = DomainCache(
    siteName: string,
    expiresAt: Time,
    lastLookupAt: Time,
    lastOkAt: Time,
    source: string,
    error: string)

  const NO_CACHE := DomainCache("", ZERO_TIME, ZERO_TIME, ZERO_TIME, "", "")

  datatype Severity = Info | Warning | Critical

  /** The details of an alert that say something about the site's history. */
  datatype Details =
    | NoDetails
    | DownDetails(error: string, consecutiveFailures: int)
    | RecoveredDetails(downtime: string)

  datatype Alert = Alert(siteName: string, alertType: AlertType, severity: Severity, details: Details, at: Time)

  /** An alert with the two fields its log record is deduplicated on. */
  datatype AlertWithMeta = AlertWithMeta(alert: Alert, threshold: int, certSerial: string)
}
