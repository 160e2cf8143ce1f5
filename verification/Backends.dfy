/** The alert log query as the engine sees it, on either of the two stores. */
module Backends {
  import opened Types
  import opened Text
  import opened Timestamps
  import opened MemoryStore
  import opened SQLiteStore

  datatype Backend = InMemory | OnSQLite

  /** How the store compares a record's time with the cutoff. */
  predicate NotBefore(backend: Backend, sentAt: Time, since: Time) {
    match backend
    case InMemory => sentAt >= since
    case OnSQLite => !Less(FormatTS(sentAt), FormatTS(since))
  }

  function RecentOn(backend: Backend, alerts: seq<AlertRecord>, siteName: string, alertType: AlertType, since: Time)
    : (r: seq<AlertRecord>)
    ensures forall a :: a in r <==>
              a in alerts && a.siteName == siteName && a.alertType == alertType && NotBefore(backend, a.sentAt, since)
  {
    match backend
    case InMemory => Recent(alerts, siteName, alertType, since)
    case OnSQLite => TextRecent(alerts, siteName, alertType, since)
  }

  /** How far two instants must be apart for the store to be sure of their order. */
  function Tolerance(backend: Backend): Duration {
    match backend
    case InMemory => 0
    case OnSQLite => SECOND
  }

  /**
   The store can tell this instant from others: any instant in memory, RFC 3339 years after the zero time on
   SQLite.
   */
  predicate Comparable(backend: Backend, t: Time) {
    backend.OnSQLite? ==> InRange(t) && t != ZERO_TIME
  }

  /** Beyond the tolerance both stores compare as time does. */
  lemma ComparedRightly(backend: Backend, sentAt: Time, since: Time)
    requires Comparable(backend, sentAt) && Comparable(backend, since)
    ensures sentAt >= since + Tolerance(backend) ==> NotBefore(backend, sentAt, since)
    ensures sentAt + Tolerance(backend) <= since && sentAt != since ==> !NotBefore(backend, sentAt, since)
  {
    hide FormatTS, InRange;
    if backend.OnSQLite? && (sentAt >= since + SECOND || sentAt + SECOND <= since) {
      SecondsOrder(sentAt, since);
      SecondsOrder(since, sentAt);
      LessIsTotal(FormatTS(sentAt), FormatTS(since));
    }
  }
}
