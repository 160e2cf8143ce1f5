/** What deduplication guarantees in every reachable state, under every interleaving with the senders. */
module Deduplication {
  import opened Types
  import opened Backends
  import opened Alerting
  import opened Config
  import opened System
  import opened SystemLog

  /** Log record j (counted from the start of the run) came from a send of raised alert i. */
  predicate FromAlert(s: State, j: nat, i: nat)
    requires j < |s.loggedBy|
  {
    s.loggedBy[j] < |s.senders| && s.senders[s.loggedBy[j]].alert == i
  }

  /** Where log record j of this run stands in the store's log. */
  function LogIndex(s: State, j: nat): nat {
    |s.start.alerts| + j
  }

  /** Record j was in the log when raised alert i was decided. */
  predicate LoggedBefore(s: State, j: nat, i: nat)
    requires i < |s.raised|
  {
    s.raised[i].cause < |s.handled| && LogIndex(s, j) < s.handled[s.raised[i].cause].logLen
  }

  lemma RaisedClock(c: Setup, s: State, i: nat)
    requires DecisionInv(c, s) && i < |s.raised|
    ensures var q := s.raised[i].cause;
            && q < |s.handled| && s.handled[q].logLen <= |s.store.alerts|
            && s.raised[i].a in DecisionOn(c, s.store.alerts, s.handled[q])
            && s.raised[i].a.alert.at == s.handled[q].seen.now
            && s.raised[i].a.alert.siteName == s.handled[q].seen.r.siteName
  {
    hide DecideAlerts;
    assert RaisedOK(c, s, i);
    var q := s.raised[i].cause;
    assert HandledOK(c, s, q);
    var h := s.handled[q];
    var alerts := DecisionOn(c, s.store.alerts, h);
    assert s.raised[h.from + (i - h.from)] == Raised(alerts[i - h.from], q);
    RaisedOnlyIfQuiet(c.backend, c.thresholds, h.prev, h.cache, s.store.alerts[..h.logLen], h.seen.r, h.seen.now);
  }

  /** Alerts are raised in clock order. */
  lemma RaisedInOrder(c: Setup, s: State, i: nat, k: nat)
    requires DecisionInv(c, s) && i <= k < |s.raised|
    ensures s.raised[i].a.alert.at <= s.raised[k].a.alert.at
    ensures s.raised[i].cause <= s.raised[k].cause
  {
    hide DecideAlerts;
    RaisedClock(c, s, i);
    RaisedClock(c, s, k);
    var p, q := s.raised[i].cause, s.raised[k].cause;
    assert RaisedOK(c, s, i) && RaisedOK(c, s, k);
    if q < p {
      assert HandledOK(c, s, p) && HandledOK(c, s, q);
      CausesSeparate(c, s, q, p);
    }
  }

  /** The alerts of an earlier handled result end where those of a later one begin, at the latest. */
  lemma CausesSeparate(c: Setup, s: State, p: nat, q: nat)
    requires DecisionInv(c, s) && p < q < |s.handled|
    ensures HandledOK(c, s, p) && HandledOK(c, s, q)
    ensures DecisionOn(c, s.store.alerts, s.handled[q]) != [] ==>
              s.handled[p].from + |DecisionOn(c, s.store.alerts, s.handled[p])| <= s.handled[q].from
  {
    hide DecideAlerts;
    assert HandledOK(c, s, p) && HandledOK(c, s, q);
    var h, g := s.handled[p], s.handled[q];
    var early, late := DecisionOn(c, s.store.alerts, h), DecisionOn(c, s.store.alerts, g);
    var k := g.from - h.from;
    assert 0 <= k < |early| ==> s.raised[h.from + k] == Raised(early[k], p);
    assert late != [] ==> s.raised[g.from + 0] == Raised(late[0], q);
  }

  /** What the store needs to compare the times of its log: nothing in memory, comparable instants on SQLite. */
  predicate LogComparable(c: Setup, s: State) {
    forall rec | rec in s.store.alerts :: Comparable(c.backend, rec.sentAt)
  }

  /**
   Dedup safety. Of two alerts of one key whose times are within the window of their type (on
   SQLite, up to a second), no send of the first had left a silencing record when the second was
   decided: for the two expiry alerts none had been recorded "sent", for the other two none had
   been recorded at all.
   */
  lemma DedupSafety(c: Setup, s: State, i: nat, k: nat, j: nat)
    requires Reachable(c, s) && i < k < |s.raised|
    requires SameKey(s.raised[i].a, s.raised[k].a) && Deduplicated(s.raised[i].a.alert.alertType)
    requires s.raised[k].a.alert.at + Tolerance(c.backend)
             <= s.raised[i].a.alert.at + Window(s.raised[i].a.alert.alertType)
    requires LogComparable(c, s)
    requires Comparable(c.backend, s.raised[k].a.alert.at - Window(s.raised[k].a.alert.alertType))
    requires j < |s.loggedBy| && FromAlert(s, j, i)
    ensures s.raised[i].a.alert.at <= s.raised[k].a.alert.at
    ensures LogIndex(s, j) < |s.store.alerts|
    ensures LoggedBefore(s, j, k) ==>
              && s.store.alerts[LogIndex(s, j)].status != Sent
              && (s.raised[k].a.alert.alertType == SSLExpiring || s.raised[k].a.alert.alertType == DomainExpiring)
  {
    hide DecideAlerts, NotBefore, Comparable, Silences, DecisionInv, Reachable;
    LogReachable(c, s);
    RaisedInOrder(c, s, i, k);
    RaisedClock(c, s, k);
    assert RecordOK(s, j);
    hide LogInv;
    if LoggedBefore(s, j, k) {
      EarlierRecordIsQuiet(c, s, LogIndex(s, j), k);
      SameKeySilences(s, j, i, k);
    }
  }

  /**
   A record in the log of the decision, and inside the window by more than the tolerance, does not silence the
   alert.
   */
  lemma EarlierRecordIsQuiet(c: Setup, s: State, n: nat, k: nat)
    requires DecisionInv(c, s) && k < |s.raised| && Deduplicated(s.raised[k].a.alert.alertType)
    requires s.raised[k].cause < |s.handled| && n < s.handled[s.raised[k].cause].logLen <= |s.store.alerts|
    requires LogComparable(c, s)
    requires Comparable(c.backend, s.raised[k].a.alert.at - Window(s.raised[k].a.alert.alertType))
    requires s.raised[k].a.alert.at - Window(s.raised[k].a.alert.alertType) + Tolerance(c.backend)
             <= s.store.alerts[n].sentAt
    ensures !Silences(s.store.alerts[n], s.raised[k].a)
  {
    hide DecisionInv, DueOn, Silenced, Comparable, NotBefore, Silences, Window, Tolerance;
    EveryAlertVisited(c, s, k);
    var a, rec := s.raised[k].a, s.store.alerts[n];
    var log := s.store.alerts[..s.handled[s.raised[k].cause].logLen];
    assert log[n] == rec;
    ComparedRightly(c.backend, rec.sentAt, a.alert.at - Window(a.alert.alertType));
    if Silences(rec, a) {
      UnsilencedIsQuiet(c.backend, log, a, rec);
    }
  }

  /** A record of an alert silences every alert of its key, if it was sent or the type is site-wide. */
  lemma SameKeySilences(s: State, j: nat, i: nat, k: nat)
    requires j < |s.loggedBy| == |s.store.alerts| - |s.start.alerts| && RecordOK(s, j) && FromAlert(s, j, i)
    requires i < |s.raised| && k < |s.raised| && SameKey(s.raised[i].a, s.raised[k].a)
    requires !Silences(s.store.alerts[LogIndex(s, j)], s.raised[k].a)
    ensures s.store.alerts[LogIndex(s, j)].status != Sent
    ensures s.raised[k].a.alert.alertType == SSLExpiring || s.raised[k].a.alert.alertType == DomainExpiring
  {
  }

  // ---- exactly one alert per band ----

  datatype Key = Key(threshold: int, certSerial: string)

  /** What alerts of one site and type are told apart by; nothing for the two site-wide types. */
  function KeyOf(a: AlertWithMeta): Key {
    if a.alert.alertType == SSLExpiring || a.alert.alertType == DomainExpiring then Key(a.threshold, a.certSerial)
    else Key(0, "")
  }

  predicate IsAlert(a: AlertWithMeta, site: string, t: AlertType) {
    a.alert.alertType == t && a.alert.siteName == site
  }

  /** The alert that a handled result calls for, whatever has been sent before. */
  function DueOn(c: Setup, h: Handled): Option<AlertWithMeta> {
    DueAlert(c.thresholds, h.cache, h.seen.r, h.seen.now)
  }

  /** A handled result that calls for an alert of the site and type, such as a trusted certificate in a band. */
  predicate Visit(c: Setup, h: Handled, site: string, t: AlertType) {
    DueOn(c, h).Some? && IsAlert(DueOn(c, h).value, site, t)
  }

  function VisitKey(c: Setup, h: Handled): Key
    requires DueOn(c, h).Some?
  {
    KeyOf(DueOn(c, h).value)
  }

  /** The log, when handled result q was decided, held a record in the window that silences the alert it calls for. */
  predicate SilencedAt(c: Setup, s: State, q: nat)
    requires q < |s.handled| && DueOn(c, s.handled[q]).Some?
  {
    var h := s.handled[q];
    h.logLen <= |s.store.alerts| && Silenced(c.backend, s.store.alerts[..h.logLen], DueOn(c, h).value)
  }

  /** A visit for which nothing silences the alert. */
  predicate FreshVisit(c: Setup, s: State, q: nat, site: string, t: AlertType) {
    q < |s.handled| && Visit(c, s.handled[q], site, t) && !SilencedAt(c, s, q)
  }

  /** A result without a due alert raises none of the deduplicated types. */
  lemma NothingDue(c: Setup, prev: SiteState, cache: DomainCache, log: seq<AlertRecord>, r: CheckResult, now: Time)
    requires DueAlert(c.thresholds, cache, r, now).None?
    ensures forall a | a in DecideAlerts(c.backend, c.thresholds, prev, cache, log, r, now) ::
              !Deduplicated(a.alert.alertType)
  {
    hide *;
    if r.check == SSL || r.check == Domain {
      RaisedExactly(c.backend, c.thresholds, prev, cache, log, r, now);
    } else {
      OthersRaiseNone(c.backend, c.thresholds, prev, cache, log, r, now);
    }
  }

  /** What a handled result raised: the alert it calls for unless that is silenced, and no other of the four types. */
  lemma DecisionIs(c: Setup, s: State, q: nat)
    requires DecisionInv(c, s) && q < |s.handled|
    ensures HandledOK(c, s, q)
    ensures var alerts, due := DecisionOn(c, s.store.alerts, s.handled[q]), DueOn(c, s.handled[q]);
            && (due.Some? ==> alerts == if SilencedAt(c, s, q) then [] else [due.value])
            && (due.None? ==> forall a | a in alerts :: !Deduplicated(a.alert.alertType))
  {
    hide DecideAlerts, DueAlert, Silenced;
    assert HandledOK(c, s, q);
    var h := s.handled[q];
    var log := s.store.alerts[..h.logLen];
    DueShape(c.thresholds, h.cache, h.seen.r, h.seen.now);
    if DueOn(c, h).Some? {
      RaisedExactly(c.backend, c.thresholds, h.prev, h.cache, log, h.seen.r, h.seen.now);
    } else {
      NothingDue(c, h.prev, h.cache, log, h.seen.r, h.seen.now);
    }
  }

  /** Every alert was raised by a fresh visit with its key. */
  lemma EveryAlertVisited(c: Setup, s: State, i: nat)
    requires DecisionInv(c, s) && i < |s.raised| && Deduplicated(s.raised[i].a.alert.alertType)
    ensures var a, q := s.raised[i].a, s.raised[i].cause;
            && FreshVisit(c, s, q, a.alert.siteName, a.alert.alertType)
            && DueOn(c, s.handled[q]) == Some(a) && s.handled[q].logLen <= |s.store.alerts|
            && |DecisionOn(c, s.store.alerts, s.handled[q])| == 1
            && a.alert.at == s.handled[q].seen.now
  {
    hide DecideAlerts, DueAlert, SilencedAt;
    RaisedClock(c, s, i);
    DecisionIs(c, s, s.raised[i].cause);
  }

  /** Every fresh visit has raised its alert. */
  lemma FreshVisitAlerted(c: Setup, s: State, q: nat, site: string, t: AlertType)
    requires DecisionInv(c, s) && FreshVisit(c, s, q, site, t)
    ensures exists i | 0 <= i < |s.raised| :: s.raised[i] == Raised(DueOn(c, s.handled[q]).value, q)
  {
    hide DecideAlerts, DueAlert, SilencedAt;
    DecisionIs(c, s, q);
    var h := s.handled[q];
    var alerts := DecisionOn(c, s.store.alerts, h);
    assert s.raised[h.from + 0] == Raised(alerts[0], q);
  }

  /** No two alerts of the site and type have one key. */
  predicate DistinctKeys(s: State, site: string, t: AlertType) {
    forall i, k | 0 <= i < k < |s.raised| && IsAlert(s.raised[i].a, site, t) && IsAlert(s.raised[k].a, site, t) ::
      KeyOf(s.raised[i].a) != KeyOf(s.raised[k].a)
  }

  /** Handled result q visits again, after alert i, the key of that alert. */
  predicate VisitedAgain(c: Setup, s: State, i: nat, q: nat, site: string, t: AlertType) {
    && i < |s.raised| && q < |s.handled| && IsAlert(s.raised[i].a, site, t) && s.raised[i].cause < q
    && Visit(c, s.handled[q], site, t) && VisitKey(c, s.handled[q]) == KeyOf(s.raised[i].a)
  }

  /** Whenever a key that has been alerted is visited again, the log holds a record that silences it. */
  ghost predicate AlwaysSilenced(c: Setup, s: State, site: string, t: AlertType) {
    forall i: nat, q: nat | VisitedAgain(c, s, i, q, site, t) :: SilencedAt(c, s, q)
  }

  /** One result raises at most one alert, so alerts with one key come from different results, in order. */
  lemma CausesDiffer(c: Setup, s: State, i: nat, k: nat)
    requires DecisionInv(c, s) && i < k < |s.raised|
    requires Deduplicated(s.raised[i].a.alert.alertType) && Deduplicated(s.raised[k].a.alert.alertType)
    ensures s.raised[i].cause < s.raised[k].cause
  {
    hide DecideAlerts, DueAlert;
    EveryAlertVisited(c, s, i);
    EveryAlertVisited(c, s, k);
    RaisedInOrder(c, s, i, k);
    assert RaisedOK(c, s, i) && RaisedOK(c, s, k);
  }

  /** The second of two alerts with one key was raised by a visit, after the first, that nothing silences. */
  lemma RepeatIsFresh(c: Setup, s: State, i: nat, k: nat, site: string, t: AlertType)
    requires DecisionInv(c, s) && Deduplicated(t) && i < k < |s.raised|
    requires IsAlert(s.raised[i].a, site, t) && IsAlert(s.raised[k].a, site, t)
    requires KeyOf(s.raised[i].a) == KeyOf(s.raised[k].a)
    ensures VisitedAgain(c, s, i, s.raised[k].cause, site, t) && !SilencedAt(c, s, s.raised[k].cause)
  {
    hide DueOn, SilencedAt, DecisionInv;
    CausesDiffer(c, s, i, k);
    EveryAlertVisited(c, s, k);
  }

  /**
   Exactly when no key is alerted twice: whenever the key of an alert is visited again, the log
   that the engine reads holds a record that silences it (for the expiry alerts one that was
   "sent") and that is still in the window.
   */
  lemma NoRepeatExactly(c: Setup, s: State, site: string, t: AlertType)
    requires Reachable(c, s) && Deduplicated(t)
    ensures DistinctKeys(s, site, t) <==> AlwaysSilenced(c, s, site, t)
  {
    hide DueOn, SilencedAt, Reachable;
    LogReachable(c, s);
    hide DecisionInv, LogInv;
    if DistinctKeys(s, site, t) {
      forall i: nat, q: nat | VisitedAgain(c, s, i, q, site, t) ensures SilencedAt(c, s, q) {
        if !SilencedAt(c, s, q) {
          FreshVisitAlerted(c, s, q, site, t);
          assert false;
        }
      }
    }
    if AlwaysSilenced(c, s, site, t) {
      forall i, k | 0 <= i < k < |s.raised| && IsAlert(s.raised[i].a, site, t) && IsAlert(s.raised[k].a, site, t)
        ensures KeyOf(s.raised[i].a) != KeyOf(s.raised[k].a)
      {
        if KeyOf(s.raised[i].a) == KeyOf(s.raised[k].a) {
          RepeatIsFresh(c, s, i, k, site, t);
        }
      }
    }
  }

  ghost function AlertedKeys(s: State, site: string, t: AlertType): set<Key> {
    set i | 0 <= i < |s.raised| && IsAlert(s.raised[i].a, site, t) :: KeyOf(s.raised[i].a)
  }

  ghost function VisitedKeys(c: Setup, s: State, site: string, t: AlertType): set<Key> {
    set q | 0 <= q < |s.handled| && Visit(c, s.handled[q], site, t) :: VisitKey(c, s.handled[q])
  }

  /** Some visit with the key of handled result q finds no silencing record. */
  ghost predicate SomeVisitFresh(c: Setup, s: State, q: nat, site: string, t: AlertType)
    requires q < |s.handled| && Visit(c, s.handled[q], site, t)
  {
    exists p: nat | FreshVisit(c, s, p, site, t) :: VisitKey(c, s.handled[p]) == VisitKey(c, s.handled[q])
  }

  /** The alerted keys are those of the fresh visits. */
  lemma AlertedExactly(c: Setup, s: State, site: string, t: AlertType, key: Key)
    requires DecisionInv(c, s) && Deduplicated(t)
    ensures key in AlertedKeys(s, site, t) <==> exists q: nat | FreshVisit(c, s, q, site, t) ::
              VisitKey(c, s.handled[q]) == key
  {
    hide DueOn, SilencedAt, DecisionInv;
    if key in AlertedKeys(s, site, t) {
      var i :| 0 <= i < |s.raised| && IsAlert(s.raised[i].a, site, t) && KeyOf(s.raised[i].a) == key;
      EveryAlertVisited(c, s, i);
    }
    if q: nat :| FreshVisit(c, s, q, site, t) && VisitKey(c, s.handled[q]) == key {
      FreshVisitAlerted(c, s, q, site, t);
      var i :| 0 <= i < |s.raised| && s.raised[i] == Raised(DueOn(c, s.handled[q]).value, q);
      assert KeyOf(s.raised[i].a) == key;
    }
  }

  /** Every key that was visited has one alert, and no other key has any. */
  ghost predicate OneAlertPerKey(c: Setup, s: State, site: string, t: AlertType) {
    DistinctKeys(s, site, t) && AlertedKeys(s, site, t) == VisitedKeys(c, s, site, t)
  }

  /** The alerted keys are all that were visited exactly when each of these has a fresh visit. */
  lemma AllAlertedExactly(c: Setup, s: State, site: string, t: AlertType)
    requires DecisionInv(c, s) && Deduplicated(t)
    ensures AlertedKeys(s, site, t) == VisitedKeys(c, s, site, t)
       <==> forall q: nat | q < |s.handled| && Visit(c, s.handled[q], site, t) :: SomeVisitFresh(c, s, q, site, t)
  {
    hide DueOn, SilencedAt, DecisionInv;
    var alerted, visited := AlertedKeys(s, site, t), VisitedKeys(c, s, site, t);
    forall key ensures key in alerted ==> key in visited {
      AlertedExactly(c, s, site, t, key);
    }
    forall q: nat | q < |s.handled| && Visit(c, s.handled[q], site, t)
      ensures VisitKey(c, s.handled[q]) in alerted <==> SomeVisitFresh(c, s, q, site, t)
    {
      AlertedExactly(c, s, site, t, VisitKey(c, s.handled[q]));
    }
    if alerted == visited {
      forall q: nat | q < |s.handled| && Visit(c, s.handled[q], site, t) ensures SomeVisitFresh(c, s, q, site, t) {
        assert VisitKey(c, s.handled[q]) in visited;
      }
    }
  }

  /**
   Exactly one alert per band, exactly: the visited keys and the alerts correspond one to one if
   and only if each visited key has a visit that no record silences, and each visit after the
   alert of its key finds a record that does.
   */
  lemma OncePerBandExactly(c: Setup, s: State, site: string, t: AlertType)
    requires Reachable(c, s) && Deduplicated(t)
    ensures OneAlertPerKey(c, s, site, t) <==>
            && AlwaysSilenced(c, s, site, t)
            && forall q: nat | q < |s.handled| && Visit(c, s.handled[q], site, t) :: SomeVisitFresh(c, s, q, site, t)
  {
    LogReachable(c, s);
    NoRepeatExactly(c, s, site, t);
    AllAlertedExactly(c, s, site, t);
    hide *;
  }

  // ---- a case in which it holds: prompt records, and a run no longer than the window ----

  /** A send of raised alert i was in the log as "sent" when handled result q was decided. */
  ghost predicate SentByThen(s: State, i: nat, q: nat)
    requires q < |s.handled|
  {
    exists j | 0 <= j < |s.loggedBy| ::
      && FromAlert(s, j, i) && LogIndex(s, j) < s.handled[q].logLen <= |s.store.alerts|
      && s.store.alerts[LogIndex(s, j)].status == Sent
  }

  /** Each alert was recorded as sent before its key was visited again. */
  ghost predicate Prompt(c: Setup, s: State, site: string, t: AlertType) {
    forall i: nat, q: nat | VisitedAgain(c, s, i, q, site, t) :: SentByThen(s, i, q)
  }

  /** All visits are within one window, and the store can compare its times. */
  predicate WithinWindow(c: Setup, s: State, site: string, t: AlertType) {
    && LogComparable(c, s)
    && forall p, q | 0 <= p < q < |s.handled| && Visit(c, s.handled[p], site, t) && Visit(c, s.handled[q], site, t) ::
         && s.handled[q].seen.now + Tolerance(c.backend) <= s.handled[p].seen.now + Window(t)
         && Comparable(c.backend, s.handled[q].seen.now - Window(t))
  }

  predicate NoEarlierAlerts(s: State, site: string, t: AlertType) {
    forall rec | rec in s.start.alerts :: !(rec.siteName == site && rec.alertType == t)
  }

  /** A sent record of an alert silences every due alert of its key. */
  lemma SentSilencesKey(s: State, j: nat, i: nat, due: AlertWithMeta)
    requires j < |s.loggedBy| == |s.store.alerts| - |s.start.alerts| && RecordOK(s, j) && FromAlert(s, j, i)
    requires i < |s.raised| && s.store.alerts[LogIndex(s, j)].status == Sent
    requires due.alert.siteName == s.raised[i].a.alert.siteName && due.alert.alertType == s.raised[i].a.alert.alertType
    requires KeyOf(due) == KeyOf(s.raised[i].a)
    ensures Silences(s.store.alerts[LogIndex(s, j)], due)
    ensures s.store.alerts[LogIndex(s, j)].sentAt >= s.raised[i].a.alert.at
  {
  }

  /** A sent record of an alert of the key, made within the window, silences the next one. */
  lemma SentRecordSilences(c: Setup, s: State, i: nat, q: nat, site: string, t: AlertType)
    requires LogInv(s) && DecisionInv(c, s) && Deduplicated(t) && VisitedAgain(c, s, i, q, site, t)
    requires SentByThen(s, i, q)
    requires LogComparable(c, s) && Comparable(c.backend, s.handled[q].seen.now - Window(t))
    requires s.handled[q].seen.now + Tolerance(c.backend) <= s.raised[i].a.alert.at + Window(t)
    ensures SilencedAt(c, s, q)
  {
    hide DueAlert, NotBefore, DecisionInv, Silences, KeyOf, Window, Comparable;
    var j :| 0 <= j < |s.loggedBy| && FromAlert(s, j, i) && LogIndex(s, j) < s.handled[q].logLen <= |s.store.alerts|
             && s.store.alerts[LogIndex(s, j)].status == Sent;
    assert RecordOK(s, j);
    var h, rec := s.handled[q], s.store.alerts[LogIndex(s, j)];
    SentSilencesKey(s, j, i, DueOn(c, h).value);
    hide LogInv, RecordOK;
    DueShape(c.thresholds, h.cache, h.seen.r, h.seen.now);
    assert s.store.alerts[..h.logLen][LogIndex(s, j)] == rec;
    ComparedRightly(c.backend, rec.sentAt, h.seen.now - Window(t));
  }

  lemma PromptAt(c: Setup, s: State, i: nat, q: nat, site: string, t: AlertType)
    requires Prompt(c, s, site, t) && VisitedAgain(c, s, i, q, site, t)
    ensures q < |s.handled| && SentByThen(s, i, q)
  {
    hide SentByThen, DueOn;
  }

  lemma WithinAt(c: Setup, s: State, p: nat, q: nat, site: string, t: AlertType)
    requires WithinWindow(c, s, site, t) && p < q < |s.handled|
    requires Visit(c, s.handled[p], site, t) && Visit(c, s.handled[q], site, t)
    ensures s.handled[q].seen.now + Tolerance(c.backend) <= s.handled[p].seen.now + Window(t)
    ensures LogComparable(c, s) && Comparable(c.backend, s.handled[q].seen.now - Window(t))
  {
    hide Visit, Comparable, LogComparable;
  }

  lemma PromptSilences(c: Setup, s: State, i: nat, q: nat, site: string, t: AlertType)
    requires Reachable(c, s) && Deduplicated(t) && Prompt(c, s, site, t) && WithinWindow(c, s, site, t)
    requires VisitedAgain(c, s, i, q, site, t)
    ensures q < |s.handled| && DueOn(c, s.handled[q]).Some? && SilencedAt(c, s, q)
  {
    PromptAt(c, s, i, q, site, t);
    LogReachable(c, s);
    hide Prompt, WithinWindow, DueOn, SilencedAt, SentByThen, Reachable, DecisionInv, LogInv, LogComparable,
        Comparable, Window;
    EveryAlertVisited(c, s, i);
    WithinAt(c, s, s.raised[i].cause, q, site, t);
    SentRecordSilences(c, s, i, q, site, t);
  }

  /** With prompt records no key is alerted twice. */
  lemma NoKeyTwice(c: Setup, s: State, site: string, t: AlertType)
    requires Reachable(c, s) && Deduplicated(t) && Prompt(c, s, site, t) && WithinWindow(c, s, site, t)
    ensures AlwaysSilenced(c, s, site, t) && DistinctKeys(s, site, t)
  {
    NoRepeatExactly(c, s, site, t);
    hide DueOn, SilencedAt, Reachable, DistinctKeys, Prompt, WithinWindow, VisitedAgain;
    forall i: nat, q: nat | VisitedAgain(c, s, i, q, site, t)
        ensures q < |s.handled| && DueOn(c, s.handled[q]).Some? && SilencedAt(c, s, q) {
      PromptSilences(c, s, i, q, site, t);
    }
  }

  /** The alert behind a record of this run has the key of every alert that the record silences. */
  lemma SilencesItsKey(s: State, n: nat, due: AlertWithMeta)
    requires LogInv(s) && |s.start.alerts| <= n < |s.store.alerts| && Silences(s.store.alerts[n], due)
    ensures KeyOf(due) in AlertedKeys(s, due.alert.siteName, due.alert.alertType)
  {
    assert RecordOK(s, n - |s.start.alerts|);
    var i := s.senders[s.loggedBy[n - |s.start.alerts|]].alert;
    hide LogInv;
    assert IsAlert(s.raised[i].a, due.alert.siteName, due.alert.alertType) && KeyOf(s.raised[i].a) == KeyOf(due);
  }

  /** A record that silences a visit and was made in this run is that of an alert with the visit's key. */
  lemma SilencerIsAlert(c: Setup, s: State, q: nat, site: string, t: AlertType)
    requires LogInv(s) && NoEarlierAlerts(s, site, t)
    requires q < |s.handled| && Visit(c, s.handled[q], site, t) && SilencedAt(c, s, q)
    ensures VisitKey(c, s.handled[q]) in AlertedKeys(s, site, t)
  {
    hide DueAlert, NotBefore, AlertedKeys, KeyOf, Window;
    var h := s.handled[q];
    var due, log := DueOn(c, h).value, s.store.alerts[..h.logLen];
    var rec :| rec in log && Silences(rec, due)
        && NotBefore(c.backend, rec.sentAt, due.alert.at - Window(due.alert.alertType));
    var n :| 0 <= n < |log| && log[n] == rec;
    assert s.store.alerts[n] == rec;
    StartIsPrefix(s);
    hide LogInv;
    assert forall m | 0 <= m < |s.start.alerts| ::
             s.start.alerts[m] == s.store.alerts[m] && s.start.alerts[m] in s.start.alerts;
    SilencesItsKey(s, n, due);
  }

  lemma StartIsPrefix(s: State)
    requires LogInv(s)
    ensures s.start.alerts <= s.store.alerts
  {
  }

  /** From a log without alerts of the site and type every visited key has been alerted. */
  lemma EveryVisitAlerted(c: Setup, s: State, q: nat, site: string, t: AlertType)
    requires Reachable(c, s) && NoEarlierAlerts(s, site, t) && Deduplicated(t)
    requires q < |s.handled| && Visit(c, s.handled[q], site, t)
    ensures VisitKey(c, s.handled[q]) in AlertedKeys(s, site, t)
  {
    LogReachable(c, s);
    hide DueOn, SilencedAt, Reachable, DecisionInv, LogInv, AlertedKeys, NoEarlierAlerts;
    if SilencedAt(c, s, q) {
      SilencerIsAlert(c, s, q, site, t);
    } else {
      AlertedExactly(c, s, site, t, VisitKey(c, s.handled[q]));
    }
  }

  /**
   Exactly one alert per band: from a log without alerts of the site and type, with every alert
   recorded as sent before its key is visited again, and all visits within one window.
   */
  lemma OncePerBand(c: Setup, s: State, site: string, t: AlertType)
    requires Reachable(c, s) && Deduplicated(t)
    requires NoEarlierAlerts(s, site, t) && Prompt(c, s, site, t) && WithinWindow(c, s, site, t)
    ensures OneAlertPerKey(c, s, site, t)
  {
    NoKeyTwice(c, s, site, t);
    LogReachable(c, s);
    hide DueOn, SilencedAt, Reachable, DecisionInv, LogInv, DistinctKeys, Prompt, WithinWindow, NoEarlierAlerts;
    forall key | key in AlertedKeys(s, site, t) ensures key in VisitedKeys(c, s, site, t) {
      var i :| 0 <= i < |s.raised| && IsAlert(s.raised[i].a, site, t) && KeyOf(s.raised[i].a) == key;
      EveryAlertVisited(c, s, i);
    }
    forall key | key in VisitedKeys(c, s, site, t) ensures key in AlertedKeys(s, site, t) {
      var q :| 0 <= q < |s.handled| && Visit(c, s.handled[q], site, t) && VisitKey(c, s.handled[q]) == key;
      EveryVisitAlerted(c, s, q, site, t);
    }
  }

  // ---- one certificate or registration running down ----

  predicate IsExpiryType(t: AlertType) {
    t == SSLExpiring || t == DomainExpiring
  }

  function WarnDays(c: Setup, t: AlertType): seq<int> {
    if t == SSLExpiring then c.thresholds.sslWarnDays else c.thresholds.domainWarnDays
  }

  function DaysLeft(r: CheckResult, t: AlertType): int {
    if t == SSLExpiring then r.daysUntilCertExpiry else r.daysUntilDomainExpiry
  }

  /** The days left of one serial (or registered expiry) do not grow along the run. */
  predicate DaysRunDown(c: Setup, s: State, site: string, t: AlertType, serial: string) {
    forall p, q | 0 <= p < q < |s.handled| && Visit(c, s.handled[p], site, t) && Visit(c, s.handled[q], site, t)
                  && VisitKey(c, s.handled[p]).certSerial == VisitKey(c, s.handled[q]).certSerial == serial ::
      DaysLeft(s.handled[q].seen.r, t) <= DaysLeft(s.handled[p].seen.r, t)
  }

  /** The threshold of a visit's key is the band of its days left. */
  lemma VisitBand(c: Setup, h: Handled, site: string, t: AlertType)
    requires IsExpiryType(t) && Visit(c, h, site, t)
    ensures VisitKey(c, h).threshold == CurrentThresholdBand(DaysLeft(h.seen.r, t), WarnDays(c, t)) != 0
    ensures VisitKey(c, h).threshold in WarnDays(c, t)
  {
    hide CurrentThresholdBand, ExpiryKey;
    BandIsAThreshold(DaysLeft(h.seen.r, t), WarnDays(c, t));
  }

  lemma BandIsAThreshold(days: int, thresholds: seq<int>)
    ensures CurrentThresholdBand(days, thresholds) != 0 ==> CurrentThresholdBand(days, thresholds) in thresholds
  {
  }

  /** For one certificate or registration whose days run down the alerts climb down the thresholds, strictly. */
  lemma ThresholdsDecrease(c: Setup, s: State, site: string, t: AlertType, serial: string, i: nat, k: nat)
    requires Reachable(c, s) && IsExpiryType(t)
    requires AlwaysSilenced(c, s, site, t) && DaysRunDown(c, s, site, t, serial) && AllPositive(WarnDays(c, t))
    requires i < k < |s.raised| && IsAlert(s.raised[i].a, site, t) && IsAlert(s.raised[k].a, site, t)
    requires s.raised[i].a.certSerial == serial && s.raised[k].a.certSerial == serial
    ensures s.raised[k].a.threshold < s.raised[i].a.threshold
    ensures s.raised[k].a.threshold in WarnDays(c, t)
  {
    LogReachable(c, s);
    NoRepeatExactly(c, s, site, t);
    hide CurrentThresholdBand, AlwaysSilenced, Reachable, DecisionInv, LogInv, DueOn, SilencedAt;
    EveryAlertVisited(c, s, i);
    EveryAlertVisited(c, s, k);
    CausesDiffer(c, s, i, k);
    var h, g := s.handled[s.raised[i].cause], s.handled[s.raised[k].cause];
    VisitBand(c, h, site, t);
    VisitBand(c, g, site, t);
    BandsShrink(DaysLeft(h.seen.r, t), DaysLeft(g.seen.r, t), WarnDays(c, t));
  }

  /** The expiry alerts of one serial among the first n. */
  function AlertsOf(s: State, site: string, t: AlertType, serial: string, n: nat): (r: set<nat>)
    requires n <= |s.raised|
  {
    set i: nat | i < n && IsAlert(s.raised[i].a, site, t) && s.raised[i].a.certSerial == serial
  }

  function ThresholdsOf(s: State, site: string, t: AlertType, serial: string, n: nat): set<int>
    requires n <= |s.raised|
  {
    set i | i in AlertsOf(s, site, t, serial, n) :: s.raised[i].a.threshold
  }

  lemma OneMoreAlert(s: State, site: string, t: AlertType, serial: string, k: nat)
    requires k < |s.raised|
    ensures var mine := IsAlert(s.raised[k].a, site, t) && s.raised[k].a.certSerial == serial;
            && AlertsOf(s, site, t, serial, k + 1) == AlertsOf(s, site, t, serial, k) + (if mine then {k} else {})
            && k !in AlertsOf(s, site, t, serial, k)
            && ThresholdsOf(s, site, t, serial, k + 1)
               == ThresholdsOf(s, site, t, serial, k) + if mine then {s.raised[k].a.threshold} else {}
  {
  }

  lemma ThresholdIsNew(c: Setup, s: State, site: string, t: AlertType, serial: string, k: nat)
    requires Reachable(c, s) && IsExpiryType(t) && k < |s.raised|
    requires AlwaysSilenced(c, s, site, t) && DaysRunDown(c, s, site, t, serial) && AllPositive(WarnDays(c, t))
    requires IsAlert(s.raised[k].a, site, t) && s.raised[k].a.certSerial == serial
    ensures s.raised[k].a.threshold !in ThresholdsOf(s, site, t, serial, k)
  {
    hide Reachable, AlwaysSilenced, DaysRunDown, AllPositive, WarnDays;
    forall i | i in AlertsOf(s, site, t, serial, k) ensures s.raised[i].a.threshold != s.raised[k].a.threshold {
      ThresholdsDecrease(c, s, site, t, serial, i, k);
    }
  }

  lemma {:induction false} OneAlertPerThreshold(c: Setup, s: State, site: string, t: AlertType, serial: string, n: nat)
    requires Reachable(c, s) && IsExpiryType(t) && n <= |s.raised|
    requires AlwaysSilenced(c, s, site, t) && DaysRunDown(c, s, site, t, serial) && AllPositive(WarnDays(c, t))
    ensures |AlertsOf(s, site, t, serial, n)| == |ThresholdsOf(s, site, t, serial, n)|
  {
    hide Reachable, AlwaysSilenced, DaysRunDown, AllPositive, WarnDays, IsAlert;
    if n == 0 {
      assert AlertsOf(s, site, t, serial, 0) == {} && ThresholdsOf(s, site, t, serial, 0) == {};
    } else {
      hide AlertsOf, ThresholdsOf;
      OneAlertPerThreshold(c, s, site, t, serial, n - 1);
      OneMoreAlert(s, site, t, serial, n - 1);
      if IsAlert(s.raised[n - 1].a, site, t) && s.raised[n - 1].a.certSerial == serial {
        ThresholdIsNew(c, s, site, t, serial, n - 1);
      }
    }
  }

  /** One certificate or registration gets at most as many expiry alerts as there are different thresholds. */
  lemma AlertsPerCertificate(c: Setup, s: State, site: string, t: AlertType, serial: string)
    requires Reachable(c, s) && IsExpiryType(t)
    requires AlwaysSilenced(c, s, site, t) && DaysRunDown(c, s, site, t, serial) && AllPositive(WarnDays(c, t))
    ensures |AlertsOf(s, site, t, serial, |s.raised|)| <= |set d | d in WarnDays(c, t)|
  {
    var n := |s.raised|;
    OneAlertPerThreshold(c, s, site, t, serial, n);
    LogReachable(c, s);
    hide AlwaysSilenced, DaysRunDown, Reachable, DecisionInv, LogInv, DueOn, SilencedAt, WarnDays;
    var all := set d | d in WarnDays(c, t);
    forall d | d in ThresholdsOf(s, site, t, serial, n) ensures d in all {
      var i :| i in AlertsOf(s, site, t, serial, n) && s.raised[i].a.threshold == d;
      EveryAlertVisited(c, s, i);
      VisitBand(c, s.handled[s.raised[i].cause], site, t);
    }
    assert all == ThresholdsOf(s, site, t, serial, n) + (all - ThresholdsOf(s, site, t, serial, n));
  }
}
