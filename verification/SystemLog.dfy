/**
 What every step keeps about the alert log, the sends and the decisions: each log record past
 the starting ones belongs to exactly one finished send of a raised alert, and each raised
 alert is what the engine decides from the part of the log there was when it decided.
 */
module SystemLog {
  import opened Types
  import opened MemoryStore
  import opened Alerting
  import opened System

  /** The engine's decision on a handled result, from the log as it was. */
  function DecisionOn(c: Setup, log: seq<AlertRecord>, h: Handled): seq<AlertWithMeta>
    requires h.logLen <= |log|
  {
    DecideAlerts(c.backend, c.thresholds, h.prev, h.cache, log[..h.logLen], h.seen.r, h.seen.now)
  }

  // ---- sends and records ----

  predicate SenderOK(s: State, k: nat)
    requires k < |s.senders|
  {
    var sender := s.senders[k];
    && sender.alert < s.dispatched <= |s.raised|
    && match sender.phase
       case Calling => sender.calls == []
       case Waiting => sender.calls == [false]
       case Retrying => sender.calls == [false]
       case Finished(status) => CallsGive(sender.calls, status)
       case Stamped(status, at) =>
         CallsGive(sender.calls, status) && s.raised[sender.alert].a.alert.at <= at <= s.now
       case Logged(j) => j < |s.loggedBy| && s.loggedBy[j] == k
  }

  /** One or two Notify calls were made; the send counts as sent exactly when one of them succeeded. */
  predicate CallsGive(calls: seq<bool>, status: SendStatus) {
    && 1 <= |calls| <= 2 && (|calls| == 2 ==> !calls[0])
    && status == if true in calls then Sent else Failed
  }

  predicate RecordOK(s: State, j: nat)
    requires j < |s.loggedBy| == |s.store.alerts| - |s.start.alerts|
  {
    var k, rec := s.loggedBy[j], s.store.alerts[|s.start.alerts| + j];
    && k < |s.senders| && s.senders[k].phase == Logged(j) && s.senders[k].alert < |s.raised|
    && CallsGive(s.senders[k].calls, rec.status)
    && var a := s.raised[s.senders[k].alert].a;
    && rec.siteName == a.alert.siteName && rec.alertType == a.alert.alertType
    && rec.threshold == a.threshold && rec.certSerial == a.certSerial
    && rec.notifier == s.senders[k].notifier
    && a.alert.at <= rec.sentAt <= s.now
  }

  predicate LogInv(s: State) {
    && s.dispatched <= |s.raised|
    && |s.loggedBy| == |s.store.alerts| - |s.start.alerts|
    && s.start.alerts <= s.store.alerts
    && Numbered(s.store)
    && (forall k | 0 <= k < |s.senders| :: SenderOK(s, k))
    && (forall j | 0 <= j < |s.loggedBy| :: RecordOK(s, j))
    && (forall i | 0 <= i < |s.raised| :: s.raised[i].a.alert.at <= s.now)
  }

  // ---- decisions ----

  predicate HandledOK(c: Setup, s: State, q: nat)
    requires q < |s.handled|
  {
    var h := s.handled[q];
    && |s.start.alerts| <= h.logLen <= |s.store.alerts|
    && var alerts := DecisionOn(c, s.store.alerts, h);
    && h.from + |alerts| <= |s.raised|
    && (forall i | 0 <= i < |alerts| :: s.raised[h.from + i] == Raised(alerts[i], q))
    && s.startedAt <= h.seen.now <= s.now && h.lookups <= |s.lookups|
  }

  predicate RaisedOK(c: Setup, s: State, i: nat)
    requires i < |s.raised|
  {
    var q := s.raised[i].cause;
    && q < |s.handled| && s.handled[q].from <= i && |s.start.alerts| <= s.handled[q].logLen <= |s.store.alerts|
    && i - s.handled[q].from < |DecisionOn(c, s.store.alerts, s.handled[q])|
  }

  /** The clock reading of the result that the consumer is working on. */
  predicate ConsumerClock(s: State) {
    match s.consumer
    case Started(_, now, _) => s.startedAt <= now <= s.now
        && (s.handled != [] ==> s.handled[|s.handled| - 1].seen.now <= now)
    case WithCache(_, now, _, _, lookups) =>
      && s.startedAt <= now <= s.now && lookups <= |s.lookups|
      && (s.handled != [] ==> s.handled[|s.handled| - 1].seen.now <= now)
    case _ => true
  }

  /** Handled results are in the order of their clock readings, of the log and of the alerts. */
  predicate HandledInOrder(s: State) {
    forall p, q | 0 <= p < q < |s.handled| ::
      s.handled[p].seen.now <= s.handled[q].seen.now && s.handled[p].logLen <= s.handled[q].logLen
      && s.handled[p].from <= s.handled[q].from
  }

  predicate DecisionInv(c: Setup, s: State) {
    && ZERO_TIME < s.startedAt <= s.now
    && (forall q | 0 <= q < |s.handled| :: HandledOK(c, s, q))
    && (forall i | 0 <= i < |s.raised| :: RaisedOK(c, s, i))
    && HandledInOrder(s)
    && ConsumerClock(s)
  }

  lemma InitLog(c: Setup, s: State)
    requires Init(c, s)
    ensures LogInv(s) && DecisionInv(c, s)
  {
  }

  /** A step that leaves the sends, the log and the raised alerts alone keeps what is said of them. */
  lemma LogFrame(s: State, t: State)
    requires LogInv(s)
    requires t.store.alerts == s.store.alerts && t.store.nextID == s.store.nextID && t.start == s.start
    requires t.senders == s.senders && t.loggedBy == s.loggedBy && t.now >= s.now
    requires t.raised == s.raised && t.dispatched == s.dispatched
    ensures LogInv(t)
  {
    forall k | 0 <= k < |t.senders| ensures SenderOK(t, k) {
      assert SenderOK(s, k);
    }
    forall j | 0 <= j < |t.loggedBy| ensures RecordOK(t, j) {
      assert RecordOK(s, j);
    }
  }

  lemma DispatchKeepsLog(c: Setup, s: State)
    requires LogInv(s) && s.consumer.Dispatching? && s.dispatched < |s.raised|
    ensures LogInv(Apply(c, s, ConsumerDispatches))
  {
    var t := Apply(c, s, ConsumerDispatches);
    forall k | 0 <= k < |t.senders| ensures SenderOK(t, k) {
      if k < |s.senders| {
        assert SenderOK(s, k);
      }
    }
    forall j | 0 <= j < |t.loggedBy| ensures RecordOK(t, j) {
      assert RecordOK(s, j);
    }
  }

  lemma DecideKeepsLog(c: Setup, s: State)
    requires LogInv(s) && DecisionInv(c, s) && Enabled(c, s, ConsumerDecides)
    ensures LogInv(Apply(c, s, ConsumerDecides))
  {
    hide DecideAlerts, NewState;
    var t := Apply(c, s, ConsumerDecides);
    var k := s.consumer;
    var cache := if k.WithCache? then k.cache else NO_CACHE;
    RaisedOnlyIfQuiet(c.backend, c.thresholds, k.prev, cache, s.store.alerts, k.item.result, k.now);
    var alerts := DecideAlerts(c.backend, c.thresholds, k.prev, cache, s.store.alerts, k.item.result, k.now);
    forall i | 0 <= i < |t.raised| ensures t.raised[i].a.alert.at <= t.now {
      if i >= |s.raised| {
        assert t.raised[i].a == alerts[i - |s.raised|];
        assert alerts[i - |s.raised|] in alerts;
      }
    }
    forall k | 0 <= k < |t.senders| ensures SenderOK(t, k) {
      assert SenderOK(s, k);
    }
    forall j | 0 <= j < |t.loggedBy| ensures RecordOK(t, j) {
      assert RecordOK(s, j);
    }
  }

  /** Only sender k changes, and it has not made its record. */
  lemma SenderMoves(s: State, t: State, k: nat)
    requires LogInv(s) && k < |s.senders| == |t.senders|
    requires t == s.(senders := s.senders[k := t.senders[k]])
    requires !s.senders[k].phase.Logged? && SenderOK(t, k)
    ensures LogInv(t)
  {
    forall i | 0 <= i < |t.senders| ensures SenderOK(t, i) {
      assert SenderOK(s, i);
    }
    forall j | 0 <= j < |t.loggedBy| ensures RecordOK(t, j) {
      assert RecordOK(s, j);
    }
  }

  /** A sender's own steps, up to its record. */
  lemma SenderKeepsLog(c: Setup, s: State, a: Action)
    requires LogInv(s) && Enabled(c, s, a)
    requires a.NotifyReturns? || a.RetryStarts? || a.SendGivesUp? || a.SendIsStamped?
    ensures LogInv(Apply(c, s, a))
  {
    assert SenderOK(s, a.k);
    SenderMoves(s, Apply(c, s, a), a.k);
  }

  lemma RecordingKeepsLog(c: Setup, s: State, k: nat)
    requires LogInv(s) && Enabled(c, s, SendIsLogged(k))
    ensures LogInv(Apply(c, s, SendIsLogged(k)))
  {
    var t := Apply(c, s, SendIsLogged(k));
    assert SenderOK(s, k);
    forall i | 0 <= i < |t.senders| ensures SenderOK(t, i) {
      assert SenderOK(s, i);
    }
    forall j | 0 <= j < |t.loggedBy| ensures RecordOK(t, j) {
      if j < |s.loggedBy| {
        assert RecordOK(s, j);
      }
    }
  }

  lemma LogStep(c: Setup, s: State, a: Action)
    requires LogInv(s) && DecisionInv(c, s) && Enabled(c, s, a)
    ensures LogInv(Apply(c, s, a))
  {
    match a
    case ConsumerDispatches => DispatchKeepsLog(c, s);
    case ConsumerDecides => DecideKeepsLog(c, s);
    case NotifyReturns(_, _) => SenderKeepsLog(c, s, a);
    case RetryStarts(_) => SenderKeepsLog(c, s, a);
    case SendGivesUp(_) => SenderKeepsLog(c, s, a);
    case SendIsStamped(_) => SenderKeepsLog(c, s, a);
    case SendIsLogged(k) => RecordingKeepsLog(c, s, k);
    case _ =>
      hide DecideAlerts, LogInv;
      LogFrame(s, Apply(c, s, a));
  }

  /** The log only grows, so what was decided from its beginning stays decided from it. */
  lemma DecisionFrame(c: Setup, s: State, t: State)
    requires DecisionInv(c, s)
    requires s.store.alerts <= t.store.alerts && t.start == s.start && t.startedAt == s.startedAt && t.now >= s.now
    requires t.handled == s.handled && t.raised == s.raised && |s.lookups| <= |t.lookups|
    requires ConsumerClock(t)
    ensures DecisionInv(c, t)
  {
    hide DecideAlerts;
    forall q | 0 <= q < |t.handled| ensures HandledOK(c, t, q) {
      assert HandledOK(c, s, q);
      SameDecision(c, s.store.alerts, t.store.alerts, s.handled[q]);
    }
    forall i | 0 <= i < |t.raised| ensures RaisedOK(c, t, i) {
      assert RaisedOK(c, s, i);
      SameDecision(c, s.store.alerts, t.store.alerts, s.handled[s.raised[i].cause]);
    }
  }

  lemma SameDecision(c: Setup, log: seq<AlertRecord>, longer: seq<AlertRecord>, h: Handled)
    requires log <= longer && h.logLen <= |log|
    ensures DecisionOn(c, longer, h) == DecisionOn(c, log, h)
  {
    assert longer[..h.logLen] == log[..h.logLen];
  }

  lemma StartIsShorter(s: State)
    requires LogInv(s)
    ensures |s.start.alerts| <= |s.store.alerts|
  {
  }

  /** The handled result that a decision adds, and those before it. */
  lemma DecideKeepsHandled(c: Setup, s: State, q: nat)
    requires DecisionInv(c, s) && Enabled(c, s, ConsumerDecides) && |s.start.alerts| <= |s.store.alerts|
    requires q <= |s.handled|
    ensures |Apply(c, s, ConsumerDecides).handled| == |s.handled| + 1 && HandledOK(c, Apply(c, s, ConsumerDecides), q)
  {
    hide DecideAlerts, NewState, RaisedOK;
    assert s.store.alerts[..|s.store.alerts|] == s.store.alerts;
    if q < |s.handled| {
      assert HandledOK(c, s, q);
    }
  }

  lemma DecideKeepsRaised(c: Setup, s: State, i: nat)
    requires DecisionInv(c, s) && Enabled(c, s, ConsumerDecides) && |s.start.alerts| <= |s.store.alerts|
    requires i < |Apply(c, s, ConsumerDecides).raised|
    ensures RaisedOK(c, Apply(c, s, ConsumerDecides), i)
  {
    hide DecideAlerts, NewState, HandledOK;
    assert s.store.alerts[..|s.store.alerts|] == s.store.alerts;
    if i < |s.raised| {
      assert RaisedOK(c, s, i);
    }
  }

  lemma DecideKeepsOrder(c: Setup, s: State)
    requires DecisionInv(c, s) && Enabled(c, s, ConsumerDecides)
    ensures HandledInOrder(Apply(c, s, ConsumerDecides)) && ConsumerClock(Apply(c, s, ConsumerDecides))
    ensures Apply(c, s, ConsumerDecides).now == s.now && Apply(c, s, ConsumerDecides).startedAt == s.startedAt
  {
    hide DecideAlerts, NewState, RaisedOK, DecisionOn;
    forall p | 0 <= p < |s.handled|
      ensures s.handled[p].seen.now <= s.consumer.now && s.handled[p].logLen <= |s.store.alerts|
      ensures s.handled[p].from <= |s.raised|
    {
      assert HandledOK(c, s, p);
    }
  }

  lemma DecideKeepsDecisions(c: Setup, s: State)
    requires LogInv(s) && DecisionInv(c, s) && Enabled(c, s, ConsumerDecides)
    ensures DecisionInv(c, Apply(c, s, ConsumerDecides))
  {
    var t := Apply(c, s, ConsumerDecides);
    DecideKeepsOrder(c, s);
    hide Apply, Enabled, HandledOK, RaisedOK, ConsumerClock;
    forall q | 0 <= q < |t.handled| ensures HandledOK(c, t, q) {
      DecideKeepsHandled(c, s, 0);
      DecideKeepsHandled(c, s, q);
    }
    forall i | 0 <= i < |t.raised| ensures RaisedOK(c, t, i) {
      DecideKeepsRaised(c, s, i);
    }
  }

  lemma ClockStep(c: Setup, s: State, a: Action)
    requires DecisionInv(c, s) && Enabled(c, s, a) && !a.ConsumerDecides?
    ensures ConsumerClock(Apply(c, s, a))
  {
    hide DecideAlerts, HandledOK, RaisedOK, PrevState, NewSenders;
    if a.ConsumerStarts? && s.handled != [] {
      LastHandledClock(c, s);
    }
  }

  lemma DecisionStep(c: Setup, s: State, a: Action)
    requires LogInv(s) && DecisionInv(c, s) && Enabled(c, s, a)
    ensures DecisionInv(c, Apply(c, s, a))
  {
    if a.ConsumerDecides? {
      DecideKeepsDecisions(c, s);
    } else {
      ClockStep(c, s, a);
      hide DecideAlerts, LogInv, DecisionInv, ConsumerClock, PrevState, NewSenders;
      DecisionFrame(c, s, Apply(c, s, a));
    }
  }

  lemma LastHandledClock(c: Setup, s: State)
    requires DecisionInv(c, s) && s.handled != []
    ensures s.handled[|s.handled| - 1].seen.now <= s.now
  {
    assert HandledOK(c, s, |s.handled| - 1);
  }

  /** Both hold in every state of every run. */
  lemma {:induction false} LogAlways(c: Setup, states: seq<State>, actions: seq<Action>, i: nat)
    requires IsRun(c, states, actions) && i < |states|
    ensures LogInv(states[i]) && DecisionInv(c, states[i])
  {
    if i == 0 {
      InitLog(c, states[0]);
    } else {
      LogAlways(c, states, actions, i - 1);
      LogStep(c, states[i - 1], actions[i - 1]);
      DecisionStep(c, states[i - 1], actions[i - 1]);
    }
  }

  lemma LogReachable(c: Setup, s: State)
    requires Reachable(c, s)
    ensures LogInv(s) && DecisionInv(c, s)
  {
    var states, actions :| IsRun(c, states, actions) && states[|states| - 1] == s;
    LogAlways(c, states, actions, |states| - 1);
  }
}
