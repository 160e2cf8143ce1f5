/**
 When records are made in time. If calls to notifiers take at most some time and end in a success,
 and two calls with the wait between them are over before the site's next check of the kind is due,
 every alert is recorded as sent before its key is visited again, so that there is exactly one
 alert for each visited key.
 */
module PromptSends {
  import opened Types
  import opened Config
  import opened MemoryStore
  import opened Alerting
  import opened Dispatching
  import opened System
  import opened SystemLog
  import opened Queue
  import opened Spacing
  import opened Deduplication
  import Sends
  import Shutdown
  import DomainCheck

  /** The longest time from an alert to the end of its send: two calls, and the wait between them. */
  function SendTime(callTime: Duration): Duration {
    2 * callTime + RETRY_DELAY
  }

  /**
   Time passes only while the consumer has nothing to do, and then not past the end of a call or
   of a wait; what follows a call is done at once.
   */
  predicate NothingWaits(s: State, a: Action, callTime: Duration) {
    a.TimePasses? ==>
      && ((s.consumer.Idle? && s.channel == []) || s.consumer.Gone?)
      && forall k | 0 <= k < |s.senders| ::
           match s.senders[k].phase
           case Calling => s.now + a.d <= s.senders[k].since + callTime
           case Retrying => s.now + a.d <= s.senders[k].since + callTime
           case Waiting => s.now + a.d <= s.senders[k].since + RETRY_DELAY
           case Logged(_) => true
           case _ => false
  }

  // ---- the senders' clocks ----

  predicate SenderInTime(s: State, k: nat, callTime: Duration)
    requires k < |s.senders|
  {
    var sender := s.senders[k];
    && sender.alert < |s.raised|
    && var at := s.raised[sender.alert].a.alert.at;
       match sender.phase
       case Calling => sender.since <= at && s.now <= sender.since + callTime
       case Waiting => sender.since <= at + callTime && s.now <= sender.since + RETRY_DELAY
       case Retrying => sender.since <= at + callTime + RETRY_DELAY && s.now <= sender.since + callTime
       case Logged(_) => true
       case _ => s.now <= at + SendTime(callTime)
  }

  /** The consumer works on a result, and dispatches its alert, at the time it took it up. */
  predicate ConsumerInTime(s: State) {
    && (forall i | s.dispatched <= i < |s.raised| :: s.raised[i].a.alert.at == s.now)
    && match s.consumer
       case Started(_, now, _) => now == s.now
       case WithCache(_, now, _, _, _) => now == s.now
       case _ => true
  }

  /** Results do not wait: what is under way was sent now, and was handled when it was sent. */
  predicate ItemsInTime(s: State) {
    && (!s.consumer.Gone? ==> forall i | 0 <= i < |s.channel| :: s.channel[i].sentAt == s.now)
    && (forall item | item in InHand(s.consumer) :: item.sentAt == s.now)
    && |s.handled| <= |s.taken|
    && forall q | 0 <= q < |s.handled| :: s.handled[q].seen.now == s.taken[q].sentAt
  }

  predicate SendersInTime(s: State, callTime: Duration) {
    forall k | 0 <= k < |s.senders| :: SenderInTime(s, k, callTime)
  }

  predicate InTime(s: State, callTime: Duration) {
    SendersInTime(s, callTime) && ConsumerInTime(s) && ItemsInTime(s)
  }

  predicate IsSenderStep(a: Action) {
    a.NotifyReturns? || a.RetryStarts? || a.SendGivesUp? || a.SendIsStamped? || a.SendIsLogged?
  }

  /** The sender that moves is in time, and the others are as they were. */
  lemma MovedInTime(c: Setup, s: State, a: Action, callTime: Duration)
    requires IsSenderStep(a) && callTime >= 0 && Enabled(c, s, a) && SenderInTime(s, a.k, callTime)
    ensures a.k < |Apply(c, s, a).senders| && SenderInTime(Apply(c, s, a), a.k, callTime)
  {
    hide Recorded, RecordOf;
  }

  lemma SenderStepFrame(c: Setup, s: State, a: Action)
    requires IsSenderStep(a) && Enabled(c, s, a)
    ensures var t := Apply(c, s, a);
            && |t.senders| == |s.senders| && t.raised == s.raised && t.now == s.now
            && forall k | 0 <= k < |s.senders| && k != a.k :: t.senders[k] == s.senders[k]
  {
    hide Recorded, RecordOf;
  }

  lemma OneSenderMoves(c: Setup, s: State, a: Action, callTime: Duration)
    requires IsSenderStep(a) && SendersInTime(s, callTime) && callTime >= 0 && Enabled(c, s, a)
    ensures SendersInTime(Apply(c, s, a), callTime)
  {
    var t := Apply(c, s, a);
    SenderStepFrame(c, s, a);
    MovedInTime(c, s, a, callTime);
    hide Apply, Enabled;
    forall k | 0 <= k < |t.senders| ensures SenderInTime(t, k, callTime) {
      assert SenderInTime(s, k, callTime);
    }
  }

  lemma DispatchInTime(c: Setup, s: State, callTime: Duration)
    requires InTime(s, callTime) && callTime >= 0 && Enabled(c, s, ConsumerDispatches)
    ensures SendersInTime(Apply(c, s, ConsumerDispatches), callTime)
  {
    hide Recipients, NotifiersFor, TypeName;
    var t := Apply(c, s, ConsumerDispatches);
    forall k | 0 <= k < |t.senders| ensures SenderInTime(t, k, callTime) {
      if k < |s.senders| {
        assert SenderInTime(s, k, callTime);
      }
    }
  }

  lemma TimePassesInTime(c: Setup, s: State, d: Duration, callTime: Duration)
    requires InTime(s, callTime) && Shutdown.NothingPending(s) && Enabled(c, s, TimePasses(d))
    requires NothingWaits(s, TimePasses(d), callTime)
    ensures InTime(Apply(c, s, TimePasses(d)), callTime)
  {
    var t := Apply(c, s, TimePasses(d));
    forall k | 0 <= k < |t.senders| ensures SenderInTime(t, k, callTime) {
      assert SenderInTime(s, k, callTime);
    }
  }

  /** Steps that neither let time pass nor touch a sender. */
  lemma SendersFrame(s: State, t: State, callTime: Duration)
    requires SendersInTime(s, callTime) && t.senders == s.senders && t.now == s.now && s.raised <= t.raised
    ensures SendersInTime(t, callTime)
  {
    forall k | 0 <= k < |t.senders| ensures SenderInTime(t, k, callTime) {
      assert SenderInTime(s, k, callTime);
    }
  }

  lemma SendersStep(c: Setup, s: State, a: Action, callTime: Duration)
    requires InTime(s, callTime) && callTime >= 0 && Enabled(c, s, a) && !a.TimePasses?
    ensures SendersInTime(Apply(c, s, a), callTime)
  {
    hide DecideAlerts, NewState, PrevState, NewSenders, SendersInTime, DomainCheck.AfterLookup, DomainCheck.Fresh;
    if IsSenderStep(a) {
      OneSenderMoves(c, s, a, callTime);
    } else if a.ConsumerDispatches? {
      DispatchInTime(c, s, callTime);
    } else {
      SendersFrame(s, Apply(c, s, a), callTime);
    }
  }

  lemma ConsumerClockStep(c: Setup, s: State, a: Action)
    requires ConsumerInTime(s) && Enabled(c, s, a) && !a.TimePasses?
    ensures ConsumerInTime(Apply(c, s, a))
  {
    hide DecideAlerts, NewState, PrevState, NewSenders, DomainCheck.AfterLookup, DomainCheck.Fresh;
    if a.ConsumerDecides? {
      var k := s.consumer;
      var cache := if k.WithCache? then k.cache else NO_CACHE;
      RaisedOnlyIfQuiet(c.backend, c.thresholds, k.prev, cache, s.store.alerts, k.item.result, k.now);
    }
  }

  lemma ItemsStepInTime(c: Setup, s: State, a: Action)
    requires ItemsInTime(s) && ConsumerInTime(s) && ConsumerOK(s) && Enabled(c, s, a) && !a.TimePasses?
    ensures ItemsInTime(Apply(c, s, a))
  {
    hide DecideAlerts, NewState, PrevState, NewSenders, DomainCheck.AfterLookup, DomainCheck.Fresh;
  }

  lemma InTimeStep(c: Setup, s: State, a: Action, callTime: Duration)
    requires QueueInv(c, s) && Shutdown.NothingPending(s) && InTime(s, callTime) && callTime >= 0
    requires Enabled(c, s, a) && NothingWaits(s, a, callTime)
    ensures InTime(Apply(c, s, a), callTime)
  {
    hide Apply, Enabled, SendersInTime, ConsumerInTime, ItemsInTime, NothingWaits, Shutdown.NothingPending, ConsumerOK;
    if a.TimePasses? {
      TimePassesInTime(c, s, a.d, callTime);
    } else {
      SendersStep(c, s, a, callTime);
      ConsumerClockStep(c, s, a);
      ItemsStepInTime(c, s, a);
    }
  }

  /** The run lets nothing wait up to state i. */
  ghost predicate InTimeRun(c: Setup, states: seq<State>, actions: seq<Action>, i: nat, callTime: Duration) {
    && IsRun(c, states, actions) && i < |states| && callTime >= 0
    && forall j | 0 <= j < i :: NothingWaits(states[j], actions[j], callTime)
  }

  lemma {:induction false} InTimeAlways(c: Setup, states: seq<State>, actions: seq<Action>, i: nat, callTime: Duration)
    requires InTimeRun(c, states, actions, i, callTime)
    ensures InTime(states[i], callTime) && QueueInv(c, states[i]) && Shutdown.NothingPending(states[i])
  {
    Shutdown.ShutdownInv(c, states, actions, i);
    if i == 0 {
    } else {
      hide Apply, Enabled, Init, InTime, QueueInv, NothingWaits;
      InTimeAlways(c, states, actions, i - 1, callTime);
      InTimeStep(c, states[i - 1], actions[i - 1], callTime);
    }
  }

  // ---- prompt records ----

  function CheckOf(t: AlertType): CheckType {
    if t == SSLExpiring || t == SSLUntrusted then SSL else Domain
  }

  /** The site's checks of the kind are further apart than a send takes. */
  predicate SlowerThanSends(c: Setup, site: string, t: AlertType, callTime: Duration) {
    forall w | 0 <= w < |c.jobs| && c.jobs[w].site == site && c.jobs[w].check == CheckOf(t) ::
      c.jobs[w].interval > SendTime(callTime)
  }

  /** Every send of the alert has made its record before the result was decided. */
  predicate AllLogged(s: State, i: nat, q: nat)
    requires q < |s.handled|
  {
    && i < s.dispatched
    && forall k | 0 <= k < |s.senders| && s.senders[k].alert == i ::
         s.senders[k].phase.Logged? && LogIndex(s, s.senders[k].phase.index) < s.handled[q].logLen
  }

  ghost predicate LoggedBetween(c: Setup, s: State, site: string, t: AlertType) {
    forall i: nat, q: nat | VisitedAgain(c, s, i, q, site, t) :: AllLogged(s, i, q)
  }

  /** Two visits of the site and type are results of one worker. */
  lemma VisitCheck(c: Setup, s: State, q: nat, site: string, t: AlertType)
    requires QueueInv(c, s) && q < |s.handled| && Visit(c, s.handled[q], site, t)
    ensures |s.handled| <= |s.taken| && s.taken[q].worker < |c.jobs|
    ensures c.jobs[s.taken[q].worker].site == site && c.jobs[s.taken[q].worker].check == CheckOf(t)
  {
    hide CurrentThresholdBand, ExpiryKey;
    assert ResultFits(c, s.taken[q].worker, s.taken[q].result);
  }

  /** A key's next visit comes after the sends of its alert are over. */
  lemma NextVisitIsLater(c: Setup, s: State, i: nat, q: nat, site: string, t: AlertType, callTime: Duration)
    requires QueueInv(c, s) && DecisionInv(c, s) && SpacedInv(c, s) && ItemsInTime(s) && Deduplicated(t)
    requires VisitedAgain(c, s, i, q, site, t) && SlowerThanSends(c, site, t, callTime)
    ensures q < |s.handled| && s.handled[q].seen.now > s.raised[i].a.alert.at + SendTime(callTime)
  {
    hide DecisionInv, DueOn, SilencedAt;
    EveryAlertVisited(c, s, i);
    var p := s.raised[i].cause;
    VisitCheck(c, s, p, site, t);
    VisitCheck(c, s, q, site, t);
    hide QueueInv;
    var w := s.taken[p].worker;
    assert ValidSetup(c) && |s.workers| == |c.jobs| by { BoundsOfQueue(c, s); }
    assert s.taken[q].worker == w;
    assert WorkerSpaced(c, s, w);
    assert Items(s)[p] == s.taken[p] && Items(s)[q] == s.taken[q];
  }

  lemma BoundsOfQueue(c: Setup, s: State)
    requires QueueInv(c, s)
    ensures ValidSetup(c) && |s.workers| == |c.jobs|
  {
  }

  /** What a decision adds. */
  lemma DecideExtends(c: Setup, s: State)
    requires Enabled(c, s, ConsumerDecides)
    ensures var t, n := Apply(c, s, ConsumerDecides), |s.handled|;
            && |t.handled| == n + 1 && s.handled <= t.handled && t.handled[n].logLen == |s.store.alerts|
            && s.raised <= t.raised && (forall i | |s.raised| <= i < |t.raised| :: t.raised[i].cause == n)
            && t.senders == s.senders && t.dispatched == s.dispatched && t.now == s.now
  {
    hide DecideAlerts, NewState;
  }

  /** A decision that comes after the sends of an alert are over finds all their records. */
  lemma DecideFindsRecords(c: Setup, s: State, i: nat, callTime: Duration)
    requires LogInv(s) && SendersInTime(s, callTime) && Shutdown.NothingPending(s) && Enabled(c, s, ConsumerDecides)
    requires i < |s.raised| && s.now > s.raised[i].a.alert.at + SendTime(callTime) && callTime >= 0
    ensures |s.handled| < |Apply(c, s, ConsumerDecides).handled|
    ensures AllLogged(Apply(c, s, ConsumerDecides), i, |s.handled|)
  {
    DecideExtends(c, s);
    forall k | 0 <= k < |s.senders| && s.senders[k].alert == i
      ensures s.senders[k].phase.Logged? && s.senders[k].phase.index < |s.loggedBy|
    {
      assert SenderOK(s, k) && SenderInTime(s, k, callTime);
    }
    StartStays(c, s);
  }

  lemma StartStays(c: Setup, s: State)
    requires Enabled(c, s, ConsumerDecides)
    ensures Apply(c, s, ConsumerDecides).start == s.start
  {
    hide DecideAlerts, NewState;
  }

  lemma DecideKeepsLogged(c: Setup, s: State, u: State, site: string, t: AlertType, callTime: Duration)
    requires Enabled(c, s, ConsumerDecides) && u == Apply(c, s, ConsumerDecides) && callTime >= 0
    requires LogInv(s) && SendersInTime(s, callTime) && Shutdown.NothingPending(s) && LoggedBetween(c, s, site, t)
    requires QueueInv(c, u) && DecisionInv(c, u) && SpacedInv(c, u) && ItemsInTime(u) && ConsumerTookNow(c, s)
    requires Deduplicated(t) && SlowerThanSends(c, site, t, callTime)
    ensures LoggedBetween(c, u, site, t)
  {
    DecideExtends(c, s);
    StartStays(c, s);
    NewVisitIsNow(c, s);
    hide Apply, QueueInv, DecisionInv, SpacedInv, LogInv, DueOn, SlowerThanSends, SendersInTime, ItemsInTime, Enabled,
         Shutdown.NothingPending;
    forall i: nat, q: nat | VisitedAgain(c, u, i, q, site, t) ensures AllLogged(u, i, q) {
      assert i < |s.raised|;
      if q < |s.handled| {
        assert VisitedAgain(c, s, i, q, site, t);
      } else {
        NextVisitIsLater(c, u, i, q, site, t, callTime);
        DecideFindsRecords(c, s, i, callTime);
      }
    }
  }

  /** The consumer is deciding what it has taken up now. */
  predicate ConsumerTookNow(c: Setup, s: State) {
    Enabled(c, s, ConsumerDecides) ==> s.consumer.now == s.now
  }

  lemma NewVisitIsNow(c: Setup, s: State)
    requires Enabled(c, s, ConsumerDecides) && ConsumerTookNow(c, s)
    ensures |Apply(c, s, ConsumerDecides).handled| > |s.handled|
    ensures Apply(c, s, ConsumerDecides).handled[|s.handled|].seen.now == s.now
  {
    hide DecideAlerts, NewState;
  }

  /** Between decisions, records stay and new sends are of later alerts. */
  lemma LoggedFrame(c: Setup, s: State, u: State, site: string, t: AlertType)
    requires LoggedBetween(c, s, site, t) && u.handled == s.handled && u.raised == s.raised && u.start == s.start
    requires s.dispatched <= u.dispatched && |s.senders| <= |u.senders|
    requires forall k | 0 <= k < |s.senders| ::
               u.senders[k].alert == s.senders[k].alert
               && (s.senders[k].phase.Logged? ==> u.senders[k].phase == s.senders[k].phase)
    requires forall k | |s.senders| <= k < |u.senders| :: u.senders[k].alert >= s.dispatched
    ensures LoggedBetween(c, u, site, t)
  {
    hide DueOn;
    forall i: nat, q: nat | VisitedAgain(c, u, i, q, site, t) ensures AllLogged(u, i, q) {
      assert VisitedAgain(c, s, i, q, site, t);
    }
  }

  lemma OtherKeepsLogged(c: Setup, s: State, a: Action, site: string, t: AlertType)
    requires LoggedBetween(c, s, site, t) && Enabled(c, s, a) && !a.ConsumerDecides?
    ensures LoggedBetween(c, Apply(c, s, a), site, t)
  {
    hide NewState, PrevState, LoggedBetween, Recipients, DomainCheck.AfterLookup, DomainCheck.Fresh;
    LoggedFrame(c, s, Apply(c, s, a), site, t);
  }

  lemma {:induction false} LoggedAlways(c: Setup, states: seq<State>, actions: seq<Action>, i: nat, site: string,
      t: AlertType,
                                        callTime: Duration)
    requires InTimeRun(c, states, actions, i, callTime) && Deduplicated(t) && SlowerThanSends(c, site, t, callTime)
    ensures LoggedBetween(c, states[i], site, t)
  {
    if i == 0 {
    } else {
      hide InTime, QueueInv, NothingWaits, LoggedBetween, SlowerThanSends, DecisionInv, LogInv, SpacedInv, Init,
          Apply, Enabled;
      LoggedAlways(c, states, actions, i - 1, site, t, callTime);
      if actions[i - 1].ConsumerDecides? {
        InTimeAlways(c, states, actions, i - 1, callTime);
        LogAlways(c, states, actions, i - 1);
        InTimeAlways(c, states, actions, i, callTime);
        LogAlways(c, states, actions, i);
        SpacedAlways(c, states, actions, i);
        InTimeParts(c, states[i - 1], callTime);
        InTimeParts(c, states[i], callTime);
        DecideKeepsLogged(c, states[i - 1], states[i], site, t, callTime);
      } else {
        OtherKeepsLogged(c, states[i - 1], actions[i - 1], site, t);
      }
    }
  }

  lemma InTimeParts(c: Setup, s: State, callTime: Duration)
    requires InTime(s, callTime)
    ensures SendersInTime(s, callTime) && ItemsInTime(s) && ConsumerTookNow(c, s)
  {
  }

  /** The alert type has recipients, and no send of such an alert of the site has failed. */
  predicate SendsSucceed(c: Setup, s: State, site: string, t: AlertType) {
    && Recipients(c.known, NotifiersFor(c.routing, TypeName(t))) != []
    && forall k | 0 <= k < |s.senders| && s.senders[k].alert < |s.raised|
    && IsAlert(s.raised[s.senders[k].alert].a, site, t)
    && s.senders[k].phase.Logged? ::
         true in s.senders[k].calls
  }

  /** A dispatched alert with recipients has a send. */
  lemma {:induction false} HasSend(c: Setup, raised: seq<Raised>, n: nat, i: nat) returns (k: nat)
    requires i < n <= |raised| && Sends.RecipientsOf(c, raised, i) != []
    ensures k < |Sends.Due(c, raised, n)| && Sends.Due(c, raised, n)[k].alert == i
  {
    hide Recipients, NotifiersFor, TypeName;
    if i == n - 1 {
      k := |Sends.Due(c, raised, n - 1)|;
    } else {
      k := HasSend(c, raised, n - 1, i);
    }
  }

  /** A logged send that has succeeded has a "sent" record in the log of the later decision. */
  lemma LoggedIsSent(c: Setup, s: State, i: nat, q: nat, k: nat)
    requires LogInv(s) && DecisionInv(c, s) && q < |s.handled| && AllLogged(s, i, q)
    requires k < |s.senders| && s.senders[k].alert == i && true in s.senders[k].calls
    ensures SentByThen(s, i, q)
  {
    assert SenderOK(s, k);
    var j := s.senders[k].phase.index;
    assert RecordOK(s, j);
    hide LogInv, DecideAlerts;
    assert HandledOK(c, s, q);
    assert FromAlert(s, j, i);
  }

  /**
   In every state of a run in which nothing waits, whose sends take less than the checks are apart
   and succeed, every alert was recorded as sent before its key was visited again.
   */
  lemma TimedPrompt(c: Setup, states: seq<State>, actions: seq<Action>, i: nat, site: string, t: AlertType,
      callTime: Duration)
    requires InTimeRun(c, states, actions, i, callTime) && Deduplicated(t)
    requires SlowerThanSends(c, site, t, callTime) && SendsSucceed(c, states[i], site, t)
    ensures Prompt(c, states[i], site, t)
  {
    var s := states[i];
    LoggedAlways(c, states, actions, i, site, t, callTime);
    LogAlways(c, states, actions, i);
    Sends.SendsAlways(c, states, actions, i);
    hide LogInv, DecisionInv, DueOn, InTimeRun, SlowerThanSends, SentByThen, Recipients, NotifiersFor, TypeName;
    forall a: nat, q: nat | VisitedAgain(c, s, a, q, site, t) ensures SentByThen(s, a, q) {
      assert AllLogged(s, a, q);
      var k := HasSend(c, s.raised, s.dispatched, a);
      assert Sends.DeliveryOf(s.senders[k]) == Sends.Due(c, s.raised, s.dispatched)[k];
      LoggedIsSent(c, s, a, q, k);
    }
  }

  /**
   With that, and visits within one window on a log without earlier alerts, there is one alert for each visited
   key.
   */
  lemma TimedOncePerBand(c: Setup, states: seq<State>, actions: seq<Action>, i: nat, site: string, t: AlertType,
                         callTime: Duration)
    requires InTimeRun(c, states, actions, i, callTime) && i + 1 == |states| && Deduplicated(t)
    requires SlowerThanSends(c, site, t, callTime) && SendsSucceed(c, states[i], site, t)
    requires NoEarlierAlerts(states[i], site, t) && WithinWindow(c, states[i], site, t)
    ensures OneAlertPerKey(c, states[i], site, t)
  {
    TimedPrompt(c, states, actions, i, site, t, callTime);
    hide *;
    assert Reachable(c, states[i]) by { LastIsReachable(c, states, actions, i, callTime); }
    OncePerBand(c, states[i], site, t);
  }

  lemma LastIsReachable(c: Setup, states: seq<State>, actions: seq<Action>, i: nat, callTime: Duration)
    requires InTimeRun(c, states, actions, i, callTime) && i + 1 == |states|
    ensures Reachable(c, states[i])
  {
  }
}
