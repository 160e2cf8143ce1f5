/** Conservation in the dispatcher: every known recipient of every dispatched alert gets one send and one record. */
module Sends {
  import opened Types
  import opened Config
  import opened Backends
  import opened Alerting
  import opened Dispatching
  import opened Scheduler
  import opened System
  import opened SystemLog
  import DomainCheck

  /** One occurrence of a recipient of one alert. */
  datatype Delivery = Delivery(alert: nat, notifier: string)

  function RecipientsOf(c: Setup, raised: seq<Raised>, i: nat): seq<string>
    requires i < |raised|
  {
    Recipients(c.known, NotifiersFor(c.routing, TypeName(raised[i].a.alert.alertType)))
  }

  function Deliveries(i: nat, names: seq<string>): seq<Delivery> {
    seq(|names|, k requires 0 <= k < |names| => Delivery(i, names[k]))
  }

  /** The deliveries due for the first n alerts. */
  function Due(c: Setup, raised: seq<Raised>, n: nat): seq<Delivery>
    requires n <= |raised|
  {
    if n == 0 then []
    else
      var names := RecipientsOf(c, raised, n - 1);
      Due(c, raised, n - 1) + Deliveries(n - 1, names)
  }

  function DeliveryOf(sender: Sender): Delivery {
    Delivery(sender.alert, sender.notifier)
  }

  /** The sends that have not made their record yet. */
  function InFlight(senders: seq<Sender>): nat {
    if senders == [] then 0
    else InFlight(senders[..|senders| - 1]) + if senders[|senders| - 1].phase.Logged? then 0 else 1
  }

  predicate SendsInv(c: Setup, s: State) {
    && s.dispatched <= |s.raised|
    && |s.senders| == |Due(c, s.raised, s.dispatched)|
    && (forall k | 0 <= k < |s.senders| :: DeliveryOf(s.senders[k]) == Due(c, s.raised, s.dispatched)[k])
    && InFlight(s.senders) + |s.loggedBy| == |s.senders|
  }

  lemma {:induction false} InFlightAppend(senders: seq<Sender>, more: seq<Sender>)
    requires forall x | x in more :: !x.phase.Logged?
    ensures InFlight(senders + more) == InFlight(senders) + |more|
  {
    if more == [] {
      assert senders + more == senders;
    } else {
      assert (senders + more)[..|senders + more| - 1] == senders + more[..|more| - 1];
      InFlightAppend(senders, more[..|more| - 1]);
    }
  }

  lemma {:induction false} InFlightUpdate(senders: seq<Sender>, k: nat, x: Sender)
    requires k < |senders| && !senders[k].phase.Logged?
    ensures InFlight(senders[k := x]) == InFlight(senders) - if x.phase.Logged? then 1 else 0
  {
    var init := senders[..|senders| - 1];
    if k == |init| {
      assert senders[k := x][..|init|] == init;
    } else {
      assert senders[k := x][..|init|] == init[k := x];
      InFlightUpdate(init, k, x);
    }
  }

  lemma {:induction false} DueFrame(c: Setup, raised: seq<Raised>, more: seq<Raised>, n: nat)
    requires n <= |raised|
    ensures Due(c, raised + more, n) == Due(c, raised, n)
  {
    if n == 0 {
    } else {
      DueFrame(c, raised, more, n - 1);
      assert (raised + more)[n - 1] == raised[n - 1];
    }
  }

  lemma DispatchKeepsSends(c: Setup, s: State)
    requires SendsInv(c, s) && Enabled(c, s, ConsumerDispatches)
    ensures SendsInv(c, Apply(c, s, ConsumerDispatches))
  {
    hide TypeName, Recipients, InFlight;
    InFlightAppend(s.senders, NewSenders(c, s));
  }

  /** A step of one send: its delivery stays, and it is in flight until it has made its record. */
  lemma SenderKeepsSends(c: Setup, s: State, t: State, k: nat, x: Sender)
    requires SendsInv(c, s) && k < |s.senders| && !s.senders[k].phase.Logged?
    requires DeliveryOf(x) == DeliveryOf(s.senders[k])
    requires t.senders == s.senders[k := x] && t.raised == s.raised && t.dispatched == s.dispatched
    requires |t.loggedBy| == |s.loggedBy| + if x.phase.Logged? then 1 else 0
    ensures SendsInv(c, t)
  {
    hide Due, InFlight;
    InFlightUpdate(s.senders, k, x);
  }

  lemma SendsStep(c: Setup, s: State, a: Action)
    requires SendsInv(c, s) && Enabled(c, s, a)
    ensures SendsInv(c, Apply(c, s, a))
  {
    hide DecideAlerts, NewState, TypeName, Recipients, InFlight;
    var t := Apply(c, s, a);
    hide Due;
    if a.ConsumerDispatches? {
      DispatchKeepsSends(c, s);
    } else if a.ConsumerDecides? {
      DueFrame(c, s.raised, t.raised[|s.raised|..], s.dispatched);
      assert t.raised == s.raised + t.raised[|s.raised|..];
    } else if a.NotifyReturns? || a.RetryStarts? || a.SendGivesUp? || a.SendIsStamped? || a.SendIsLogged? {
      SenderKeepsSends(c, s, t, a.k, t.senders[a.k]);
    }
  }

  lemma {:induction false} SendsAlways(c: Setup, states: seq<State>, actions: seq<Action>, i: nat)
    requires IsRun(c, states, actions) && i < |states|
    ensures SendsInv(c, states[i])
  {
    if i == 0 {
    } else {
      SendsAlways(c, states, actions, i - 1);
      SendsStep(c, states[i - 1], actions[i - 1]);
    }
  }

  /**
   In every reachable state the sends are, one for one and in order, the recipients of the
   dispatched alerts; those still in flight and the records made add up to them. Records are
   numbered from 1 in log order; each one belongs to its own send, which made one or two
   Notify calls (a second only after a failure) and counts as sent exactly when one succeeded.
   */
  lemma SendsAreConserved(c: Setup, s: State)
    requires Reachable(c, s)
    ensures s.dispatched <= |s.raised| && |s.senders| == |Due(c, s.raised, s.dispatched)|
    ensures forall k | 0 <= k < |s.senders| :: DeliveryOf(s.senders[k]) == Due(c, s.raised, s.dispatched)[k]
    ensures |s.store.alerts| - |s.start.alerts| + InFlight(s.senders) == |Due(c, s.raised, s.dispatched)|
    ensures forall i | 0 <= i < |s.store.alerts| :: s.store.alerts[i].id == i + 1
    ensures |s.loggedBy| == |s.store.alerts| - |s.start.alerts|
    ensures forall j | 0 <= j < |s.loggedBy| ::
              && s.loggedBy[j] < |s.senders|
              && CallsGive(s.senders[s.loggedBy[j]].calls, s.store.alerts[|s.start.alerts| + j].status)
    ensures forall i, j | 0 <= i < j < |s.loggedBy| :: s.loggedBy[i] != s.loggedBy[j]
  {
    hide DecideAlerts, TypeName, Recipients;
    var states, actions :| IsRun(c, states, actions) && states[|states| - 1] == s;
    SendsAlways(c, states, actions, |states| - 1);
    LogReachable(c, s);
    forall j | 0 <= j < |s.loggedBy|
      ensures s.loggedBy[j] < |s.senders| && s.senders[s.loggedBy[j]].phase == Logged(j)
      ensures CallsGive(s.senders[s.loggedBy[j]].calls, s.store.alerts[|s.start.alerts| + j].status)
    {
      assert RecordOK(s, j);
    }
  }

  /** The setup that main makes of a configuration; its store is the one on SQLite. */
  function SetupOf(c: Settings, backend: Backend): Setup {
    Setup(JobsOf(c, c.sites, true, true), Thresholds(c.sslWarnDays, c.domainWarnDays), c.routing,
        Buildable(c.notifiers),
          DomainCheck.CACHE_TTL, backend)
  }

  /** The notifiers that one alert's sends go to, in the order of the sends. */
  function SentTo(senders: seq<Sender>, i: nat): seq<string> {
    if senders == [] then []
    else
      var last := senders[|senders| - 1];
      SentTo(senders[..|senders| - 1], i) + if last.alert == i then [last.notifier] else []
  }

  function NamesDue(due: seq<Delivery>, i: nat): seq<string> {
    if due == [] then []
    else
      var last := due[|due| - 1];
      NamesDue(due[..|due| - 1], i) + if last.alert == i then [last.notifier] else []
  }

  lemma {:induction false} NamesDueAppend(a: seq<Delivery>, b: seq<Delivery>, i: nat)
    ensures NamesDue(a + b, i) == NamesDue(a, i) + NamesDue(b, i)
  {
    if b == [] {
      assert a + b == a;
    } else {
      assert (a + b)[..|a + b| - 1] == a + b[..|b| - 1];
      NamesDueAppend(a, b[..|b| - 1], i);
    }
  }

  lemma {:induction false} NamesOfOne(names: seq<string>, n: nat, i: nat)
    ensures NamesDue(Deliveries(n, names), i) == if i == n then names else []
  {
    var due := Deliveries(n, names);
    if names == [] {
    } else {
      var init := names[..|names| - 1];
      NamesOfOne(init, n, i);
      assert due[..|due| - 1] == Deliveries(n, init);
      assert names == init + [names[|names| - 1]];
    }
  }

  lemma NothingDue(i: nat)
    ensures NamesDue([], i) == []
  {
  }

  /** What is due for an alert are its recipients. */
  lemma {:induction false} DueNames(c: Setup, raised: seq<Raised>, n: nat, i: nat)
    requires n <= |raised| && i < |raised|
    ensures NamesDue(Due(c, raised, n), i) == if i < n then RecipientsOf(c, raised, i) else []
  {
    hide RecipientsOf, Deliveries, NamesDue;
    if n == 0 {
      NothingDue(i);
    } else {
      var names := RecipientsOf(c, raised, n - 1);
      DueNames(c, raised, n - 1, i);
      NamesDueAppend(Due(c, raised, n - 1), Deliveries(n - 1, names), i);
      NamesOfOne(names, n - 1, i);
    }
  }

  lemma {:induction false} SentAsDue(senders: seq<Sender>, due: seq<Delivery>, i: nat)
    requires |senders| == |due| && forall k | 0 <= k < |senders| :: DeliveryOf(senders[k]) == due[k]
    ensures SentTo(senders, i) == NamesDue(due, i)
  {
    if senders == [] {
    } else {
      var n := |senders| - 1;
      assert DeliveryOf(senders[n]) == due[n];
      SentAsDue(senders[..n], due[..n], i);
    }
  }

  /**
   In every reachable state the sends of a dispatched alert go, in order, to the known ones of the
   names that the configuration gives for the alert's group.
   */
  lemma SendersByGroup(c: Setup, s: State, i: nat, group: string)
    requires Reachable(c, s) && i < s.dispatched <= |s.raised| && InGroup(s.raised[i].a.alert.alertType, group)
    ensures SentTo(s.senders, i) == Recipients(c.known, GroupNames(c.routing, group))
  {
    hide Recipients, Due, SentTo, NamesDue, Reachable;
    SendsAreConserved(c, s);
    SentAsDue(s.senders, Due(c, s.raised, s.dispatched), i);
    DueNames(c, s.raised, s.dispatched, i);
  }

  /** With a validated configuration every routed recipient of every alert is sent to: nobody is skipped as unknown. */
  lemma EveryRoutedRecipient(c: Settings, backend: Backend, raised: seq<Raised>, i: nat)
    requires Valid(c) && i < |raised|
    ensures RecipientsOf(SetupOf(c, backend), raised, i)
              == NotifiersFor(c.routing, TypeName(raised[i].a.alert.alertType))
    ensures forall group | InGroup(raised[i].a.alert.alertType, group) ::
              RecipientsOf(SetupOf(c, backend), raised, i) == GroupNames(c.routing, group)
  {
    RoutingIsTotal(c, raised[i].a.alert.alertType);
    NobodySkipped(Buildable(c.notifiers), NotifiersFor(c.routing, TypeName(raised[i].a.alert.alertType)));
  }

  /** A validated configuration with positive SSL and domain intervals makes a setup the monitor can run on. */
  lemma ValidConfigGivesSetup(c: Settings, backend: Backend)
    requires Valid(c) && c.sslCheckInterval > 0 && c.domainCheckInterval > 0
    ensures ValidSetup(SetupOf(c, backend))
    ensures SetupOf(c, backend).cacheTTL == 6 * 3600 * 1_000_000_000
  {
    JobsAreDistinct(c, c.sites, true, true);
    JobsHaveIntervals(c, c.sites);
  }

  lemma {:induction false} JobsHaveIntervals(c: Settings, sites: seq<Site>)
    requires c.sslCheckInterval > 0 && c.domainCheckInterval > 0
    requires forall s | s in sites :: SiteOK(s)
    ensures forall job | job in JobsOf(c, sites, true, true) :: job.interval > 0 && job.site != ""
              && job.check != OtherCheck
  {
    if sites == [] {
    } else {
      var init, site := sites[..|sites| - 1], sites[|sites| - 1];
      assert site in sites && forall s | s in init :: s in sites;
      JobsHaveIntervals(c, init);
    }
  }
}
