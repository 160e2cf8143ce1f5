/**
 The timed end-to-end guarantee: if one site's checks end and are processed within that site's
 interval, /healthz is not stale at any instant of any run until the context ends.
 */
module Freshness {
  import opened Types
  import opened MemoryStore
  import opened Config
  import opened Backends
  import opened Alerting
  import opened History
  import opened Scheduler
  import opened Health
  import opened System
  import opened Queue
  import HTTPCheck
  import Sends

  /** The item whose outcome is not stored yet. */
  function Unstored(k: Consumer): seq<Item> {
    match k
    case Decided(item, _) => [item]
    case _ => InHand(k)
  }

  /** The results of one worker that were sent and are not stored yet, oldest first. */
  function Pending(s: State, w: nat): seq<Item> {
    ItemsOf(Unstored(s.consumer) + s.channel, w)
  }

  // ---- the clocks of the stored rows ----

  /** A row's check time is of this process, or still that of the starting store; neither is after t. */
  predicate RowsUpTo(s: State, t: Time) {
    forall name | name in s.store.states ::
      && s.store.states[name].lastCheckAt <= t
      && (s.startedAt <= s.store.states[name].lastCheckAt
          || (name in s.start.states && s.store.states[name].lastCheckAt == s.start.states[name].lastCheckAt))
  }

  /** The starting store comes from the past. */
  predicate OldRows(s: State) {
    forall name | name in s.start.states :: s.start.states[name].lastCheckAt <= s.startedAt
  }

  /** Check times are not after the consumer's own reading of the clock. */
  predicate RowClocks(c: Setup, s: State) {
    && WellKeyed(s.store.states) && RowsUpTo(s, s.now) && ZERO_TIME < s.startedAt <= s.now
    && (forall item | item in Unstored(s.consumer) + s.channel ::
          item.sentAt <= s.now && ResultFits(c, item.worker, item.result))
    && match s.consumer
       case Started(item, now, prev) =>
         item.sentAt <= now <= s.now && s.startedAt <= now && RowsUpTo(s, now) && prev.siteName == item.result.siteName
       case WithCache(item, now, prev, _, _) =>
         item.sentAt <= now <= s.now && s.startedAt <= now && RowsUpTo(s, now) && prev.siteName == item.result.siteName
       case Decided(item, ns) =>
         && ns.siteName == item.result.siteName && item.sentAt <= ns.lastCheckAt <= s.now
         && s.startedAt <= ns.lastCheckAt
         && RowsUpTo(s, ns.lastCheckAt)
       case _ => true
  }

  lemma StatesAreStamped(prev: SiteState, r: CheckResult, now: Time)
    requires r.check != OtherCheck
    ensures NewState(prev, r, now).lastCheckAt == now && NewState(prev, r, now).siteName == prev.siteName
  {
    hide Durations.FormatDuration;
  }

  lemma SendKeepsClocks(c: Setup, s: State, w: nat)
    requires QueueInv(c, s) && RowClocks(c, s) && Enabled(c, s, ResultIsSent(w))
    ensures RowClocks(c, Apply(c, s, ResultIsSent(w)))
  {
    var t := Apply(c, s, ResultIsSent(w));
    assert WorkerOK(c, s, w);
    forall item | item in Unstored(t.consumer) + t.channel
        ensures item.sentAt <= t.now && ResultFits(c, item.worker, item.result) {
      if item in Unstored(s.consumer) + s.channel {
      } else {
        assert item == t.channel[|s.channel|];
      }
    }
  }

  lemma PrevCarriesName(states: map<string, SiteState>, name: string, now: Time)
    requires WellKeyed(states)
    ensures PrevState(states, name, now).siteName == name
  {
  }

  /** What is known of the item that the consumer has. */
  lemma ItemInHand(c: Setup, s: State, item: Item)
    requires RowClocks(c, s) && Unstored(s.consumer) == [item]
    ensures item.sentAt <= s.now && ResultFits(c, item.worker, item.result)
  {
  }

  lemma TakeKeepsClocks(c: Setup, s: State)
    requires RowClocks(c, s) && Enabled(c, s, ConsumerTakes)
    ensures RowClocks(c, Apply(c, s, ConsumerTakes))
  {
    var t := Apply(c, s, ConsumerTakes);
    assert Unstored(t.consumer) + t.channel == Unstored(s.consumer) + s.channel;
  }

  /** The steps from the item in hand to the decision. */
  lemma WorkKeepsClocks(c: Setup, s: State, a: Action)
    requires ValidSetup(c) && RowClocks(c, s) && Enabled(c, s, a)
    requires a.ConsumerStarts? || a.ConsumerReadsCache? || a.ConsumerDecides?
    ensures RowClocks(c, Apply(c, s, a))
  {
    hide DecideAlerts, NewState, PrevState, WellKeyed;
    var t := Apply(c, s, a);
    var item := s.consumer.item;
    ItemInHand(c, s, item);
    assert Unstored(t.consumer) + t.channel == Unstored(s.consumer) + s.channel;
    if a.ConsumerStarts? {
      PrevCarriesName(s.store.states, item.result.siteName, s.now);
    } else if a.ConsumerDecides? {
      StatesAreStamped(s.consumer.prev, item.result, s.consumer.now);
    }
  }

  lemma StoreKeepsClocks(c: Setup, s: State)
    requires RowClocks(c, s) && Enabled(c, s, ConsumerStores)
    ensures RowClocks(c, Apply(c, s, ConsumerStores))
  {
    var t := Apply(c, s, ConsumerStores);
    assert Unstored(s.consumer) + s.channel == [s.consumer.item] + s.channel;
    assert forall item | item in Unstored(t.consumer) + t.channel :: item in Unstored(s.consumer) + s.channel;
  }

  lemma ClocksFrame(c: Setup, s: State, t: State)
    requires RowClocks(c, s)
    requires t.store.states == s.store.states && t.start == s.start && t.startedAt == s.startedAt
    requires t.now >= s.now && t.channel == s.channel
    requires t.consumer == s.consumer || (Unstored(t.consumer) == Unstored(s.consumer) == [] && !t.consumer.Started?
               && !t.consumer.WithCache?)
    ensures RowClocks(c, t)
  {
  }

  lemma ClocksStep(c: Setup, s: State, a: Action)
    requires QueueInv(c, s) && RowClocks(c, s) && Enabled(c, s, a)
    ensures RowClocks(c, Apply(c, s, a))
  {
    if a.ResultIsSent? {
      SendKeepsClocks(c, s, a.w);
    } else if a.ConsumerTakes? {
      TakeKeepsClocks(c, s);
    } else if a.ConsumerStarts? || a.ConsumerReadsCache? || a.ConsumerDecides? {
      WorkKeepsClocks(c, s, a);
    } else if a.ConsumerStores? {
      StoreKeepsClocks(c, s);
    } else {
      hide RowClocks, QueueInv, NewSenders;
      ClocksFrame(c, s, Apply(c, s, a));
    }
  }

  lemma ClocksStart(c: Setup, s: State)
    requires Init(c, s) && OldRows(s)
    ensures RowClocks(c, s)
  {
  }

  lemma StartStays(c: Setup, s: State, a: Action)
    requires Enabled(c, s, a)
    ensures Apply(c, s, a).start == s.start && Apply(c, s, a).startedAt == s.startedAt
  {
    hide DecideAlerts, NewState, PrevState, NewSenders, DomainCheck.AfterLookup, DomainCheck.Fresh;
  }

  lemma {:induction false} ClocksAlways(c: Setup, states: seq<State>, actions: seq<Action>, i: nat)
    requires IsRun(c, states, actions) && i < |states| && OldRows(states[0])
    ensures QueueInv(c, states[i]) && RowClocks(c, states[i])
    ensures states[i].start == states[0].start && states[i].startedAt == states[0].startedAt
  {
    QueueAlways(c, states, actions, i);
    if i == 0 {
      ClocksStart(c, states[0]);
    } else {
      hide Init, Enabled, Apply, RowClocks, QueueInv, OldRows;
      ClocksAlways(c, states, actions, i - 1);
      ClocksStep(c, states[i - 1], actions[i - 1]);
      StartStays(c, states[i - 1], actions[i - 1]);
    }
  }

  // ---- one worker's chain of checks ----

  /** When the worker's current check began, or its next one is due. */
  function NextStart(p: Phase): Time {
    match p
    case Parked(wake) => wake
    case Checking(startedAt) => startedAt
    case LookingUp(startedAt, _, _) => startedAt
    case Sending(startedAt, _) => startedAt
    case Exited => ZERO_TIME
  }

  /** The last time the health check can see of a site: its row's check time, or the start of the process. */
  function SiteRef(s: State, site: string): Time {
    if StateOf(s.store.states, site).lastCheckAt > s.startedAt then StateOf(s.store.states, site).lastCheckAt
        else s.startedAt
  }

  /**
   The oldest unprocessed check began within an interval of `ref`, each later one within an interval of the send
   before it.
   */
  predicate Chain(q: seq<Item>, next: Time, ref: Time, interval: Duration) {
    && (q == [] ==> next <= ref + interval)
    && (q != [] ==> q[0].startedAt <= ref + interval && next <= q[|q| - 1].sentAt + interval)
    && forall i | 0 < i < |q| :: q[i].startedAt <= q[i - 1].sentAt + interval
  }

  predicate ChainInv(c: Setup, s: State, w: nat) {
    w < |s.workers| == |c.jobs| &&
    (!Cancelled(s) ==> Chain(Pending(s, w), NextStart(s.workers[w].phase), SiteRef(s, c.jobs[w].site),
        c.jobs[w].interval))
  }

  /** The worker wakes when its timer is due, and its checks end and are stored within the interval. */
  predicate OnTime(c: Setup, s: State, w: nat)
    requires w < |s.workers| == |c.jobs|
  {
    !Cancelled(s) ==>
      && (s.workers[w].phase.Parked? ==> s.now <= s.workers[w].phase.wake)
      && (!s.workers[w].phase.Parked? ==> s.now <= NextStart(s.workers[w].phase) + c.jobs[w].interval)
      && forall item | item in Pending(s, w) :: s.now <= item.startedAt + c.jobs[w].interval
  }

  lemma TakeKeepsPending(s: State, t: State, w: nat)
    requires Unstored(t.consumer) + t.channel == Unstored(s.consumer) + s.channel
    ensures Pending(t, w) == Pending(s, w)
  {
  }

  lemma SendExtendsPending(s: State, t: State, item: Item, w: nat)
    requires t.consumer == s.consumer && t.channel == s.channel + [item]
    ensures Pending(t, w) == Pending(s, w) + if item.worker == w then [item] else []
  {
    assert Unstored(t.consumer) + t.channel == (Unstored(s.consumer) + s.channel) + [item];
    hide ItemsOf;
    ItemsOfAppend(Unstored(s.consumer) + s.channel, [item], w);
    SingleItem(item, w);
  }

  lemma StoreDropsPending(s: State, t: State, w: nat)
    requires s.consumer.Decided? && t.consumer == Dispatching && t.channel == s.channel
    ensures Pending(s, w) == (if s.consumer.item.worker == w then [s.consumer.item] else []) + Pending(t, w)
  {
    hide ItemsOf;
    ItemsOfAppend([s.consumer.item], s.channel, w);
    SingleItem(s.consumer.item, w);
    assert Unstored(t.consumer) + t.channel == t.channel;
  }

  lemma ChainLater(q: seq<Item>, next: Time, ref: Time, later: Time, interval: Duration)
    requires Chain(q, next, ref, interval) && ref <= later
    ensures Chain(q, next, later, interval)
  {
  }

  /** Sending the result of the current check: the next one is due an interval after the send. */
  lemma ChainExtended(q: seq<Item>, item: Item, ref: Time, interval: Duration)
    requires Chain(q, item.startedAt, ref, interval)
    ensures Chain(q + [item], item.sentAt + interval, ref, interval)
  {
  }

  lemma SameRef(s: State, t: State, site: string)
    requires t.store.states == s.store.states && t.startedAt == s.startedAt
    ensures SiteRef(t, site) == SiteRef(s, site)
  {
  }

  lemma ChainTail(item: Item, rest: seq<Item>, next: Time, ref: Time, later: Time, interval: Duration)
    requires Chain([item] + rest, next, ref, interval) && item.sentAt <= later
    ensures Chain(rest, next, later, interval)
  {
    var q := [item] + rest;
    assert forall i | 0 <= i < |rest| :: rest[i] == q[i + 1];
    if rest != [] {
      assert q[1].startedAt <= q[0].sentAt + interval;
    }
  }

  lemma StoredRowOf(c: Setup, s: State, w: nat)
    requires RowClocks(c, s) && Enabled(c, s, ConsumerStores) && w < |c.jobs|
    ensures var t := Apply(c, s, ConsumerStores);
            && SiteRef(s, c.jobs[w].site) <= SiteRef(t, c.jobs[w].site)
            && (s.consumer.item.worker == w ==> s.consumer.item.sentAt <= SiteRef(t, c.jobs[w].site))
  {
    ItemInHand(c, s, s.consumer.item);
  }

  /** Storing the outcome of the oldest pending check moves the reference past its send. */
  lemma StoreKeepsChain(c: Setup, s: State, w: nat)
    requires QueueInv(c, s) && RowClocks(c, s) && ChainInv(c, s, w) && Enabled(c, s, ConsumerStores)
    ensures ChainInv(c, Apply(c, s, ConsumerStores), w)
  {
    hide QueueInv, RowClocks, Chain, SiteRef, Pending;
    var t := Apply(c, s, ConsumerStores);
    StoreDropsPending(s, t, w);
    StoredRowOf(c, s, w);
    if !Cancelled(s) {
      var item, rest, next, site := s.consumer.item, Pending(t, w), NextStart(s.workers[w].phase), c.jobs[w].site;
      if item.worker == w {
        ChainTail(item, rest, next, SiteRef(s, site), SiteRef(t, site), c.jobs[w].interval);
      } else {
        assert Pending(s, w) == rest;
        ChainLater(rest, next, SiteRef(s, site), SiteRef(t, site), c.jobs[w].interval);
      }
    }
  }

  lemma SendKeepsChain(c: Setup, s: State, w: nat, v: nat)
    requires QueueInv(c, s) && ChainInv(c, s, w) && Enabled(c, s, ResultIsSent(v))
    ensures ChainInv(c, Apply(c, s, ResultIsSent(v)), w)
  {
    hide QueueInv, Pending, Chain, SiteRef;
    var t := Apply(c, s, ResultIsSent(v));
    var item := t.channel[|s.channel|];
    SendExtendsPending(s, t, item, w);
    if v == w && !Cancelled(s) {
      ChainExtended(Pending(s, w), item, SiteRef(s, c.jobs[w].site), c.jobs[w].interval);
      assert SiteRef(t, c.jobs[w].site) == SiteRef(s, c.jobs[w].site) by { SameRef(s, t, c.jobs[w].site); }
    } else if !Cancelled(s) {
      assert Pending(t, w) == Pending(s, w);
      SameRef(s, t, c.jobs[w].site);
    }
  }

  lemma ChainSooner(q: seq<Item>, next: Time, sooner: Time, ref: Time, interval: Duration)
    requires Chain(q, next, ref, interval) && sooner <= next
    ensures Chain(q, sooner, ref, interval)
  {
  }

  /** While the worker is on time its steps do not put its next check off, but for the send. */
  lemma NotLaterDue(c: Setup, s: State, a: Action, w: nat)
    requires Bounds(c, s) && w < |c.jobs| && Enabled(c, s, a) && !a.ConsumerStores? && !a.ResultIsSent?
    requires OnTime(c, s, w) && !Cancelled(s) && !Cancelled(Apply(c, s, a))
    ensures w < |Apply(c, s, a).workers| && NextStart(Apply(c, s, a).workers[w].phase) <= NextStart(s.workers[w].phase)
  {
    hide Pending, DecideAlerts, NewState, PrevState, NewSenders, DomainCheck.AfterLookup, DomainCheck.Fresh;
  }

  /** Steps other than the send and the store leave the pending items and the rows alone. */
  lemma OtherFrame(c: Setup, s: State, a: Action)
    requires Enabled(c, s, a) && !a.ConsumerStores? && !a.ResultIsSent?
    ensures var t := Apply(c, s, a);
            && Unstored(t.consumer) + t.channel == Unstored(s.consumer) + s.channel
            && t.store.states == s.store.states && t.startedAt == s.startedAt && |t.workers| == |s.workers|
            && (Cancelled(s) ==> Cancelled(t))
  {
    hide DecideAlerts, NewState, PrevState, NewSenders, DomainCheck.AfterLookup, DomainCheck.Fresh;
  }

  lemma OtherKeepsChain(c: Setup, s: State, a: Action, w: nat)
    requires Bounds(c, s) && ChainInv(c, s, w) && OnTime(c, s, w) && Enabled(c, s, a)
    requires !a.ConsumerStores? && !a.ResultIsSent?
    ensures ChainInv(c, Apply(c, s, a), w)
  {
    var t := Apply(c, s, a);
    OtherFrame(c, s, a);
    hide Chain, Pending, Apply, Enabled, OnTime, SiteRef;
    TakeKeepsPending(s, t, w);
    SameRef(s, t, c.jobs[w].site);
    if !Cancelled(t) {
      NotLaterDue(c, s, a, w);
      ChainSooner(Pending(s, w), NextStart(s.workers[w].phase), NextStart(t.workers[w].phase),
                  SiteRef(s, c.jobs[w].site), c.jobs[w].interval);
    }
  }

  lemma ChainStart(c: Setup, s: State, w: nat)
    requires Init(c, s) && w < |c.jobs|
    ensures ChainInv(c, s, w)
  {
  }

  lemma {:induction false} ChainAlways(c: Setup, states: seq<State>, actions: seq<Action>, i: nat, w: nat)
    requires IsRun(c, states, actions) && i < |states| && OldRows(states[0]) && w < |c.jobs|
    requires forall j | 0 <= j < i :: w < |states[j].workers| == |c.jobs| && OnTime(c, states[j], w)
    ensures ChainInv(c, states[i], w)
  {
    hide Init, Enabled, Apply, ChainInv, OnTime;
    if i == 0 {
      ChainStart(c, states[0], w);
    } else {
      var s, a := states[i - 1], actions[i - 1];
      ChainAlways(c, states, actions, i - 1, w);
      ClocksAlways(c, states, actions, i - 1);
      if a.ConsumerStores? {
        StoreKeepsChain(c, s, w);
      } else if a.ResultIsSent? {
        SendKeepsChain(c, s, w, a.w);
      } else {
        OtherKeepsChain(c, s, a, w);
      }
    }
  }

  /** Two intervals after the site's reference the site has been checked again. */
  lemma WithinTwoIntervals(c: Setup, s: State, w: nat)
    requires ChainInv(c, s, w) && OnTime(c, s, w) && !Cancelled(s) && c.jobs[w].interval > 0
    ensures s.now <= SiteRef(s, c.jobs[w].site) + 2 * c.jobs[w].interval
  {
  }

  /** No configured site has a check time in the starting store. */
  predicate NeverChecked(states: map<string, SiteState>, sites: seq<Site>) {
    forall s | s in sites && s.name in states :: states[s.name].lastCheckAt == ZERO_TIME
  }

  /**
   Starting at the health server's start time: if one site's HTTP worker is on time in every
   state so far, then in each of them before the context ends the health check is stale only
   while the newest check time is from before the start. From a store without check times, an
   empty one for instance, it is never stale.
   */
  lemma NeverStale(c: Setup, states: seq<State>, actions: seq<Action>, i: nat, w: nat, sites: seq<Site>, site: Site)
    requires IsRun(c, states, actions) && i < |states| && OldRows(states[0])
    requires w < |c.jobs| && c.jobs[w].check == HTTP && site in sites
    requires c.jobs[w].site == site.name && c.jobs[w].interval == site.interval
    requires forall j | 0 <= j <= i :: w < |states[j].workers| == |c.jobs| && OnTime(c, states[j], w)
    requires !Cancelled(states[i])
    ensures IsStale(sites, states[i].store.states, states[i].startedAt, states[i].now)
            ==> ZERO_TIME < LatestCheck(states[i].store.states, sites) < states[i].startedAt
    ensures NeverChecked(states[0].start.states, sites)
            ==> !IsStale(sites, states[i].store.states, states[i].startedAt, states[i].now)
  {
    hide ItemsOf, Init, Enabled, Apply, ChainInv, OnTime;
    var s := states[i];
    ChainAlways(c, states, actions, i, w);
    ClocksAlways(c, states, actions, i);
    assert c.jobs[w].interval > 0;
    WithinTwoIntervals(c, s, w);
    var latest := LatestCheck(s.store.states, sites);
    assert site.interval <= MaxInterval(sites);
    if latest != ZERO_TIME {
      var other :| other in sites && other.name in s.store.states && s.store.states[other.name].lastCheckAt == latest;
      assert RowsUpTo(s, s.now);
      assert NeverChecked(s.start.states, sites) ==> s.startedAt <= latest;
    }
  }

  // ---- being on time, from the length of the checks ----

  /**
   No queueing delay: time passes only while the worker is parked or checking with nothing
   pending, and then not past its timer, nor past `bound` from the start of the check.
   */
  predicate Undelayed(c: Setup, s: State, a: Action, w: nat, bound: Duration)
    requires w < |s.workers| == |c.jobs|
  {
    a.TimePasses? && !Cancelled(s) ==>
      && Pending(s, w) == []
      && match s.workers[w].phase
         case Parked(wake) => s.now + a.d <= wake
         case Checking(startedAt) => s.now + a.d <= startedAt + bound
         case LookingUp(startedAt, _, _) => s.now + a.d <= startedAt + bound
         case _ => false
  }

  predicate InTime(c: Setup, s: State, w: nat, bound: Duration)
    requires w < |s.workers| == |c.jobs|
  {
    !Cancelled(s) ==>
      && (s.workers[w].phase.Parked? ==> s.now <= s.workers[w].phase.wake)
      && (!s.workers[w].phase.Parked? && !s.workers[w].phase.Exited? ==> s.now <= NextStart(s.workers[w].phase) + bound)
      && forall item | item in Pending(s, w) :: s.now <= item.startedAt + bound
  }

  lemma SendInTime(c: Setup, s: State, v: nat, w: nat, bound: Duration)
    requires Bounds(c, s) && w < |c.jobs| && bound >= 0 && Enabled(c, s, ResultIsSent(v)) && InTime(c, s, w, bound)
    ensures InTime(c, Apply(c, s, ResultIsSent(v)), w, bound)
  {
    hide ItemsOf, Pending;
    var t := Apply(c, s, ResultIsSent(v));
    SendExtendsPending(s, t, t.channel[|s.channel|], w);
  }

  lemma StoreInTime(c: Setup, s: State, w: nat, bound: Duration)
    requires Bounds(c, s) && w < |c.jobs| && Enabled(c, s, ConsumerStores) && InTime(c, s, w, bound)
    ensures InTime(c, Apply(c, s, ConsumerStores), w, bound)
  {
    hide ItemsOf, Pending;
    StoreDropsPending(s, Apply(c, s, ConsumerStores), w);
  }

  lemma OtherInTime(c: Setup, s: State, a: Action, w: nat, bound: Duration)
    requires Bounds(c, s) && w < |c.jobs| && bound >= 0 && Enabled(c, s, a)
    requires InTime(c, s, w, bound) && Undelayed(c, s, a, w, bound) && !a.ResultIsSent? && !a.ConsumerStores?
    ensures w < |Apply(c, s, a).workers| == |c.jobs| && InTime(c, Apply(c, s, a), w, bound)
  {
    hide ItemsOf, DecideAlerts, NewState, PrevState, NewSenders, DomainCheck.AfterLookup, DomainCheck.Fresh, Pending;
    OtherFrame(c, s, a);
    TakeKeepsPending(s, Apply(c, s, a), w);
  }

  lemma InTimeStep(c: Setup, s: State, a: Action, w: nat, bound: Duration)
    requires Bounds(c, s) && w < |c.jobs| && bound >= 0 && Enabled(c, s, a)
    requires InTime(c, s, w, bound) && Undelayed(c, s, a, w, bound)
    ensures w < |Apply(c, s, a).workers| == |c.jobs| && InTime(c, Apply(c, s, a), w, bound)
  {
    hide InTime, Undelayed;
    if a.ResultIsSent? {
      SendInTime(c, s, a.w, w, bound);
    } else if a.ConsumerStores? {
      StoreInTime(c, s, w, bound);
    } else {
      OtherInTime(c, s, a, w, bound);
    }
  }

  lemma {:induction false} InTimeAlways(c: Setup, states: seq<State>, actions: seq<Action>, i: nat, w: nat,
      bound: Duration)
    requires IsRun(c, states, actions) && i < |states| && w < |c.jobs| && bound >= 0
    requires forall j | 0 <= j < i :: w < |states[j].workers| == |c.jobs|
               && Undelayed(c, states[j], actions[j], w, bound)
    ensures w < |states[i].workers| == |c.jobs| && InTime(c, states[i], w, bound)
  {
    if i == 0 {
      assert Unstored(states[0].consumer) + states[0].channel == [];
    } else {
      hide Init, Enabled, Apply, InTime, Undelayed;
      InTimeAlways(c, states, actions, i - 1, w, bound);
      QueueAlways(c, states, actions, i - 1);
      InTimeStep(c, states[i - 1], actions[i - 1], w, bound);
    }
  }

  /** Checks that take at most the interval, with no queueing delay, are on time. */
  lemma UndelayedIsOnTime(c: Setup, states: seq<State>, actions: seq<Action>, i: nat, w: nat, bound: Duration)
    requires IsRun(c, states, actions) && i < |states| && w < |c.jobs| && 0 <= bound <= c.jobs[w].interval
    requires forall j | 0 <= j < i :: w < |states[j].workers| == |c.jobs|
               && Undelayed(c, states[j], actions[j], w, bound)
    ensures w < |states[i].workers| == |c.jobs| && OnTime(c, states[i], w)
  {
    hide Apply, Enabled, ItemsOf;
    InTimeAlways(c, states, actions, i, w, bound);
    QueueAlways(c, states, actions, i);
    assert WorkerOK(c, states[i], w);
  }

  /** So much of a check can have passed: some outcomes of its attempts make it last as long or longer. */
  ghost predicate AttemptsTake(site: Site, backoff: Duration, spent: Duration)
    requires site.retries >= 0
  {
    exists script | HTTPCheck.Script(site, script) :: spent <= HTTPCheck.Elapsed(site, backoff, script)
  }

  /**
   No queueing delay for an HTTP worker: time passes only while it is parked or checking with
   nothing pending, not past its timer, and while it is checking not longer than the attempts
   and pauses of the retry loop take.
   */
  ghost predicate HTTPUndelayed(c: Setup, s: State, a: Action, w: nat, site: Site, backoff: Duration)
    requires w < |s.workers| == |c.jobs| && site.retries >= 0
  {
    a.TimePasses? && !Cancelled(s) ==>
      && Pending(s, w) == []
      && match s.workers[w].phase
         case Parked(wake) => s.now + a.d <= wake
         case Checking(startedAt) => AttemptsTake(site, backoff, s.now + a.d - startedAt)
         case _ => false
  }

  /** The retry loop's longest check bounds the delay. */
  lemma AttemptsBoundTheDelay(c: Setup, s: State, a: Action, w: nat, site: Site, backoff: Duration)
    requires w < |s.workers| == |c.jobs| && HTTPCheck.Checkable(site, backoff)
    requires HTTPUndelayed(c, s, a, w, site, backoff)
    ensures Undelayed(c, s, a, w, HTTPCheck.WorstElapsed(site, backoff))
  {
    hide Pending, HTTPCheck.WorstElapsed, HTTPCheck.Elapsed;
    if a.TimePasses? && !Cancelled(s) && s.workers[w].phase.Checking? {
      var script :| HTTPCheck.Script(site, script)
                    && s.now + a.d - s.workers[w].phase.startedAt <= HTTPCheck.Elapsed(site, backoff, script);
      HTTPCheck.WorstIsUpperBound(site, backoff, script);
    }
  }

  /** The configuration and the site whose HTTP worker the health check relies on. */
  predicate Relied(settings: Settings, backoff: Duration, n: nat) {
    && Valid(settings) && settings.sslCheckInterval > 0 && settings.domainCheckInterval > 0
    && backoff > 0 && n < |settings.sites|
    && HTTPCheck.Checkable(settings.sites[n], backoff)
    && HTTPCheck.WorstElapsed(settings.sites[n], backoff) <= settings.sites[n].interval
  }

  /**
   From the configuration to the health check: for a validated configuration, with any site
   whose longest possible check is no longer than its interval, a run in which that site's HTTP
   worker is not delayed beyond its own attempts and pauses is never stale before the context
   ends, when it starts without earlier check times.
   */
  lemma ConfiguredSiteStaysFresh(settings: Settings, backend: Backend, backoff: Duration, n: nat,
                                 states: seq<State>, actions: seq<Action>, i: nat)
    requires Relied(settings, backoff, n)
    requires IsRun(Sends.SetupOf(settings, backend), states, actions) && i < |states|
    requires OldRows(states[0]) && NeverChecked(states[0].start.states, settings.sites)
    requires var c, w := Sends.SetupOf(settings, backend), HTTPWorker(settings, settings.sites, true, true, n);
             forall j | 0 <= j < i ::
               && w < |states[j].workers| == |c.jobs|
               && HTTPUndelayed(c, states[j], actions[j], w, settings.sites[n], backoff)
    requires !Cancelled(states[i])
    ensures !IsStale(settings.sites, states[i].store.states, states[i].startedAt, states[i].now)
  {
    hide Init, Enabled, Apply, Undelayed, HTTPUndelayed, OnTime, IsStale, HTTPCheck.WorstElapsed, HTTPWorker, OldRows,
         NeverChecked, Cancelled, Sends.SetupOf;
    SetupJobs(settings, backend);
    var c, w := Sends.SetupOf(settings, backend), HTTPWorker(settings, settings.sites, true, true, n);
    var site := settings.sites[n];
    var bound := HTTPCheck.WorstElapsed(site, backoff);
    HTTPWorkerOf(settings, settings.sites, true, true, n);
    WorstIsPositive(site, backoff);
    forall j | 0 <= j < i ensures w < |states[j].workers| == |c.jobs| && Undelayed(c, states[j], actions[j], w, bound) {
      AttemptsBoundTheDelay(c, states[j], actions[j], w, site, backoff);
    }
    forall j | 0 <= j <= i ensures w < |states[j].workers| == |c.jobs| && OnTime(c, states[j], w) {
      UndelayedIsOnTime(c, states, actions, j, w, bound);
    }
    NeverStale(c, states, actions, i, w, settings.sites, site);
  }

  lemma SetupJobs(settings: Settings, backend: Backend)
    ensures Sends.SetupOf(settings, backend).jobs == JobsOf(settings, settings.sites, true, true)
  {
  }

  lemma WorstIsPositive(site: Site, backoff: Duration)
    requires HTTPCheck.Checkable(site, backoff)
    ensures HTTPCheck.WorstElapsed(site, backoff) >= 0
  {
  }
}
