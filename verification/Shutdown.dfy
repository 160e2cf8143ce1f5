/** After the context ends: every step of the scheduler uses up rank, and none of them can be stuck. */
module Shutdown {
  import opened Types
  import opened Backends
  import opened Alerting
  import opened System
  import opened Queue

  /** A step of worker w. */
  predicate IsStepOf(a: Action, w: nat) {
    (IsWorkerStep(a) || a.ResultIsSent?) && a.w == w
  }

  predicate IsConsumerStep(a: Action) {
    a.ConsumerTakes? || a.ConsumerStarts? || a.ConsumerReadsCache? || a.ConsumerDecides?
    || a.ConsumerStores? || a.ConsumerDispatches? || a.ConsumerReturns? || a.ConsumerExits?
  }

  /** The steps of the workers and the consumer; the others are the clock, the cancellation and the senders. */
  predicate IsSchedulerStep(a: Action) {
    IsWorkerStep(a) || a.ResultIsSent? || IsConsumerStep(a)
  }

  predicate AllExited(s: State) {
    (forall w | 0 <= w < |s.workers| :: s.workers[w].phase.Exited?) && s.consumer.Gone?
  }

  /** A result in the channel is worth the steps the consumer spends on it. */
  const ITEM_RANK := 8

  function PhaseRank(s: State, p: Phase): nat {
    match p
    case Parked(_) => if TooLate(s, p) then 1 else 13
    case Checking(_) => 12
    case LookingUp(_, _, _) => 11
    case Sending(_, _) => 10
    case Exited => 0
  }

  function WorkersRank(s: State, n: nat): nat
    requires n <= |s.workers|
  {
    if n == 0 then 0 else WorkersRank(s, n - 1) + PhaseRank(s, s.workers[n - 1].phase)
  }

  /** Raised alerts whose sends are not spawned yet. */
  function Undispatched(s: State): nat {
    if s.dispatched <= |s.raised| then |s.raised| - s.dispatched else 0
  }

  function ConsumerRank(s: State): nat {
    match s.consumer
    case Idle => 1
    case Holding(_) => 8
    case Started(_, _, _) => 7
    case WithCache(_, _, _, _, _) => 6
    case Decided(_, _) => 3 + Undispatched(s)
    case Dispatching => 2 + Undispatched(s)
    case Gone => 0
  }

  function Rank(s: State): nat {
    WorkersRank(s, |s.workers|) + ITEM_RANK * |s.channel| + ConsumerRank(s)
  }

  /** Outside of its dispatch the consumer has nothing left to dispatch, and one result raises at most one alert. */
  predicate NothingPending(s: State) {
    s.dispatched <= |s.raised| && (s.dispatched < |s.raised| ==> s.consumer.Decided? || s.consumer.Dispatching?)
  }

  lemma AtMostOneAlert(c: Setup, prev: SiteState, cache: DomainCache, log: seq<AlertRecord>, r: CheckResult, now: Time)
    ensures |DecideAlerts(c.backend, c.thresholds, prev, cache, log, r, now)| <= 1
  {
    hide CurrentThresholdBand, Durations.FormatDuration, ExpiryKey, Backends.RecentOn, SentAlready;
  }

  lemma PendingStep(c: Setup, s: State, a: Action)
    requires NothingPending(s) && Enabled(c, s, a)
    ensures NothingPending(Apply(c, s, a))
  {
    hide DecideAlerts, NewState, PrevState, NewSenders;
  }

  /** Ranks of the workers that do not move stay; the moving one's changes. */
  lemma {:induction false} WorkersRankFrame(s: State, t: State, w: nat, n: nat)
    requires |s.workers| == |t.workers| && n <= |s.workers| && s.cancelledAt == t.cancelledAt
    requires forall v | 0 <= v < n && v != w :: s.workers[v].phase == t.workers[v].phase
    ensures WorkersRank(t, n) == WorkersRank(s, n)
              + if w < n then PhaseRank(t, t.workers[w].phase) - PhaseRank(s, s.workers[w].phase) else 0
  {
    if n == 0 {
    } else {
      WorkersRankFrame(s, t, w, n - 1);
    }
  }

  lemma WorkerStepUsesRank(c: Setup, s: State, a: Action)
    requires Bounds(c, s) && Cancelled(s) && Enabled(c, s, a) && (IsWorkerStep(a) || a.ResultIsSent?)
    ensures Rank(Apply(c, s, a)) < Rank(s)
  {
    hide DomainCheck.AfterLookup, DomainCheck.Fresh, WorkersRank;
    var t := Apply(c, s, a);
    assert c.jobs[a.w].interval > 0;
    WorkersRankFrame(s, t, a.w, |s.workers|);
  }

  lemma ConsumerStepUsesRank(c: Setup, s: State, a: Action)
    requires Bounds(c, s) && NothingPending(s) && Cancelled(s) && Enabled(c, s, a)
    requires IsSchedulerStep(a) && !IsWorkerStep(a) && !a.ResultIsSent?
    ensures Rank(Apply(c, s, a)) < Rank(s)
  {
    hide DecideAlerts, NewState, PrevState, NewSenders, WorkersRank, PhaseRank;
    var t := Apply(c, s, a);
    WorkersRankFrame(s, t, |s.workers|, |s.workers|);
    if a.ConsumerDecides? {
      var k := s.consumer;
      var cache := if k.WithCache? then k.cache else NO_CACHE;
      AtMostOneAlert(c, k.prev, cache, s.store.alerts, k.item.result, k.now);
    }
  }

  lemma OtherStepKeepsRank(c: Setup, s: State, a: Action)
    requires Cancelled(s) && Enabled(c, s, a) && !IsSchedulerStep(a)
    ensures Rank(Apply(c, s, a)) == Rank(s)
  {
    hide WorkersRank, PhaseRank;
    WorkersRankFrame(s, Apply(c, s, a), |s.workers|, |s.workers|);
  }

  /** A worker that has not exited has a step of its own, whatever the channel holds. */
  lemma WorkerCanStep(c: Setup, s: State, w: nat) returns (a: Action)
    requires Bounds(c, s) && WorkersOK(c, s) && Cancelled(s) && w < |s.workers| && !s.workers[w].phase.Exited?
    ensures Enabled(c, s, a) && IsStepOf(a, w)
  {
    assert WorkerOK(c, s, w);
    match s.workers[w].phase
    case Parked(_) => a := WorkerExits(w);
    case Checking(_) =>
      if c.jobs[w].check == Domain {
        a := HostFails(w, "");
      } else {
        a := CheckEnds(w, BlankResult(c.jobs[w].site, c.jobs[w].check));
      }
    case LookingUp(_, _, _) => a := LookupEnds(w, DomainCheck.NotFound(""), 0);
    case Sending(_, _) => a := ResultIsDropped(w);
  }

  /** The consumer, while it has not exited, has a step of its own. */
  lemma ConsumerCanStep(c: Setup, s: State) returns (a: Action)
    requires Cancelled(s) && !s.consumer.Gone?
    ensures Enabled(c, s, a) && IsConsumerStep(a)
  {
    match s.consumer
    case Idle => a := ConsumerExits;
    case Holding(_) => a := ConsumerStarts;
    case Started(item, _, _) => a := if NeedsCache(item.result) then ConsumerReadsCache else ConsumerDecides;
    case WithCache(_, _, _, _, _) => a := ConsumerDecides;
    case Decided(_, _) => a := ConsumerStores;
    case Dispatching => a := if s.dispatched < |s.raised| then ConsumerDispatches else ConsumerReturns;
  }

  lemma {:induction false} ShutdownInv(c: Setup, states: seq<State>, actions: seq<Action>, i: nat)
    requires IsRun(c, states, actions) && i < |states|
    ensures QueueInv(c, states[i]) && NothingPending(states[i])
  {
    QueueAlways(c, states, actions, i);
    if i == 0 {
    } else {
      ShutdownInv(c, states, actions, i - 1);
      PendingStep(c, states[i - 1], actions[i - 1]);
    }
  }

  /** The scheduler's steps between two points of a run. */
  function SchedulerSteps(actions: seq<Action>, i: nat, j: nat): nat
    requires i <= j <= |actions|
    decreases j - i
  {
    if i == j then 0 else SchedulerSteps(actions, i, j - 1) + if IsSchedulerStep(actions[j - 1]) then 1 else 0
  }

  lemma StepUsesRank(c: Setup, s: State, a: Action)
    requires QueueInv(c, s) && NothingPending(s) && Cancelled(s) && Enabled(c, s, a)
    ensures Cancelled(Apply(c, s, a))
    ensures (if IsSchedulerStep(a) then 1 else 0) + Rank(Apply(c, s, a)) <= Rank(s)
  {
    hide Rank, Apply, Enabled, NothingPending, WorkersOK, ItemsFit, ConsumerOK, Bounds;
    StaysCancelled(c, s, a);
    if IsWorkerStep(a) || a.ResultIsSent? {
      WorkerStepUsesRank(c, s, a);
    } else if IsSchedulerStep(a) {
      ConsumerStepUsesRank(c, s, a);
    } else {
      OtherStepKeepsRank(c, s, a);
    }
  }

  /** Every worker and the consumer, each as long as it has not exited, has a step of its own. */
  ghost predicate NobodyIsStuck(c: Setup, s: State) {
    && (forall w: nat | w < |s.workers| && !s.workers[w].phase.Exited? ::
          exists a :: Enabled(c, s, a) && IsStepOf(a, w))
    && (!s.consumer.Gone? ==> exists a :: Enabled(c, s, a) && IsConsumerStep(a))
  }

  lemma EverybodyCanStep(c: Setup, s: State)
    requires QueueInv(c, s) && Cancelled(s)
    ensures NobodyIsStuck(c, s)
  {
    hide Enabled, IsStepOf, IsConsumerStep;
    forall w: nat | w < |s.workers| && !s.workers[w].phase.Exited?
        ensures exists a :: Enabled(c, s, a) && IsStepOf(a, w) {
      var a := WorkerCanStep(c, s, w);
    }
    if !s.consumer.Gone? {
      var a := ConsumerCanStep(c, s);
    }
  }

  /**
   Shutdown terminates: from a state in which the context has ended, the scheduler takes at most
   Rank more steps, however they interleave with the clock and the senders; and every worker and
   the consumer can take one until it has exited.
   */
  lemma {:induction false} ShutdownTerminates(c: Setup, states: seq<State>, actions: seq<Action>, i: nat, j: nat)
    requires IsRun(c, states, actions) && i <= j < |states| && Cancelled(states[i])
    ensures Cancelled(states[j])
    ensures SchedulerSteps(actions, i, j) + Rank(states[j]) <= Rank(states[i])
    ensures NobodyIsStuck(c, states[j])
    decreases j - i
  {
    hide Rank, Apply, Enabled, Init, QueueInv, NothingPending, IsSchedulerStep, NobodyIsStuck;
    ShutdownInv(c, states, actions, j);
    if i < j {
      ShutdownTerminates(c, states, actions, i, j - 1);
      ShutdownInv(c, states, actions, j - 1);
      StepUsesRank(c, states[j - 1], actions[j - 1]);
    }
    EverybodyCanStep(c, states[j]);
  }

  lemma StaysCancelled(c: Setup, s: State, a: Action)
    requires Cancelled(s) && Enabled(c, s, a)
    ensures Cancelled(Apply(c, s, a))
  {
  }

  /** When everything has exited, what the workers produced is what was handled, in the channel, or dropped. */
  lemma NothingIsLostUnseen(c: Setup, s: State, w: nat)
    requires Reachable(c, s) && AllExited(s) && w < |c.jobs|
    ensures |s.handled| <= |s.taken| && w < |s.workers|
    ensures s.workers[w].made
         == Results(ItemsOf(HandledItems(s), w)) + Results(ItemsOf(s.channel, w)) + s.workers[w].dropped
    ensures |s.workers[w].dropped| <= 1
  {
    ResultsAreConserved(c, s, w);
  }
}
