/** Conservation and order of results, from the worker that produced them to the consumer. */
module Queue {
  import opened Types
  import opened Scheduler
  import opened DomainCheck
  import opened System

  /** The items that came from one worker, in order. */
  function ItemsOf(items: seq<Item>, w: nat): (r: seq<Item>)
    ensures forall i | 0 <= i < |r| :: r[i].worker == w && r[i] in items
  {
    if items == [] then []
    else
      var init, last := items[..|items| - 1], items[|items| - 1];
      assert items == init + [last];
      ItemsOf(init, w) + if last.worker == w then [last] else []
  }

  function Results(items: seq<Item>): seq<CheckResult> {
    seq(|items|, i requires 0 <= i < |items| => items[i].result)
  }

  lemma {:induction false} ItemsOfAppend(a: seq<Item>, b: seq<Item>, w: nat)
    ensures ItemsOf(a + b, w) == ItemsOf(a, w) + ItemsOf(b, w)
  {
    if b == [] {
      assert a + b == a;
    } else {
      assert (a + b)[..|a + b| - 1] == a + b[..|b| - 1];
      ItemsOfAppend(a, b[..|b| - 1], w);
    }
  }

  /** The result a worker is holding at its send. */
  function Held(worker: Worker): seq<CheckResult> {
    if worker.phase.Sending? then [worker.phase.result] else []
  }

  /** The channel item that the consumer is still working on. */
  function InHand(k: Consumer): seq<Item> {
    match k
    case Holding(item) => [item]
    case Started(item, _, _) => [item]
    case WithCache(item, _, _, _, _) => [item]
    case _ => []
  }

  predicate ResultFits(c: Setup, w: nat, r: CheckResult) {
    w < |c.jobs| && r.siteName == c.jobs[w].site && r.check == c.jobs[w].check
  }

  /** Once the context has ended, a timer set afterwards is never seen to fire. */
  predicate TooLate(s: State, p: Phase) {
    p.Exited? || (p.Parked? && s.cancelledAt.Some? && s.cancelledAt.value < p.wake)
  }

  predicate WorkerOK(c: Setup, s: State, w: nat)
    requires w < |s.workers| == |c.jobs|
  {
    var worker := s.workers[w];
    && worker.made == Results(ItemsOf(s.taken + s.channel, w)) + Held(worker) + worker.dropped
    && (worker.phase.Sending? ==> ResultFits(c, w, worker.phase.result))
    && (worker.phase.LookingUp? ==> c.jobs[w].check == Domain)
    && (worker.dropped != [] ==> |worker.dropped| == 1 && TooLate(s, worker.phase))
    && (worker.phase.Exited? ==> Cancelled(s))
  }

  predicate Bounds(c: Setup, s: State) {
    && ValidSetup(c)
    && |s.workers| == |c.jobs|
    && (s.cancelledAt.Some? ==> s.cancelledAt.value <= s.now)
    && |s.channel| <= ChannelCapacity(|c.jobs|)
  }

  predicate WorkersOK(c: Setup, s: State)
    requires |s.workers| == |c.jobs|
  {
    forall w | 0 <= w < |s.workers| :: WorkerOK(c, s, w)
  }

  predicate ItemsFit(c: Setup, s: State) {
    && (forall i | 0 <= i < |s.taken| :: ResultFits(c, s.taken[i].worker, s.taken[i].result))
    && (forall i | 0 <= i < |s.channel| :: ResultFits(c, s.channel[i].worker, s.channel[i].result))
  }

  /** What the consumer has taken is what it has handled, and then the item in hand. */
  predicate ConsumerOK(s: State) {
    && |s.taken| == |s.handled| + |InHand(s.consumer)|
    && (forall q | 0 <= q < |s.handled| :: s.handled[q].seen.r == s.taken[q].result)
    && (InHand(s.consumer) != [] ==> s.taken[|s.taken| - 1] == InHand(s.consumer)[0])
    && (s.consumer.Decided? ==> s.handled != [] && s.taken[|s.taken| - 1] == s.consumer.item)
  }

  predicate QueueInv(c: Setup, s: State) {
    Bounds(c, s) && WorkersOK(c, s) && ItemsFit(c, s) && ConsumerOK(s)
  }

  lemma InitQueue(c: Setup, s: State)
    requires Init(c, s)
    ensures QueueInv(c, s)
  {
    hide ItemsOf, Results;
    assert s.taken + s.channel == [];
    forall w | 0 <= w < |s.workers| ensures WorkerOK(c, s, w) {
      NoItems(w);
    }
  }

  lemma NoItems(w: nat)
    ensures Results(ItemsOf([], w)) == []
  {
  }

  lemma BoundsStep(c: Setup, s: State, a: Action)
    requires Bounds(c, s) && Enabled(c, s, a)
    ensures Bounds(c, Apply(c, s, a))
  {
    hide Alerting.DecideAlerts, Alerting.NewState, Alerting.PrevState, NewSenders, AfterLookup, Fresh;
  }

  lemma ItemsStep(c: Setup, s: State, a: Action)
    requires QueueInv(c, s) && Enabled(c, s, a)
    ensures ItemsFit(c, Apply(c, s, a))
  {
    hide Alerting.DecideAlerts, Alerting.NewState, Alerting.PrevState, NewSenders, AfterLookup, Fresh, Results, ItemsOf;
    if a.ResultIsSent? {
      assert WorkerOK(c, s, a.w);
    }
  }

  lemma ConsumerStep(c: Setup, s: State, a: Action)
    requires ConsumerOK(s) && Enabled(c, s, a)
    ensures ConsumerOK(Apply(c, s, a))
  {
    hide Alerting.DecideAlerts, Alerting.NewState, Alerting.PrevState, NewSenders, AfterLookup, Fresh;
  }

  lemma SingleItem(item: Item, v: nat)
    ensures ItemsOf([item], v) == if item.worker == v then [item] else []
  {
  }

  lemma OneMoreItem(items: seq<Item>, item: Item, v: nat)
    ensures Results(ItemsOf(items + [item], v))
         == Results(ItemsOf(items, v)) + if item.worker == v then [item.result] else []
  {
  }

  lemma SendKeepsWorkers(c: Setup, s: State, w: nat)
    requires Bounds(c, s) && WorkersOK(c, s) && Enabled(c, s, ResultIsSent(w))
    ensures WorkersOK(c, Apply(c, s, ResultIsSent(w)))
  {
    hide ItemsOf, Results;
    var t := Apply(c, s, ResultIsSent(w));
    var item := Item(w, s.workers[w].phase.result, s.workers[w].phase.startedAt, s.now);
    assert t.taken + t.channel == (s.taken + s.channel) + [item];
    forall v | 0 <= v < |t.workers| ensures WorkerOK(c, t, v) {
      assert WorkerOK(c, s, v);
      OneMoreItem(s.taken + s.channel, item, v);
    }
  }

  predicate IsWorkerStep(a: Action) {
    a.WorkerWakes? || a.CheckEnds? || a.HostFails? || a.CacheIsRead? || a.LookupEnds? || a.ResultIsDropped?
        || a.WorkerExits?
  }

  /** A step of one worker that leaves the channel alone. */
  lemma OwnStepKeepsWorkers(c: Setup, s: State, a: Action)
    requires Bounds(c, s) && WorkersOK(c, s) && Enabled(c, s, a) && IsWorkerStep(a)
    ensures WorkersOK(c, Apply(c, s, a))
  {
    hide Results, ItemsOf, AfterLookup, Fresh, LookupResult;
    var t := Apply(c, s, a);
    assert WorkerOK(c, s, a.w);
    assert WorkerOK(c, t, a.w) by {
      OwnStep(c, s, a);
    }
    forall v | 0 <= v < |t.workers| && v != a.w ensures WorkerOK(c, t, v) {
      assert WorkerOK(c, s, v);
    }
  }

  /** A step that ends with a result at the send, or on the way to it. */
  lemma ProducingStep(c: Setup, s: State, a: Action)
    requires a.CheckEnds? || a.HostFails? || a.CacheIsRead? || a.LookupEnds?
    requires Bounds(c, s) && Enabled(c, s, a) && WorkerOK(c, s, a.w)
    ensures WorkerOK(c, Apply(c, s, a), a.w)
  {
    hide Results, ItemsOf, AfterLookup, Fresh, Bounds;
    assert a.w < |c.jobs|;
  }

  lemma OwnStep(c: Setup, s: State, a: Action)
    requires Bounds(c, s) && Enabled(c, s, a) && IsWorkerStep(a) && WorkerOK(c, s, a.w)
    ensures WorkerOK(c, Apply(c, s, a), a.w)
  {
    hide Results, ItemsOf, AfterLookup, Fresh;
    if a.CheckEnds? || a.HostFails? || a.CacheIsRead? || a.LookupEnds? {
      ProducingStep(c, s, a);
    } else if a.ResultIsDropped? {
      assert s.workers[a.w].dropped == [];
    }
  }

  lemma WorkersStep(c: Setup, s: State, a: Action)
    requires Bounds(c, s) && WorkersOK(c, s) && Enabled(c, s, a)
    ensures Bounds(c, Apply(c, s, a)) && WorkersOK(c, Apply(c, s, a))
  {
    BoundsStep(c, s, a);
    if a.ResultIsSent? {
      SendKeepsWorkers(c, s, a.w);
    } else if IsWorkerStep(a) {
      OwnStepKeepsWorkers(c, s, a);
    } else {
      hide Results, ItemsOf, Alerting.DecideAlerts, Alerting.NewState, Alerting.PrevState, NewSenders;
      var t := Apply(c, s, a);
      assert t.taken + t.channel == s.taken + s.channel;
      forall v | 0 <= v < |t.workers| ensures WorkerOK(c, t, v) {
        assert WorkerOK(c, s, v);
      }
    }
  }

  lemma QueueStep(c: Setup, s: State, a: Action)
    requires QueueInv(c, s) && Enabled(c, s, a)
    ensures QueueInv(c, Apply(c, s, a))
  {
    WorkersStep(c, s, a);
    ItemsStep(c, s, a);
    ConsumerStep(c, s, a);
  }

  lemma {:induction false} QueueAlways(c: Setup, states: seq<State>, actions: seq<Action>, i: nat)
    requires IsRun(c, states, actions) && i < |states|
    ensures QueueInv(c, states[i])
  {
    if i == 0 {
      InitQueue(c, states[0]);
    } else {
      QueueAlways(c, states, actions, i - 1);
      QueueStep(c, states[i - 1], actions[i - 1]);
    }
  }

  lemma QueueReachable(c: Setup, s: State)
    requires Reachable(c, s)
    ensures QueueInv(c, s)
  {
    var states, actions :| IsRun(c, states, actions) && states[|states| - 1] == s;
    QueueAlways(c, states, actions, |states| - 1);
  }

  /** The results of one worker among the handled ones. */
  function HandledItems(s: State): seq<Item>
    requires |s.handled| <= |s.taken|
  {
    s.taken[..|s.handled|]
  }

  /**
   Conservation and order: what a worker has produced is, in order, what was processed, what
   the consumer has in hand, what is in the channel and what the worker holds; before the
   context ends nothing else, and afterwards at most one dropped result. The channel never
   holds more than its capacity, and the consumer handles results in the order it takes them.
   */
  lemma ResultsAreConserved(c: Setup, s: State, w: nat)
    requires Reachable(c, s) && w < |c.jobs|
    ensures |s.channel| <= ChannelCapacity(|c.jobs|)
    ensures w < |s.workers| && |s.handled| <= |s.taken|
    ensures s.workers[w].made
         == Results(ItemsOf(HandledItems(s), w)) + Results(ItemsOf(InHand(s.consumer), w))
            + Results(ItemsOf(s.channel, w)) + Held(s.workers[w]) + s.workers[w].dropped
    ensures forall q | 0 <= q < |s.handled| :: s.handled[q].seen.r == HandledItems(s)[q].result
    ensures |s.workers[w].dropped| <= 1 && (!Cancelled(s) ==> s.workers[w].dropped == [])
  {
    QueueReachable(c, s);
    assert WorkerOK(c, s, w);
    var done, hand := HandledItems(s), InHand(s.consumer);
    assert s.taken == done + hand;
    ItemsOfAppend(s.taken, s.channel, w);
    ItemsOfAppend(done, hand, w);
    ResultsAppend(ItemsOf(done, w), ItemsOf(hand, w));
    ResultsAppend(ItemsOf(s.taken, w), ItemsOf(s.channel, w));
  }

  lemma ResultsAppend(a: seq<Item>, b: seq<Item>)
    ensures Results(a + b) == Results(a) + Results(b)
  {
  }
}
