/**
 The running monitor as a system of interleaved steps: one worker for each job, the bounded
 channel, the single consumer with the alerting engine, the background senders, the clock and
 the cancellation of the context. A step is an action; what the outside world decides (check
 outcomes, lookups, what a notifier returns, how time passes) are the action's arguments.

 The fields below `history` only remember what has happened; no step depends on them.
 */
module System {
  import opened Types
  import opened MemoryStore
  import opened Config
  import opened Backends
  import opened Alerting
  import opened History
  import opened DomainCheck
  import opened Dispatching
  import opened Scheduler

  /** `backend` is the store whose query answers the engine. */
  datatype Setup = Setup(jobs: seq<Job>, thresholds: Thresholds, routing: Routing, known: set<string>,
      cacheTTL: Duration,
                         backend: Backend)

  predicate ValidSetup(c: Setup) {
    && DistinctJobs(c.jobs)
    && forall i | 0 <= i < |c.jobs| :: c.jobs[i].check != OtherCheck && c.jobs[i].interval > 0 && c.jobs[i].site != ""
  }

  /** A result in the channel, with the worker that sent it and when its check began and was sent. */
  datatype Item = Item(worker: nat, result: CheckResult, startedAt: Time, sentAt: Time)

  datatype Phase =
    | Parked(wake: Time)                                                   // at its select, the timer set to `wake`
    | Checking(startedAt: Time)
    | LookingUp(startedAt: Time, checkedAt: Time, cached: DomainCache)     // a domain check past its cache
    | Sending(startedAt: Time, result: CheckResult)
    | Exited

  /** History: the results a worker has produced, and those it dropped at its send. */
  datatype Worker = Worker(phase: Phase, made: seq<CheckResult>, dropped: seq<CheckResult>)

  datatype Consumer =
    | Idle
    | Holding(item: Item)
    | Started(item: Item, now: Time, prev: SiteState)
    | WithCache(item: Item, now: Time, prev: SiteState, cache: DomainCache, lookups: nat)
    | Decided(item: Item, newState: SiteState)
    | Dispatching
    | Gone

  datatype SendPhase =
    | Calling
    | Waiting
    | Retrying
    | Finished(status: SendStatus)
    | Stamped(status: SendStatus, at: Time)
    | Logged(index: nat)

  /**
   A send of raised alert number `alert`; `calls` are the answers of its Notify calls so far, and
   `since` is when its phase began.
   */
  datatype Sender = Sender(alert: nat, notifier: string, phase: SendPhase, calls: seq<bool>, since: Time)

  /** A result the engine has decided, with everything it read to do so. */
  datatype Handled = Handled(seen: Seen, prev: SiteState, cache: DomainCache, lookups: nat, logLen: nat, from: nat)

  /** An alert, and which handled result raised it. */
  datatype Raised = Raised(a: AlertWithMeta, cause: nat)

  datatype State = State(
    now: Time,
    cancelledAt: Option<Time>,
    store: Store,
    workers: seq<Worker>,
    channel: seq<Item>,
    consumer: Consumer,
    senders: seq<Sender>,
    // history
    start: Store,
    startedAt: Time,
    taken: seq<Item>,
    handled: seq<Handled>,
    raised: seq<Raised>,
    dispatched: nat,
    loggedBy: seq<nat>,
    lookups: seq<Lookup>)

  // ---- the steps ----

  datatype Action =
    | TimePasses(d: Duration)
    | ContextEnds
    | WorkerWakes(w: nat)
    | CheckEnds(w: nat, r: CheckResult)
    | HostFails(w: nat, error: string)
    | CacheIsRead(w: nat, days: int)
    | LookupEnds(w: nat, outcome: DomainCheck.Outcome, days: int)
    | ResultIsSent(w: nat)
    | ResultIsDropped(w: nat)
    | WorkerExits(w: nat)
    | ConsumerTakes
    | ConsumerStarts
    | ConsumerReadsCache
    | ConsumerDecides
    | ConsumerStores
    | ConsumerDispatches
    | ConsumerReturns
    | ConsumerExits
    | NotifyReturns(k: nat, ok: bool)
    | RetryStarts(k: nat)
    | SendGivesUp(k: nat)
    | SendIsStamped(k: nat)
    | SendIsLogged(k: nat)

  /** A worker's select sees its timer: fired by now, or, once the context has ended, fired before that. */
  predicate TimerFired(s: State, wake: Time) {
    match s.cancelledAt
    case None => wake <= s.now
    case Some(t) => wake <= t
  }

  predicate Cancelled(s: State) {
    s.cancelledAt.Some?
  }

  /** A failed domain lookup makes the engine read the domain cache. */
  predicate NeedsCache(r: CheckResult) {
    r.check == Domain && !r.domainLookupOK
  }

  predicate IsWorker(c: Setup, s: State, w: nat) {
    w < |s.workers| == |c.jobs|
  }

  predicate Enabled(c: Setup, s: State, a: Action) {
    match a
    case TimePasses(d) => d > 0
    case ContextEnds => !Cancelled(s)
    case WorkerWakes(w) => IsWorker(c, s, w) && s.workers[w].phase.Parked? && TimerFired(s, s.workers[w].phase.wake)
    case CheckEnds(w, r) =>
      && IsWorker(c, s, w) && s.workers[w].phase.Checking? && c.jobs[w].check != Domain
      && r.check == c.jobs[w].check && r.siteName == c.jobs[w].site
    case HostFails(w, _) => IsWorker(c, s, w) && s.workers[w].phase.Checking? && c.jobs[w].check == Domain
    case CacheIsRead(w, _) => IsWorker(c, s, w) && s.workers[w].phase.Checking? && c.jobs[w].check == Domain
    case LookupEnds(w, _, _) => IsWorker(c, s, w) && s.workers[w].phase.LookingUp?
    case ResultIsSent(w) => IsWorker(c, s, w) && s.workers[w].phase.Sending? && |s.channel| < ChannelCapacity(|c.jobs|)
    case ResultIsDropped(w) => IsWorker(c, s, w) && s.workers[w].phase.Sending? && Cancelled(s)
    case WorkerExits(w) => IsWorker(c, s, w) && s.workers[w].phase.Parked? && Cancelled(s)
    case ConsumerTakes => s.consumer.Idle? && s.channel != []
    case ConsumerStarts => s.consumer.Holding?
    case ConsumerReadsCache => s.consumer.Started? && NeedsCache(s.consumer.item.result)
    case ConsumerDecides => s.consumer.WithCache? || (s.consumer.Started? && !NeedsCache(s.consumer.item.result))
    case ConsumerStores => s.consumer.Decided?
    case ConsumerDispatches => s.consumer.Dispatching? && s.dispatched < |s.raised|
    case ConsumerReturns => s.consumer.Dispatching? && s.dispatched >= |s.raised|
    case ConsumerExits => s.consumer.Idle? && Cancelled(s)
    case NotifyReturns(k, _) => k < |s.senders| && (s.senders[k].phase.Calling? || s.senders[k].phase.Retrying?)
    case RetryStarts(k) =>
      k < |s.senders| && s.senders[k].phase.Waiting? && s.senders[k].since + RETRY_DELAY <= s.now
    case SendGivesUp(k) => k < |s.senders| && s.senders[k].phase.Waiting? && Cancelled(s)
    case SendIsStamped(k) => k < |s.senders| && s.senders[k].phase.Finished?
    case SendIsLogged(k) => k < |s.senders| && s.senders[k].phase.Stamped? && s.senders[k].alert < |s.raised|
  }

  function AtPhase(s: State, w: nat, p: Phase): State
    requires w < |s.workers|
  {
    s.(workers := s.workers[w := s.workers[w].(phase := p)])
  }

  /** The check is over: its result is produced and the worker is at its send. */
  function Produced(s: State, w: nat, r: CheckResult): State
    requires w < |s.workers| && (s.workers[w].phase.Checking? || s.workers[w].phase.LookingUp?)
  {
    var worker := s.workers[w];
    s.(workers := s.workers[w := worker.(phase := Sending(worker.phase.startedAt, r), made := worker.made + [r])])
  }

  function SenderAt(s: State, k: nat, p: SendPhase): State
    requires k < |s.senders|
  {
    s.(senders := s.senders[k := s.senders[k].(phase := p, since := s.now)])
  }

  /** What the engine decides when it has read the state, the cache where needed, and the log as it is now. */
  function Decide(c: Setup, s: State, item: Item, now: Time, prev: SiteState, cache: DomainCache, lookups: nat): State {
    var alerts := DecideAlerts(c.backend, c.thresholds, prev, cache, s.store.alerts, item.result, now);
    s.(consumer := Decided(item, NewState(prev, item.result, now)),
       handled := s.handled + [Handled(Seen(item.result, now), prev, cache, lookups, |s.store.alerts|, |s.raised|)],
       raised := s.raised + seq(|alerts|, i requires 0 <= i < |alerts| => Raised(alerts[i], |s.handled|)))
  }

  function NewSenders(c: Setup, s: State): seq<Sender>
    requires s.dispatched < |s.raised|
  {
    var names := Recipients(c.known, NotifiersFor(c.routing, TypeName(s.raised[s.dispatched].a.alert.alertType)));
    seq(|names|, i requires 0 <= i < |names| => Sender(s.dispatched, names[i], Calling, [], s.now))
  }

  function Apply(c: Setup, s: State, a: Action): State
    requires Enabled(c, s, a)
  {
    match a
    case TimePasses(d) => s.(now := s.now + d)
    case ContextEnds => s.(cancelledAt := Some(s.now))
    case WorkerWakes(w) => AtPhase(s, w, Checking(s.now))
    case CheckEnds(w, r) => Produced(s, w, r)
    case HostFails(w, error) => Produced(s, w, UnresolvableResult(c.jobs[w].site, error))
    case CacheIsRead(w, days) =>
      var site := c.jobs[w].site;
      var cached := CacheOf(s.store.domains, site);
      if Fresh(cached, site in s.store.domains, s.now, c.cacheTTL)
          then Produced(s, w, FoundResult(site, cached.expiresAt, days))
      else AtPhase(s, w, LookingUp(s.workers[w].phase.startedAt, s.now, cached))
    case LookupEnds(w, outcome, days) =>
      var site, p := c.jobs[w].site, s.workers[w].phase;
      Produced(s, w, LookupResult(site, outcome, days))
        .(store := s.store.(domains := s.store.domains[site := AfterLookup(p.cached, site, p.checkedAt, outcome)]),
          lookups := s.lookups + [Lookup(site, p.checkedAt, outcome)])
    case ResultIsSent(w) =>
      AtPhase(s, w, Parked(s.now + c.jobs[w].interval))
        .(channel := s.channel + [Item(w, s.workers[w].phase.result, s.workers[w].phase.startedAt, s.now)])
    case ResultIsDropped(w) =>
      var worker := s.workers[w];
      s.(workers := s.workers[w := Worker(Parked(s.now + c.jobs[w].interval), worker.made,
          worker.dropped + [worker.phase.result])])
    case WorkerExits(w) => AtPhase(s, w, Exited)
    case ConsumerTakes =>
      s.(consumer := Holding(s.channel[0]), channel := s.channel[1..], taken := s.taken + [s.channel[0]])
    case ConsumerStarts =>
      var item := s.consumer.item;
      s.(consumer := Started(item, s.now, PrevState(s.store.states, item.result.siteName, s.now)))
    case ConsumerReadsCache =>
      var k := s.consumer;
      s.(consumer := WithCache(k.item, k.now, k.prev, CacheOf(s.store.domains, k.item.result.siteName), |s.lookups|))
    case ConsumerDecides =>
      var k := s.consumer;
      if k.WithCache? then Decide(c, s, k.item, k.now, k.prev, k.cache, k.lookups)
      else Decide(c, s, k.item, k.now, k.prev, NO_CACHE, 0)
    case ConsumerStores =>
      var ns := s.consumer.newState;
      s.(consumer := Dispatching, store := s.store.(states := s.store.states[ns.siteName := ns]))
    case ConsumerDispatches => s.(senders := s.senders + NewSenders(c, s), dispatched := s.dispatched + 1)
    case ConsumerReturns => s.(consumer := Idle)
    case ConsumerExits => s.(consumer := Gone)
    case NotifyReturns(k, ok) =>
      var sender := s.senders[k];
      var next := if ok then Finished(Sent) else if sender.phase.Calling? then Waiting else Finished(Failed);
      s.(senders := s.senders[k := sender.(phase := next, calls := sender.calls + [ok], since := s.now)])
    case RetryStarts(k) => SenderAt(s, k, Retrying)
    case SendGivesUp(k) => SenderAt(s, k, Finished(Failed))
    case SendIsStamped(k) => SenderAt(s, k, Stamped(s.senders[k].phase.status, s.now))
    case SendIsLogged(k) =>
      var sender := s.senders[k];
      var rec := RecordOf(s.raised[sender.alert].a, sender.notifier, sender.phase.at, sender.phase.status);
      SenderAt(s, k, Logged(|s.loggedBy|)).(store := Recorded(s.store, rec), loggedBy := s.loggedBy + [k])
  }

  // ---- runs ----

  /** The lookups made for one site. */
  function LookupsOf(lookups: seq<Lookup>, site: string): (r: seq<Lookup>)
    ensures forall l | l in r :: l in lookups && l.site == site
  {
    if lookups == [] then []
    else
      var last := lookups[|lookups| - 1];
      assert forall l | l in lookups[..|lookups| - 1] :: l in lookups;
      LookupsOf(lookups[..|lookups| - 1], site) + if last.site == site then [last] else []
  }

  /** The stored row of a site is what its lookups left, and there is one exactly when there were lookups. */
  predicate CacheMatches(domains: map<string, DomainCache>, lookups: seq<Lookup>, site: string) {
    && CacheOf(domains, site) == Replay(LookupsOf(lookups, site))
    && (site in domains <==> LookupsOf(lookups, site) != [])
  }

  /** A start of the program, on whatever store earlier runs have left. */
  ghost predicate Init(c: Setup, s: State) {
    && ValidSetup(c)
    && s.now > ZERO_TIME && s.startedAt == s.now && s.cancelledAt == None
    && s.start == s.store && WellKeyed(s.store.states) && Numbered(s.store)
    && (forall site :: CacheMatches(s.store.domains, s.lookups, site))
    && (forall l | l in s.lookups :: ZERO_TIME < l.at <= s.now)
    && (forall site :: Chronological(LookupsOf(s.lookups, site)))
    && |s.workers| == |c.jobs|
    && (forall w | 0 <= w < |s.workers| ::
          && s.workers[w].phase.Parked? && s.workers[w].made == [] && s.workers[w].dropped == []
          && exists random: nat :: s.workers[w].phase.wake == s.now + FirstDelay(c.jobs[w].interval, random))
    && s.channel == [] && s.consumer == Idle && s.senders == []
    && s.taken == [] && s.handled == [] && s.raised == [] && s.dispatched == 0 && s.loggedBy == []
  }

  ghost predicate IsRun(c: Setup, states: seq<State>, actions: seq<Action>) {
    && |states| == |actions| + 1
    && Init(c, states[0])
    && forall i | 0 <= i < |actions| :: Enabled(c, states[i], actions[i])
        && states[i + 1] == Apply(c, states[i], actions[i])
  }

  ghost predicate Reachable(c: Setup, s: State) {
    exists states, actions :: IsRun(c, states, actions) && states[|states| - 1] == s
  }

  /** A retry starts at the earliest 30 seconds after the failed call. */
  lemma RetryWaits(c: Setup, s: State, k: nat)
    ensures Enabled(c, s, RetryStarts(k))
       <==> k < |s.senders| && s.senders[k].phase.Waiting? && s.now - s.senders[k].since >= 30_000_000_000
  {
  }

  lemma ReachStep(c: Setup, s: State, a: Action)
    requires Reachable(c, s) && Enabled(c, s, a)
    ensures Reachable(c, Apply(c, s, a))
  {
    hide Enabled, Apply, Init;
    var states, actions :| IsRun(c, states, actions) && states[|states| - 1] == s;
    var longer, more := states + [Apply(c, s, a)], actions + [a];
    assert longer[0] == states[0];
    forall i | 0 <= i < |more| ensures Enabled(c, longer[i], more[i]) && longer[i + 1] == Apply(c, longer[i], more[i]) {
    }
    assert IsRun(c, longer, more);
  }

  /** The first start of a program, on an empty store; every worker's first check is due after its drawn delay. */
  function Boot(c: Setup, now: Time, randoms: seq<nat>): State
    requires |randoms| == |c.jobs|
  {
    State(now, None, EMPTY_STORE,
          seq(|c.jobs|, w requires 0 <= w < |c.jobs| => Worker(Parked(now + FirstDelay(c.jobs[w].interval,
              randoms[w])), [], [])),
          [], Idle, [], EMPTY_STORE, now, [], [], [], 0, [], [])
  }

  lemma BootIsInit(c: Setup, now: Time, randoms: seq<nat>)
    requires ValidSetup(c) && now > ZERO_TIME && |randoms| == |c.jobs|
    ensures Init(c, Boot(c, now, randoms)) && Reachable(c, Boot(c, now, randoms))
  {
    var s := Boot(c, now, randoms);
    assert IsRun(c, [s], []);
  }
}
