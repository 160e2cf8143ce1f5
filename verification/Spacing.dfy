/** A worker's results are at least its interval apart, however long its checks take and whatever else happens. */
module Spacing {
  import opened Types
  import opened Alerting
  import opened DomainCheck
  import opened System
  import opened Queue

  /** The worker begins nothing new before this. */
  function EarliestStart(p: Phase): Time
    requires !p.Exited?
  {
    match p
    case Parked(wake) => wake
    case Checking(startedAt) => startedAt
    case LookingUp(startedAt, _, _) => startedAt
    case Sending(startedAt, _) => startedAt
  }

  predicate PhaseClock(s: State, p: Phase) {
    match p
    case Checking(startedAt) => startedAt <= s.now
    case LookingUp(startedAt, checkedAt, _) => startedAt <= checkedAt <= s.now
    case Sending(startedAt, _) => startedAt <= s.now
    case _ => true
  }

  /** All items that were sent, in order. */
  function Items(s: State): seq<Item> {
    s.taken + s.channel
  }

  /** The worker's items are an interval apart, and it begins nothing within an interval of the last one. */
  predicate WorkerSpaced(c: Setup, s: State, w: nat)
    requires w < |s.workers| == |c.jobs|
  {
    var p, items := s.workers[w].phase, Items(s);
    && PhaseClock(s, p)
    && (forall i | 0 <= i < |items| && items[i].worker == w ::
          items[i].sentAt <= s.now && (!p.Exited? ==> items[i].sentAt + c.jobs[w].interval <= EarliestStart(p)))
    && forall i, j | 0 <= i < j < |items| && items[i].worker == w && items[j].worker == w ::
         items[i].sentAt + c.jobs[w].interval <= items[j].sentAt
  }

  predicate SpacedInv(c: Setup, s: State) {
    |s.workers| == |c.jobs| && forall w | 0 <= w < |s.workers| :: WorkerSpaced(c, s, w)
  }

  /** Another worker's item does not matter, nor does what leaves the items and the worker alone. */
  lemma SpacedFrame(c: Setup, s: State, t: State, w: nat)
    requires w < |s.workers| == |t.workers| == |c.jobs| && WorkerSpaced(c, s, w)
    requires t.workers[w].phase == s.workers[w].phase && t.now >= s.now
    requires Items(s) <= Items(t) && forall i | |Items(s)| <= i < |Items(t)| :: Items(t)[i].worker != w
    ensures WorkerSpaced(c, t, w)
  {
  }

  lemma SendKeepsSpacing(c: Setup, s: State, w: nat)
    requires Bounds(c, s) && Enabled(c, s, ResultIsSent(w)) && WorkerSpaced(c, s, w)
    ensures WorkerSpaced(c, Apply(c, s, ResultIsSent(w)), w)
  {
    assert c.jobs[w].interval > 0;
    assert Items(Apply(c, s, ResultIsSent(w))) == Items(s) + [Apply(c, s, ResultIsSent(w)).channel[|s.channel|]];
  }

  /** The worker's other own steps do not let it begin anything earlier. */
  lemma OwnClock(c: Setup, s: State, a: Action)
    requires IsWorkerStep(a) && Bounds(c, s) && Enabled(c, s, a) && PhaseClock(s, s.workers[a.w].phase)
    ensures var t, p := Apply(c, s, a), s.workers[a.w].phase;
            && |t.workers| == |s.workers| && t.now == s.now && t.taken == s.taken && t.channel == s.channel
            && !p.Exited?
            && PhaseClock(t, t.workers[a.w].phase)
            && (!t.workers[a.w].phase.Exited? ==> EarliestStart(p) <= EarliestStart(t.workers[a.w].phase))
  {
    hide AfterLookup, Fresh, LookupResult;
    assert c.jobs[a.w].interval > 0;
  }

  lemma OwnKeepsSpacing(c: Setup, s: State, a: Action)
    requires IsWorkerStep(a) && Bounds(c, s) && Enabled(c, s, a) && WorkerSpaced(c, s, a.w)
    ensures WorkerSpaced(c, Apply(c, s, a), a.w)
  {
    OwnClock(c, s, a);
    hide Apply, Enabled, PhaseClock, EarliestStart;
    assert Items(Apply(c, s, a)) == Items(s);
  }

  lemma OthersKeepSpacing(c: Setup, s: State, a: Action, v: nat)
    requires Bounds(c, s) && Enabled(c, s, a) && v < |c.jobs| && WorkerSpaced(c, s, v)
    requires IsWorkerStep(a) || a.ResultIsSent? ==> a.w != v
    ensures v < |Apply(c, s, a).workers| == |c.jobs| && WorkerSpaced(c, Apply(c, s, a), v)
  {
    hide WorkerSpaced, DecideAlerts, NewState, PrevState, NewSenders, Fresh, AfterLookup, LookupResult;
    var t := Apply(c, s, a);
    if a.ResultIsSent? {
      assert Items(t) == Items(s) + [t.channel[|s.channel|]];
    } else {
      assert Items(t) == Items(s);
    }
    SpacedFrame(c, s, t, v);
  }

  lemma SpacedStep(c: Setup, s: State, a: Action)
    requires Bounds(c, s) && SpacedInv(c, s) && Enabled(c, s, a)
    ensures SpacedInv(c, Apply(c, s, a))
  {
    hide Apply, Enabled, WorkerSpaced;
    BoundsStep(c, s, a);
    var t := Apply(c, s, a);
    forall v | 0 <= v < |t.workers| ensures WorkerSpaced(c, t, v) {
      if a.ResultIsSent? && a.w == v {
        SendKeepsSpacing(c, s, v);
      } else if IsWorkerStep(a) && a.w == v {
        OwnKeepsSpacing(c, s, a);
      } else {
        OthersKeepSpacing(c, s, a, v);
      }
    }
  }

  lemma {:induction false} SpacedAlways(c: Setup, states: seq<State>, actions: seq<Action>, i: nat)
    requires IsRun(c, states, actions) && i < |states|
    ensures SpacedInv(c, states[i])
  {
    if i == 0 {
      assert Items(states[0]) == [];
    } else {
      hide Apply, Enabled, Init, SpacedInv;
      SpacedAlways(c, states, actions, i - 1);
      QueueAlways(c, states, actions, i - 1);
      SpacedStep(c, states[i - 1], actions[i - 1]);
    }
  }

  /** Two results of one worker are sent at least its interval apart. */
  lemma ResultsAreSpaced(c: Setup, s: State, i: nat, j: nat)
    requires Reachable(c, s) && i < j < |Items(s)| && Items(s)[i].worker == Items(s)[j].worker
    ensures Items(s)[i].worker < |c.jobs|
    ensures Items(s)[i].sentAt + c.jobs[Items(s)[i].worker].interval <= Items(s)[j].sentAt
  {
    var states, actions :| IsRun(c, states, actions) && states[|states| - 1] == s;
    SpacedAlways(c, states, actions, |states| - 1);
    QueueAlways(c, states, actions, |states| - 1);
    var w := Items(s)[i].worker;
    assert ResultFits(c, w, Items(s)[i].result);
    assert WorkerSpaced(c, s, w);
  }
}
