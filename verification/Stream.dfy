/** The running system processes its results as one stream, so the closed form of the history holds in it. */
module Stream {
  import opened Types
  import opened Backends
  import opened Alerting
  import opened History
  import opened System

  function SeenOf(handled: seq<Handled>): seq<Seen> {
    seq(|handled|, i requires 0 <= i < |handled| => handled[i].seen)
  }

  predicate IsHTTPAlert(a: AlertWithMeta, site: string) {
    (a.alert.alertType == DownAlert || a.alert.alertType == RecoveredAlert) && a.alert.siteName == site
  }

  /** The down and recovered alerts raised for a site, in order. */
  function HTTPRaised(raised: seq<Raised>, site: string): seq<AlertWithMeta> {
    if raised == [] then []
    else
      var a := raised[|raised| - 1].a;
      HTTPRaised(raised[..|raised| - 1], site) + if IsHTTPAlert(a, site) then [a] else []
  }

  /** The stored states are those of the stream; while a decision is not stored yet, those before it. */
  predicate StreamInv(s: State) {
    && WellKeyed(s.start.states)
    && var seen := SeenOf(s.handled);
    && match s.consumer
       case Decided(_, ns) =>
         && s.handled != []
         && s.store.states == After(s.start.states, seen[..|seen| - 1])
         && s.store.states[ns.siteName := ns] == After(s.start.states, seen)
       case Started(item, now, prev) =>
         s.store.states == After(s.start.states, seen) && prev == PrevState(s.store.states, item.result.siteName, now)
       case WithCache(item, now, prev, _, _) =>
         s.store.states == After(s.start.states, seen) && prev == PrevState(s.store.states, item.result.siteName, now)
       case _ => s.store.states == After(s.start.states, seen)
  }

  ghost predicate RaisedInv(s: State, site: string) {
    HTTPRaised(s.raised, site) == HTTPAlerts(s.start.states, SeenOf(s.handled), site)
  }

  lemma {:induction false} HTTPRaisedAppend(a: seq<Raised>, b: seq<Raised>, site: string)
    ensures HTTPRaised(a + b, site) == HTTPRaised(a, site) + HTTPRaised(b, site)
  {
    if b == [] {
      assert a + b == a;
    } else {
      assert (a + b)[..|a + b| - 1] == a + b[..|b| - 1];
      HTTPRaisedAppend(a, b[..|b| - 1], site);
    }
  }

  /** A decision raises down and recovered alerts for a site only on that site's HTTP results, and then nothing else. */
  lemma HTTPPartOfDecision(c: Setup, prev: SiteState, cache: DomainCache, log: seq<AlertRecord>, e: Seen, q: nat,
      site: string)
    ensures var alerts := DecideAlerts(c.backend, c.thresholds, prev, cache, log, e.r, e.now);
            HTTPRaised(seq(|alerts|, i requires 0 <= i < |alerts| => Raised(alerts[i], q)), site)
            == if Relevant(e, site) then DecideHTTP(prev, e.r, e.now).1 else []
  {
    hide CurrentThresholdBand, Durations.FormatDuration, ExpiryKey, RecentOn, SentAlready;
    var alerts := DecideAlerts(c.backend, c.thresholds, prev, cache, log, e.r, e.now);
    var raised := seq(|alerts|, i requires 0 <= i < |alerts| => Raised(alerts[i], q));
    if |alerts| == 1 {
      assert raised == [Raised(alerts[0], q)];
      assert raised[..0] == [];
    }
  }

  lemma DecideKeepsStream(c: Setup, s: State, site: string)
    requires StreamInv(s) && Enabled(c, s, ConsumerDecides)
    ensures StreamInv(Apply(c, s, ConsumerDecides))
    ensures RaisedInv(s, site) ==> RaisedInv(Apply(c, s, ConsumerDecides), site)
  {
    hide DecideAlerts, NewState, DecideHTTP, PrevState, HTTPRaised;
    var t := Apply(c, s, ConsumerDecides);
    var k := s.consumer;
    var e := Seen(k.item.result, k.now);
    var cache := if k.WithCache? then k.cache else NO_CACHE;
    assert SeenOf(t.handled) == SeenOf(s.handled) + [e];
    assert SeenOf(t.handled)[..|s.handled|] == SeenOf(s.handled);
    var alerts := DecideAlerts(c.backend, c.thresholds, k.prev, cache, s.store.alerts, k.item.result, k.now);
    var more := seq(|alerts|, i requires 0 <= i < |alerts| => Raised(alerts[i], |s.handled|));
    assert t.raised == s.raised + more;
    HTTPRaisedAppend(s.raised, more, site);
    HTTPPartOfDecision(c, k.prev, cache, s.store.alerts, e, |s.handled|, site);
  }

  /** The consumer's other steps. */
  lemma ConsumerKeepsStream(c: Setup, s: State, a: Action)
    requires StreamInv(s) && Enabled(c, s, a)
    requires a.ConsumerTakes? || a.ConsumerStarts? || a.ConsumerReadsCache? || a.ConsumerStores?
               || a.ConsumerDispatches?
             || a.ConsumerReturns? || a.ConsumerExits?
    ensures StreamInv(Apply(c, s, a))
  {
    hide PrevState, After, NewSenders;
  }

  /** Nobody but the consumer touches the stored states. */
  lemma OthersKeepStream(c: Setup, s: State, t: State)
    requires StreamInv(s)
    requires t.store.states == s.store.states && t.consumer == s.consumer && t.handled == s.handled
    requires t.start == s.start
    ensures StreamInv(t)
  {
  }

  lemma StreamStep(c: Setup, s: State, a: Action, site: string)
    requires StreamInv(s) && RaisedInv(s, site) && Enabled(c, s, a)
    ensures StreamInv(Apply(c, s, a)) && RaisedInv(Apply(c, s, a), site)
  {
    if a.ConsumerDecides? {
      DecideKeepsStream(c, s, site);
    } else {
      hide DecideAlerts, NewState, DecideHTTP, PrevState, HTTPRaised, HTTPAlerts, After, NewSenders, StreamInv;
      var t := Apply(c, s, a);
      assert t.handled == s.handled && t.raised == s.raised && t.start == s.start;
      if a.ConsumerTakes? || a.ConsumerStarts? || a.ConsumerReadsCache? || a.ConsumerStores? || a.ConsumerDispatches?
         || a.ConsumerReturns? || a.ConsumerExits? {
        ConsumerKeepsStream(c, s, a);
      } else {
        OthersKeepStream(c, s, t);
      }
    }
  }

  lemma {:induction false} StreamAlways(c: Setup, states: seq<State>, actions: seq<Action>, i: nat, site: string)
    requires IsRun(c, states, actions) && i < |states|
    ensures StreamInv(states[i]) && RaisedInv(states[i], site)
  {
    if i == 0 {
      assert SeenOf(states[0].handled) == [];
    } else {
      StreamAlways(c, states, actions, i - 1, site);
      StreamStep(c, states[i - 1], actions[i - 1], site);
    }
  }

  /**
   In every reachable state of the running system, whatever store it started on: the down and
   recovered alerts raised for a site are the changes of the HTTP results handled so far, and once
   the last decision is stored the site's row is their closed form.
   */
  lemma SystemClosedForm(c: Setup, s: State, site: string)
    requires Reachable(c, s) && site != ""
    ensures var h, start := HTTPHistory(SeenOf(s.handled), site), StartRow(s.start.states, site);
            && HTTPRaised(s.raised, site) == Changes(start, h)
            && (!s.consumer.Decided? && h == [] ==> SameView(s.store.states, s.start.states, site))
            && (!s.consumer.Decided? && h != [] ==>
                  site in s.store.states && IsClosedForm(start, s.store.states[site], h))
  {
    hide HTTPRaised, HTTPAlerts, After, IsClosedForm, Changes;
    var states, actions :| IsRun(c, states, actions) && states[|states| - 1] == s;
    StreamAlways(c, states, actions, |states| - 1, site);
    HTTPClosedForm(s.start.states, SeenOf(s.handled), site);
  }
}
