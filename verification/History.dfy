/**
 The up/down machine over whole streams of results: what is stored for a site is a closed
 form of the HTTP results it has had, its down and recovered alerts are the changes between
 adjacent results, and nothing else that the consumer processes has any influence on either.
 */
module History {
  import opened Types
  import opened MemoryStore
  import opened Alerting
  import opened Durations

  /** A result taken up by the consumer, and the clock when it was. */
  datatype Seen = Seen(r: CheckResult, now: Time)

  type States = map<string, SiteState>

  /** Rows are stored under the name they carry. */
  predicate WellKeyed(states: States) {
    forall name | name in states :: states[name].siteName == name
  }

  function Step(states: States, e: Seen): States {
    var ns := NewState(PrevState(states, e.r.siteName, e.now), e.r, e.now);
    states[ns.siteName := ns]
  }

  function After(states: States, seen: seq<Seen>): States {
    if seen == [] then states else Step(After(states, seen[..|seen| - 1]), seen[|seen| - 1])
  }

  predicate Relevant(e: Seen, siteName: string) {
    e.r.check == HTTP && e.r.siteName == siteName
  }

  /** The HTTP results of one site, in order. */
  function HTTPHistory(seen: seq<Seen>, siteName: string): (h: seq<Seen>)
    ensures forall i | 0 <= i < |h| :: Relevant(h[i], siteName)
  {
    if seen == [] then []
    else HTTPHistory(seen[..|seen| - 1], siteName)
         + if Relevant(seen[|seen| - 1], siteName) then [seen[|seen| - 1]] else []
  }

  /** The alerts that a site's HTTP results raise along the stream. */
  function HTTPAlerts(states: States, seen: seq<Seen>, siteName: string): seq<AlertWithMeta> {
    if seen == [] then []
    else
      var before, e := seen[..|seen| - 1], seen[|seen| - 1];
      HTTPAlerts(states, before, siteName)
      + if Relevant(e, siteName) then DecideHTTP(PrevState(After(states, before), siteName, e.now), e.r, e.now).1
          else []
  }

  // ---- non-interference ----

  /** What the up/down machine can see of a site: an absent row counts as a stored "unknown" one. */
  predicate SameView(s: States, t: States, siteName: string) {
    var a, b := PrevState(s, siteName, 0), PrevState(t, siteName, 0);
    && a.status == b.status && a.consecutiveFailures == b.consecutiveFailures && a.lastError == b.lastError
    && (a.status == Up || a.status == Down ==> a.lastStatusChangeAt == b.lastStatusChangeAt)
  }

  lemma StepKeepsKeys(states: States, e: Seen)
    requires WellKeyed(states)
    ensures WellKeyed(Step(states, e))
    ensures forall name | name != e.r.siteName :: StateOf(Step(states, e), name) == StateOf(states, name)
  {
  }

  lemma {:induction false} AfterKeepsKeys(states: States, seen: seq<Seen>)
    requires WellKeyed(states)
    ensures WellKeyed(After(states, seen))
  {
    if seen == [] {
    } else {
      AfterKeepsKeys(states, seen[..|seen| - 1]);
      StepKeepsKeys(After(states, seen[..|seen| - 1]), seen[|seen| - 1]);
    }
  }

  /** A result of another check or another site does not change the view of a site. */
  lemma IrrelevantStep(states: States, e: Seen, siteName: string)
    requires WellKeyed(states) && siteName != "" && !Relevant(e, siteName)
    ensures SameView(Step(states, e), states, siteName)
  {
    StepKeepsKeys(states, e);
  }

  /** The same HTTP result from the same view gives the same view and the same alerts. */
  lemma RelevantStep(s: States, t: States, e: Seen, siteName: string)
    requires WellKeyed(s) && WellKeyed(t) && siteName != "" && Relevant(e, siteName)
    requires SameView(s, t, siteName)
    ensures SameView(Step(s, e), Step(t, e), siteName)
    ensures siteName in Step(s, e) && siteName in Step(t, e)
    ensures Step(s, e)[siteName].lastStatusChangeAt == Step(t, e)[siteName].lastStatusChangeAt
    ensures DecideHTTP(PrevState(s, siteName, e.now), e.r, e.now).1
              == DecideHTTP(PrevState(t, siteName, e.now), e.r, e.now).1
  {
    hide FormatDuration;
  }

  /**
   Deleting every SSL and domain result and every result of other sites leaves a site's HTTP
   alerts, its status, failure count and last error as they were, and, once it has had an HTTP
   result, the time of its last status change.
   */
  lemma {:induction false} NonInterference(states: States, seen: seq<Seen>, siteName: string)
    requires WellKeyed(states) && siteName != ""
    ensures var h := HTTPHistory(seen, siteName);
            && SameView(After(states, seen), After(states, h), siteName)
            && (h != [] ==> siteName in After(states, seen) && siteName in After(states, h)
                            && After(states, seen)[siteName].lastStatusChangeAt
                                == After(states, h)[siteName].lastStatusChangeAt)
            && HTTPAlerts(states, seen, siteName) == HTTPAlerts(states, h, siteName)
  {
    hide Step, DecideHTTP;
    if seen == [] {
    } else {
      var before, e := seen[..|seen| - 1], seen[|seen| - 1];
      var h := HTTPHistory(before, siteName);
      NonInterference(states, before, siteName);
      AfterKeepsKeys(states, before);
      AfterKeepsKeys(states, h);
      if Relevant(e, siteName) {
        assert (h + [e])[..|h|] == h;
        RelevantStep(After(states, before), After(states, h), e, siteName);
      } else {
        assert HTTPHistory(seen, siteName) == h;
        IrrelevantStep(After(states, before), e, siteName);
        if h != [] {
          IrrelevantKeepsChange(After(states, before), e, siteName);
        }
      }
    }
  }

  lemma IrrelevantKeepsChange(states: States, e: Seen, siteName: string)
    requires WellKeyed(states) && siteName != "" && !Relevant(e, siteName) && siteName in states
    ensures siteName in Step(states, e)
    ensures Step(states, e)[siteName].lastStatusChangeAt == states[siteName].lastStatusChangeAt
  {
  }

  // ---- the closed form ----

  predicate IsUp(e: Seen) {
    e.r.status == Up
  }

  /** The first index of the trailing run of results of one status. */
  function RunStart(h: seq<Seen>): (k: nat)
    requires h != []
    ensures k < |h| && forall j | k <= j < |h| :: IsUp(h[j]) == IsUp(h[|h| - 1])
    ensures k > 0 ==> IsUp(h[k - 1]) != IsUp(h[|h| - 1])
  {
    if |h| == 1 || IsUp(h[|h| - 1]) != IsUp(h[|h| - 2]) then |h| - 1 else RunStart(h[..|h| - 1])
  }

  /** The row that a site starts with: what is stored, or an unknown status without failures. */
  function StartRow(states: States, siteName: string): SiteState {
    PrevState(states, siteName, ZERO_TIME)
  }

  function StatusOf(e: Seen): Status {
    if IsUp(e) then Up else Down
  }

  /** All results have one status, and it is that of the starting row. */
  predicate Continues(start: SiteState, h: seq<Seen>)
    requires h != []
  {
    RunStart(h) == 0 && start.status == StatusOf(h[|h| - 1])
  }

  /** The length of the trailing run of failures; with no success at all it adds to what the starting row had. */
  function TrailingFailures(start: SiteState, h: seq<Seen>): int
    requires h != []
  {
    if IsUp(h[|h| - 1]) then 0
    else if RunStart(h) == 0 then start.consecutiveFailures + |h|
    else |h| - RunStart(h)
  }

  /** Since when the site has had its status. */
  function StatusSince(start: SiteState, h: seq<Seen>): Time
    requires h != []
  {
    if Continues(start, h) then start.lastStatusChangeAt else h[RunStart(h)].now
  }

  /** Result i changes the status; the first one is compared with the starting row, unless that has no status yet. */
  predicate Changed(start: SiteState, h: seq<Seen>, i: nat)
    requires i < |h|
  {
    if i == 0 then (start.status == Up || start.status == Down) && start.status != StatusOf(h[0])
    else IsUp(h[i]) != IsUp(h[i - 1])
  }

  /** The alert for the change at result i. */
  function ChangeAlert(start: SiteState, h: seq<Seen>, i: nat): AlertWithMeta
    requires i < |h|
  {
    var e := h[i];
    if IsUp(e) then
      var downSince := if i == 0 then start.lastStatusChangeAt else StatusSince(start, h[..i]);
      AlertWithMeta(Alert(e.r.siteName, RecoveredAlert, Info, RecoveredDetails(FormatDuration(e.now - downSince)),
          e.now), 0, "")
    else
      var failures := if i == 0 then start.consecutiveFailures + 1 else 1;
      AlertWithMeta(Alert(e.r.siteName, DownAlert, Critical, DownDetails(e.r.error, failures), e.now), 0, "")
  }

  /** One alert for each change of status, in order. */
  function Changes(start: SiteState, h: seq<Seen>): seq<AlertWithMeta> {
    if h == [] then []
    else
      Changes(start, h[..|h| - 1])
      + if Changed(start, h, |h| - 1) then [ChangeAlert(start, h, |h| - 1)] else []
  }

  /** The stored row is the closed form of a non-empty history. */
  predicate IsClosedForm(start: SiteState, row: SiteState, h: seq<Seen>)
    requires h != []
  {
    var last := h[|h| - 1];
    && row.status == StatusOf(last)
    && row.consecutiveFailures == TrailingFailures(start, h)
    && row.lastStatusChangeAt == StatusSince(start, h)
    && row.lastError == (if IsUp(last) then "" else last.r.error)
  }

  /** A site without a row starts unknown and without failures. */
  predicate IsNew(start: SiteState) {
    start.status == Unknown && start.consecutiveFailures == 0
  }

  lemma AbsentIsNew(states: States, siteName: string)
    requires siteName !in states
    ensures IsNew(StartRow(states, siteName))
  {
  }

  /** For a new site the row has the length of the trailing run of failures and the time of the run's first result. */
  lemma NewSiteRow(start: SiteState, h: seq<Seen>)
    requires IsNew(start) && h != []
    ensures TrailingFailures(start, h) == if IsUp(h[|h| - 1]) then 0 else |h| - RunStart(h)
    ensures StatusSince(start, h) == h[RunStart(h)].now
  {
  }

  /**
   For a new site the changes are those between adjacent results; a down alert tells of one
   failure, a recovery of the time since the first failure of the outage.
   */
  lemma NewSiteAlerts(start: SiteState, h: seq<Seen>, i: nat)
    requires IsNew(start) && i < |h|
    ensures Changed(start, h, i) <==> i > 0 && IsUp(h[i]) != IsUp(h[i - 1])
    ensures Changed(start, h, i) ==>
              ChangeAlert(start, h, i).alert.details
              == if IsUp(h[i]) then RecoveredDetails(FormatDuration(h[i].now - h[RunStart(h[..i])].now))
                 else DownDetails(h[i].r.error, 1)
  {
    hide FormatDuration, StatusSince, RunStart;
    if i > 0 {
      NewSiteRow(start, h[..i]);
    }
  }

  lemma {:induction false} HistoryOfHistory(h: seq<Seen>, siteName: string)
    requires forall i | 0 <= i < |h| :: Relevant(h[i], siteName)
    ensures HTTPHistory(h, siteName) == h
  {
    if h == [] {
    } else {
      HistoryOfHistory(h[..|h| - 1], siteName);
    }
  }

  /** The first result: from the starting row to the closed form. */
  lemma FirstStep(states: States, h: seq<Seen>, siteName: string)
    requires WellKeyed(states) && siteName != "" && |h| == 1 && Relevant(h[0], siteName)
    ensures var e, start := h[0], StartRow(states, siteName);
            && siteName in Step(states, e) && IsClosedForm(start, Step(states, e)[siteName], h)
            && DecideHTTP(PrevState(states, siteName, e.now), e.r, e.now).1
               == if Changed(start, h, 0) then [ChangeAlert(start, h, 0)] else []
  {
    hide FormatDuration;
  }

  /** One more result: from the closed form of a history to that of the longer one. */
  lemma ClosedFormStep(start: SiteState, states: States, h: seq<Seen>, siteName: string)
    requires WellKeyed(states) && siteName != "" && |h| > 1 && Relevant(h[|h| - 1], siteName)
    requires siteName in states && IsClosedForm(start, states[siteName], h[..|h| - 1])
    ensures var e := h[|h| - 1];
            && siteName in Step(states, e) && IsClosedForm(start, Step(states, e)[siteName], h)
            && DecideHTTP(PrevState(states, siteName, e.now), e.r, e.now).1
               == if Changed(start, h, |h| - 1) then [ChangeAlert(start, h, |h| - 1)] else []
  {
    hide FormatDuration;
    var init := h[..|h| - 1];
    assert init[|init| - 1] == h[|h| - 2];
    assert h[RunStart(init)] == init[RunStart(init)];
  }

  lemma {:induction false} ClosedFormOfHistory(states: States, h: seq<Seen>, siteName: string)
    requires WellKeyed(states) && siteName != ""
    requires forall i | 0 <= i < |h| :: Relevant(h[i], siteName)
    ensures h != [] ==>
              siteName in After(states, h) && IsClosedForm(StartRow(states, siteName), After(states, h)[siteName], h)
    ensures HTTPAlerts(states, h, siteName) == Changes(StartRow(states, siteName), h)
  {
    hide Step, DecideHTTP, IsClosedForm, Changed, ChangeAlert, PrevState, StartRow;
    if h == [] {
    } else {
      var init := h[..|h| - 1];
      ClosedFormOfHistory(states, init, siteName);
      AfterKeepsKeys(states, init);
      if init == [] {
        FirstStep(states, h, siteName);
      } else {
        ClosedFormStep(StartRow(states, siteName), After(states, init), h, siteName);
      }
    }
  }

  /**
   After any stream of results of any checks and sites, from any keyed store: with no HTTP result
   so far the site's view is as it was; otherwise its row is the closed form of its HTTP history
   on top of its starting row, and its HTTP alerts are the changes of that history.
   */
  lemma HTTPClosedForm(states: States, seen: seq<Seen>, siteName: string)
    requires WellKeyed(states) && siteName != ""
    ensures var h, after, start := HTTPHistory(seen, siteName), After(states, seen), StartRow(states, siteName);
            && (h == [] ==> SameView(after, states, siteName))
            && (h != [] ==> siteName in after && IsClosedForm(start, after[siteName], h))
            && HTTPAlerts(states, seen, siteName) == Changes(start, h)
  {
    hide FormatDuration, Step, Changes;
    var h := HTTPHistory(seen, siteName);
    NonInterference(states, seen, siteName);
    ClosedFormOfHistory(states, h, siteName);
    AfterKeepsKeys(states, seen);
    AfterKeepsKeys(states, h);
  }

  /** The time of the first result of a site, and of its last one. */
  function FirstSeen(seen: seq<Seen>, siteName: string): Option<Time> {
    if seen == [] then None
    else if FirstSeen(seen[..|seen| - 1], siteName).Some? then FirstSeen(seen[..|seen| - 1], siteName)
    else if seen[|seen| - 1].r.siteName == siteName then Some(seen[|seen| - 1].now)
    else None
  }

  function LastSeen(seen: seq<Seen>, siteName: string): Time {
    if seen == [] then ZERO_TIME
    else if seen[|seen| - 1].r.siteName == siteName && seen[|seen| - 1].r.check != OtherCheck then seen[|seen| - 1].now
    else LastSeen(seen[..|seen| - 1], siteName)
  }

  /**
   A new site with certificate and domain results but no HTTP result: unknown since its first
   result, checked when it had its last one, without failures or an error.
   */
  lemma {:induction false} UnknownRow(states: States, seen: seq<Seen>, siteName: string)
    requires WellKeyed(states) && siteName != "" && siteName !in states && HTTPHistory(seen, siteName) == []
    ensures WellKeyed(After(states, seen))
    ensures var row, first := StateOf(After(states, seen), siteName), FirstSeen(seen, siteName);
            && (siteName in After(states, seen) <==> first.Some?)
            && (first.Some? ==>
                  row == SiteState(siteName, Unknown, LastSeen(seen, siteName), first.value, 0, ""))
            && (first.None? ==> LastSeen(seen, siteName) == ZERO_TIME)
  {
    hide DecideHTTP;
    if seen == [] {
    } else {
      var before, e := seen[..|seen| - 1], seen[|seen| - 1];
      UnknownRow(states, before, siteName);
      StepKeepsKeys(After(states, before), e);
    }
  }

  /** The site starts up or down, and not unknown. */
  predicate HasStatus(start: SiteState) {
    start.status == Up || start.status == Down
  }

  /** Down and recovered alerts strictly alternate, across restarts too, and the last one tells the current status. */
  lemma {:induction false} ChangesAlternate(start: SiteState, h: seq<Seen>)
    ensures var alerts := Changes(start, h);
            && (forall i | 0 < i < |alerts| :: alerts[i].alert.alertType != alerts[i - 1].alert.alertType)
            && (forall a | a in alerts :: a.alert.alertType == DownAlert || a.alert.alertType == RecoveredAlert)
            && (alerts != [] ==>
                  h != [] && (alerts[|alerts| - 1].alert.alertType == RecoveredAlert <==> IsUp(h[|h| - 1])))
            && (alerts == [] && h != [] ==>
                  StatusOf(h[|h| - 1]) == if HasStatus(start) then start.status else StatusOf(h[0]))
  {
    hide FormatDuration, StatusSince;
    if h == [] {
    } else {
      var before := Changes(start, h[..|h| - 1]);
      ChangesAlternate(start, h[..|h| - 1]);
      if Changed(start, h, |h| - 1) {
        assert Changes(start, h) == before + [ChangeAlert(start, h, |h| - 1)];
      } else {
        assert Changes(start, h) == before;
      }
    }
  }

  /**
   The first alert is a recovery exactly when the site starts down, or, without a status, when its
   first result is a failure: then it is down silently.
   */
  lemma {:induction false} FirstAlert(start: SiteState, h: seq<Seen>)
    requires Changes(start, h) != []
    ensures h != [] && (Changes(start, h)[0].alert.alertType == RecoveredAlert
                        <==> if HasStatus(start) then start.status == Down else !IsUp(h[0]))
  {
    hide FormatDuration, StatusSince;
    if |h| > 1 {
      var init := h[..|h| - 1];
      if Changes(start, init) != [] {
        FirstAlert(start, init);
      } else {
        ChangesAlternate(start, init);
      }
    } else {
      assert h[..0] == [];
    }
  }
}
