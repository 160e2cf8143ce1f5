/**
 The HTTP check: attempts with a pause between them, bounded by a deadline. An attempt is an
 oracle that takes at most the site's timeout; a pause lasts exactly its duration, unless the
 context is cancelled in the middle of it.
 */
module HTTPCheck {
  import opened Types
  import opened Arithmetic
  import opened Config

  datatype Attempt = Attempt(duration: Duration, result: CheckResult)

  datatype Pause = Full | CutShort(after: Duration)

  const DEADLINE_MARGIN: Duration := 100 * MILLISECOND

  /** The part of the interval in which a retry may start. */
  function Deadline(site: Site): Duration {
    site.interval - DEADLINE_MARGIN
  }

  predicate Checkable(site: Site, backoff: Duration) {
    site.interval >= SECOND && site.timeout >= SECOND && site.retries >= 0 && backoff > 0
  }

  /** One outcome for every attempt that could be made. */
  ghost predicate Script(site: Site, script: seq<Attempt>) {
    && site.retries >= 0 && |script| == site.retries + 1
    && forall a | a in script :: 0 <= a.duration <= site.timeout
  }

  predicate IsUp(a: Attempt) {
    a.result.status == Up
  }

  /** When attempt k starts, counted from the start of the check. */
  function StartOf(script: seq<Attempt>, backoff: Duration, k: nat): Duration
    requires k <= |script|
  {
    if k == 0 then 0 else StartOf(script, backoff, k - 1) + script[k - 1].duration + backoff
  }

  /** How many attempts are made, once attempt k is: up, out of retries, and out of time end the check. */
  function Made(site: Site, backoff: Duration, script: seq<Attempt>, k: nat): (n: nat)
    requires site.retries >= 0 && |script| == site.retries + 1 && k < |script|
    ensures k < n <= |script|
    decreases |script| - k
  {
    if IsUp(script[k]) || k == site.retries || StartOf(script, backoff, k + 1) > Deadline(site) then k + 1
    else Made(site, backoff, script, k + 1)
  }

  function AttemptsMade(site: Site, backoff: Duration, script: seq<Attempt>): (n: nat)
    requires site.retries >= 0 && |script| == site.retries + 1
    ensures 1 <= n <= |script|
  {
    Made(site, backoff, script, 0)
  }

  function Elapsed(site: Site, backoff: Duration, script: seq<Attempt>): Duration
    requires site.retries >= 0 && |script| == site.retries + 1
  {
    var n := AttemptsMade(site, backoff, script);
    StartOf(script, backoff, n - 1) + script[n - 1].duration
  }

  class HTTPChecker {
    const retryBackoff: Duration
    var now: Time

    constructor (retryBackoff: Duration, now: Time)
      ensures this.retryBackoff == retryBackoff && this.now == now
    {
      this.retryBackoff, this.now := retryBackoff, now;
    }

    /** One attempt: time passes and a result is there. */
    method DoAttempt(a: Attempt) returns (r: CheckResult)
      modifies this`now
      ensures now == old(now) + a.duration && r == a.result
    {
      now := now + a.duration;
      r := a.result;
    }

    /** A pause before a retry; false when the context is cancelled in it. */
    method Wait(p: Pause) returns (ok: bool)
      modifies this`now
      ensures ok == p.Full? && now == old(now) + if p.Full? then retryBackoff else p.after
    {
      now := now + if p.Full? then retryBackoff else p.after;
      ok := p.Full?;
    }

    /** Without a cancellation the check makes AttemptsMade attempts and returns the last one's result. */
    method Check(site: Site, script: seq<Attempt>, pauses: seq<Pause>) returns (r: CheckResult, ghost made: nat)
      requires Checkable(site, retryBackoff) && Script(site, script) && |pauses| == site.retries
      requires forall p | p in pauses :: p.CutShort? ==> 0 <= p.after <= retryBackoff
      modifies this`now
      ensures 1 <= made <= AttemptsMade(site, retryBackoff, script)
      ensures r.status == Up <==> exists k | 0 <= k < made :: IsUp(script[k])
      ensures (forall p | p in pauses :: p.Full?) ==>
                && made == AttemptsMade(site, retryBackoff, script)
                && now == old(now) + Elapsed(site, retryBackoff, script)
                && r == script[made - 1].result
      ensures r == script[made - 1].result
              || (made <= |pauses| && pauses[made - 1].CutShort? && r.status == Down && r.siteName == site.name
                  && r.check == HTTP)
      ensures now <= old(now) + site.interval - 100_000_000 + site.timeout
    {
      var deadline := now + (site.interval - 100 * MILLISECOND);
      var attempts := site.retries + 1;
      var last := BlankResult(site.name, HTTP);
      made := 0;
      for i := 0 to attempts
        invariant made == i
        invariant i > 0 ==> last == script[i - 1].result
        invariant forall k | 0 <= k < i :: !IsUp(script[k])
        invariant now == old(now) + StartOf(script, retryBackoff, i) - if i > 0 then retryBackoff else 0
        invariant i > 0 ==> StartOf(script, retryBackoff, i - 1) <= Deadline(site)
        invariant i > 0 ==> Made(site, retryBackoff, script, 0) == Made(site, retryBackoff, script, i - 1)
      {
        assert script[i] in script;
        if i > 0 {
          assert script[i - 1] in script;
          var wakeUp := now + retryBackoff;
          if wakeUp > deadline {
            break;
          }
          assert pauses[i - 1] in pauses;
          var ok := Wait(pauses[i - 1]);
          if !ok {
            r := BlankResult(site.name, HTTP).(status := Down, error := "context canceled");
            return r, made;
          }
        }
        last := DoAttempt(script[i]);
        made := i + 1;
        if last.status == Up {
          return last, made;
        }
      }
      assert script[made - 1] in script;
      return last, made;
    }
  }

  // ---- bounds ----

  lemma {:induction false} StartBounds(site: Site, backoff: Duration, script: seq<Attempt>, k: nat)
    requires Checkable(site, backoff) && Script(site, script) && k <= |script|
    ensures k * backoff <= StartOf(script, backoff, k) <= k * (site.timeout + backoff)
  {
    if k == 0 {
    } else {
      StartBounds(site, backoff, script, k - 1);
      assert script[k - 1] in script;
      assert k * backoff == (k - 1) * backoff + backoff;
      assert k * (site.timeout + backoff) == (k - 1) * (site.timeout + backoff) + (site.timeout + backoff);
    }
  }

  lemma {:induction false} MadeInTime(site: Site, backoff: Duration, script: seq<Attempt>, k: nat)
    requires Checkable(site, backoff) && Script(site, script) && k < |script|
    requires k > 0 ==> StartOf(script, backoff, k) <= Deadline(site)
    ensures var n := Made(site, backoff, script, k);
            n > 1 ==> StartOf(script, backoff, n - 1) <= Deadline(site)
    decreases |script| - k
  {
    if !(IsUp(script[k]) || k == site.retries || StartOf(script, backoff, k + 1) > Deadline(site)) {
      MadeInTime(site, backoff, script, k + 1);
    }
  }

  lemma {:induction false} StartsGrow(site: Site, backoff: Duration, script: seq<Attempt>, j: nat, k: nat)
    requires Checkable(site, backoff) && Script(site, script) && j <= k <= |script|
    ensures StartOf(script, backoff, j) <= StartOf(script, backoff, k)
  {
    if j < k {
      StartsGrow(site, backoff, script, j, k - 1);
      assert script[k - 1] in script;
    }
  }

  function Min(a: int, b: int): int {
    if a < b then a else b
  }

  /** How often a pause fits before the deadline. */
  function RetriesThatFit(site: Site, backoff: Duration): (k: nat)
    requires Checkable(site, backoff)
  {
    Min(site.retries, Deadline(site) / backoff)
  }

  /**
   The check goes on exactly as long as no attempt was up, a retry is left, and the pause before it
   ends no later than 100 ms before the interval does.
   */
  lemma {:induction false} GoesOnExactly(site: Site, backoff: Duration, script: seq<Attempt>, k: nat)
    requires site.retries >= 0 && |script| == site.retries + 1 && k < |script|
    ensures var n := Made(site, backoff, script, k);
            && k < n <= |script|
            && (forall j | k <= j < n - 1 :: !IsUp(script[j]))
            && (forall j | k < j < n :: StartOf(script, backoff, j) <= site.interval - 100_000_000)
            && (n == |script| || IsUp(script[n - 1])
                || StartOf(script, backoff, n) > site.interval - 100_000_000)
    decreases |script| - k
  {
    hide StartOf;
    if IsUp(script[k]) || k == site.retries || StartOf(script, backoff, k + 1) > Deadline(site) {
    } else {
      GoesOnExactly(site, backoff, script, k + 1);
    }
  }

  /**
   The retry bound: the attempts are at most retries + 1 and at most one more than the pauses
   that fit before the deadline; every retry starts by the deadline; and the whole check ends
   within the deadline plus one timeout, and within the time all attempts and pauses can take.
   */
  lemma RetryBound(site: Site, backoff: Duration, script: seq<Attempt>)
    requires Checkable(site, backoff) && Script(site, script)
    ensures var n := AttemptsMade(site, backoff, script);
            && 1 <= n <= 1 + RetriesThatFit(site, backoff)
            && n <= 1 + (site.interval - 100_000_000) / backoff && n <= site.retries + 1
            && (forall k | 0 < k < n :: StartOf(script, backoff, k) <= site.interval - 100_000_000)
            && Elapsed(site, backoff, script) <= site.interval - 100_000_000 + site.timeout
            && Elapsed(site, backoff, script) <= site.retries * (site.timeout + backoff) + site.timeout
  {
    var n := AttemptsMade(site, backoff, script);
    var last := n - 1;
    MadeInTime(site, backoff, script, 0);
    StartBounds(site, backoff, script, last);
    assert script[last] in script;
    forall k | 0 < k < n ensures StartOf(script, backoff, k) <= Deadline(site) {
      StartsGrow(site, backoff, script, k, last);
    }
    MultiplesOrdered(last, site.retries, site.timeout + backoff);
    if last > 0 {
      CountThatFits(last, backoff, Deadline(site));
    }
  }

  lemma MultiplesOrdered(a: nat, b: nat, d: nat)
    requires a <= b
    ensures a * d <= b * d
  {
  }

  lemma CountThatFits(k: nat, backoff: int, deadline: int)
    requires backoff > 0 && k * backoff <= deadline
    ensures k <= deadline / backoff
  {
    var q := deadline / backoff;
    assert deadline == q * backoff + deadline % backoff;
    Distribute(q, k, backoff);
    Multiples(q - k, backoff);
  }

  // ---- the longest a check can take ----

  /** The time of a check whose attempts all take as long as they can while the last one still starts. */
  function WorstElapsed(site: Site, backoff: Duration): Duration
    requires Checkable(site, backoff)
  {
    Min(Deadline(site), RetriesThatFit(site, backoff) * (site.timeout + backoff)) + site.timeout
  }

  lemma WorstIsUpperBound(site: Site, backoff: Duration, script: seq<Attempt>)
    requires Checkable(site, backoff) && Script(site, script)
    ensures Elapsed(site, backoff, script) <= WorstElapsed(site, backoff)
  {
    var last := AttemptsMade(site, backoff, script) - 1;
    RetryBound(site, backoff, script);
    StartBounds(site, backoff, script, last);
    MultiplesOrdered(last, RetriesThatFit(site, backoff), site.timeout + backoff);
    assert script[last] in script;
    assert last == 0 ==> StartOf(script, backoff, last) == 0;
  }

  /** The first k attempts together take min(total, k timeouts). */
  function SlowAttempt(site: Site, total: nat, j: nat): Attempt
    requires site.timeout >= 0
  {
    var spent := j * site.timeout;
    var d := if total <= spent then 0 else Min(site.timeout, total - spent);
    Attempt(d, BlankResult(site.name, HTTP).(status := Down))
  }

  function SlowScript(site: Site, total: nat, k: nat): seq<Attempt>
    requires site.timeout >= 0 && k <= site.retries
  {
    seq(site.retries + 1, j requires 0 <= j =>
      if j < k then SlowAttempt(site, total, j)
      else Attempt(site.timeout, BlankResult(site.name, HTTP).(status := Up)))
  }

  lemma {:induction false} SlowStarts(site: Site, backoff: Duration, total: nat, k: nat, j: nat)
    requires Checkable(site, backoff) && j <= k <= site.retries
    ensures StartOf(SlowScript(site, total, k), backoff, j) == j * backoff + Min(total, j * site.timeout)
  {
    if j == 0 {
    } else {
      SlowStarts(site, backoff, total, k, j - 1);
      assert j * backoff == (j - 1) * backoff + backoff;
      assert j * site.timeout == (j - 1) * site.timeout + site.timeout;
    }
  }

  lemma {:induction false} SlowMade(site: Site, backoff: Duration, total: nat, k: nat, j: nat)
    requires Checkable(site, backoff) && j <= k <= site.retries
    requires k > 0 ==> StartOf(SlowScript(site, total, k), backoff, k) <= Deadline(site)
    requires Script(site, SlowScript(site, total, k))
    ensures Made(site, backoff, SlowScript(site, total, k), j) == k + 1
    decreases k - j
  {
    var script := SlowScript(site, total, k);
    if j < k {
      StartsGrow(site, backoff, script, j + 1, k);
      SlowMade(site, backoff, total, k, j + 1);
    }
  }

  /** A check of the given outcomes that takes the worst time there is. */
  lemma WorstIsReached(site: Site, backoff: Duration) returns (script: seq<Attempt>)
    requires Checkable(site, backoff)
    ensures Script(site, script) && Elapsed(site, backoff, script) == WorstElapsed(site, backoff)
  {
    var k := RetriesThatFit(site, backoff);
    var latest := Min(Deadline(site), k * (site.timeout + backoff));
    assert k * (site.timeout + backoff) == k * site.timeout + k * backoff;
    assert k * backoff <= Deadline(site) by {
      MultiplesOrdered(k, Deadline(site) / backoff, backoff);
      assert Deadline(site) == Deadline(site) / backoff * backoff + Deadline(site) % backoff;
    }
    var total := latest - k * backoff;
    script := SlowScript(site, total, k);
    SlowStarts(site, backoff, total, k, k);
    SlowMade(site, backoff, total, k, 0);
  }

  ghost predicate AlwaysWithin(site: Site, backoff: Duration, limit: Duration)
    requires Checkable(site, backoff)
  {
    forall script | Script(site, script) :: Elapsed(site, backoff, script) <= limit
  }

  /**
   Exactly when a check is sure to be over before the next one is due: when its worst time,
   computed from the configuration, is at most the interval. A deadline alone does not do it,
   because the last attempt may start at the deadline and take a whole timeout.
   */
  lemma OverBeforeTheNext(site: Site, backoff: Duration)
    requires Checkable(site, backoff)
    ensures AlwaysWithin(site, backoff, site.interval) <==> WorstElapsed(site, backoff) <= site.interval
    ensures (site.retries + 1) * site.timeout + site.retries * backoff <= site.interval
            ==> AlwaysWithin(site, backoff, site.interval)
  {
    forall script | Script(site, script) ensures Elapsed(site, backoff, script) <= WorstElapsed(site, backoff) {
      WorstIsUpperBound(site, backoff, script);
    }
    var worst := WorstIsReached(site, backoff);
    MultiplesOrdered(RetriesThatFit(site, backoff), site.retries, site.timeout + backoff);
    assert site.retries * (site.timeout + backoff) + site.timeout
        == (site.retries + 1) * site.timeout + site.retries * backoff;
  }

  /** A timeout longer than the interval already breaks the bound, with no retry at all. */
  lemma TimeoutLongerThanInterval(site: Site, backoff: Duration)
    requires Checkable(site, backoff) && site.timeout > site.interval
    ensures !AlwaysWithin(site, backoff, site.interval)
  {
    OverBeforeTheNext(site, backoff);
  }
}
