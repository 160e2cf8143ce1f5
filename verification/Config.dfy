/**
 The configuration: defaults filled in place, validation, and routing. A parsed URL is a value
 here (scheme and host, or a parse error), and so is the split of the listen address.
 */
module Config {
  import opened Types

  datatype URL = BadURL | URL(scheme: string, host: string)

  datatype Site = Site(name: string, url: URL, expectStatus: seq<int>, checkSSL: bool, checkDomain: bool,
                       interval: Duration, timeout: Duration, retries: int)

  datatype NotifierKind = Slack | SMTP | OtherKind

  datatype Notifier = Notifier(name: string, kind: NotifierKind, webhook: string,
                               host: string, port: int, from: string, to: seq<string>)

  datatype Routing = Routing(default: seq<string>, perType: map<string, seq<string>>)

  /** The value of a configuration. */
  datatype Settings = Settings(
    checkInterval: Duration,
    sslCheckInterval: Duration,
    domainCheckInterval: Duration,
    sites: seq<Site>,
    sslWarnDays: seq<int>,
    domainWarnDays: seq<int>,
    notifiers: seq<Notifier>,
    routing: Routing,
    storagePath: string,
    listenOK: bool)

  const DEFAULT_CHECK_INTERVAL: Duration := 60 * SECOND
  const DEFAULT_SSL_INTERVAL: Duration := 12 * HOUR
  const DEFAULT_DOMAIN_INTERVAL: Duration := 24 * HOUR
  const DEFAULT_TIMEOUT: Duration := 10 * SECOND
  const DEFAULT_RETRIES := 2
  const DEFAULT_STATUS := 200
  const DEFAULT_PATH := "./domainturva.db"

  /** The routing keys of the alert types. */
  function TypeName(t: AlertType): string {
    match t
    case DownAlert => "down"
    case RecoveredAlert => "recovered"
    case SSLExpiring => "ssl_expiring"
    case DomainExpiring => "domain_expiring"
    case SSLUntrusted => "ssl_untrusted"
    case DegradedMonitor => "degraded_monitoring"
  }

  function NotifiersFor(routing: Routing, alertType: string): seq<string> {
    if alertType in routing.perType then routing.perType[alertType] else routing.default
  }

  // ---- validity, as the rules a configuration must keep ----

  predicate SiteOK(s: Site) {
    && s.name != ""
    && s.url.URL? && s.url.host != "" && (s.url.scheme == "http" || s.url.scheme == "https")
    && s.interval >= SECOND && s.timeout >= SECOND && s.retries >= 0
    && (s.checkSSL ==> s.url.scheme == "https")
  }

  predicate NotifierOK(n: Notifier) {
    && n.name != ""
    && match n.kind
       case Slack => n.webhook != ""
       case SMTP => n.host != "" && n.port != 0 && n.from != "" && n.to != []
       case OtherKind => false
  }

  predicate DistinctSites(sites: seq<Site>) {
    forall i, j | 0 <= i < j < |sites| :: sites[i].name != sites[j].name
  }

  predicate DistinctNotifiers(notifiers: seq<Notifier>) {
    forall i, j | 0 <= i < j < |notifiers| :: notifiers[i].name != notifiers[j].name
  }

  function NamesOf(notifiers: seq<Notifier>): set<string> {
    set n | n in notifiers :: n.name
  }

  predicate RoutesKnown(routing: Routing, names: set<string>) {
    && (forall n | n in routing.default :: n in names)
    && (forall key | key in routing.perType :: forall n | n in routing.perType[key] :: n in names)
  }

  predicate AllPositive(days: seq<int>) {
    forall d | d in days :: d > 0
  }

  predicate Valid(c: Settings) {
    && c.sites != [] && (forall s | s in c.sites :: SiteOK(s)) && DistinctSites(c.sites)
    && (forall n | n in c.notifiers :: NotifierOK(n)) && DistinctNotifiers(c.notifiers)
    && RoutesKnown(c.routing, NamesOf(c.notifiers))
    && !(c.routing.default == [] && c.routing.perType == map[] && c.notifiers != [])
    && AllPositive(c.sslWarnDays) && AllPositive(c.domainWarnDays)
    && c.listenOK
  }

  /** Why a configuration is refused; each reason names what is wrong. */
  datatype Reason =
    | NoSites
    | BadSite(i: nat)
    | DuplicateSite(i: nat)
    | BadNotifier(i: nat)
    | DuplicateNotifier(i: nat)
    | UnknownRoute(group: string, name: string)
    | NoRoutes
    | BadWarnDay(day: int)
    | BadListen

  datatype Verdict = Accepted | Refused(reason: Reason)

  predicate Justified(c: Settings, reason: Reason) {
    match reason
    case NoSites => c.sites == []
    case BadSite(i) => i < |c.sites| && !SiteOK(c.sites[i])
    case DuplicateSite(i) => i < |c.sites| && exists j | 0 <= j < i :: c.sites[j].name == c.sites[i].name
    case BadNotifier(i) => i < |c.notifiers| && !NotifierOK(c.notifiers[i])
    case DuplicateNotifier(i) => i < |c.notifiers|
        && exists j | 0 <= j < i :: c.notifiers[j].name == c.notifiers[i].name
    case UnknownRoute(group, name) =>
      && name !in NamesOf(c.notifiers)
      && (name in c.routing.default || (group in c.routing.perType && name in c.routing.perType[group]))
    case NoRoutes => c.routing.default == [] && c.routing.perType == map[] && c.notifiers != []
    case BadWarnDay(day) => day <= 0 && (day in c.sslWarnDays || day in c.domainWarnDays)
    case BadListen => !c.listenOK
  }

  /** The first name that is not a configured notifier. */
  method CheckRoute(names: seq<string>, seen: set<string>) returns (unknown: Option<string>)
    ensures unknown.None? <==> forall n | n in names :: n in seen
    ensures unknown.Some? ==> unknown.value in names && unknown.value !in seen
  {
    for i := 0 to |names|
      invariant forall j | 0 <= j < i :: names[j] in seen
    {
      if names[i] !in seen {
        return Some(names[i]);
      }
    }
    return None;
  }

  method CheckDays(days: seq<int>) returns (bad: Option<int>)
    ensures bad.None? <==> AllPositive(days)
    ensures bad.Some? ==> bad.value in days && bad.value <= 0
  {
    for i := 0 to |days|
      invariant forall j | 0 <= j < i :: days[j] > 0
    {
      if days[i] <= 0 {
        assert days[i] in days;
        return Some(days[i]);
      }
    }
    return None;
  }

  method CheckSites(c: Settings) returns (v: Verdict)
    ensures v == Accepted <==> (forall s | s in c.sites :: SiteOK(s)) && DistinctSites(c.sites)
    ensures v.Refused? ==> Justified(c, v.reason)
  {
    var seen: set<string> := {};
    for i := 0 to |c.sites|
      invariant forall j | 0 <= j < i :: SiteOK(c.sites[j])
      invariant forall name :: name in seen <==> exists j | 0 <= j < i :: c.sites[j].name == name
      invariant DistinctSites(c.sites[..i])
    {
      var s := c.sites[i];
      assert s in c.sites;
      if s.name == "" {
        return Refused(BadSite(i));
      }
      if s.name in seen {
        return Refused(DuplicateSite(i));
      }
      seen := seen + {s.name};
      if !s.url.URL? || s.url.scheme == "" || s.url.host == "" {
        return Refused(BadSite(i));
      }
      if s.url.scheme != "http" && s.url.scheme != "https" {
        return Refused(BadSite(i));
      }
      if s.interval < SECOND || s.timeout < SECOND || s.retries < 0 {
        return Refused(BadSite(i));
      }
      if s.checkSSL && s.url.scheme != "https" {
        return Refused(BadSite(i));
      }
    }
    assert c.sites[..|c.sites|] == c.sites;
    return Accepted;
  }

  method CheckNotifiers(c: Settings) returns (v: Verdict, seen: set<string>)
    ensures v == Accepted <==> (forall n | n in c.notifiers :: NotifierOK(n)) && DistinctNotifiers(c.notifiers)
    ensures v == Accepted ==> seen == NamesOf(c.notifiers)
    ensures v.Refused? ==> Justified(c, v.reason)
  {
    seen := {};
    for i := 0 to |c.notifiers|
      invariant forall j | 0 <= j < i :: NotifierOK(c.notifiers[j])
      invariant forall name :: name in seen <==> exists j | 0 <= j < i :: c.notifiers[j].name == name
      invariant seen == NamesOf(c.notifiers[..i])
      invariant DistinctNotifiers(c.notifiers[..i])
    {
      var n := c.notifiers[i];
      assert n in c.notifiers;
      if n.name == "" {
        return Refused(BadNotifier(i)), seen;
      }
      if n.name in seen {
        return Refused(DuplicateNotifier(i)), seen;
      }
      assert c.notifiers[..i + 1] == c.notifiers[..i] + [n];
      seen := seen + {n.name};
      match n.kind
      case Slack =>
        if n.webhook == "" {
          return Refused(BadNotifier(i)), seen;
        }
      case SMTP =>
        if n.host == "" || n.port == 0 || n.from == "" || |n.to| == 0 {
          return Refused(BadNotifier(i)), seen;
        }
      case OtherKind =>
        return Refused(BadNotifier(i)), seen;
    }
    assert c.notifiers[..|c.notifiers|] == c.notifiers;
    return Accepted, seen;
  }

  /** The groups of a Go map, visited in any order. */
  method CheckRouting(c: Settings, seen: set<string>) returns (v: Verdict)
    requires seen == NamesOf(c.notifiers)
    ensures v == Accepted <==> RoutesKnown(c.routing, seen)
    ensures v.Refused? ==> Justified(c, v.reason)
  {
    var unknown := CheckRoute(c.routing.default, seen);
    if unknown.Some? {
      return Refused(UnknownRoute("default", unknown.value));
    }
    var groups := c.routing.perType.Keys;
    while groups != {}
      invariant groups <= c.routing.perType.Keys
      invariant forall key | key in c.routing.perType
                  && key !in groups :: forall n | n in c.routing.perType[key] :: n in seen
      decreases |groups|
    {
      var key :| key in groups;
      unknown := CheckRoute(c.routing.perType[key], seen);
      if unknown.Some? {
        return Refused(UnknownRoute(key, unknown.value));
      }
      groups := groups - {key};
    }
    return Accepted;
  }

  class Config {
    var checkInterval: Duration
    var sslCheckInterval: Duration
    var domainCheckInterval: Duration
    var sites: seq<Site>
    var sslWarnDays: seq<int>
    var domainWarnDays: seq<int>
    var notifiers: seq<Notifier>
    var routing: Routing
    var storagePath: string
    var listenOK: bool

    function Value(): Settings
      reads this
    {
      Settings(checkInterval, sslCheckInterval, domainCheckInterval, sites, sslWarnDays, domainWarnDays,
               notifiers, routing, storagePath, listenOK)
    }

    constructor (c: Settings)
      ensures Value() == c
    {
      checkInterval, sslCheckInterval, domainCheckInterval := c.checkInterval, c.sslCheckInterval,
          c.domainCheckInterval;
      sites, sslWarnDays, domainWarnDays := c.sites, c.sslWarnDays, c.domainWarnDays;
      notifiers, routing, storagePath, listenOK := c.notifiers, c.routing, c.storagePath, c.listenOK;
    }

    /** Fills in what is zero, site by site, in place. */
    method ApplyDefaults()
      modifies this
      ensures Value() == WithDefaults(old(Value()))
    {
      if checkInterval == 0 {
        checkInterval := DEFAULT_CHECK_INTERVAL;
      }
      if sslCheckInterval == 0 {
        sslCheckInterval := DEFAULT_SSL_INTERVAL;
      }
      if domainCheckInterval == 0 {
        domainCheckInterval := DEFAULT_DOMAIN_INTERVAL;
      }
      if storagePath == "" {
        storagePath := DEFAULT_PATH;
      }
      ApplySiteDefaults();
    }

    method ApplySiteDefaults()
      modifies this`sites
      ensures sites == SitesWithDefaults(old(sites), checkInterval)
    {
      ghost var given := sites;
      for i := 0 to |sites|
        invariant |sites| == |given|
        invariant forall j | 0 <= j < i :: sites[j] == SiteWithDefaults(given[j], checkInterval)
        invariant forall j | i <= j < |sites| :: sites[j] == given[j]
      {
        var s := sites[i];
        if s.interval == 0 {
          s := s.(interval := checkInterval);
        }
        if s.timeout == 0 {
          s := s.(timeout := DEFAULT_TIMEOUT);
        }
        if |s.expectStatus| == 0 {
          s := s.(expectStatus := [DEFAULT_STATUS]);
        }
        if s.retries == 0 {
          s := s.(retries := DEFAULT_RETRIES);
        }
        sites := sites[i := s];
      }
      assert sites == SitesWithDefaults(given, checkInterval);
    }

    /** Accepts exactly the valid configurations, and refuses the others with a reason that holds. */
    method Validate() returns (v: Verdict)
      ensures v == Accepted <==> Valid(Value())
      ensures v.Refused? ==> Justified(Value(), v.reason)
    {
      var c := Value();
      if |c.sites| == 0 {
        return Refused(NoSites);
      }
      v := CheckSites(c);
      if v.Refused? {
        return v;
      }
      var seen: set<string>;
      v, seen := CheckNotifiers(c);
      if v.Refused? {
        return v;
      }
      v := CheckRouting(c, seen);
      if v.Refused? {
        return v;
      }
      if |c.routing.default| == 0 && |c.routing.perType| == 0 && |c.notifiers| > 0 {
        return Refused(NoRoutes);
      }
      var bad := CheckDays(c.sslWarnDays);
      if bad.Some? {
        return Refused(BadWarnDay(bad.value));
      }
      bad := CheckDays(c.domainWarnDays);
      if bad.Some? {
        return Refused(BadWarnDay(bad.value));
      }
      if !c.listenOK {
        return Refused(BadListen);
      }
      return Accepted;
    }
  }

  function SiteWithDefaults(s: Site, checkInterval: Duration): Site {
    s.(interval := if s.interval == 0 then checkInterval else s.interval,
       timeout := if s.timeout == 0 then DEFAULT_TIMEOUT else s.timeout,
       expectStatus := if s.expectStatus == [] then [DEFAULT_STATUS] else s.expectStatus,
       retries := if s.retries == 0 then DEFAULT_RETRIES else s.retries)
  }

  function SitesWithDefaults(sites: seq<Site>, checkInterval: Duration): seq<Site> {
    seq(|sites|, i requires 0 <= i < |sites| => SiteWithDefaults(sites[i], checkInterval))
  }

  function WithDefaults(c: Settings): Settings {
    var checkInterval := if c.checkInterval == 0 then DEFAULT_CHECK_INTERVAL else c.checkInterval;
    c.(checkInterval := checkInterval,
       sslCheckInterval := if c.sslCheckInterval == 0 then DEFAULT_SSL_INTERVAL else c.sslCheckInterval,
       domainCheckInterval := if c.domainCheckInterval == 0 then DEFAULT_DOMAIN_INTERVAL else c.domainCheckInterval,
       storagePath := if c.storagePath == "" then DEFAULT_PATH else c.storagePath,
       sites := SitesWithDefaults(c.sites, checkInterval))
  }

  /**
   The defaults: a check a minute, certificates twice and registrations once a day, 10 seconds, 2 retries, status
   200.
   */
  lemma DefaultValues(c: Settings)
    ensures var d := WithDefaults(c);
            && d.checkInterval == (if c.checkInterval == 0 then 60 * 1_000_000_000 else c.checkInterval)
            && d.sslCheckInterval == (if c.sslCheckInterval == 0 then 12 * 3600 * 1_000_000_000 else c.sslCheckInterval)
            && d.domainCheckInterval == (if c.domainCheckInterval == 0 then 24 * 3600 * 1_000_000_000
                else c.domainCheckInterval)
            && d.storagePath == (if c.storagePath == "" then "./domainturva.db" else c.storagePath)
            && |d.sites| == |c.sites|
            && forall i | 0 <= i < |c.sites| ::
                 && d.sites[i].interval == (if c.sites[i].interval == 0 then d.checkInterval else c.sites[i].interval)
                 && d.sites[i].timeout == (if c.sites[i].timeout == 0 then 10 * 1_000_000_000 else c.sites[i].timeout)
                 && d.sites[i].retries == (if c.sites[i].retries == 0 then 2 else c.sites[i].retries)
                 && d.sites[i].expectStatus == if c.sites[i].expectStatus == [] then [200] else c.sites[i].expectStatus
  {
  }

  /** Filling in defaults twice is filling them in once. */
  lemma DefaultsIdempotent(c: Settings)
    ensures WithDefaults(WithDefaults(c)) == WithDefaults(c)
  {
  }

  /** Defaults repair and never break: what was valid stays valid, and no site is left without a retry. */
  lemma DefaultsKeepValid(c: Settings)
    ensures Valid(c) ==> Valid(WithDefaults(c))
    ensures forall s | s in WithDefaults(c).sites :: s.retries != 0 && s.timeout != 0 && s.interval != 0
  {
    var sites := WithDefaults(c).sites;
    forall s | s in sites ensures exists t | t in c.sites :: s == SiteWithDefaults(t, WithDefaults(c).checkInterval) {
      var i :| 0 <= i < |sites| && sites[i] == s;
      assert c.sites[i] in c.sites;
    }
  }

  /** The notifiers that main builds: the configured ones of a known kind. */
  method BuildNotifiers(notifiers: seq<Notifier>) returns (built: map<string, NotifierKind>)
    ensures built.Keys == Buildable(notifiers)
    ensures DistinctNotifiers(notifiers) ==>
              forall n | n in notifiers && n.name in built.Keys
                  && (n.kind == Slack || n.kind == SMTP) :: built[n.name] == n.kind
  {
    built := map[];
    for i := 0 to |notifiers|
      invariant built.Keys == Buildable(notifiers[..i])
      invariant DistinctNotifiers(notifiers) ==>
                  forall j | 0 <= j < i && notifiers[j].kind != OtherKind ::
                    notifiers[j].name in built.Keys && built[notifiers[j].name] == notifiers[j].kind
    {
      var n := notifiers[i];
      assert notifiers[..i + 1] == notifiers[..i] + [n];
      if n.kind == Slack || n.kind == SMTP {
        built := built[n.name := n.kind];
      }
    }
    assert notifiers[..|notifiers|] == notifiers;
  }

  function Buildable(notifiers: seq<Notifier>): set<string> {
    set n | n in notifiers && (n.kind == Slack || n.kind == SMTP) :: n.name
  }

  /** After validation every routed name, for every alert type, is a notifier that main builds. */
  lemma RoutingIsTotal(c: Settings, t: AlertType)
    requires Valid(c)
    ensures forall name | name in NotifiersFor(c.routing, TypeName(t)) :: name in Buildable(c.notifiers)
  {
  }
}
