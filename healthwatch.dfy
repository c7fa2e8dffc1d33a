/** The health-evaluation and alert-suppression engine of HealthWatch: the verdict
    rule for one container, the check cycle over the configured services, the
    cooldown-gated alert ledger with its persisted form, the e-mail notifier's
    preconditions and the state it records on a successful send, the two read
    queries of the dashboard API, and the start-up readiness gate.

    The container runtime, the HTTP probe, the mail transport, the state file and
    the clock are inputs: a `Lookup` per container, an `HttpOutcome` per probe, a
    `SendOutcome` per message, a flag saying whether writing the state file
    succeeded, and an integer `now` in seconds. */
module HealthWatch {
  import opened Text

  // ================================================================ configuration

  datatype ServiceConfig = ServiceConfig(name: string, description: string, httpCheck: Option<string>)

  /** The monitored services, in the order the check cycle visits them. */
  const CriticalServices: seq<ServiceConfig> := [
    ServiceConfig("gluetun", "VPN Gateway", None),
    ServiceConfig("plex", "Media Server", Some("http://plex:32400/web/index.html")),
    ServiceConfig("sonarr", "TV Show Manager", Some("http://sonarr:8989/sonarr/ping")),
    ServiceConfig("radarr", "Movie Manager", Some("http://radarr:7878/radarr/ping")),
    ServiceConfig("prowlarr", "Indexer Manager", Some("http://prowlarr:9696/prowlarr/ping")),
    ServiceConfig("bazarr", "Subtitle Manager", Some("http://bazarr:6767/bazarr/ping")),
    ServiceConfig("traefik", "Reverse Proxy", None),
    ServiceConfig("cloudflared", "Cloudflare Tunnel", None),
    ServiceConfig("deluge", "Torrent Client", None),
    ServiceConfig("sabnzbd", "Usenet Client", None)
  ]

  /** Service names are dictionary keys, hence pairwise distinct. */
  predicate DistinctNames(config: seq<ServiceConfig>) {
    forall i, j :: 0 <= i < j < |config| ==> config[i].name != config[j].name
  }

  /** Mail transport settings read from the environment. `adminEmails` is the result
      of splitting the ADMIN_EMAILS variable on ',' (so `[""]` when it is unset). */
  datatype MailConfig = MailConfig(apiKey: string, domain: string, adminEmails: seq<string>, cooldownMinutes: int)

  const DefaultCooldownMinutes := 60
  const DefaultCheckIntervalMinutes := 15

  // ================================================================ observations

  /** The `Health` entry of a container's state: absent, or present with or without
      a `Status` key. */
  datatype HealthEntry = NoHealthEntry | HealthEntry(status: Option<string>)

  datatype ContainerState = ContainerState(running: bool, status: string, health: HealthEntry, startedAt: Option<string>)

  /** What looking a container up by name gives: its state, "not found", or some
      other error with its message. */
  datatype Lookup = Found(state: ContainerState) | NotFound | LookupFailed(message: string)

  /** What the HTTP GET of a probe URL gives: a status code, or an exception
      (connection error, timeout). */
  datatype HttpOutcome = HttpStatus(code: int) | HttpFailed

  /** Everything the outside world answers about one service in one cycle. */
  datatype Probe = Probe(lookup: Lookup, http: HttpOutcome, send: SendOutcome, saveOk: bool)

  /** What the mail transport answers: a status code, or an exception. */
  datatype SendOutcome = MailStatus(code: int) | MailFailed

  // ================================================================ verdicts

  /** The status record of one service. `description` is attached by the check cycle;
      `httpHealthy` is present only when the HTTP probe ran. */
  datatype Verdict = Verdict(
    name: string, running: bool, status: string, health: string, startedAt: Option<string>,
    healthy: bool, error: Option<string>, httpHealthy: Option<bool>, description: Option<string>)

  /** The fixed record for a container that could not be inspected. */
  function FailedVerdict(name: string, status: string, message: string): Verdict {
    Verdict(name, false, status, "N/A", None, false, Some(message), None, None)
  }

  /** `check_container_health`: the verdict for one container from its lookup. */
  function ContainerVerdict(name: string, lookup: Lookup): (v: Verdict)
    ensures v.name == name && v.httpHealthy == None && v.description == None
    ensures lookup.NotFound? ==> v == FailedVerdict(name, "not_found", "Container not found")
    ensures lookup.LookupFailed? ==> v == FailedVerdict(name, "error", lookup.message)
    ensures lookup.Found? && lookup.state.health == HealthEntry(None) ==>
              v == FailedVerdict(name, "error", "'Status'")
    ensures lookup.Found? && lookup.state.health.NoHealthEntry? ==>
              v.running == lookup.state.running && v.healthy == lookup.state.running && v.health == "N/A"
    ensures lookup.Found? && lookup.state.health.HealthEntry? && lookup.state.health.status.Some? ==>
              v.running == lookup.state.running && v.health == lookup.state.health.status.value
              && (v.healthy <==> lookup.state.health.status.value == "healthy")
    ensures lookup.Found? && lookup.state.health != HealthEntry(None) ==>
              v.status == lookup.state.status && v.error == None
              && v.startedAt == Some(lookup.state.startedAt.GetOr("Unknown"))
  {
    match lookup
    case NotFound => FailedVerdict(name, "not_found", "Container not found")
    case LookupFailed(message) => FailedVerdict(name, "error", message)
    case Found(state) =>
      match state.health
      case NoHealthEntry =>
        Verdict(name, state.running, state.status, "N/A", Some(state.startedAt.GetOr("Unknown")),
                state.running, None, None, None)
      case HealthEntry(None) =>
        // `state['Health']['Status']` raises KeyError('Status'), which the generic handler reports.
        FailedVerdict(name, "error", "'Status'")
      case HealthEntry(Some(h)) =>
        Verdict(name, state.running, state.status, h, Some(state.startedAt.GetOr("Unknown")),
                h == "healthy", None, None, None)
  }

  /** `check_http_endpoint`: reachable exactly on a 200 response. */
  function CheckHttpEndpoint(outcome: HttpOutcome): (ok: bool)
    ensures ok <==> outcome == HttpStatus(200)
  {
    outcome.HttpStatus? && outcome.code == 200
  }

  /** One service's entry of the check cycle: the container verdict, combined with the
      HTTP probe when the container runs and the service declares a probe URL. */
  function ServiceVerdict(cfg: ServiceConfig, probe: Probe): (v: Verdict)
    ensures v.name == cfg.name && v.description == Some(cfg.description)
    ensures v.httpHealthy.Some? <==> ContainerVerdict(cfg.name, probe.lookup).running && cfg.httpCheck.Some?
    ensures v.httpHealthy.Some? ==> v.httpHealthy.value == CheckHttpEndpoint(probe.http)
    ensures v.healthy <==> ContainerVerdict(cfg.name, probe.lookup).healthy && v.httpHealthy != Some(false)
    ensures v.running == ContainerVerdict(cfg.name, probe.lookup).running
    ensures v.status == ContainerVerdict(cfg.name, probe.lookup).status
  {
    var c := ContainerVerdict(cfg.name, probe.lookup);
    var withHttp :=
      if c.running && cfg.httpCheck.Some? then
        var ok := CheckHttpEndpoint(probe.http);
        c.(httpHealthy := Some(ok), healthy := c.healthy && ok)
      else c;
    withHttp.(description := Some(cfg.description))
  }

  /** A running container whose probe URL does not answer 200 is unhealthy, even
      without a health check of its own. */
  lemma FailedProbeMeansUnhealthy(cfg: ServiceConfig, probe: Probe)
    requires cfg.httpCheck.Some? && probe.lookup.Found? && probe.lookup.state.running
    requires probe.lookup.state.health.NoHealthEntry?
    requires probe.http != HttpStatus(200)
    ensures !ServiceVerdict(cfg, probe).healthy
    ensures ServiceVerdict(cfg, probe).httpHealthy == Some(false)
  {
  }

  /** The code trusts a present health check even for a stopped container: the
      `healthy` flag is not implied by `running`. */
  lemma StoppedContainerCanBeHealthy()
    ensures ContainerVerdict("plex", Found(ContainerState(false, "exited", HealthEntry(Some("healthy")), None))).healthy
  {
  }

  // ================================================================ alert ledger

  datatype AlertRecord = AlertRecord(service: string, timestamp: int, status: string, error: string)

  /** The content of the state file: absent, unreadable (bad JSON or a bad
      timestamp), or a record whose two keys may each be missing. */
  datatype StateFile =
    | NoFile
    | Unreadable
    | Stored(lastAlertTime: Option<map<string, int>>, history: Option<seq<AlertRecord>>)

  /** The state that survives a restart, and the file it is saved in. */
  datatype AlertState = AlertState(lastAlertTime: map<string, int>, history: seq<AlertRecord>, file: StateFile)

  const PersistedHistoryLimit := 100

  /** `save_state`'s record: every last-alert time, and only the last 100 alerts. */
  function Persisted(lastAlertTime: map<string, int>, history: seq<AlertRecord>): (f: StateFile)
    ensures f.Stored? && f.lastAlertTime == Some(lastAlertTime)
    ensures f.history.Some?
    ensures |f.history.value| == if |history| <= PersistedHistoryLimit then |history| else PersistedHistoryLimit
    ensures f.history.value == history[|history| - |f.history.value|..]
  {
    Stored(Some(lastAlertTime), Some(LastN(history, PersistedHistoryLimit)))
  }

  /** `load_state`: a readable file replaces both structures (a missing key reads as
      empty); a missing or unreadable file leaves the state as it was. */
  function Loaded(s: AlertState): (t: AlertState)
    ensures t.file == s.file
    ensures !s.file.Stored? ==> t == s
    ensures s.file.Stored? && s.file.lastAlertTime.Some? ==> t.lastAlertTime == s.file.lastAlertTime.value
    ensures s.file.Stored? && s.file.lastAlertTime.None? ==> t.lastAlertTime == map[]
    ensures s.file.Stored? && s.file.history.Some? ==> t.history == s.file.history.value
    ensures s.file.Stored? && s.file.history.None? ==> t.history == []
  {
    match s.file
    case Stored(times, history) =>
      s.(lastAlertTime := times.GetOr(map[]), history := history.GetOr([]))
    case _ => s
  }

  /** Loading what was saved gives back every last-alert time and the most recent 100
      alerts in their original order. */
  lemma {:induction false} SaveThenLoad(s: AlertState)
    ensures var t := Loaded(s.(file := Persisted(s.lastAlertTime, s.history)));
            t.lastAlertTime == s.lastAlertTime
            && t.history == LastN(s.history, PersistedHistoryLimit)
            && (|s.history| <= PersistedHistoryLimit ==> t.history == s.history)
  {
  }

  /** After the 101st alert the persisted window drops the oldest and keeps the order
      of the rest. */
  lemma {:induction false} PersistedWindowSlides(history: seq<AlertRecord>, a: AlertRecord)
    requires |history| >= PersistedHistoryLimit
    ensures LastN(history + [a], PersistedHistoryLimit) == LastN(history, PersistedHistoryLimit)[1..] + [a]
  {
    var h := history + [a];
    assert h[|h| - PersistedHistoryLimit..] == history[|history| - PersistedHistoryLimit + 1..] + [a];
  }

  /** `should_send_alert`: no earlier alert, or strictly more than the cooldown has
      passed since it. Times are in seconds. */
  predicate ShouldSendAlert(lastAlertTime: map<string, int>, name: string, now: int, cooldownMinutes: int)
    ensures name !in lastAlertTime ==> ShouldSendAlert(lastAlertTime, name, now, cooldownMinutes)
    ensures name in lastAlertTime && now <= lastAlertTime[name] + cooldownMinutes * 60
            ==> !ShouldSendAlert(lastAlertTime, name, now, cooldownMinutes)
    ensures name in lastAlertTime && now > lastAlertTime[name] + cooldownMinutes * 60
            ==> ShouldSendAlert(lastAlertTime, name, now, cooldownMinutes)
  {
    name !in lastAlertTime || now - lastAlertTime[name] > cooldownMinutes * 60
  }

  /** The cooldown boundary: alerting is allowed again only strictly after
      `cooldown` seconds, never at exactly `cooldown`. */
  lemma CooldownBoundary(lastAlertTime: map<string, int>, name: string, now: int, cooldownMinutes: int)
    requires name in lastAlertTime
    ensures now - lastAlertTime[name] == cooldownMinutes * 60 ==> !ShouldSendAlert(lastAlertTime, name, now, cooldownMinutes)
    ensures now - lastAlertTime[name] > cooldownMinutes * 60 ==> ShouldSendAlert(lastAlertTime, name, now, cooldownMinutes)
  {
  }

  predicate MailConfigured(mail: MailConfig) {
    mail.apiKey != "" && mail.domain != ""
  }

  predicate RecipientsConfigured(mail: MailConfig) {
    !(|mail.adminEmails| == 0 || mail.adminEmails == [""])
  }

  /** The detail line of an alert, by priority: a stopped container, then a failed
      HTTP probe, then the record's own error, then a generic text. */
  function ErrorDetail(v: Verdict): (e: string)
    ensures !v.running ==> e == "Container is not running"
    ensures v.running && v.httpHealthy == Some(false) ==> e == "Container running but HTTP endpoint not responding"
    ensures v.running && v.httpHealthy != Some(false) ==> e == v.error.GetOr("Service is not responding")
  {
    if !v.running then "Container is not running"
    else if v.httpHealthy == Some(false) then "Container running but HTTP endpoint not responding"
    else v.error.GetOr("Service is not responding")
  }

  /** Records produced by the check cycle never carry their lookup error into an
      alert: only a stopped container has one, and that case takes priority. */
  lemma ErrorDetailIsFixedText(cfg: ServiceConfig, probe: Probe)
    ensures ErrorDetail(ServiceVerdict(cfg, probe)) in
              {"Container is not running", "Container running but HTTP endpoint not responding", "Service is not responding"}
  {
    var v := ServiceVerdict(cfg, probe);
    if v.running {
      assert probe.lookup.Found?;
      assert v.error == None;
    }
  }

  /** Whether `send_email_alert` sends and records: configured transport and
      recipients, no active cooldown, and a 200 answer. */
  predicate Sends(s: AlertState, mail: MailConfig, name: string, now: int, outcome: SendOutcome) {
    MailConfigured(mail) && RecipientsConfigured(mail)
    && ShouldSendAlert(s.lastAlertTime, name, now, mail.cooldownMinutes)
    && outcome == MailStatus(200)
  }

  /** The state after `send_email_alert(name, v)`. On success the time is recorded,
      one alert is appended and the state is saved (when writing succeeds); in every
      other case nothing changes. */
  function Notify(s: AlertState, mail: MailConfig, name: string, v: Verdict, now: int,
                  outcome: SendOutcome, saveOk: bool): (t: AlertState)
    ensures t != s ==> Sends(s, mail, name, now, outcome)
    ensures t != s ==> t.lastAlertTime == s.lastAlertTime[name := now]
    ensures t != s ==> t.history == s.history + [AlertRecord(name, now, v.status, ErrorDetail(v))]
  {
    if Sends(s, mail, name, now, outcome) then
      var times := s.lastAlertTime[name := now];
      var history := s.history + [AlertRecord(name, now, v.status, ErrorDetail(v))];
      AlertState(times, history, if saveOk then Persisted(times, history) else s.file)
    else s
  }

  /** A send that is skipped or fails leaves every part of the state as it was. */
  lemma NotifyFailureChangesNothing(s: AlertState, mail: MailConfig, name: string, v: Verdict, now: int,
                                    outcome: SendOutcome, saveOk: bool)
    requires !MailConfigured(mail) || !RecipientsConfigured(mail)
             || !ShouldSendAlert(s.lastAlertTime, name, now, mail.cooldownMinutes)
             || outcome != MailStatus(200)
    ensures Notify(s, mail, name, v, now, outcome, saveOk) == s
  {
  }

  /** A successful send appends exactly one alert, sets only this service's time, and
      starts a cooldown during which a second alert is suppressed. */
  lemma NotifySuccess(s: AlertState, mail: MailConfig, name: string, v: Verdict, now: int, saveOk: bool, later: int)
    requires MailConfigured(mail) && RecipientsConfigured(mail)
    requires ShouldSendAlert(s.lastAlertTime, name, now, mail.cooldownMinutes)
    ensures var t := Notify(s, mail, name, v, now, MailStatus(200), saveOk);
            && t.history == s.history + [AlertRecord(name, now, v.status, ErrorDetail(v))]
            && t.lastAlertTime.Keys == s.lastAlertTime.Keys + {name}
            && t.lastAlertTime[name] == now
            && (forall n :: n in s.lastAlertTime && n != name ==> t.lastAlertTime[n] == s.lastAlertTime[n])
            && (now <= later <= now + mail.cooldownMinutes * 60 ==> !ShouldSendAlert(t.lastAlertTime, name, later, mail.cooldownMinutes))
            && (later > now + mail.cooldownMinutes * 60 ==> ShouldSendAlert(t.lastAlertTime, name, later, mail.cooldownMinutes))
            && (saveOk ==> t.file == Persisted(t.lastAlertTime, t.history))
  {
  }

  /** With a 60-minute cooldown: an alert at T0 is sent, a failing cycle at T0 + 30 min
      is suppressed, and one at T0 + 61 min is sent and moves the cooldown. */
  lemma CooldownScenario(s: AlertState, mail: MailConfig, v: Verdict, t0: int)
    requires MailConfigured(mail) && RecipientsConfigured(mail) && mail.cooldownMinutes == 60
    requires "sonarr" !in s.lastAlertTime
    ensures var s1 := Notify(s, mail, "sonarr", v, t0, MailStatus(200), true);
            var s2 := Notify(s1, mail, "sonarr", v, t0 + 30 * 60, MailStatus(200), true);
            var s3 := Notify(s2, mail, "sonarr", v, t0 + 61 * 60, MailStatus(200), true);
            && s1.lastAlertTime["sonarr"] == t0
            && s2 == s1
            && s3.lastAlertTime["sonarr"] == t0 + 61 * 60
            && |s3.history| == |s.history| + 2
  {
  }

  // ================================================================ the check cycle

  /** The name a result contributes to `failed_services`. */
  function NameIfUnhealthy(v: Verdict): Option<string> {
    if v.healthy then None else Some(v.name)
  }

  /** Names of the unhealthy services, in cycle order (`failed_services`). */
  function UnhealthyNames(results: seq<Verdict>): (names: seq<string>)
    ensures |names| <= |results|
  {
    FilterMap(NameIfUnhealthy, results)
  }

  /** The failed list holds exactly the names of the unhealthy results, each right
      after the names of the unhealthy results before it (cycle order). */
  lemma UnhealthyNamesSpec(results: seq<Verdict>)
    ensures forall n :: n in UnhealthyNames(results) <==>
              exists i :: 0 <= i < |results| && !results[i].healthy && results[i].name == n
    ensures forall i :: 0 <= i < |results| && !results[i].healthy ==>
              |UnhealthyNames(results[..i])| < |UnhealthyNames(results)|
              && UnhealthyNames(results)[|UnhealthyNames(results[..i])|] == results[i].name
  {
    FilterMapSound(NameIfUnhealthy, results);
    FilterMapComplete(NameIfUnhealthy, results);
    FilterMapPosition(NameIfUnhealthy, results);
    forall n | n in UnhealthyNames(results)
      ensures exists i :: 0 <= i < |results| && !results[i].healthy && results[i].name == n
    {
      var i :| 0 <= i < |results| && NameIfUnhealthy(results[i]) == Some(n);
    }
    forall n | exists i :: 0 <= i < |results| && !results[i].healthy && results[i].name == n
      ensures n in UnhealthyNames(results)
    {
      var i :| 0 <= i < |results| && !results[i].healthy && results[i].name == n;
      assert NameIfUnhealthy(results[i]) == Some(n);
    }
  }

  /** The alert state after `monitor_services` has offered every unhealthy result of a
      cycle to the notifier, in cycle order. */
  function NotifyAll(s: AlertState, mail: MailConfig, results: seq<Verdict>, probes: seq<Probe>, now: int): (t: AlertState)
    requires |results| == |probes|
    ensures s.history <= t.history && |t.history| <= |s.history| + |results|
  {
    if results == [] then s
    else
      var k := |results| - 1;
      var before := NotifyAll(s, mail, results[..k], probes[..k], now);
      if results[k].healthy then before
      else Notify(before, mail, results[k].name, results[k], now, probes[k].send, probes[k].saveOk)
  }

  /** A cycle only touches the ledger of services it found unhealthy: every other
      service keeps its last-alert entry, the old history stays a prefix, and each
      new alert names an unhealthy service. */
  lemma {:induction false} NotifyAllOnlyUnhealthy(s: AlertState, mail: MailConfig, results: seq<Verdict>,
                                                  probes: seq<Probe>, now: int)
    requires |results| == |probes|
    ensures var t := NotifyAll(s, mail, results, probes, now);
            && (forall n :: n !in UnhealthyNames(results) ==>
                  (n in t.lastAlertTime <==> n in s.lastAlertTime)
                  && (n in s.lastAlertTime ==> t.lastAlertTime[n] == s.lastAlertTime[n]))
            && s.history <= t.history
            && |t.history| <= |s.history| + |UnhealthyNames(results)|
            && (forall i :: |s.history| <= i < |t.history| ==> t.history[i].service in UnhealthyNames(results))
  {
    if results != [] {
      var k := |results| - 1;
      NotifyAllOnlyUnhealthy(s, mail, results[..k], probes[..k], now);
      assert results[..k + 1] == results;
    }
  }

  /** The converse: an unhealthy service that occurs once in the cycle, is due, and
      whose mail is answered with 200 is alerted, with its time set to `now` and its
      record in the history. */
  lemma {:induction false} NotifyAllAlertsDue(s: AlertState, mail: MailConfig, results: seq<Verdict>,
                                              probes: seq<Probe>, now: int, i: int)
    requires |results| == |probes| && 0 <= i < |results| && !results[i].healthy
    requires forall j :: 0 <= j < |results| && j != i ==> results[j].name != results[i].name
    requires MailConfigured(mail) && RecipientsConfigured(mail)
    requires ShouldSendAlert(s.lastAlertTime, results[i].name, now, mail.cooldownMinutes)
    requires probes[i].send == MailStatus(200)
    ensures var t := NotifyAll(s, mail, results, probes, now);
            && results[i].name in t.lastAlertTime && t.lastAlertTime[results[i].name] == now
            && AlertRecord(results[i].name, now, results[i].status, ErrorDetail(results[i])) in t.history
  {
    var k := |results| - 1;
    var name := results[i].name;
    var before := NotifyAll(s, mail, results[..k], probes[..k], now);
    if k == i {
      NotifyAllOnlyUnhealthy(s, mail, results[..k], probes[..k], now);
      UnhealthyNamesSpec(results[..k]);
      assert name !in UnhealthyNames(results[..k]);
      assert ShouldSendAlert(before.lastAlertTime, name, now, mail.cooldownMinutes);
    } else {
      NotifyAllAlertsDue(s, mail, results[..k], probes[..k], now, i);
      assert results[k].name != name;
    }
  }

  /** `api_status` summary counts. */
  datatype Summary = Summary(healthy: nat, total: nat, unhealthy: int)

  function CountHealthy(status: seq<Verdict>): (n: nat)
    ensures n <= |status|
  {
    if status == [] then 0
    else CountHealthy(status[..|status| - 1]) + (if status[|status| - 1].healthy then 1 else 0)
  }

  /** `api_status`: healthy and unhealthy add up to the number of services shown. */
  function StatusSummary(status: seq<Verdict>): (s: Summary)
    ensures s.total == |status|
    ensures s.healthy <= s.total && 0 <= s.unhealthy && s.healthy + s.unhealthy == s.total
  {
    var healthy := CountHealthy(status);
    Summary(healthy, |status|, |status| - healthy)
  }

  /** The dashboard's unhealthy count is the number of services the cycle offered to
      the notifier. */
  lemma {:induction false} UnhealthyCountMatchesFailed(status: seq<Verdict>)
    ensures StatusSummary(status).unhealthy == |UnhealthyNames(status)|
  {
    if status != [] {
      UnhealthyCountMatchesFailed(status[..|status| - 1]);
    }
  }

  const HistoryPageLimit := 50

  datatype HistoryPage = HistoryPage(alerts: seq<AlertRecord>, total: nat)

  /** `api_history`: the last 50 alerts, oldest first, and how many there are in all. */
  function HistoryView(history: seq<AlertRecord>): (p: HistoryPage)
    ensures p.total == |history|
    ensures |p.alerts| == if |history| <= HistoryPageLimit then |history| else HistoryPageLimit
    ensures p.alerts == history[|history| - |p.alerts|..]
  {
    HistoryPage(LastN(history, HistoryPageLimit), |history|)
  }

  /** The monitor: configuration and the Python module's global state
      (`service_status`, `last_alert_time`, `alert_history`) plus the state file. */
  class HealthMonitor {
    const config: seq<ServiceConfig>
    const mail: MailConfig
    var serviceStatus: seq<Verdict>
    var lastAlertTime: map<string, int>
    var alertHistory: seq<AlertRecord>
    var stateFile: StateFile

    function State(): AlertState
      reads this
    {
      AlertState(lastAlertTime, alertHistory, stateFile)
    }

    /** `HealthMonitor()`: starts from the empty globals and loads the state file. */
    constructor (config: seq<ServiceConfig>, mail: MailConfig, file: StateFile)
      requires DistinctNames(config)
      ensures this.config == config && this.mail == mail && serviceStatus == []
      ensures State() == Loaded(AlertState(map[], [], file))
    {
      this.config := config;
      this.mail := mail;
      serviceStatus := [];
      lastAlertTime := map[];
      alertHistory := [];
      stateFile := file;
      new;
      LoadState();
    }

    /** `load_state`. */
    method LoadState()
      modifies this
      ensures State() == Loaded(old(State()))
      ensures serviceStatus == old(serviceStatus)
    {
      match stateFile
      case Stored(times, history) =>
        lastAlertTime := times.GetOr(map[]);
        alertHistory := history.GetOr([]);
      case _ =>
    }

    /** `save_state`: writes the persisted record, or leaves the file as it was when
        writing fails. */
    method SaveState(writeOk: bool)
      modifies this
      ensures stateFile == if writeOk then Persisted(lastAlertTime, alertHistory) else old(stateFile)
      ensures lastAlertTime == old(lastAlertTime) && alertHistory == old(alertHistory)
      ensures serviceStatus == old(serviceStatus)
    {
      if writeOk {
        stateFile := Stored(Some(lastAlertTime), Some(LastN(alertHistory, PersistedHistoryLimit)));
      }
    }

    /** `check_all_services`: one record per configured service, in configuration
        order, replacing `service_status` as a whole. */
    method CheckAllServices(probes: seq<Probe>) returns (results: seq<Verdict>)
      requires |probes| == |config|
      modifies this
      ensures |results| == |config|
      ensures forall i :: 0 <= i < |config| ==> results[i] == ServiceVerdict(config[i], probes[i])
      ensures serviceStatus == results
      ensures State() == old(State())
    {
      results := [];
      for i := 0 to |config|
        invariant |results| == i
        invariant forall j :: 0 <= j < i ==> results[j] == ServiceVerdict(config[j], probes[j])
      {
        var status := ContainerVerdict(config[i].name, probes[i].lookup);
        if status.running && config[i].httpCheck.Some? {
          var httpHealthy := CheckHttpEndpoint(probes[i].http);
          status := status.(httpHealthy := Some(httpHealthy), healthy := status.healthy && httpHealthy);
        }
        status := status.(description := Some(config[i].description));
        results := results + [status];
      }
      serviceStatus := results;
    }

    /** `send_email_alert`. */
    method SendEmailAlert(name: string, status: Verdict, now: int, outcome: SendOutcome, saveOk: bool)
      modifies this
      ensures State() == Notify(old(State()), mail, name, status, now, outcome, saveOk)
      ensures serviceStatus == old(serviceStatus)
    {
      if !MailConfigured(mail) {
        return;
      }
      if !RecipientsConfigured(mail) {
        return;
      }
      if !ShouldSendAlert(lastAlertTime, name, now, mail.cooldownMinutes) {
        return;
      }
      var errorDetails := ErrorDetail(status);
      if outcome == MailStatus(200) {
        lastAlertTime := lastAlertTime[name := now];
        alertHistory := alertHistory + [AlertRecord(name, now, status.status, errorDetails)];
        SaveState(saveOk);
      }
    }

    /** `monitor_services`: one check cycle, then the notifier for exactly the
        unhealthy services, in cycle order. */
    method MonitorServices(now: int, probes: seq<Probe>) returns (results: seq<Verdict>, failed: seq<string>)
      requires |probes| == |config|
      modifies this
      ensures |results| == |config|
      ensures forall i :: 0 <= i < |config| ==> results[i] == ServiceVerdict(config[i], probes[i])
      ensures serviceStatus == results
      ensures failed == UnhealthyNames(results)
      ensures State() == NotifyAll(old(State()), mail, results, probes, now)
    {
      results := CheckAllServices(probes);
      ghost var start := State();
      failed := [];
      for i := 0 to |results|
        invariant serviceStatus == results
        invariant failed == UnhealthyNames(results[..i])
        invariant State() == NotifyAll(start, mail, results[..i], probes[..i], now)
      {
        assert results[..i + 1][..i] == results[..i];
        assert probes[..i + 1][..i] == probes[..i];
        if !results[i].healthy {
          failed := failed + [results[i].name];
          SendEmailAlert(results[i].name, results[i], now, probes[i].send, probes[i].saveOk);
        }
      }
      assert results[..|results|] == results;
      assert probes[..|probes|] == probes;
    }
  }

  /** A cycle yields exactly one record per configured service. */
  lemma {:induction false} OneVerdictPerService(config: seq<ServiceConfig>, results: seq<Verdict>, probes: seq<Probe>)
    requires DistinctNames(config) && |results| == |config| == |probes|
    requires forall i :: 0 <= i < |config| ==> results[i] == ServiceVerdict(config[i], probes[i])
    ensures forall i :: 0 <= i < |config| ==> results[i].name == config[i].name
    ensures forall i, j :: 0 <= i < |results| && 0 <= j < |results| && results[i].name == results[j].name ==> i == j
    ensures StatusSummary(results).total == |config|
  {
    forall i, j | 0 <= i < |results| && 0 <= j < |results| && results[i].name == results[j].name
      ensures i == j
    {
      assert config[i].name == results[i].name && config[j].name == results[j].name;
    }
  }

  // ================================================================ readiness gate

  const MaxWaitSeconds := 15 * 60
  const ColdBootSeconds := 2 * 60
  const PollIntervalSeconds := 15
  const GraceSeconds := 30

  /** A container counts as up when it runs and its health check says "healthy" or it
      has none (a missing Status reads as "none" here). Lookup errors do not count. */
  predicate CountsAsReady(lookup: Lookup) {
    lookup.Found? && lookup.state.running &&
    match lookup.state.health
    case NoHealthEntry => true
    case HealthEntry(status) => status.GetOr("none") == "healthy" || status.GetOr("none") == "none"
  }

  /** The number of configured services counted as up at time `t`. */
  function ReadyCount(config: seq<ServiceConfig>, t: int, lookupAt: (int, string) -> Lookup): (n: nat)
    ensures n <= |config|
  {
    if config == [] then 0
    else
      var k := |config| - 1;
      ReadyCount(config[..k], t, lookupAt) + (if CountsAsReady(lookupAt(t, config[k].name)) then 1 else 0)
  }

  /** The 80% threshold in integers: `count >= 0.8 * total`. */
  predicate PollReady(config: seq<ServiceConfig>, t: int, clientUp: int -> bool, lookupAt: (int, string) -> Lookup) {
    clientUp(t) && 5 * ReadyCount(config, t, lookupAt) >= 4 * |config|
  }

  /** The time of the k-th poll: after the cold-boot wait, one poll per interval. */
  function PollTime(start: int, k: nat): int {
    start + ColdBootSeconds + PollIntervalSeconds * k
  }

  /** Polls happen while no more than 15 minutes have elapsed: polls 0..52. */
  const LastPoll := (MaxWaitSeconds - ColdBootSeconds) / PollIntervalSeconds

  /** `wait_for_services_ready`: sleeps through the cold-boot period, then polls every
      15 seconds until 80% of the services are up (followed by a 30-second grace
      period) or more than 15 minutes have elapsed. It always returns: either at the
      first ready poll plus the grace period, or, if no poll was ready, one interval
      past the 15-minute budget. `clientUp(t)` says whether the runtime client could
      be created at time `t`. */
  method WaitForServicesReady(config: seq<ServiceConfig>, start: int, clientUp: int -> bool,
                              lookupAt: (int, string) -> Lookup) returns (ready: bool, exitTime: int)
    ensures start + ColdBootSeconds + GraceSeconds <= exitTime <= start + MaxWaitSeconds + GraceSeconds
    ensures ready ==> exists k: nat :: k <= LastPoll && exitTime == PollTime(start, k) + GraceSeconds
                        && PollReady(config, PollTime(start, k), clientUp, lookupAt)
                        && forall j: nat :: j < k ==> !PollReady(config, PollTime(start, j), clientUp, lookupAt)
    ensures !ready ==> exitTime == start + MaxWaitSeconds + PollIntervalSeconds
                       && forall j: nat :: j <= LastPoll ==> !PollReady(config, PollTime(start, j), clientUp, lookupAt)
  {
    var now := start + ColdBootSeconds;
    ghost var k: nat := 0;
    while true
      invariant now == PollTime(start, k) && k <= LastPoll + 1
      invariant forall j: nat :: j < k ==> !PollReady(config, PollTime(start, j), clientUp, lookupAt)
      decreases LastPoll + 1 - k
    {
      var elapsed := now - start;
      if elapsed > MaxWaitSeconds {
        return false, now;
      }
      if clientUp(now) {
        var runningCount := 0;
        for i := 0 to |config|
          invariant runningCount == ReadyCount(config[..i], now, lookupAt)
        {
          assert config[..i + 1][..i] == config[..i];
          if CountsAsReady(lookupAt(now, config[i].name)) {
            runningCount := runningCount + 1;
          }
        }
        assert config[..|config|] == config;
        if 5 * runningCount >= 4 * |config| {
          now := now + GraceSeconds;
          return true, now;
        }
      }
      now := now + PollIntervalSeconds;
      k := k + 1;
    }
  }
}
