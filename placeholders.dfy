/** The ten `{{key}}` placeholders of the status embed, resolved from the live server state
    (core/components/DiscordBot/commands/status.ts:71-116). */
module Placeholders {
  import opened Wrappers
  import opened Json

  /** `txAdmin.healthMonitor.currentStatus`. */
  datatype HealthStatus = Online | Partial | Offline | OtherStatus

  /** `txAdmin.scheduler.getStatus()`: `nextRelativeMs` is `None` when it is not a number. */
  datatype Schedule = Schedule(nextRelativeMs: Option<int>, nextSkip: bool, nextIsTemp: bool)

  /** The live state the placeholders are computed from. `humanize` is the
      `humanize-duration` formatter (days, hours, minutes), kept abstract. */
  datatype LiveState = LiveState(
    serverName: string,
    status: HealthStatus,
    onlineCount: nat,
    uptimeSeconds: int,
    schedule: Schedule,
    humanize: int -> string)

  /** The placeholders object, each value already passed through `String(value)` as the
      substitution does. */
  datatype PlaceholderMap = PlaceholderMap(
    serverName: string,
    statusString: string,
    statusColor: string,
    serverCfxId: string,
    serverBrowserUrl: string,
    serverJoinUrl: string,
    serverMaxClients: string,
    serverClients: string,
    nextScheduledRestart: string,
    uptime: string)

  /** One key and its value, in the declaration order that `Object.entries` yields. */
  datatype Entry = Entry(key: string, value: string)

  const CfxIdCacheKey := "fxsRuntime:cfxId"
  const MaxClientsCacheKey := "fxsRuntime:maxClients"
  const BrowserUrlPrefix := "https://" + "servers.fivem.net/servers/detail/"
  const JoinUrlPrefix := "https://cfx.re/join/"

  /** The ten placeholder names, in declaration order. */
  const Keys: seq<string> := [
    "serverName", "statusString", "statusColor", "serverCfxId", "serverBrowserUrl",
    "serverJoinUrl", "serverMaxClients", "serverClients", "nextScheduledRestart", "uptime"]

  function Entries(p: PlaceholderMap): (es: seq<Entry>)
    ensures |es| == |Keys| && forall i :: 0 <= i < |es| ==> es[i].key == Keys[i]
  {
    [Entry("serverName", p.serverName), Entry("statusString", p.statusString),
     Entry("statusColor", p.statusColor), Entry("serverCfxId", p.serverCfxId),
     Entry("serverBrowserUrl", p.serverBrowserUrl), Entry("serverJoinUrl", p.serverJoinUrl),
     Entry("serverMaxClients", p.serverMaxClients), Entry("serverClients", p.serverClients),
     Entry("nextScheduledRestart", p.nextScheduledRestart), Entry("uptime", p.uptime)]
  }

  /** `String(cache.get(key))`, which prints a missing value as `undefined`. */
  function CachedText(cache: map<string, Json>, key: string): string
  {
    if key in cache then JsString(cache[key]) else "undefined"
  }

  /** `String(cache.get('fxsRuntime:maxClients') ?? 'unknown')`. */
  function MaxClientsText(cache: map<string, Json>): string
  {
    if MaxClientsCacheKey in cache && !cache[MaxClientsCacheKey].JNull?
    then JsString(cache[MaxClientsCacheKey])
    else "unknown"
  }

  /** `String(config?.[key] ?? fallback)`: a missing or null setting takes the fallback. */
  function ConfigText(config: Json, key: string, fallback: string): string
  {
    match Property(config, key)
    case Some(v) => if v.JNull? then fallback else JsString(v)
    case None => fallback
  }

  /** The `nextScheduledRestart` text (status.ts:90-104). */
  function RestartText(schedule: Schedule, humanize: int -> string): (r: string)
    ensures schedule.nextRelativeMs.None? ==> r == "not scheduled"
    ensures schedule.nextRelativeMs.Some? && schedule.nextSkip ==> r == "skipped"
    ensures schedule.nextRelativeMs.Some? && !schedule.nextSkip ==>
      (if schedule.nextIsTemp then EndsWith(r, " (tmp)") else EndsWith(r, " "))
    ensures schedule.nextRelativeMs.Some? && !schedule.nextSkip ==>
      (schedule.nextRelativeMs.value < 60000 <==> StartsWith(r, "right now "))
    ensures schedule.nextRelativeMs.Some? && !schedule.nextSkip && schedule.nextRelativeMs.value >= 60000 ==>
      StartsWith(r, "in " + humanize(schedule.nextRelativeMs.value) + " ")
  {
    match schedule.nextRelativeMs
    case None => "not scheduled"
    case Some(ms) =>
      if schedule.nextSkip then "skipped"
      else
        var tempFlag := if schedule.nextIsTemp then "(tmp)" else "";
        if ms < 60000 then "right now " + tempFlag
        else
          var r := "in " + humanize(ms) + " " + tempFlag;
          assert r[0] == 'i';
          r
  }

  predicate EndsWith(s: string, suffix: string)
  {
    |suffix| <= |s| && s[|s| - |suffix|..] == suffix
  }

  /** The status string and colour (status.ts:76-77, 106-116): for the three known health
      states the configured text when present, else the built-in default; any other state
      keeps `Unknown` and `#4C3539`. */
  function StatusStyle(status: HealthStatus, config: Json): (string, string)
  {
    match status
    case Online =>
      (ConfigText(config, "onlineString", "\U{1F7E2} Online"), ConfigText(config, "onlineColor", "#0BA70B"))
    case Partial =>
      (ConfigText(config, "partialString", "\U{1F7E1} Partial"), ConfigText(config, "partialColor", "#FFF100"))
    case Offline =>
      (ConfigText(config, "offlineString", "\U{1F534} Offline"), ConfigText(config, "offlineColor", "#A70B28"))
    case OtherStatus =>
      ("Unknown", "#4C3539")
  }

  /** The placeholders object as `generateStatusMessage` leaves it after line 116. */
  function Resolved(live: LiveState, config: Json, cache: map<string, Json>): PlaceholderMap
  {
    var cfxId := CachedText(cache, CfxIdCacheKey);
    var style := StatusStyle(live.status, config);
    PlaceholderMap(
      serverName := live.serverName,
      statusString := style.0,
      statusColor := style.1,
      serverCfxId := cfxId,
      serverBrowserUrl := BrowserUrlPrefix + cfxId,
      serverJoinUrl := JoinUrlPrefix + cfxId,
      serverMaxClients := MaxClientsText(cache),
      serverClients := NatToString(live.onlineCount),
      nextScheduledRestart := RestartText(live.schedule, live.humanize),
      uptime := if live.status == Online then live.humanize(live.uptimeSeconds * 1000) else "--")
  }

  /** Builds the placeholders object as the source does: initial values first, then the
      scheduler field, then the status fields. */
  method ResolvePlaceholders(live: LiveState, config: Json, cache: map<string, Json>)
    returns (p: PlaceholderMap)
    ensures p == Resolved(live, config, cache)
    ensures p.serverClients == NatToString(live.onlineCount)
    ensures StartsWith(p.serverBrowserUrl, BrowserUrlPrefix) && StartsWith(p.serverJoinUrl, JoinUrlPrefix)
    ensures p.uptime == "--" <==> live.status != Online || live.humanize(live.uptimeSeconds * 1000) == "--"
  {
    var cfxId := CachedText(cache, CfxIdCacheKey);
    p := PlaceholderMap(
      serverName := live.serverName,
      statusString := "Unknown",
      statusColor := "#4C3539",
      serverCfxId := cfxId,
      serverBrowserUrl := BrowserUrlPrefix + cfxId,
      serverJoinUrl := JoinUrlPrefix + cfxId,
      serverMaxClients := MaxClientsText(cache),
      serverClients := NatToString(live.onlineCount),
      nextScheduledRestart := "unknown",
      uptime := if live.status == Online then live.humanize(live.uptimeSeconds * 1000) else "--");

    var restart := ScheduledRestartText(live.schedule, live.humanize);
    p := p.(nextScheduledRestart := restart);
    var statusString, statusColor := StatusFields(live.status, config, p.statusString, p.statusColor);
    p := p.(statusString := statusString, statusColor := statusColor);
    PrefixOfConcat(BrowserUrlPrefix, cfxId);
    PrefixOfConcat(JoinUrlPrefix, cfxId);
  }

  /** The scheduler block (status.ts:89-104): the restart text for the next scheduled
      restart. */
  method ScheduledRestartText(schedule: Schedule, humanize: int -> string) returns (text: string)
    ensures text == RestartText(schedule, humanize)
  {
    if schedule.nextRelativeMs.None? {
      text := "not scheduled";
    } else if schedule.nextSkip {
      text := "skipped";
    } else {
      var tempFlag := if schedule.nextIsTemp then "(tmp)" else "";
      var relativeTime := humanize(schedule.nextRelativeMs.value);
      if schedule.nextRelativeMs.value < 60000 {
        text := "right now " + tempFlag;
      } else {
        text := "in " + relativeTime + " " + tempFlag;
      }
    }
  }

  /** The status block (status.ts:106-116): the three known states overwrite the initial
      text and colour, any other state keeps them. */
  method StatusFields(status: HealthStatus, config: Json, initialString: string, initialColor: string)
    returns (statusString: string, statusColor: string)
    ensures status != OtherStatus ==> (statusString, statusColor) == StatusStyle(status, config)
    ensures status == OtherStatus ==> (statusString, statusColor) == (initialString, initialColor)
  {
    statusString, statusColor := initialString, initialColor;
    if status == Online {
      statusString := ConfigText(config, "onlineString", "\U{1F7E2} Online");
      statusColor := ConfigText(config, "onlineColor", "#0BA70B");
    } else if status == Partial {
      statusString := ConfigText(config, "partialString", "\U{1F7E1} Partial");
      statusColor := ConfigText(config, "partialColor", "#FFF100");
    } else if status == Offline {
      statusString := ConfigText(config, "offlineString", "\U{1F534} Offline");
      statusColor := ConfigText(config, "offlineColor", "#A70B28");
    }
  }

  /** With no status settings in the configuration, the three known states take the
      built-in defaults and every other state the `Unknown` style. */
  lemma StatusStyleFallbacks(status: HealthStatus, config: Json)
    requires forall k :: Property(config, k).None?
    ensures StatusStyle(status, config) ==
      match status
      case Online => ("\U{1F7E2} Online", "#0BA70B")
      case Partial => ("\U{1F7E1} Partial", "#FFF100")
      case Offline => ("\U{1F534} Offline", "#A70B28")
      case OtherStatus => ("Unknown", "#4C3539")
  {
  }

  /** A state outside ONLINE, PARTIAL and OFFLINE ignores the configuration. */
  lemma UnknownStatusIgnoresConfig(config1: Json, config2: Json)
    ensures StatusStyle(OtherStatus, config1) == StatusStyle(OtherStatus, config2)
  {
  }
}
