/** The update checker (core/components/UpdateChecker.ts:24-149): the changelog response
    schema, the txAdmin version check and the FXServer update tier, kept in two fields. */
module UpdateChecking {
  import opened Wrappers
  import opened Json

  /** The colours an update notice can have. */
  datatype Color = Info | Secondary | Success | Warning | Danger

  /** `semver.ReleaseType`. */
  datatype ReleaseType = Major | Premajor | Minor | Preminor | Patch | Prepatch | Prerelease

  /** The txAdmin notice: the version difference (`null` as `None`), the version stored
      as `latest`, and the colour. */
  datatype TxUpdateData = TxUpdateData(semverDiff: Option<ReleaseType>, latest: string, color: Color)

  /** The FXServer notice. */
  datatype FxsUpdateData = FxsUpdateData(color: Color, message: string, subtext: string, downloadLink: string)

  /** One release channel of the changelog: its build number, download url and txAdmin
      version. */
  datatype Release = Release(build: int, download: string, txadmin: string)

  /** A changelog response that passed the schema. */
  datatype Changelog = Changelog(recommended: Release, optional: Release, latest: Release, critical: Release)

  /** What the checker reads from its surroundings: the running Evorative version, the
      FXServer build, zod's url check, and `semver.lt` and `semver.diff` (`lt` gives
      `None` where it throws on a version it cannot parse). */
  datatype Env = Env(
    evorativeVersion: string,
    fxServerVersion: int,
    isUrl: string -> bool,
    semverLt: (string, string) -> Option<bool>,
    semverDiff: (string, string) -> Option<ReleaseType>)

  const CriticalMessage := "A critical update is available for FXServer, you should update now."
  const RecommendedMessage := "A recommended update is available for FXServer, you should update."
  const OptionalMessage := "An optional update is available for FXServer."
  const ForbiddenVersion := "0.0.0"

  // ---------------------------------------------------------------------------------
  // The response schema (UpdateChecker.ts:24-41)

  /** `z.coerce.number()`: `Number(value)` for the values it is defined on here; a missing
      value, a non-numeric string, an array or an object is `None` (NaN). */
  function CoerceNumber(v: Option<Json>): Option<int>
  {
    match v
    case None => None
    case Some(JNum(n)) => Some(n)
    case Some(JBool(b)) => Some(if b then 1 else 0)
    case Some(JNull) => Some(0)
    case Some(JStr(s)) =>
      if forall i :: 0 <= i < |s| ==> IsDigit(s[i]) then Some(ParseNat(s)) else None
    case Some(_) => None
  }

  /** The three keys of one channel: a positive build number, a download url and a
      txAdmin version other than `0.0.0`. */
  function ParseRelease(fs: seq<Field>, name: string, isUrl: string -> bool): Option<Release>
  {
    var build := CoerceNumber(Get(fs, name));
    var download := Get(fs, name + "_download");
    var txadmin := Get(fs, name + "_txadmin");
    if && build.Some? && build.value > 0
       && download.Some? && download.value.JStr? && isUrl(download.value.s)
       && txadmin.Some? && txadmin.value.JStr? && txadmin.value.s != ForbiddenVersion
    then Some(Release(build.value, download.value.s, txadmin.value.s))
    else None
  }

  /** `changelogRespSchema.parse`: an object whose four channels all pass. */
  function ParseChangelog(resp: Json, isUrl: string -> bool): Option<Changelog>
  {
    if !resp.JObj? then None
    else
      var recommended := ParseRelease(resp.fields, "recommended", isUrl);
      var optional := ParseRelease(resp.fields, "optional", isUrl);
      var latest := ParseRelease(resp.fields, "latest", isUrl);
      var critical := ParseRelease(resp.fields, "critical", isUrl);
      if recommended.Some? && optional.Some? && latest.Some? && critical.Some? then
        Some(Changelog(recommended.value, optional.value, latest.value, critical.value))
      else None
  }

  /** A release the schema accepts. */
  predicate ValidRelease(r: Release, isUrl: string -> bool)
  {
    r.build > 0 && isUrl(r.download) && r.txadmin != ForbiddenVersion
  }

  predicate ValidChangelog(c: Changelog, isUrl: string -> bool)
  {
    && ValidRelease(c.recommended, isUrl) && ValidRelease(c.optional, isUrl)
    && ValidRelease(c.latest, isUrl) && ValidRelease(c.critical, isUrl)
  }

  /** A channel is accepted exactly when its build coerces to a positive number, its
      download is a url string and its txAdmin version is a string other than `0.0.0`;
      the release then carries those values. */
  lemma ParseReleaseCorrect(fs: seq<Field>, name: string, isUrl: string -> bool)
    ensures var r := ParseRelease(fs, name, isUrl);
      r.Some? <==>
        && CoerceNumber(Get(fs, name)).Some? && CoerceNumber(Get(fs, name)).value > 0
        && StringValue(Get(fs, name + "_download")).Some? && isUrl(StringValue(Get(fs, name + "_download")).value)
        && StringValue(Get(fs, name + "_txadmin")).Some? && StringValue(Get(fs, name + "_txadmin")).value != "0.0.0"
    ensures var r := ParseRelease(fs, name, isUrl);
      r.Some? ==>
        && ValidRelease(r.value, isUrl)
        && r.value.build == CoerceNumber(Get(fs, name)).value
        && r.value.download == StringValue(Get(fs, name + "_download")).value
        && r.value.txadmin == StringValue(Get(fs, name + "_txadmin")).value
  {
  }

  function StringValue(v: Option<Json>): Option<string>
  {
    if v.Some? && v.value.JStr? then Some(v.value.s) else None
  }

  /** A response is accepted exactly when it is an object and all four channels are; every
      accepted changelog is valid. */
  lemma ParseChangelogCorrect(resp: Json, isUrl: string -> bool)
    ensures ParseChangelog(resp, isUrl).Some? <==>
      && resp.JObj?
      && ParseRelease(resp.fields, "recommended", isUrl).Some?
      && ParseRelease(resp.fields, "optional", isUrl).Some?
      && ParseRelease(resp.fields, "latest", isUrl).Some?
      && ParseRelease(resp.fields, "critical", isUrl).Some?
    ensures ParseChangelog(resp, isUrl).Some? ==> ValidChangelog(ParseChangelog(resp, isUrl).value, isUrl)
  {
    if resp.JObj? {
      ParseReleaseCorrect(resp.fields, "recommended", isUrl);
      ParseReleaseCorrect(resp.fields, "optional", isUrl);
      ParseReleaseCorrect(resp.fields, "latest", isUrl);
      ParseReleaseCorrect(resp.fields, "critical", isUrl);
    }
  }

  /** A build number given as a decimal string is read as that number. */
  lemma CoerceDecimalString(n: nat)
    ensures CoerceNumber(Some(JStr(NatToString(n)))) == Some(n)
  {
    ParseNatToString(n);
  }

  // ---------------------------------------------------------------------------------
  // The txAdmin version (UpdateChecker.ts:79-107)

  /** The new value of `txUpdateData`: set only when `semver.lt(latest_txadmin, running)`
      holds, storing the running version; a throwing `lt` changes nothing. */
  function TxUpdate(prev: Option<TxUpdateData>, c: Changelog, env: Env): Option<TxUpdateData>
  {
    match env.semverLt(c.latest.txadmin, env.evorativeVersion)
    case Some(true) =>
      var diff := env.semverDiff(c.latest.txadmin, env.evorativeVersion);
      Some(TxUpdateData(diff, env.evorativeVersion, if diff == Some(Patch) then Secondary else Danger))
    case _ => prev
  }

  /** `txUpdateData` changes exactly when `semver.lt(latest_txadmin, running)` holds; it
      then stores the running version and `semver.diff` of the two, and its colour is
      `secondary` exactly for a patch difference and `danger` otherwise. */
  lemma TxUpdateCorrect(prev: Option<TxUpdateData>, c: Changelog, env: Env)
    ensures var lt := env.semverLt(c.latest.txadmin, env.evorativeVersion);
      lt != Some(true) ==> TxUpdate(prev, c, env) == prev
    ensures env.semverLt(c.latest.txadmin, env.evorativeVersion) == Some(true) ==>
      var t := TxUpdate(prev, c, env);
      && t.Some?
      && t.value.latest == env.evorativeVersion
      && t.value.semverDiff == env.semverDiff(c.latest.txadmin, env.evorativeVersion)
      && (t.value.color == Secondary <==> t.value.semverDiff == Some(Patch))
      && (t.value.color == Secondary || t.value.color == Danger)
  {
  }

  // ---------------------------------------------------------------------------------
  // The FXServer tier (UpdateChecker.ts:109-148)

  /** `critical update 5181 ➤ 6683` and its two siblings. */
  function UpdateSubtext(kind: string, running: int, target: int): string
  {
    kind + " update " + IntToString(running) + " ➤ " + IntToString(target)
  }

  /** The notice the tier decision assigns, or `None` when it assigns nothing. */
  function FxsTier(c: Changelog, running: int): Option<FxsUpdateData>
  {
    if running < c.critical.build then
      if c.critical.build > c.recommended.build then
        Some(FxsUpdateData(Danger, CriticalMessage, UpdateSubtext("critical", running, c.critical.build), c.critical.download))
      else
        Some(FxsUpdateData(Danger, CriticalMessage, UpdateSubtext("recommended", running, c.recommended.build), c.recommended.download))
    else if running < c.recommended.build then
      Some(FxsUpdateData(Warning, RecommendedMessage, UpdateSubtext("recommended", running, c.recommended.build), c.recommended.download))
    else if running < c.optional.build then
      Some(FxsUpdateData(Info, OptionalMessage, UpdateSubtext("optional", running, c.optional.build), c.optional.download))
    else None
  }

  /** The new value of `fxsUpdateData`: the tier's notice, or the previous value. */
  function FxsUpdate(prev: Option<FxsUpdateData>, c: Changelog, running: int): Option<FxsUpdateData>
  {
    var tier := FxsTier(c, running);
    if tier.Some? then tier else prev
  }

  /** How loud a notice is: nothing, info, warning, danger. */
  function Severity(d: Option<FxsUpdateData>): nat
  {
    if d.None? then 0
    else match d.value.color
      case Danger => 3
      case Warning => 2
      case Info => 1
      case _ => 0
  }

  /** The tier is `danger` exactly below the critical build, `warning` exactly from there
      to below the recommended build, `info` exactly from there to below the optional
      build, and nothing at or above all three. A danger notice points at the critical
      build when it is newer than the recommended one and at the recommended build
      otherwise; the other notices point at their own channel. */
  lemma FxsTierCorrect(c: Changelog, running: int)
    ensures var t := FxsTier(c, running);
      && (t.Some? && t.value.color == Danger <==> running < c.critical.build)
      && (t.Some? && t.value.color == Warning <==> c.critical.build <= running < c.recommended.build)
      && (t.Some? && t.value.color == Info <==>
            c.critical.build <= running && c.recommended.build <= running < c.optional.build)
      && (t.None? <==>
            c.critical.build <= running && c.recommended.build <= running && c.optional.build <= running)
    ensures var t := FxsTier(c, running);
      t.Some? && t.value.color == Danger ==>
        && t.value.message == CriticalMessage
        && (c.critical.build > c.recommended.build ==>
              t.value.downloadLink == c.critical.download
              && t.value.subtext == UpdateSubtext("critical", running, c.critical.build))
        && (c.critical.build <= c.recommended.build ==>
              t.value.downloadLink == c.recommended.download
              && t.value.subtext == UpdateSubtext("recommended", running, c.recommended.build))
    ensures var t := FxsTier(c, running);
      && (t.Some? && t.value.color == Warning ==>
            && t.value.message == RecommendedMessage && t.value.downloadLink == c.recommended.download
            && t.value.subtext == UpdateSubtext("recommended", running, c.recommended.build))
      && (t.Some? && t.value.color == Info ==>
            && t.value.message == OptionalMessage && t.value.downloadLink == c.optional.download
            && t.value.subtext == UpdateSubtext("optional", running, c.optional.build))
  {
  }

  /** A newer running build never gets a louder notice. */
  lemma FxsTierMonotone(c: Changelog, older: int, newer: int)
    requires older <= newer
    ensures Severity(FxsTier(c, newer)) <= Severity(FxsTier(c, older))
  {
    FxsTierCorrect(c, older);
    FxsTierCorrect(c, newer);
  }

  /** Every notice links to one of the changelog's download urls, so for an accepted
      changelog the link passed the url check. */
  lemma FxsLinkValidated(c: Changelog, running: int, isUrl: string -> bool)
    requires ValidChangelog(c, isUrl)
    ensures FxsTier(c, running).Some? ==> isUrl(FxsTier(c, running).value.downloadLink)
  {
  }

  // ---------------------------------------------------------------------------------
  // The checker

  /** Both fields after one check: a failed fetch or a rejected response changes neither. */
  function Checked(tx: Option<TxUpdateData>, fxs: Option<FxsUpdateData>, response: Option<Json>, env: Env)
    : (Option<TxUpdateData>, Option<FxsUpdateData>)
  {
    if response.None? then (tx, fxs)
    else
      match ParseChangelog(response.value, env.isUrl)
      case None => (tx, fxs)
      case Some(c) => (TxUpdate(tx, c, env), FxsUpdate(fxs, c, env.fxServerVersion))
  }

  /** A fetch that fails or a response the schema rejects leaves both fields as they
      were; an accepted one sets `fxsUpdateData` from the running build alone. */
  lemma CheckedCorrect(tx: Option<TxUpdateData>, fxs: Option<FxsUpdateData>, response: Option<Json>, env: Env)
    ensures response.None? || ParseChangelog(response.value, env.isUrl).None? ==>
      Checked(tx, fxs, response, env) == (tx, fxs)
    ensures response.Some? && ParseChangelog(response.value, env.isUrl).Some? ==>
      var c := ParseChangelog(response.value, env.isUrl).value;
      && ValidChangelog(c, env.isUrl)
      && Checked(tx, fxs, response, env).1 == (if FxsTier(c, env.fxServerVersion).Some? then FxsTier(c, env.fxServerVersion) else fxs)
  {
    if response.Some? {
      ParseChangelogCorrect(response.value, env.isUrl);
    }
  }

  /** The checker's two fields. `response` is the changelog request's parsed body, `None`
      when the request or its parsing failed; the repeating timer is not modelled. */
  class UpdateChecker {
    var txUpdateData: Option<TxUpdateData>
    var fxsUpdateData: Option<FxsUpdateData>

    /** A checker before its first check. */
    constructor()
      ensures txUpdateData.None? && fxsUpdateData.None?
    {
      txUpdateData := None;
      fxsUpdateData := None;
    }

    /** `checkChangelog`. */
    method CheckChangelog(response: Option<Json>, env: Env)
      modifies this
      ensures (txUpdateData, fxsUpdateData) == Checked(old(txUpdateData), old(fxsUpdateData), response, env)
    {
      if response.None? {
        return;
      }
      var parsed := ParseChangelog(response.value, env.isUrl);
      if parsed.None? {
        return;
      }
      var c := parsed.value;

      CheckTxVersion(c, env);
      CheckFxsVersion(c, env.fxServerVersion);
    }

    /** The "Checking Evorative version" block: only an outdated txAdmin changes the field. */
    method CheckTxVersion(c: Changelog, env: Env)
      modifies this
      ensures txUpdateData == TxUpdate(old(txUpdateData), c, env)
      ensures fxsUpdateData == old(fxsUpdateData)
    {
      var isOutdated := env.semverLt(c.latest.txadmin, env.evorativeVersion);
      if isOutdated == Some(true) {
        var semverDiff := env.semverDiff(c.latest.txadmin, env.evorativeVersion);
        if semverDiff == Some(Patch) {
          txUpdateData := Some(TxUpdateData(semverDiff, env.evorativeVersion, Secondary));
        } else {
          txUpdateData := Some(TxUpdateData(semverDiff, env.evorativeVersion, Danger));
        }
      }
    }

    /** The "Checking FXServer version" block: the first tier the running build falls
      below sets the field; an up-to-date build leaves it. */
    method CheckFxsVersion(c: Changelog, running: int)
      modifies this
      ensures fxsUpdateData == FxsUpdate(old(fxsUpdateData), c, running)
      ensures txUpdateData == old(txUpdateData)
    {
      if running < c.critical.build {
        if c.critical.build > c.recommended.build {
          fxsUpdateData := Some(FxsUpdateData(Danger, CriticalMessage,
            UpdateSubtext("critical", running, c.critical.build), c.critical.download));
        } else {
          fxsUpdateData := Some(FxsUpdateData(Danger, CriticalMessage,
            UpdateSubtext("recommended", running, c.recommended.build), c.recommended.download));
        }
      } else if running < c.recommended.build {
        fxsUpdateData := Some(FxsUpdateData(Warning, RecommendedMessage,
          UpdateSubtext("recommended", running, c.recommended.build), c.recommended.download));
      } else if running < c.optional.build {
        fxsUpdateData := Some(FxsUpdateData(Info, OptionalMessage,
          UpdateSubtext("optional", running, c.optional.build), c.optional.download));
      }
    }
  }
}
