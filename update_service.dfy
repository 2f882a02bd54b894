// lib/update-service.ts: the singleton that asks the app's server whether a
// newer build exists, at most once a day unless forced, and shows the update
// dialog, remembering a version the user put off with "Later". The network
// reply, the clock, the platform and the outcome of opening a link are
// parameters; the dialogs shown and the links opened are recorded as logs.

module UpdateService {
  import opened Text
  import opened Lists

  /** `VERSION_CHECK_INTERVAL`: 24 hours in milliseconds. */
  const VersionCheckInterval: int := 1000 * 60 * 60 * 24

  datatype Platform = AndroidOS | IosOS | WebOS

  /** `getCurrentVersion()`: the native version on Android and iOS, then the configured one, then "1.0.0". */
  function CurrentVersion(platform: Platform, native: string, configured: string): (v: string)
    ensures v != ""
  {
    if platform != WebOS && native != "" then native
    else if configured != "" then configured
    else "1.0.0"
  }

  /** The server's `updateUrl`: a plain string, or one link per platform ("" when missing). */
  datatype UrlField = UrlText(url: string) | UrlPerPlatform(android: string, ios: string)

  /** A `VersionCheckResult`; `U` is the raw url field or the resolved string. */
  datatype CheckResult<U> = CheckResult(
    currentVersion: string,
    latestVersion: string,
    minimumSupportedVersion: string,
    updateAvailable: bool,
    forceUpdate: bool,
    updateUrl: U,
    message: string,
    changelog: Option<seq<string>>)

  /** The reply to the POST: it threw, had a non-2xx status, was not JSON, or was parsed. */
  datatype Reply = FetchFailed | NotOk | NotJson | Answered(success: bool, data: Option<CheckResult<UrlField>>)

  /**
   * The platform-specific update URL (Android reads `.android`, every other
   * platform `.ios`), with the fallbacks of lines 77-83.
   */
  function ResolveUrl(platform: Platform, u: UrlField): string {
    match u
    case UrlText(s) => s
    case UrlPerPlatform(a, i) =>
      if platform == AndroidOS then (if a != "" then a else i)
      else (if i != "" then i else a)
  }

  /** The own platform's link when it has one, otherwise the other platform's. */
  lemma ResolveUrlPrefersOwnPlatform(platform: Platform, a: string, i: string)
    ensures var r := ResolveUrl(platform, UrlPerPlatform(a, i));
      (platform == AndroidOS ==> r == (if a != "" then a else i)) &&
      (platform != AndroidOS ==> r == (if i != "" then i else a)) &&
      (r == a || r == i)
  {
  }

  function Resolved(platform: Platform, d: CheckResult<UrlField>): CheckResult<string> {
    CheckResult(d.currentVersion, d.latestVersion, d.minimumSupportedVersion, d.updateAvailable,
      d.forceUpdate, ResolveUrl(platform, d.updateUrl), d.message, d.changelog)
  }

  /** `shouldCheck()`. */
  predicate ShouldCheck(lastCheckTime: int, now: int) {
    now - lastCheckTime > VersionCheckInterval
  }

  /** Whether `checkForUpdates(force)` goes to the network at all. */
  predicate Asks(force: bool, lastCheckTime: int, now: int) {
    force || ShouldCheck(lastCheckTime, now)
  }

  /**
   * `lastCheckTime` after `checkForUpdates`: set to now right after a
   * successful reply, even when its `data` then turns out to be missing.
   */
  function CheckedAt(lastCheckTime: int, force: bool, now: int, reply: Reply): int {
    if Asks(force, lastCheckTime, now) && reply.Answered? && reply.success then now else lastCheckTime
  }

  /** The value `checkForUpdates` resolves to; every failure gives None (`null`). */
  function CheckOutcome(lastCheckTime: int, force: bool, now: int, platform: Platform, reply: Reply): Option<CheckResult<string>> {
    if !Asks(force, lastCheckTime, now) then None
    else if !reply.Answered? || !reply.success || reply.data.None? then None
    else Some(Resolved(platform, reply.data.value))
  }

  /**
   * The gate: a non-forced check within 24 hours of the last one neither
   * asks nor changes anything, a forced one always asks; lastCheckTime moves
   * (to now) only on a successful reply, and a result needs one.
   */
  lemma CheckGate(lastCheckTime: int, force: bool, now: int, platform: Platform, reply: Reply)
    ensures !force && !ShouldCheck(lastCheckTime, now) ==>
      CheckOutcome(lastCheckTime, force, now, platform, reply).None? && CheckedAt(lastCheckTime, force, now, reply) == lastCheckTime
    ensures force ==> Asks(force, lastCheckTime, now)
    ensures CheckedAt(lastCheckTime, force, now, reply) != lastCheckTime ==>
      reply.Answered? && reply.success && CheckedAt(lastCheckTime, force, now, reply) == now
    ensures CheckOutcome(lastCheckTime, force, now, platform, reply).Some? ==>
      reply.Answered? && reply.success && CheckedAt(lastCheckTime, force, now, reply) == now
  {
  }

  /** With lastCheckTime still 0, any clock past the first day lets the first check through. */
  lemma FirstCheckProceeds(now: int)
    requires now > VersionCheckInterval
    ensures ShouldCheck(0, now)
  {
  }

  // ---- the dialog -------------------------------------------------------------------

  datatype Action = NoAction | Dismiss(version: string) | OpenLink(url: string)
  datatype Button = Button(text: string, cancelStyle: bool, action: Action)
  datatype Alert = Alert(title: string, text: string, buttons: seq<Button>, cancelable: bool)

  // The source file stores its symbols double-encoded (UTF-8 read as
  // Windows-1252 and saved again), so the strings the program shows hold
  // these characters rather than the intended glyphs.

  /** The bullet as stored: "\U{2022}" double-encoded. */
  const Bullet: string := "\U{E2}\U{20AC}\U{A2}"
  /** The warning sign as stored: "\U{26A0}\U{FE0F}" double-encoded, with its undefined fourth byte lost. */
  const WarningSign: string := "\U{E2}\U{161}\U{A0}\U{EF}\U{B8}"
  /** The party popper as stored: "\U{1F389}" double-encoded. */
  const PartyPopper: string := "\U{F0}\U{178}\U{17D}\U{2030}"
  /** The check mark as stored: "\U{2705}" double-encoded. */
  const CheckMark: string := "\U{E2}\U{153}\U{2026}"

  /** At most the first three changelog entries, each as a bullet line. */
  function Bullets(changelog: seq<string>): (r: seq<string>)
    ensures |r| <= 3 && |r| == |SliceTo(changelog, 3)|
    ensures forall k :: 0 <= k < |r| ==> r[k] == Bullet + " " + changelog[k]
  {
    var shown := SliceTo(changelog, 3);
    seq(|shown|, k requires 0 <= k < |shown| => Bullet + " " + shown[k])
  }

  /** `changelogText`: empty without entries, otherwise a "What's New" section. */
  function ChangelogText(changelog: Option<seq<string>>): string {
    if changelog.Some? && |changelog.value| > 0
    then "\n\nWhat's New:\n" + Join(Bullets(changelog.value), "\n")
    else ""
  }

  /** The `Alert.alert` call of `showUpdateDialog`. */
  function UpdateDialog(info: CheckResult<string>): Alert {
    var later := if info.forceUpdate then [] else [Button("Later", true, Dismiss(info.latestVersion))];
    var update := Button(if info.forceUpdate then "Update Now" else "Update", false, OpenLink(info.updateUrl));
    Alert(
      if info.forceUpdate then WarningSign + " Update Required" else PartyPopper + " Update Available",
      info.message + ChangelogText(info.changelog),
      later + [update],
      !info.forceUpdate)
  }

  /** The early return of `showUpdateDialog`. */
  predicate Suppressed(dismissedVersion: Option<string>, info: CheckResult<string>) {
    !info.forceUpdate && dismissedVersion == Some(info.latestVersion)
  }

  const UpToDate := Alert(CheckMark + " Up to Date", "You are using the latest version of Mavrixfy", [], true)

  /**
   * A forced update is never suppressed, and has no "Later" and no
   * dismissal; an optional update offers "Later", which records its version,
   * and can be cancelled. The last button always opens the update URL.
   */
  lemma UpdateDialogRules(info: CheckResult<string>, dismissedVersion: Option<string>)
    ensures info.forceUpdate ==> !Suppressed(dismissedVersion, info)
    ensures var a := UpdateDialog(info);
      a.cancelable == !info.forceUpdate &&
      |a.buttons| == (if info.forceUpdate then 1 else 2) &&
      a.buttons[|a.buttons| - 1].action == OpenLink(info.updateUrl) &&
      (!info.forceUpdate ==> a.buttons[0] == Button("Later", true, Dismiss(info.latestVersion))) &&
      (forall k :: 0 <= k < |a.buttons| && a.buttons[k].action.Dismiss? ==> !info.forceUpdate)
  {
  }

  /** Choosing "Later" on an optional update suppresses the next dialog for that version. */
  lemma LaterSuppressesSameVersion(info: CheckResult<string>)
    requires !info.forceUpdate
    ensures UpdateDialog(info).buttons[0].action == Dismiss(info.latestVersion)
    ensures Suppressed(Some(UpdateDialog(info).buttons[0].action.version), info)
  {
  }

  /** The changelog section is empty exactly when there are no entries. */
  lemma ChangelogTextEmpty(changelog: Option<seq<string>>)
    ensures ChangelogText(changelog) == "" <==> changelog.None? || |changelog.value| == 0
  {
  }

  // ---- the service ------------------------------------------------------------------

  /** The outcome of `Linking.canOpenURL` and `Linking.openURL`. */
  datatype LinkOutcome = Opened | CannotOpen | LinkFailed

  datatype ServiceState = ServiceState(
    lastCheckTime: int,
    dismissedVersion: Option<string>,
    alerts: seq<Alert>,
    openedLinks: seq<string>)

  /** `openUpdateUrl(url)`. */
  function AfterOpen(s: ServiceState, url: string, outcome: LinkOutcome): ServiceState {
    match outcome
    case Opened => s.(openedLinks := s.openedLinks + [url])
    case CannotOpen => s.(alerts := s.alerts + [Alert("Error", "Cannot open update link", [], true)])
    case LinkFailed => s.(alerts := s.alerts + [Alert("Error", "Failed to open update link", [], true)])
  }

  /** `showUpdateDialog(info)`. */
  function AfterShow(s: ServiceState, info: CheckResult<string>): ServiceState {
    if Suppressed(s.dismissedVersion, info) then s else s.(alerts := s.alerts + [UpdateDialog(info)])
  }

  /** `checkAndShowUpdate(force)` after its check resolved to `result`. */
  function AfterCheckAndShow(s: ServiceState, force: bool, result: Option<CheckResult<string>>): ServiceState {
    if result.Some? && result.value.updateAvailable then AfterShow(s, result.value)
    else if force then s.(alerts := s.alerts + [UpToDate])
    else s
  }

  /**
   * checkAndShowUpdate adds at most one alert: the update dialog only when
   * an update is available (and not dismissed), "Up to Date" only on a
   * forced check without one, nothing otherwise. Nothing else changes.
   */
  lemma CheckAndShowRules(s: ServiceState, force: bool, result: Option<CheckResult<string>>)
    ensures var t := AfterCheckAndShow(s, force, result);
      t.lastCheckTime == s.lastCheckTime && t.dismissedVersion == s.dismissedVersion && t.openedLinks == s.openedLinks &&
      (t.alerts == s.alerts || t.alerts == s.alerts + [t.alerts[|t.alerts| - 1]])
    ensures var t := AfterCheckAndShow(s, force, result);
      |t.alerts| == |s.alerts| + 1 ==>
        (t.alerts[|s.alerts|] == UpToDate <==> !(result.Some? && result.value.updateAvailable))
    ensures var t := AfterCheckAndShow(s, force, result);
      result.Some? && result.value.updateAvailable ==>
        (t.alerts == s.alerts <==> Suppressed(s.dismissedVersion, result.value))
    ensures var t := AfterCheckAndShow(s, force, result);
      !(result.Some? && result.value.updateAvailable) ==> (|t.alerts| == |s.alerts| + 1 <==> force)
  {
    if result.Some? && result.value.updateAvailable && !Suppressed(s.dismissedVersion, result.value) {
      assert UpdateDialog(result.value).title != UpToDate.title;
    }
  }

  class Service {
    var lastCheckTime: int
    var dismissedVersion: Option<string>
    var alerts: seq<Alert>
    var openedLinks: seq<string>

    function State(): ServiceState
      reads this
    {
      ServiceState(lastCheckTime, dismissedVersion, alerts, openedLinks)
    }

    constructor()
      ensures State() == ServiceState(0, None, [], [])
    {
      lastCheckTime := 0;
      dismissedVersion := None;
      alerts := [];
      openedLinks := [];
    }

    /** `checkForUpdates(force)`. */
    method CheckForUpdates(force: bool, now: int, platform: Platform, reply: Reply) returns (r: Option<CheckResult<string>>)
      modifies this
      ensures r == CheckOutcome(old(lastCheckTime), force, now, platform, reply)
      ensures State() == old(State()).(lastCheckTime := CheckedAt(old(lastCheckTime), force, now, reply))
    {
      if !force && !(now - lastCheckTime > VersionCheckInterval) {
        return None;
      }
      if !reply.Answered? || !reply.success {
        return None;
      }
      lastCheckTime := now;
      if reply.data.None? {
        return None;
      }
      r := Some(Resolved(platform, reply.data.value));
    }

    /** `showUpdateDialog(info)`. */
    method ShowUpdateDialog(info: CheckResult<string>)
      modifies this
      ensures State() == AfterShow(old(State()), info)
    {
      if !info.forceUpdate && dismissedVersion == Some(info.latestVersion) {
        return;
      }
      alerts := alerts + [UpdateDialog(info)];
    }

    /** `openUpdateUrl(url)`. */
    method OpenUpdateUrl(url: string, outcome: LinkOutcome)
      modifies this
      ensures State() == AfterOpen(old(State()), url, outcome)
    {
      match outcome {
        case Opened => openedLinks := openedLinks + [url];
        case CannotOpen => alerts := alerts + [Alert("Error", "Cannot open update link", [], true)];
        case LinkFailed => alerts := alerts + [Alert("Error", "Failed to open update link", [], true)];
      }
    }

    /** The user pressing a dialog button: "Later" records the version, "Update" opens the link. */
    method Press(b: Button, outcome: LinkOutcome)
      modifies this
      ensures b.action.Dismiss? ==> State() == old(State()).(dismissedVersion := Some(b.action.version))
      ensures b.action.OpenLink? ==> State() == AfterOpen(old(State()), b.action.url, outcome)
      ensures b.action.NoAction? ==> State() == old(State())
    {
      match b.action {
        case NoAction =>
        case Dismiss(v) => dismissedVersion := Some(v);
        case OpenLink(url) => OpenUpdateUrl(url, outcome);
      }
    }

    /** `checkAndShowUpdate(force)`. */
    method CheckAndShowUpdate(force: bool, now: int, platform: Platform, reply: Reply)
      modifies this
      ensures State() == AfterCheckAndShow(
        old(State()).(lastCheckTime := CheckedAt(old(lastCheckTime), force, now, reply)),
        force, CheckOutcome(old(lastCheckTime), force, now, platform, reply))
    {
      var info := CheckForUpdates(force, now, platform, reply);
      if info.Some? && info.value.updateAvailable {
        ShowUpdateDialog(info.value);
      } else if force {
        alerts := alerts + [UpToDate];
      }
    }

    /** `resetDismissed()`. */
    method ResetDismissed()
      modifies this
      ensures State() == old(State()).(dismissedVersion := None)
    {
      dismissedVersion := None;
    }
  }
}
