// components/BackendUpdateChecker.tsx: three seconds after start-up the app
// asks its backend for an update message and shows an alert when the message
// is switched on and advertises a version above the installed one. Every
// failure (network, HTTP status, malformed body) ends the check silently.

module BackendUpdateChecker {
  import opened Text
  import opened Js
  import opened VersionUtils

  /** The message the backend returns; `version` is absent when the field is missing. */
  datatype AppMessage = AppMessage(
    showUpdateMessage: bool,
    version: Option<string>,
    title: string,
    message: string,
    downloadUrl: string,
    mandatory: bool)

  /** The outcome of the `fetch`: it threw, it answered with a non-2xx status, or it answered. */
  datatype Response = FetchFailed | NotOk | Answered(body: Option<AppMessage>)

  datatype Button = Button(text: string, cancelStyle: bool, opens: Option<string>)

  datatype Alert = Alert(title: string, message: string, buttons: seq<Button>, cancelable: bool)

  /** The loop of `compareVersions` from index `i` on. */
  function CompareFrom(p1: seq<Num>, p2: seq<Num>, i: nat): (r: int)
    ensures r in {-1, 0, 1}
    decreases Max(|p1|, |p2|) - i
  {
    if i >= Max(|p1|, |p2|) then 0
    else if Part(p1, i) < Part(p2, i) then -1
    else if Part(p1, i) > Part(p2, i) then 1
    else CompareFrom(p1, p2, i + 1)
  }

  /** `compareVersions(v1, v2)`. */
  function CompareVersions(v1: string, v2: string): int {
    CompareFrom(Components(v1), Components(v2), 0)
  }

  /** The comparison agrees with `isNewerVersion` in both directions and is antisymmetric. */
  lemma {:induction false} CompareFromAgrees(p1: seq<Num>, p2: seq<Num>, i: nat)
    ensures CompareFrom(p1, p2, i) == -1 <==> NewerFrom(p1, p2, i)
    ensures CompareFrom(p1, p2, i) == 1 <==> NewerFrom(p2, p1, i)
    ensures CompareFrom(p1, p2, i) == -CompareFrom(p2, p1, i)
    decreases Max(|p1|, |p2|) - i
  {
    if i < Max(|p1|, |p2|) && Part(p1, i) == Part(p2, i) {
      CompareFromAgrees(p1, p2, i + 1);
    }
  }

  /**
   * `compareVersions(a, b) < 0` exactly when b is newer than a, `> 0`
   * exactly when a is newer than b; swapping the arguments negates the
   * result and a version compares equal to itself.
   */
  lemma CompareVersionsOrder(a: string, b: string)
    ensures CompareVersions(a, b) < 0 <==> IsNewerVersion(a, b)
    ensures CompareVersions(a, b) > 0 <==> IsNewerVersion(b, a)
    ensures CompareVersions(a, b) == -CompareVersions(b, a)
    ensures CompareVersions(a, a) == 0
  {
    CompareFromAgrees(Components(a), Components(b), 0);
    CompareFromAgrees(Components(a), Components(a), 0);
  }

  /** `Constants.expoConfig?.version || '1.0.0'`. */
  function CurrentVersion(configured: Option<string>): string {
    if configured.Some? && configured.value != "" then configured.value else "1.0.0"
  }

  /** The buttons and options of `showUpdateAlert(data)`. */
  function UpdateAlert(data: AppMessage): Alert {
    var buttons :=
      if data.mandatory then [Button("Download Now", false, Some(data.downloadUrl))]
      else [Button("Later", true, None), Button("Download", false, Some(data.downloadUrl))];
    Alert(data.title, data.message, buttons, !data.mandatory)
  }

  /**
   * `checkForUpdate`: the alert shown, if any. A missing `version` makes
   * `split` throw, which the surrounding `catch` swallows.
   */
  function CheckForUpdate(response: Response, configured: Option<string>): Option<Alert> {
    match response
    case FetchFailed => None
    case NotOk => None
    case Answered(body) =>
      if body.None? then None
      else
        var data := body.value;
        if !data.showUpdateMessage then None
        else if data.version.None? then None
        else if CompareVersions(CurrentVersion(configured), data.version.value) < 0 then Some(UpdateAlert(data))
        else None
  }

  /**
   * An alert appears exactly when the backend answered with a readable
   * message that is switched on and names a version newer than the installed
   * one (1.0.0 when none is configured).
   */
  lemma AlertShownExactlyWhenNewer(response: Response, configured: Option<string>)
    ensures CheckForUpdate(response, configured).Some? <==>
      response.Answered? && response.body.Some? && response.body.value.showUpdateMessage &&
      response.body.value.version.Some? &&
      IsNewerVersion(CurrentVersion(configured), response.body.value.version.value)
    ensures CheckForUpdate(response, configured).Some? ==>
      CheckForUpdate(response, configured) == Some(UpdateAlert(response.body.value))
  {
    if response.Answered? && response.body.Some? && response.body.value.version.Some? {
      CompareVersionsOrder(CurrentVersion(configured), response.body.value.version.value);
    }
  }

  /** A message for the installed version itself never raises an alert. */
  lemma SameVersionNoAlert(data: AppMessage, configured: Option<string>)
    requires data.version == Some(CurrentVersion(configured))
    ensures CheckForUpdate(Answered(Some(data)), configured).None?
  {
    CompareVersionsOrder(CurrentVersion(configured), CurrentVersion(configured));
  }

  /**
   * A mandatory update offers the download as its only button and cannot be
   * dismissed; an optional one can be dismissed with "Later". Either way
   * exactly one button opens the download URL, and it is the last.
   */
  lemma UpdateAlertButtons(data: AppMessage)
    ensures var a := UpdateAlert(data);
      a.cancelable <==> !data.mandatory
    ensures var a := UpdateAlert(data);
      (data.mandatory ==> |a.buttons| == 1 && a.buttons[0].text == "Download Now") &&
      (!data.mandatory ==>
         |a.buttons| == 2 && a.buttons[0] == Button("Later", true, None) && a.buttons[1].text == "Download")
    ensures var a := UpdateAlert(data);
      |a.buttons| >= 1 && a.buttons[|a.buttons| - 1].opens == Some(data.downloadUrl) &&
      forall k :: 0 <= k < |a.buttons| - 1 ==> a.buttons[k].opens.None?
  {
  }
}
