// lib/ota-update-service.ts: the singleton that checks the app's server for a
// newer JavaScript bundle at most every 30 minutes, downloads it, verifies its
// hash, records it and deletes older bundles, reporting every status change
// to its subscribers. Storage is a record of the four keys; the bundle
// directory is the list of its file names; the server's reply, the download
// and the clock are parameters; listeners are identified by number and each
// notification is recorded in order.

module OtaUpdateService {
  import opened Text
  import opened Js
  import opened Lists
  import ColorExtractor

  /** `CHECK_INTERVAL`: 30 minutes in milliseconds. */
  const CheckInterval: int := 1000 * 60 * 30

  datatype Status = Status(
    checking: bool,
    downloading: bool,
    progress: int,
    error: Option<string>,
    updateAvailable: bool,
    currentVersion: Option<string>,
    latestVersion: Option<string>)

  const InitialStatus := Status(false, false, 0, None, false, None, None)

  /** A `Partial<OTAUpdateStatus>`: None leaves the field out. */
  datatype StatusPatch = StatusPatch(
    checking: Option<bool>,
    downloading: Option<bool>,
    progress: Option<int>,
    error: Option<Option<string>>,
    updateAvailable: Option<bool>,
    currentVersion: Option<Option<string>>,
    latestVersion: Option<Option<string>>)

  const NoPatch := StatusPatch(None, None, None, None, None, None, None)

  /** `{ ...this.status, ...updates }`. */
  function Overlay(s: Status, p: StatusPatch): Status {
    Status(
      p.checking.GetOr(s.checking),
      p.downloading.GetOr(s.downloading),
      p.progress.GetOr(s.progress),
      p.error.GetOr(s.error),
      p.updateAvailable.GetOr(s.updateAvailable),
      p.currentVersion.GetOr(s.currentVersion),
      p.latestVersion.GetOr(s.latestVersion))
  }

  /**
   * A patch replaces exactly the fields it gives and keeps the others; the
   * empty patch changes nothing and applying a patch twice is applying it once.
   */
  lemma OverlayRules(s: Status, p: StatusPatch)
    ensures p.checking.Some? ==> Overlay(s, p).checking == p.checking.value
    ensures p.checking.None? ==> Overlay(s, p).checking == s.checking
    ensures p.downloading.Some? ==> Overlay(s, p).downloading == p.downloading.value
    ensures p.downloading.None? ==> Overlay(s, p).downloading == s.downloading
    ensures p.error.Some? ==> Overlay(s, p).error == p.error.value
    ensures p.error.None? ==> Overlay(s, p).error == s.error
    ensures p.currentVersion.None? ==> Overlay(s, p).currentVersion == s.currentVersion
    ensures p.latestVersion.None? ==> Overlay(s, p).latestVersion == s.latestVersion
    ensures Overlay(s, NoPatch) == s
    ensures Overlay(Overlay(s, p), p) == Overlay(s, p)
  {
  }

  datatype BundleInfo = BundleInfo(version: string, bundleUrl: string, bundleHash: string, minAppVersion: string, timestamp: int)

  /** The AsyncStorage keys the service uses (`@ota_bundle_version`, `@ota_bundle_path`, `@ota_last_check`, `@ota_bundle_info`). */
  datatype OtaStore = OtaStore(
    bundleVersion: Option<string>,
    bundlePath: Option<string>,
    lastCheck: Option<string>,
    bundleInfo: Option<BundleInfo>)

  // ---- the time gate ---------------------------------------------------------------

  /** `shouldCheckForUpdates()`; `readFails` stands for a throwing `getItem`. */
  predicate GateOpen(lastCheck: Option<string>, now: int, readFails: bool) {
    if readFails || lastCheck.None? || lastCheck.value == "" then true
    else
      var t := ParseInt(lastCheck.value);
      t.Int? && now - t.i > CheckInterval
  }

  /**
   * The gate passes without a stored time or when it cannot be read, and for
   * a time written by the service exactly when more than 30 minutes passed.
   * A stored value that is not a number keeps the gate shut.
   */
  lemma GateRules(lastCheck: Option<string>, now: int, readFails: bool)
    ensures readFails || lastCheck.None? ==> GateOpen(lastCheck, now, readFails)
    ensures forall t: nat :: lastCheck == Some(IntToString(t)) && !readFails ==>
      (GateOpen(lastCheck, now, readFails) <==> now - t > CheckInterval)
    ensures lastCheck == Some("x") && !readFails ==> !GateOpen(lastCheck, now, readFails)
  {
    forall t: nat | lastCheck == Some(IntToString(t)) && !readFails
      ensures GateOpen(lastCheck, now, readFails) <==> now - t > CheckInterval
    {
      ParseIntRender(t);
      assert Render(Int(t)) == IntToString(t);
      assert IntToString(t) != "";
    }
    if lastCheck == Some("x") {
      assert !IsDigit('x');
      assert TrimStart("x") == "x";
      assert DigitPrefix("x") == "";
    }
  }

  // ---- the bundle hash -------------------------------------------------------------

  /** The hash a bundle is checked against: the rolling hash in hexadecimal. */
  function HexHash(content: string): string {
    NatToHex(Abs(ColorExtractor.HashFold(content)))
  }

  /** `simpleHash(str)`: the loop, then `Math.abs(hash).toString(16)`. */
  method SimpleHash(str: string) returns (r: string)
    ensures r == HexHash(str)
    ensures ParseHex(r) == Some(Abs(ColorExtractor.HashFold(str)))
  {
    var hash := 0;
    var i := 0;
    while i < |str|
      invariant 0 <= i <= |str|
      invariant hash == ColorExtractor.HashPrefix(str, i)
    {
      hash := ToInt32(ToInt32(hash * 32) - hash + str[i] as int);
      i := i + 1;
    }
    r := NatToHex(Abs(hash));
    NatToHexRoundTrip(Abs(hash));
  }

  /** `verifyBundle`: the content (None when it cannot be read) hashes to the expected value. */
  method VerifyBundle(content: Option<string>, expectedHash: string) returns (ok: bool)
    ensures ok <==> content.Some? && HexHash(content.value) == expectedHash
  {
    if content.None? {
      return false;
    }
    var calculated := SimpleHash(content.value);
    ok := calculated == expectedHash;
  }

  // ---- old bundles -------------------------------------------------------------------

  /** The file name a bundle is downloaded to. */
  function BundleName(version: string): string {
    "bundle_" + version + ".js"
  }

  /** `file.startsWith('bundle_') && !file.includes(currentVersion)`. */
  predicate Stale(file: string, currentVersion: string) {
    IsPrefix("bundle_", file) && !Contains(file, currentVersion)
  }

  function Kept(files: seq<string>, currentVersion: string): (r: seq<string>)
    ensures |r| <= |files|
    ensures forall f :: f in r <==> f in files && !Stale(f, currentVersion)
  {
    Filter(files, f => !Stale(f, currentVersion))
  }

  /** The bundle directory after a download to `name`: the file is created unless it was there. */
  function WithFile(files: seq<string>, name: string): (r: seq<string>)
    ensures name in r
  {
    if name in files then files else files + [name]
  }

  /** `deleteAsync(name)`: every other file stays, in order. */
  function WithoutFile(files: seq<string>, name: string): seq<string> {
    Filter(files, f => f != name)
  }

  /** Downloading to a name and deleting it again leaves exactly the other files there were. */
  lemma WithoutAdded(files: seq<string>, name: string)
    ensures Filter(WithFile(files, name), f => f != name) == WithoutFile(files, name)
    ensures name !in WithoutFile(files, name)
    ensures forall f :: f in WithoutFile(files, name) <==> f in files && f != name
  {
    if name !in files {
      FilterAppend(files, [name], f => f != name);
    }
  }

  /** The current version's own bundle is never deleted. */
  lemma CurrentBundleKept(files: seq<string>, v: string)
    requires BundleName(v) in files
    ensures BundleName(v) in Kept(files, v)
  {
    assert BundleName(v)[7..7 + |v|] == v;
    ContainsAt(BundleName(v), v, 7);
  }

  /** Deletion is by substring: with current version "1.2", an old "bundle_1.2.1.js" is kept. */
  lemma SubstringKeepsOtherVersion()
    ensures !Stale(BundleName("1.2.1"), "1.2")
  {
    assert BundleName("1.2.1")[7..10] == "1.2";
    ContainsAt(BundleName("1.2.1"), "1.2", 7);
  }

  // ---- subscribers -------------------------------------------------------------------

  datatype Notice = Notice(listener: nat, status: Status)

  /** One notice per listener, in subscription order. */
  function Notices(listeners: seq<nat>, s: Status): (r: seq<Notice>)
    ensures |r| == |listeners|
    ensures forall i :: 0 <= i < |r| ==> r[i] == Notice(listeners[i], s)
  {
    seq(|listeners|, i requires 0 <= i < |listeners| => Notice(listeners[i], s))
  }

  function IndexOf(listeners: seq<nat>, l: nat): int {
    FindIndex(listeners, x => x == l)
  }

  /** The unsubscribe function: `splice` out the first occurrence, if any. */
  function Unsubscribed(listeners: seq<nat>, l: nat): seq<nat> {
    var index := IndexOf(listeners, l);
    if index > -1 then RemoveAt(listeners, index) else listeners
  }

  /**
   * Unsubscribing removes one occurrence of the listener, keeps the others
   * in order, and does nothing when the listener is not subscribed, so a
   * second call after the only subscription is a no-op.
   */
  lemma UnsubscribeRules(listeners: seq<nat>, l: nat)
    ensures l !in listeners ==> Unsubscribed(listeners, l) == listeners
    ensures l in listeners ==> multiset(Unsubscribed(listeners, l)) == multiset(listeners) - multiset{l}
    ensures multiset(listeners)[l] == 1 ==>
      l !in Unsubscribed(listeners, l) && Unsubscribed(Unsubscribed(listeners, l), l) == Unsubscribed(listeners, l)
  {
    var index := IndexOf(listeners, l);
    if l in listeners {
      assert index >= 0;
      assert listeners == listeners[..index] + [l] + listeners[index + 1..];
      assert multiset(listeners) == multiset(listeners[..index]) + multiset{l} + multiset(listeners[index + 1..]);
    }
  }

  // ---- the service -------------------------------------------------------------------

  // ---- a check, as the sequence of status updates it makes --------------------------

  /** Every listener is told each status in turn. */
  function Broadcast(listeners: seq<nat>, statuses: seq<Status>): seq<Notice>
    decreases |statuses|
  {
    if |statuses| == 0 then [] else Notices(listeners, statuses[0]) + Broadcast(listeners, statuses[1..])
  }

  /** The statuses a run of patches passes through, one after each patch. */
  function Statuses(s: Status, patches: seq<StatusPatch>): (r: seq<Status>)
    ensures |r| == |patches|
    decreases |patches|
  {
    if |patches| == 0 then [] else var t := Overlay(s, patches[0]); [t] + Statuses(t, patches[1..])
  }

  /** The status after a run of patches. */
  function Final(s: Status, patches: seq<StatusPatch>): Status
    decreases |patches|
  {
    if |patches| == 0 then s else Final(Overlay(s, patches[0]), patches[1..])
  }

  /** One more patch: one more status, the new final one. */
  lemma {:induction false} FinalSnoc(s: Status, patches: seq<StatusPatch>, p: StatusPatch)
    ensures Final(s, patches + [p]) == Overlay(Final(s, patches), p)
    ensures Statuses(s, patches + [p]) == Statuses(s, patches) + [Overlay(Final(s, patches), p)]
    decreases |patches|
  {
    if |patches| > 0 {
      assert (patches + [p])[1..] == patches[1..] + [p];
      FinalSnoc(Overlay(s, patches[0]), patches[1..], p);
    } else {
      assert patches + [p] == [p];
    }
  }

  /** Telling the statuses of two runs is telling those of the first, then those of the second. */
  lemma {:induction false} BroadcastAppend(listeners: seq<nat>, a: seq<Status>, b: seq<Status>)
    ensures Broadcast(listeners, a + b) == Broadcast(listeners, a) + Broadcast(listeners, b)
    decreases |a|
  {
    if |a| > 0 {
      assert (a + b)[1..] == a[1..] + b;
      BroadcastAppend(listeners, a[1..], b);
    } else {
      assert a + b == b;
    }
  }

  /** The loop step of a run of status updates. */
  lemma StepRun(listeners: seq<nat>, s: Status, patches: seq<StatusPatch>, i: nat)
    requires i < |patches|
    ensures var t := Overlay(Final(s, patches[..i]), patches[i]);
      Final(s, patches[..i + 1]) == t &&
      Broadcast(listeners, Statuses(s, patches[..i + 1])) == Broadcast(listeners, Statuses(s, patches[..i])) + Notices(listeners, t)
  {
    var t := Overlay(Final(s, patches[..i]), patches[i]);
    assert patches[..i + 1] == patches[..i] + [patches[i]];
    FinalSnoc(s, patches[..i], patches[i]);
    BroadcastAppend(listeners, Statuses(s, patches[..i]), [t]);
    assert [t][1..] == [];
  }

  /** The server's reply to `api/ota/check`: an error message (anything that threw) or the parsed answer. */
  datatype CheckReply = CheckFailed(message: string) | Answered(updateAvailable: bool, bundleInfo: Option<BundleInfo>)

  /** The download: an error message, or the file written and its content as read back (None if unreadable). */
  datatype Download = DownloadFailed(message: string) | Downloaded(content: Option<string>)

  /**
   * The status updates of a check that passed the gate: `checking` on, then
   * the outcome; a found bundle also starts the download.
   */
  function CheckPatches(reply: CheckReply): seq<StatusPatch> {
    var begin := StatusPatch(Some(true), None, None, Some(None), None, None, None);
    match reply
    case CheckFailed(message) =>
      [begin, StatusPatch(Some(false), None, None, Some(Some(message)), None, None, None)]
    case Answered(updateAvailable, bundleInfo) =>
      if updateAvailable && bundleInfo.Some? then
        [begin, StatusPatch(Some(false), None, None, None, Some(true), None, Some(Some(bundleInfo.value.version))),
          StatusPatch(None, Some(true), Some(0), Some(None), None, None, None)]
      else
        [begin, StatusPatch(Some(false), None, None, None, Some(false), None, None)]
  }

  /**
   * After a check the status is no longer checking. A failed request records
   * its message; an answer without a bundle clears the error and marks no
   * update; an answer with one marks the update, names its version and starts
   * downloading from 0 with no error. Nothing else changes.
   */
  lemma CheckStatusRules(s: Status, reply: CheckReply)
    ensures reply.CheckFailed? ==> Final(s, CheckPatches(reply)) == s.(checking := false, error := Some(reply.message))
    ensures reply.Answered? && !(reply.updateAvailable && reply.bundleInfo.Some?) ==>
      Final(s, CheckPatches(reply)) == s.(checking := false, error := None, updateAvailable := false)
    ensures reply.Answered? && reply.updateAvailable && reply.bundleInfo.Some? ==>
      Final(s, CheckPatches(reply)) == s.(checking := false, error := None, updateAvailable := true,
        latestVersion := Some(reply.bundleInfo.value.version), downloading := true, progress := 0)
    ensures Statuses(s, CheckPatches(reply))[0].checking
  {
    var ps := CheckPatches(reply);
    var t := Overlay(s, ps[0]);
    assert Final(s, ps) == Final(t, ps[1..]);
    assert Statuses(s, ps)[0] == t;
    if |ps| == 2 {
      assert ps[1..][1..] == [];
      assert Final(t, ps[1..]) == Overlay(t, ps[1]);
    } else {
      var u := Overlay(t, ps[1]);
      assert ps[1..][1..] == [ps[2]] && [ps[2]][1..] == [];
      assert Final(t, ps[1..]) == Final(u, [ps[2]]) == Overlay(u, ps[2]);
    }
  }

  class Service {
    var status: Status
    var listeners: seq<nat>
    var notices: seq<Notice>
    var store: OtaStore
    var bundleFiles: seq<string>

    constructor()
      ensures status == InitialStatus && listeners == [] && notices == []
      ensures store == OtaStore(None, None, None, None) && bundleFiles == []
    {
      status := InitialStatus;
      listeners := [];
      notices := [];
      store := OtaStore(None, None, None, None);
      bundleFiles := [];
    }

    /** `initialize()` up to the first check: the stored version, else the app's (default 1.2.0), which is stored. */
    method Initialize(configured: string)
      modifies this
      ensures var v := if old(store.bundleVersion).Some? && old(store.bundleVersion).value != "" then old(store.bundleVersion).value
        else if configured != "" then configured else "1.2.0";
        store == old(store).(bundleVersion := Some(v)) && status == old(status).(currentVersion := Some(v))
      ensures listeners == old(listeners) && notices == old(notices) && bundleFiles == old(bundleFiles)
    {
      var current := store.bundleVersion;
      if current.None? || current.value == "" {
        var appVersion := if configured != "" then configured else "1.2.0";
        current := Some(appVersion);
      }
      store := store.(bundleVersion := current);
      status := status.(currentVersion := current);
    }

    /** `updateStatus(updates)`: overlay, then call every listener with the new status. */
    method UpdateStatus(p: StatusPatch)
      modifies this
      ensures status == Overlay(old(status), p)
      ensures notices == old(notices) + Notices(listeners, status)
      ensures listeners == old(listeners) && store == old(store) && bundleFiles == old(bundleFiles)
    {
      status := Overlay(status, p);
      var i := 0;
      while i < |listeners|
        invariant 0 <= i <= |listeners|
        invariant notices == old(notices) + Notices(listeners[..i], status)
        invariant status == Overlay(old(status), p)
        invariant listeners == old(listeners) && store == old(store) && bundleFiles == old(bundleFiles)
      {
        notices := notices + [Notice(listeners[i], status)];
        i := i + 1;
        assert Notices(listeners[..i], status) == Notices(listeners[..i - 1], status) + [Notice(listeners[i - 1], status)];
      }
      assert listeners[..i] == listeners;
    }

    /** `getStatus()`: a copy of the status. */
    method GetStatus() returns (s: Status)
      ensures s == status
    {
      s := status;
    }

    /** `subscribe(listener)`. */
    method Subscribe(l: nat)
      modifies this
      ensures listeners == old(listeners) + [l]
      ensures status == old(status) && notices == old(notices) && store == old(store) && bundleFiles == old(bundleFiles)
    {
      listeners := listeners + [l];
    }

    /** The function `subscribe` returns. */
    method Unsubscribe(l: nat)
      modifies this
      ensures listeners == Unsubscribed(old(listeners), l)
      ensures status == old(status) && notices == old(notices) && store == old(store) && bundleFiles == old(bundleFiles)
    {
      var index := FindIndex(listeners, x => x == l);
      assert index == IndexOf(listeners, l);
      if index > -1 {
        listeners := listeners[..index] + listeners[index + 1..];
      }
    }

    /**
     * `checkForUpdates()` up to the point where the download runs on its
     * own: it answers true only when an update was found, which then starts
     * downloading. While a check or download is running, or within 30
     * minutes of the last check, nothing changes.
     */
    method CheckForUpdates(now: int, readFails: bool, reply: CheckReply) returns (found: bool)
      modifies this
      ensures old(status.checking || status.downloading) || !GateOpen(old(store.lastCheck), now, readFails) ==>
        !found && status == old(status) && notices == old(notices) && store == old(store)
      ensures found <==> (!old(status.checking || status.downloading) && GateOpen(old(store.lastCheck), now, readFails) &&
        reply.Answered? && reply.updateAvailable && reply.bundleInfo.Some?)
      ensures found ==> (status.downloading && status.updateAvailable && !status.checking &&
        status.latestVersion == Some(reply.bundleInfo.value.version) && status.error.None?)
      ensures !old(status.checking || status.downloading) && GateOpen(old(store.lastCheck), now, readFails) ==>
        !status.checking &&
        (reply.CheckFailed? ==> status.error == Some(reply.message) && store == old(store)) &&
        (reply.Answered? ==> store == old(store).(lastCheck := Some(IntToString(now))))
      ensures !old(status.checking || status.downloading) && GateOpen(old(store.lastCheck), now, readFails) ==>
        status == Final(old(status), CheckPatches(reply)) &&
        notices == old(notices) + Broadcast(listeners, Statuses(old(status), CheckPatches(reply)))
      ensures IsPrefixOf(old(notices), notices)
      ensures listeners == old(listeners) && bundleFiles == old(bundleFiles)
    {
      if status.checking || status.downloading {
        return false;
      }
      if !GateOpen(store.lastCheck, now, readFails) {
        return false;
      }
      ghost var n0 := notices;
      ghost var s0 := status;
      UpdateAll(CheckPatches(reply));
      found := reply.Answered? && reply.updateAvailable && reply.bundleInfo.Some?;
      if reply.Answered? {
        store := store.(lastCheck := Some(IntToString(now)));
      }
      CheckStatusRules(s0, reply);
      assert notices[..|n0|] == n0;
    }

    /** `updateStatus` for each patch in turn. */
    method UpdateAll(patches: seq<StatusPatch>)
      modifies this
      ensures status == Final(old(status), patches)
      ensures notices == old(notices) + Broadcast(listeners, Statuses(old(status), patches))
      ensures listeners == old(listeners) && store == old(store) && bundleFiles == old(bundleFiles)
    {
      var i := 0;
      while i < |patches|
        invariant 0 <= i <= |patches|
        invariant status == Final(old(status), patches[..i])
        invariant notices == old(notices) + Broadcast(listeners, Statuses(old(status), patches[..i]))
        invariant listeners == old(listeners) && store == old(store) && bundleFiles == old(bundleFiles)
      {
        StepRun(listeners, old(status), patches, i);
        UpdateStatus(patches[i]);
        i := i + 1;
      }
      assert patches[..i] == patches;
    }

    /** `forceCheckForUpdates()`: forget the last check time, then check. */
    method ForceCheckForUpdates(now: int, readFails: bool, reply: CheckReply) returns (found: bool)
      modifies this
      ensures found <==> (!old(status.checking || status.downloading) &&
        reply.Answered? && reply.updateAvailable && reply.bundleInfo.Some?)
      ensures old(status.checking || status.downloading) ==>
        store == old(store).(lastCheck := None) && status == old(status) && notices == old(notices)
      ensures !old(status.checking || status.downloading) ==>
        store == old(store).(lastCheck := if reply.Answered? then Some(IntToString(now)) else None) &&
        status == Final(old(status), CheckPatches(reply)) &&
        notices == old(notices) + Broadcast(listeners, Statuses(old(status), CheckPatches(reply)))
      ensures listeners == old(listeners) && bundleFiles == old(bundleFiles)
    {
      store := store.(lastCheck := None);
      found := CheckForUpdates(now, readFails, reply);
    }

    /** `cleanupOldBundles(dir, version)`: delete the stale files of the listing; a failed listing deletes nothing. */
    method CleanupOldBundles(currentVersion: string, listingOk: bool)
      modifies this
      ensures bundleFiles == (if listingOk then Kept(old(bundleFiles), currentVersion) else old(bundleFiles))
      ensures status == old(status) && listeners == old(listeners) && notices == old(notices) && store == old(store)
    {
      if !listingOk {
        return;
      }
      var files := bundleFiles;
      var kept: seq<string> := [];
      var i := 0;
      while i < |files|
        invariant 0 <= i <= |files|
        invariant kept == Kept(files[..i], currentVersion)
        invariant unchanged(this)
      {
        if !Stale(files[i], currentVersion) {
          kept := kept + [files[i]];
        }
        FilterAppend(files[..i], [files[i]], f => !Stale(f, currentVersion));
        assert files[..i + 1] == files[..i] + [files[i]];
        i := i + 1;
      }
      assert files[..i] == files;
      bundleFiles := kept;
    }

    /**
     * The rest of `downloadAndApplyUpdate(bundle)` once the download ended.
     * A failed download or verification records the error, deletes the
     * downloaded file and leaves the stored version and path unchanged; a
     * verified bundle is recorded, older bundles are cleaned up and the
     * status names it as current.
     */
    method FinishDownload(bundle: BundleInfo, download: Download, listingOk: bool)
      modifies this
      ensures download.DownloadFailed? ==>
        store == old(store) && bundleFiles == old(bundleFiles) &&
        status == old(status).(downloading := false, error := Some(download.message))
      ensures download.Downloaded? && !(download.content.Some? && HexHash(download.content.value) == bundle.bundleHash) ==>
        store == old(store) && bundleFiles == WithoutFile(old(bundleFiles), BundleName(bundle.version)) &&
        status == old(status).(downloading := false, error := Some("Bundle verification failed"))
      ensures download.Downloaded? && download.content.Some? && HexHash(download.content.value) == bundle.bundleHash ==>
        store == old(store).(bundleVersion := Some(bundle.version), bundlePath := Some("ota_bundles/" + BundleName(bundle.version)),
          bundleInfo := Some(bundle)) &&
        bundleFiles == (var files := WithFile(old(bundleFiles), BundleName(bundle.version));
          if listingOk then Kept(files, bundle.version) else files) &&
        BundleName(bundle.version) in bundleFiles &&
        status == old(status).(downloading := false, progress := 100, currentVersion := Some(bundle.version), updateAvailable := false)
      ensures notices == old(notices) + Notices(listeners, status)
      ensures listeners == old(listeners)
    {
      if download.DownloadFailed? {
        UpdateStatus(StatusPatch(None, Some(false), None, Some(Some(download.message)), None, None, None));
        return;
      }
      var name := BundleName(bundle.version);
      if name !in bundleFiles {
        bundleFiles := bundleFiles + [name];
      }
      assert bundleFiles == WithFile(old(bundleFiles), name);
      var isValid := VerifyBundle(download.content, bundle.bundleHash);
      if !isValid {
        WithoutAdded(old(bundleFiles), name);
        bundleFiles := Filter(bundleFiles, f => f != name);
        UpdateStatus(StatusPatch(None, Some(false), None, Some(Some("Bundle verification failed")), None, None, None));
        return;
      }
      store := store.(bundleVersion := Some(bundle.version), bundlePath := Some("ota_bundles/" + name), bundleInfo := Some(bundle));
      CleanupOldBundles(bundle.version, listingOk);
      if listingOk {
        CurrentBundleKept(WithFile(old(bundleFiles), name), bundle.version);
      }
      UpdateStatus(StatusPatch(None, Some(false), Some(100), None, Some(false), Some(Some(bundle.version)), None));
    }

    /** `clearOTAData()`: every key and the bundle directory are removed; currentVersion is reset without notifying anyone. */
    method ClearOtaData()
      modifies this
      ensures store == OtaStore(None, None, None, None) && bundleFiles == []
      ensures status == old(status).(currentVersion := None)
      ensures listeners == old(listeners) && notices == old(notices)
    {
      store := OtaStore(None, None, None, None);
      bundleFiles := [];
      status := status.(currentVersion := None);
    }
  }

  predicate IsPrefixOf<T(==)>(p: seq<T>, s: seq<T>) {
    |p| <= |s| && s[..|p|] == p
  }
}
