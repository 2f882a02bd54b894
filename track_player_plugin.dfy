// The Expo config plugin for the track player. On the Android manifest it adds
// the FOREGROUND_SERVICE permission and the player's MusicService entry, each
// only when no entry of that name is there yet, creating missing containers
// first; on the app's build.gradle it rewrites the first
// `compileSdkVersion <digits>` to `compileSdkVersion 34`.

module TrackPlayerPlugin {
  import opened Text
  import opened Js
  import opened Lists
  import ApiConfig

  const NameKey: string := "android:name"
  const ForegroundService: string := "android.permission.FOREGROUND_SERVICE"
  const MusicService: string := "com.doublesymmetry.trackplayer.service.MusicService"

  // ---- the manifest -----------------------------------------------------------------

  /** A manifest element, reduced to its attribute object `$`. */
  datatype Element = Element(attrs: map<string, string>)

  /** `e.$['android:name'] === name`. */
  predicate Named(e: Element, name: string) {
    NameKey in e.attrs && e.attrs[NameKey] == name
  }

  const PermissionEntry: Element := Element(map[NameKey := ForegroundService])

  const ServiceEntry: Element :=
    Element(map[NameKey := MusicService, "android:foregroundServiceType" := "mediaPlayback", "android:exported" := "false"])

  /** `list.some(e => e.$['android:name'] === name)`. */
  predicate HasNamed(list: seq<Element>, name: string) {
    Any(list, (e: Element) => Named(e, name))
  }

  /** `if (!list.some(named)) list.push(entry)`, as a function of the list. */
  function WithEntry(list: seq<Element>, entry: Element, name: string): seq<Element> {
    if HasNamed(list, name) then list else list + [entry]
  }

  /**
   * The list keeps its entries in order and gains at most the new entry, at
   * the end, exactly when no entry had the name; afterwards some entry has it,
   * so a second insertion changes nothing.
   */
  lemma WithEntryRules(list: seq<Element>, entry: Element, name: string)
    requires Named(entry, name)
    ensures var r := WithEntry(list, entry, name);
      r[..|list|] == list &&
      (r == list <==> exists k :: 0 <= k < |list| && Named(list[k], name)) &&
      (r != list ==> r == list + [entry]) &&
      (exists k :: 0 <= k < |r| && Named(r[k], name)) &&
      WithEntry(r, entry, name) == r
  {
    var r := WithEntry(list, entry, name);
    var named := (e: Element) => Named(e, name);
    if !Any(list, named) {
      assert Named(r[|list|], name);
      assert r[..|list|] == list;
      assert FindIndex(r, named) >= 0;
    } else {
      var k := FindIndex(list, named);
      assert Named(list[k], name);
    }
  }

  /** The application element: its other attributes and its `service` list, if any. */
  datatype Application = Application(attrs: map<string, string>, service: Option<seq<Element>>)

  /**
   * What the plugin reads and writes of the manifest. The permission list it
   * edits is `manifest.$['uses-permission']`, a key of the manifest's own
   * attribute object.
   */
  datatype Manifest = Manifest(permissions: Option<seq<Element>>, application: Option<seq<Application>>)

  /** The permission list after the plugin: created when missing, then the permission added if absent. */
  function PermissionsAfter(permissions: Option<seq<Element>>): seq<Element> {
    WithEntry(permissions.GetOr([]), PermissionEntry, ForegroundService)
  }

  /**
   * The manifest mod. An application list that is present but empty has no
   * first element, so reading its `service` throws.
   */
  function ManifestMod(m: Manifest): Outcome<Manifest> {
    var apps := m.application.GetOr([Application(map[], None)]);
    if |apps| == 0 then Throws
    else
      var app := apps[0];
      var services := WithEntry(app.service.GetOr([]), ServiceEntry, MusicService);
      Returns(Manifest(Some(PermissionsAfter(m.permissions)), Some(apps[0 := app.(service := Some(services))])))
  }

  /**
   * The mod throws exactly on an empty application list. Otherwise the
   * permission and service lists keep their entries in order, gain their
   * entry only when none of that name was there, and then hold it; the
   * application's other attributes and the other application elements are
   * unchanged.
   */
  lemma ManifestModRules(m: Manifest)
    ensures ManifestMod(m).Throws? <==> m.application == Some([])
    ensures ManifestMod(m).Returns? ==>
      var r := ManifestMod(m).value;
      var perms := m.permissions.GetOr([]);
      var apps := m.application.GetOr([Application(map[], None)]);
      var services := apps[0].service.GetOr([]);
      r.permissions.Some? && r.application.Some? && |r.application.value| == |apps| &&
      r.permissions.value[..|perms|] == perms &&
      (r.permissions.value == perms <==> exists k :: 0 <= k < |perms| && Named(perms[k], ForegroundService)) &&
      (r.permissions.value != perms ==> r.permissions.value == perms + [PermissionEntry]) &&
      r.application.value[0].attrs == apps[0].attrs &&
      r.application.value[1..] == apps[1..] &&
      r.application.value[0].service.Some? &&
      r.application.value[0].service.value[..|services|] == services &&
      (r.application.value[0].service.value == services <==>
        exists k :: 0 <= k < |services| && Named(services[k], MusicService)) &&
      (r.application.value[0].service.value != services ==>
        r.application.value[0].service.value == services + [ServiceEntry])
  {
    WithEntryRules(m.permissions.GetOr([]), PermissionEntry, ForegroundService);
    var apps := m.application.GetOr([Application(map[], None)]);
    if |apps| > 0 {
      WithEntryRules(apps[0].service.GetOr([]), ServiceEntry, MusicService);
    }
  }

  /** Running the plugin on its own output changes nothing: no duplicate permission or service. */
  lemma ManifestModIdempotent(m: Manifest)
    requires ManifestMod(m).Returns?
    ensures ManifestMod(ManifestMod(m).value) == ManifestMod(m)
  {
    var r := ManifestMod(m).value;
    var apps := m.application.GetOr([Application(map[], None)]);
    WithEntryRules(m.permissions.GetOr([]), PermissionEntry, ForegroundService);
    WithEntryRules(apps[0].service.GetOr([]), ServiceEntry, MusicService);
    var app2 := r.application.value[0];
    assert r.application.value[0 := app2] == r.application.value;
  }

  /** The manifest object the mod edits in place. */
  class AndroidManifest {
    var permissions: Option<seq<Element>>
    var application: Option<seq<Application>>

    function State(): Manifest
      reads this
    {
      Manifest(permissions, application)
    }

    /** The permission half of the callback: create the list when missing, then add the permission if absent. */
    method AddPermission()
      modifies this
      ensures permissions == Some(PermissionsAfter(old(permissions))) && application == old(application)
    {
      if permissions.None? {
        permissions := Some([]);
      }
      var perms := permissions.value;
      if !HasNamed(perms, ForegroundService) {
        permissions := Some(perms + [PermissionEntry]);
      }
    }

    /** The service half: create the application list when missing; false when it is empty. */
    method AddService() returns (ok: bool)
      modifies this
      ensures var m := Manifest(permissions, old(application));
        (ok <==> ManifestMod(m).Returns?) &&
        (ok ==> State() == ManifestMod(m).value.(permissions := permissions))
      ensures permissions == old(permissions)
      ensures !ok ==> application == old(application)
    {
      if application.None? {
        application := Some([Application(map[], None)]);
      }
      var apps := application.value;
      if |apps| == 0 {
        return false;
      }
      var app := apps[0];
      assert apps[0 := app] == apps;
      if app.service.None? {
        app := app.(service := Some([]));
        application := Some(apps[0 := app]);
      }
      var services := app.service.value;
      if !HasNamed(services, MusicService) {
        application := Some(apps[0 := app.(service := Some(services + [ServiceEntry]))]);
      }
      ok := true;
    }

    /** The `withAndroidManifest` callback; false when it throws. */
    method ApplyTrackPlayer() returns (ok: bool)
      modifies this
      ensures ok <==> ManifestMod(old(State())).Returns?
      ensures ok ==> State() == ManifestMod(old(State())).value
      ensures !ok ==> permissions == Some(PermissionsAfter(old(permissions))) && application == old(application)
    {
      AddPermission();
      ok := AddService();
    }
  }

  // ---- build.gradle -----------------------------------------------------------------

  const SdkKey: string := "compileSdkVersion"
  const SdkLine: string := "compileSdkVersion 34"

  /** The number of whitespace characters at the start of `s` (`\s+` as far as it goes). */
  function SpaceRun(s: string): (n: nat)
    ensures n <= |s|
    ensures forall i :: 0 <= i < n ==> IsSpace(s[i])
    ensures n < |s| ==> !IsSpace(s[n])
    decreases |s|
  {
    if |s| > 0 && IsSpace(s[0]) then 1 + SpaceRun(s[1..]) else 0
  }

  /** The length of the match of `/compileSdkVersion\s+\d+/` at offset k, or 0 when none starts there. */
  function MatchLength(s: string, k: nat): (n: nat)
    requires k <= |s|
    ensures n > 0 ==> |SdkKey| < n && k + n <= |s| && s[k..k + |SdkKey|] == SdkKey
  {
    var t := s[k..];
    if !IsPrefix(SdkKey, t) then 0
    else
      var w := SpaceRun(t[|SdkKey|..]);
      var d := ApiConfig.DigitRun(t[|SdkKey| + w..]);
      if w == 0 || d == 0 then 0 else |SdkKey| + w + d
  }

  /** The leftmost offset from k on where the pattern matches. */
  function FirstMatch(s: string, k: nat): (r: Option<nat>)
    requires k <= |s|
    ensures r.Some? ==> (k <= r.value <= |s| && MatchLength(s, r.value) > 0 &&
      forall j :: k <= j < r.value ==> MatchLength(s, j) == 0)
    ensures r.None? ==> forall j :: k <= j <= |s| ==> MatchLength(s, j) == 0
    decreases |s| - k
  {
    if MatchLength(s, k) > 0 then Some(k)
    else if k == |s| then None
    else FirstMatch(s, k + 1)
  }

  /** The text with `s[k..k + n]` replaced by the new compileSdkVersion line. */
  function Splice(s: string, k: nat, n: nat): string
    requires k + n <= |s|
  {
    s[..k] + SdkLine + s[k + n..]
  }

  /** The gradle mod: `contents.replace(/compileSdkVersion\s+\d+/, 'compileSdkVersion 34')` behind an `includes` check. */
  function RewriteCompileSdk(s: string): string {
    if !Contains(s, SdkKey) then s
    else
      match FirstMatch(s, 0)
      case None => s
      case Some(k) => Splice(s, k, MatchLength(s, k))
  }

  /**
   * Text without a match is unchanged. Otherwise only the leftmost match is
   * replaced by "compileSdkVersion 34": everything before and after it is
   * kept, and the `includes` check never rules out a text the pattern
   * matches.
   */
  lemma {:induction false} RewriteCompileSdkRules(s: string)
    ensures FirstMatch(s, 0).None? ==> RewriteCompileSdk(s) == s
    ensures FirstMatch(s, 0).Some? ==>
      var k := FirstMatch(s, 0).value;
      var n := MatchLength(s, k);
      Contains(s, SdkKey) &&
      RewriteCompileSdk(s) == Splice(s, k, n) &&
      (forall j :: 0 <= j < k ==> MatchLength(s, j) == 0) &&
      s[k..k + |SdkKey|] == SdkKey
  {
    var m := FirstMatch(s, 0);
    if m.Some? {
      RewriteAtFirstMatch(s, m.value);
    } else {
      RewriteWithoutMatch(s);
    }
  }

  /** At the leftmost match the `includes` check passes and the replacement splices there. */
  lemma {:induction false} RewriteAtFirstMatch(s: string, k: nat)
    requires FirstMatch(s, 0) == Some(k)
    ensures k + MatchLength(s, k) <= |s|
    ensures Contains(s, SdkKey)
    ensures RewriteCompileSdk(s) == Splice(s, k, MatchLength(s, k))
  {
    ContainsAt(s, SdkKey, k);
  }

  /** Without a match the rewrite leaves the text alone, whatever the `includes` check says. */
  lemma {:induction false} RewriteWithoutMatch(s: string)
    requires FirstMatch(s, 0).None?
    ensures RewriteCompileSdk(s) == s
  {
  }

  /** The app's build.gradle contents, rewritten in place. */
  class AppBuildGradle {
    var contents: string

    /** The `withAppBuildGradle` callback. */
    method ApplyTrackPlayer()
      modifies this
      ensures contents == RewriteCompileSdk(old(contents))
    {
      if Contains(contents, SdkKey) {
        var m := FirstMatch(contents, 0);
        if m.Some? {
          contents := Splice(contents, m.value, MatchLength(contents, m.value));
        }
      }
    }
  }
}
