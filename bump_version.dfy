// scripts/bump-version.js: a release script that bumps the major, minor or
// patch component of the version recorded in app.json, package.json and two
// app-version.json files. `bumpVersion` works on the array of components in
// place, with JavaScript's array semantics: writing past the end grows the
// array, leaving holes that `join` renders as empty strings.

module BumpVersion {
  import opened Text
  import opened Js
  import opened VersionUtils

  datatype BumpKind = Major | Minor | Patch

  /** `process.argv[2] || 'patch'`, accepted only when it names a bump. */
  function BumpType(arg: Option<string>): (k: Option<BumpKind>)
    ensures arg.None? ==> k == Some(Patch)
  {
    var t := if arg.Some? && arg.value != "" then arg.value else "patch";
    if t == "major" then Some(Major)
    else if t == "minor" then Some(Minor)
    else if t == "patch" then Some(Patch)
    else None
  }

  /** `parts[i] = v`: past the end the array grows, the gap filled with holes. */
  function SetPart(parts: seq<Num>, i: nat, v: Num): (r: seq<Num>)
    ensures |r| == Max(|parts|, i + 1)
    ensures r[i] == v
    ensures forall k :: 0 <= k < |r| && k != i ==> r[k] == PartAt(parts, k)
  {
    if i < |parts| then parts[i := v]
    else parts + seq(i - |parts|, _ => Undefined) + [v]
  }

  /** The components after the `switch` of `bumpVersion`. */
  function Bumped(parts: seq<Num>, kind: BumpKind): seq<Num> {
    match kind
    case Major => SetPart(SetPart(SetPart(parts, 0, Increment(PartAt(parts, 0))), 1, Int(0)), 2, Int(0))
    case Minor => SetPart(SetPart(parts, 1, Increment(PartAt(parts, 1))), 2, Int(0))
    case Patch => SetPart(parts, 2, Increment(PartAt(parts, 2)))
  }

  /** `bumpVersion(version, type)`: split, update `parts` in place, join. */
  method BumpVersionOf(version: string, kind: BumpKind) returns (r: string)
    ensures r == Dotted(Bumped(Components(version), kind))
  {
    var parts := Components(version);
    ghost var original := parts;
    match kind {
      case Major =>
        parts := SetPart(parts, 0, Increment(PartAt(parts, 0)));
        parts := SetPart(parts, 1, Int(0));
        parts := SetPart(parts, 2, Int(0));
      case Minor =>
        parts := SetPart(parts, 1, Increment(PartAt(parts, 1)));
        parts := SetPart(parts, 2, Int(0));
      case Patch =>
        parts := SetPart(parts, 2, Increment(PartAt(parts, 2)));
    }
    assert parts == Bumped(original, kind);
    r := Dotted(parts);
  }

  /** The bumped version as a value, for the file updates. */
  function BumpedVersion(version: string, kind: BumpKind): string {
    Dotted(Bumped(Components(version), kind))
  }

  /**
   * patch increments only the third component; minor increments the second
   * and zeroes the third; major increments the first and zeroes the next
   * two. Components after the third are kept, and the result has at least
   * three components: as many as the input when it had three or more.
   */
  lemma BumpedComponents(parts: seq<Num>, kind: BumpKind)
    ensures var r := Bumped(parts, kind);
      |r| == Max(|parts|, 3) &&
      (forall k :: 3 <= k < |r| ==> r[k] == parts[k]) &&
      (kind == Patch ==> r[0] == PartAt(parts, 0) && r[1] == PartAt(parts, 1) && r[2] == Increment(PartAt(parts, 2))) &&
      (kind == Minor ==> r[0] == PartAt(parts, 0) && r[1] == Increment(PartAt(parts, 1)) && r[2] == Int(0)) &&
      (kind == Major ==> r[0] == Increment(PartAt(parts, 0)) && r[1] == Int(0) && r[2] == Int(0))
  {
  }

  /** Bumping a version of three or more natural components gives natural components. */
  lemma BumpedNatural(parts: seq<Num>, kind: BumpKind)
    requires |parts| >= 3 && AllNatural(parts)
    ensures AllNatural(Bumped(parts, kind))
  {
    BumpedComponents(parts, kind);
  }

  /**
   * A version of three or more natural components is bumped to one that
   * `isNewerVersion` ranks strictly above it and that has as many components.
   */
  lemma BumpIsNewer(version: string, kind: BumpKind)
    requires |Components(version)| >= 3 && AllNatural(Components(version))
    ensures IsNewerVersion(version, BumpedVersion(version, kind))
    ensures |Components(BumpedVersion(version, kind))| == |Components(version)|
  {
    var c := Components(version);
    var r := Bumped(c, kind);
    BumpedComponents(c, kind);
    BumpedNatural(c, kind);
    ComponentsOfDotted(r);
    var k := if kind == Major then 0 else if kind == Minor then 1 else 2;
    assert Part(r, k) > Part(c, k);
    assert forall j :: 0 <= j < k ==> Part(r, j) == Part(c, j);
    NewerFromFirstDifference(c, r, 0);
  }

  /** The components of "1.2" and of "1.2.NaN". */
  lemma ShortComponents()
    ensures Components("1.2") == [Int(1), Int(2)]
    ensures Components("1.2.NaN") == [Int(1), Int(2), NaN]
  {
    ComponentsOfDotted([Int(1), Int(2)]);
    DottedOneTwo();
    SplitWithNaN();
    assert Trim("NaN") == "NaN" && !AllDigits("NaN");
  }

  /** "1.2.NaN" splits into the pieces of "1.2" followed by "NaN". */
  lemma SplitWithNaN()
    ensures Split("1.2.NaN", '.') == Split("1.2", '.') + ["NaN"]
  {
    assert "2.NaN" == "2" + ['.'] + "NaN";
    assert "1.2.NaN" == "1" + ['.'] + "2.NaN";
    assert "1.2" == "1" + ['.'] + "2";
    SplitNoSeparator("NaN", '.');
    SplitNoSeparator("2", '.');
    SplitAfterPiece("2", "NaN", '.');
    SplitAfterPiece("1", "2.NaN", '.');
    SplitAfterPiece("1", "2", '.');
  }

  lemma DottedOneTwo()
    ensures Dotted([Int(1), Int(2)]) == "1.2"
    ensures Dotted([Int(1), Int(2), NaN]) == "1.2.NaN"
  {
    assert IntToString(1) == "1" && IntToString(2) == "2";
    var a := [Int(1), Int(2)];
    var pa := seq(|a|, i requires 0 <= i < |a| => RenderInJoin(a[i]));
    assert pa == ["1", "2"];
    assert Join(pa, ".") == "1.2";
    var b := [Int(1), Int(2), NaN];
    var pb := seq(|b|, i requires 0 <= i < |b| => RenderInJoin(b[i]));
    assert pb == ["1", "2", "NaN"];
    assert pb[1..] == ["2", "NaN"];
    assert Join(pb[1..], ".") == "2.NaN";
  }

  /**
   * With fewer than three components the third is created from `undefined`:
   * a patch of "1.2" gives "1.2.NaN", which is not newer than "1.2".
   */
  lemma ShortVersionPatch()
    ensures BumpedVersion("1.2", Patch) == "1.2.NaN"
    ensures !IsNewerVersion("1.2", "1.2.NaN")
  {
    ShortComponents();
    DottedOneTwo();
    assert Bumped([Int(1), Int(2)], Patch) == [Int(1), Int(2), NaN];
    NewerFromEquivalent([Int(1), Int(2)], [Int(1), Int(2), NaN], 0);
  }

  // ---- the files the script rewrites ------------------------------------------------

  /** A JSON file on disk: missing, unreadable as JSON, or parsed. */
  datatype File<T> = Missing | Corrupt | Parsed(data: T)

  datatype Android = Android(versionCode: Num)
  datatype Ios = Ios(buildNumber: Option<string>)
  datatype Expo = Expo(version: Option<string>, runtimeVersion: Option<string>, android: Option<Android>, ios: Option<Ios>)
  /** app.json; `expo` is absent when the file has no such object. */
  datatype AppJson = AppJson(expo: Option<Expo>)
  datatype PackageJson = PackageJson(version: Option<string>)
  datatype AppVersionJson = AppVersionJson(latestVersion: Option<string>, releaseDate: string)

  datatype Files = Files(
    app: File<AppJson>,
    package: File<PackageJson>,
    backend: File<AppVersionJson>,
    server: File<AppVersionJson>)

  /** `(versionCode || 1) + 1`. */
  function NextVersionCode(code: Num): int {
    (if code.Int? && code.i != 0 then code.i else 1) + 1
  }

  /** `String(parseInt(buildNumber || '1') + 1)`. */
  function NextBuildNumber(build: Option<string>): string {
    Render(Increment(ParseInt(if build.Some? && build.value != "" then build.value else "1")))
  }

  /**
   * The app.json callback; None when it throws (no `expo` object, or no
   * version to split), in which case `updateFile` writes nothing.
   */
  function BumpApp(d: AppJson, kind: BumpKind): Option<AppJson> {
    if d.expo.None? || d.expo.value.version.None? then None
    else
      var e := d.expo.value;
      var v := BumpedVersion(e.version.value, kind);
      var android := if e.android.Some? then Some(Android(Int(NextVersionCode(e.android.value.versionCode)))) else None;
      var ios := if e.ios.Some? then Some(Ios(Some(NextBuildNumber(e.ios.value.buildNumber)))) else None;
      Some(AppJson(Some(Expo(Some(v), Some(v), android, ios))))
  }

  function BumpPackage(d: PackageJson, kind: BumpKind): Option<PackageJson> {
    if d.version.None? then None else Some(PackageJson(Some(BumpedVersion(d.version.value, kind))))
  }

  function BumpAppVersion(d: AppVersionJson, kind: BumpKind, today: string): Option<AppVersionJson> {
    if d.latestVersion.None? then None
    else Some(AppVersionJson(Some(BumpedVersion(d.latestVersion.value, kind)), today))
  }

  /**
   * app.json after the script: version and runtimeVersion both hold the
   * bumped version, the Android versionCode goes up by one (a missing or
   * zero code counts as 1), and a numeric iOS buildNumber goes up by one.
   */
  lemma AppJsonBumped(d: AppJson, kind: BumpKind)
    requires d.expo.Some? && d.expo.value.version.Some?
    ensures var r := BumpApp(d, kind);
      r.Some? && r.value.expo.Some? &&
      r.value.expo.value.version == r.value.expo.value.runtimeVersion ==
        Some(BumpedVersion(d.expo.value.version.value, kind))
    ensures var e := d.expo.value; var r := BumpApp(d, kind).value.expo.value;
      (r.android.Some? <==> e.android.Some?) &&
      (e.android.Some? && e.android.value.versionCode.Int? && e.android.value.versionCode.i != 0 ==>
         r.android.value.versionCode == Int(e.android.value.versionCode.i + 1)) &&
      (e.android.Some? && !e.android.value.versionCode.Int? ==> r.android.value.versionCode == Int(2))
    ensures var e := d.expo.value; var r := BumpApp(d, kind).value.expo.value;
      (r.ios.Some? <==> e.ios.Some?) &&
      (e.ios.Some? && e.ios.value.buildNumber.None? ==> r.ios.value.buildNumber == Some("2")) &&
      (forall n: nat :: e.ios.Some? && e.ios.value.buildNumber == Some(Render(Int(n))) ==>
         r.ios.value.buildNumber == Some(Render(Int(n + 1))))
  {
    var e := d.expo.value;
    if e.ios.Some? {
      ParseIntRender(1);
      assert IntToString(1) == "1" && IntToString(2) == "2";
      forall n: nat | e.ios.value.buildNumber == Some(Render(Int(n)))
        ensures NextBuildNumber(e.ios.value.buildNumber) == Render(Int(n + 1))
      {
        ParseIntRender(n);
        assert Render(Int(n)) != "";
      }
    }
  }

  /** `updateFile(path, fn)`: rewrite a parsed file when the callback succeeds. */
  function Updated<T>(f: File<T>, result: Option<T>): File<T> {
    if f.Parsed? && result.Some? then Parsed(result.value) else f
  }

  /**
   * The whole script. An unknown bump type exits with status 1 before any
   * file is touched. Otherwise each file is rewritten independently; a file
   * that is missing, unreadable or lacks its version field is left as it was.
   */
  method Run(arg: Option<string>, before: Files, today: string) returns (exitCode: int, after: Files)
    ensures BumpType(arg).None? <==> exitCode == 1
    ensures BumpType(arg).None? ==> after == before
    ensures BumpType(arg).Some? ==> (exitCode == 0 &&
      var kind := BumpType(arg).value;
      after.app == (if before.app.Parsed? then Updated(before.app, BumpApp(before.app.data, kind)) else before.app) &&
      after.package == (if before.package.Parsed? then Updated(before.package, BumpPackage(before.package.data, kind)) else before.package) &&
      after.backend == (if before.backend.Parsed? then Updated(before.backend, BumpAppVersion(before.backend.data, kind, today)) else before.backend) &&
      after.server == (if before.server.Parsed? then Updated(before.server, BumpAppVersion(before.server.data, kind, today)) else before.server))
  {
    var bumpType := BumpType(arg);
    if bumpType.None? {
      return 1, before;
    }
    var kind := bumpType.value;
    after := before;
    if after.app.Parsed? {
      after := after.(app := Updated(after.app, BumpApp(after.app.data, kind)));
    }
    if after.package.Parsed? {
      after := after.(package := Updated(after.package, BumpPackage(after.package.data, kind)));
    }
    if after.backend.Parsed? {
      after := after.(backend := Updated(after.backend, BumpAppVersion(after.backend.data, kind, today)));
    }
    if after.server.Parsed? {
      after := after.(server := Updated(after.server, BumpAppVersion(after.server.data, kind, today)));
    }
    exitCode := 0;
  }

  /**
   * A package.json whose version has three natural components is bumped to
   * a version strictly newer than it.
   */
  lemma RunBumpsPackage(before: Files, kind: BumpKind, v: string)
    requires before.package == Parsed(PackageJson(Some(v)))
    requires |Components(v)| >= 3 && AllNatural(Components(v))
    ensures var r := BumpPackage(before.package.data, kind);
      r.Some? && r.value.version.Some? && IsNewerVersion(v, r.value.version.value)
  {
    BumpIsNewer(v, kind);
  }
}
