// scripts/increment-version.js: the build script that bumps the version in
// package.json, writes it to app.json together with an Android versionCode
// derived from it (major·10000 + minor·100 + patch) and the matching iOS
// build number. It reads the first three components of the version into
// `let` variables and updates them with a `switch`.

module IncrementVersion {
  import opened Text
  import opened Js
  import opened VersionUtils
  import BumpVersion

  type Kind = BumpVersion.BumpKind

  /** `process.argv[2] || 'patch'`, where anything but major or minor falls to the patch case. */
  function IncrementKind(arg: Option<string>): Kind {
    if arg == Some("major") then BumpVersion.Major
    else if arg == Some("minor") then BumpVersion.Minor
    else BumpVersion.Patch
  }

  datatype Triple = Triple(major: Num, minor: Num, patch: Num)

  /** `const [major, minor, patch] = version.split('.').map(Number)`. */
  function Parse(version: string): Triple {
    var c := Components(version);
    Triple(PartAt(c, 0), PartAt(c, 1), PartAt(c, 2))
  }

  /** The three components after the `switch`. */
  function Next(t: Triple, kind: Kind): Triple {
    match kind
    case Major => Triple(Increment(t.major), Int(0), Int(0))
    case Minor => Triple(t.major, Increment(t.minor), Int(0))
    case Patch => Triple(t.major, t.minor, Increment(t.patch))
  }

  /** `${major}.${minor}.${patch}`. */
  function Template(t: Triple): string {
    Render(t.major) + "." + Render(t.minor) + "." + Render(t.patch)
  }

  /** `a * k` and `a + b` on numbers that may be NaN or undefined. */
  function Scale(a: Num, k: int): Num {
    if a.Int? then Int(a.i * k) else NaN
  }

  function Add(a: Num, b: Num): Num {
    if a.Int? && b.Int? then Int(a.i + b.i) else NaN
  }

  /** `(major * 10000) + (minor * 100) + patch`. */
  function VersionCode(t: Triple): Num {
    Add(Add(Scale(t.major, 10000), Scale(t.minor, 100)), t.patch)
  }

  /** The `let` variables and the `switch` of the script, then the version string and code. */
  method Compute(version: string, arg: Option<string>) returns (newVersion: string, newVersionCode: Num)
    ensures newVersion == Template(Next(Parse(version), IncrementKind(arg)))
    ensures newVersionCode == VersionCode(Next(Parse(version), IncrementKind(arg)))
  {
    var t := Parse(version);
    var newMajor, newMinor, newPatch := t.major, t.minor, t.patch;
    if arg == Some("major") {
      newMajor := Increment(newMajor);
      newMinor := Int(0);
      newPatch := Int(0);
    } else if arg == Some("minor") {
      newMinor := Increment(newMinor);
      newPatch := Int(0);
    } else {
      newPatch := Increment(newPatch);
    }
    newVersion := Render(newMajor) + "." + Render(newMinor) + "." + Render(newPatch);
    newVersionCode := Add(Add(Scale(newMajor, 10000), Scale(newMinor, 100)), newPatch);
  }

  /**
   * Any argument other than "major" or "minor", a missing one included,
   * bumps the patch; major resets minor and patch, minor resets patch.
   */
  lemma NextRules(t: Triple, arg: Option<string>)
    ensures arg != Some("major") && arg != Some("minor") ==> IncrementKind(arg) == BumpVersion.Patch
    ensures var n := Next(t, IncrementKind(arg));
      (arg == Some("major") ==> n == Triple(Increment(t.major), Int(0), Int(0))) &&
      (arg == Some("minor") ==> n == Triple(t.major, Increment(t.minor), Int(0))) &&
      (arg != Some("major") && arg != Some("minor") ==> n == Triple(t.major, t.minor, Increment(t.patch)))
  {
  }

  predicate Natural(t: Triple) {
    t.major.Int? && t.minor.Int? && t.patch.Int? && t.major.i >= 0 && t.minor.i >= 0 && t.patch.i >= 0
  }

  /**
   * The new version always has exactly three dot-separated components; when
   * they are natural numbers they read back as themselves.
   */
  lemma TemplateHasThreeComponents(t: Triple)
    ensures |Split(Template(t), '.')| == 3
    ensures Natural(t) ==> Components(Template(t)) == [t.major, t.minor, t.patch]
  {
    TemplateSplits(t);
    if Natural(t) {
      TemplateComponents(t);
    }
  }

  /** Natural components read back from the template through `Number`. */
  lemma TemplateComponents(t: Triple)
    requires Natural(t)
    ensures Components(Template(t)) == [t.major, t.minor, t.patch]
  {
    var c := [t.major, t.minor, t.patch];
    var pieces := [Render(t.major), Render(t.minor), Render(t.patch)];
    TemplateSplits(t);
    forall i | 0 <= i < 3
      ensures ToNumber(pieces[i]) == c[i]
    {
      ToNumberRender(c[i].i);
    }
  }

  /** The template splits on its dots back into the three rendered components. */
  lemma TemplateSplits(t: Triple)
    ensures Split(Template(t), '.') == [Render(t.major), Render(t.minor), Render(t.patch)]
  {
    RenderHasNoDot(t.major);
    RenderHasNoDot(t.minor);
    RenderHasNoDot(t.patch);
    var pieces := [Render(t.major), Render(t.minor), Render(t.patch)];
    assert Join(pieces[1..], ".") == Render(t.minor) + "." + Render(t.patch);
    assert Join(pieces, ".") == Template(t);
    SplitJoin(pieces, '.');
  }

  /**
   * With natural components the versionCode is a number, and it strictly
   * increases with every bump as long as minor and patch stay below 100.
   */
  lemma VersionCodeIncreases(t: Triple, kind: Kind)
    requires Natural(t) && t.minor.i < 100 && t.patch.i < 100
    ensures VersionCode(t).Int? && VersionCode(Next(t, kind)).Int?
    ensures VersionCode(Next(t, kind)).i > VersionCode(t).i
  {
  }

  /** A version that has no patch component yields a NaN versionCode. */
  lemma MissingPatchGivesNaN(t: Triple)
    requires t.patch == Undefined
    ensures VersionCode(t) == NaN
  {
  }

  /**
   * The whole script on package.json and app.json. It throws (and stops)
   * before any write on an unreadable file or a package.json without a
   * version; on an app.json without `expo` or `expo.android` it throws after
   * package.json was written, leaving app.json as it was.
   */
  method Run(arg: Option<string>, package: BumpVersion.File<BumpVersion.PackageJson>, app: BumpVersion.File<BumpVersion.AppJson>)
    returns (packageAfter: BumpVersion.File<BumpVersion.PackageJson>, appAfter: BumpVersion.File<BumpVersion.AppJson>)
    ensures !(package.Parsed? && app.Parsed? && package.data.version.Some?) ==>
      packageAfter == package && appAfter == app
    ensures package.Parsed? && app.Parsed? && package.data.version.Some? ==>
      var t := Next(Parse(package.data.version.value), IncrementKind(arg));
      packageAfter == BumpVersion.Parsed(BumpVersion.PackageJson(Some(Template(t)))) &&
      (app.data.expo.None? || app.data.expo.value.android.None? ==> appAfter == app) &&
      (app.data.expo.Some? && app.data.expo.value.android.Some? ==>
        var e := app.data.expo.value;
        appAfter == BumpVersion.Parsed(BumpVersion.AppJson(Some(BumpVersion.Expo(
          Some(Template(t)), Some(Template(t)),
          Some(BumpVersion.Android(VersionCode(t))),
          if e.ios.Some? then Some(BumpVersion.Ios(Some(Render(VersionCode(t))))) else None)))))
  {
    packageAfter, appAfter := package, app;
    if !package.Parsed? || !app.Parsed? || package.data.version.None? {
      return;
    }
    var newVersion, newVersionCode := Compute(package.data.version.value, arg);
    packageAfter := BumpVersion.Parsed(BumpVersion.PackageJson(Some(newVersion)));
    var expo := app.data.expo;
    if expo.None? || expo.value.android.None? {
      return;
    }
    var e := expo.value;
    e := e.(version := Some(newVersion));
    e := e.(android := Some(BumpVersion.Android(newVersionCode)));
    e := e.(runtimeVersion := Some(newVersion));
    if e.ios.Some? {
      e := e.(ios := Some(BumpVersion.Ios(Some(Render(newVersionCode)))));
    }
    appAfter := BumpVersion.Parsed(BumpVersion.AppJson(Some(e)));
  }
}
