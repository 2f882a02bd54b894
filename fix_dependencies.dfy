// The package.json clean-up script: every listed server dependency whose
// version is a non-empty string is moved from `dependencies` to
// `devDependencies` with the same version, one by one in the list's order,
// and the file is written back only when at least one was moved.

module FixDependencies {

  /** The server packages the mobile app must not ship. */
  const ServerDeps: seq<string> := ["express", "pg", "drizzle-orm", "http-proxy-middleware", "tsx", "ws"]

  /** The two dependency objects of package.json, name to version. */
  datatype Package = Package(dependencies: map<string, string>, devDependencies: map<string, string>)

  /** `packageJson.dependencies[dep]` is truthy: present with a non-empty version. */
  predicate Movable(p: Package, dep: string) {
    dep in p.dependencies && p.dependencies[dep] != ""
  }

  /** One iteration of the `forEach`: copy the version to devDependencies, then delete it. */
  function Step(p: Package, dep: string): Package {
    if Movable(p, dep)
    then Package(p.dependencies - {dep}, p.devDependencies[dep := p.dependencies[dep]])
    else p
  }

  /** The package after the iterations for `deps`, in order. */
  function MoveAll(p: Package, deps: seq<string>): Package
    decreases |deps|
  {
    if |deps| == 0 then p else Step(MoveAll(p, deps[..|deps| - 1]), deps[|deps| - 1])
  }

  /** The `moved` counter after the iterations for `deps`. */
  function MovedCount(p: Package, deps: seq<string>): nat
    decreases |deps|
  {
    if |deps| == 0 then 0
    else
      var before := deps[..|deps| - 1];
      MovedCount(p, before) + (if Movable(MoveAll(p, before), deps[|deps| - 1]) then 1 else 0)
  }

  /** How many of `deps` are movable in `p` to begin with. */
  function CountMovable(p: Package, deps: seq<string>): nat
    decreases |deps|
  {
    if |deps| == 0 then 0
    else CountMovable(p, deps[..|deps| - 1]) + (if Movable(p, deps[|deps| - 1]) then 1 else 0)
  }

  /** Whether the run moves `k`: it is listed and movable in the original package. */
  predicate Moves(p: Package, deps: seq<string>, k: string) {
    k in deps && Movable(p, k)
  }

  predicate Distinct(deps: seq<string>) {
    forall i, j :: 0 <= i < j < |deps| ==> deps[i] != deps[j]
  }

  /**
   * For a list without repeats: a listed dependency with a non-empty version
   * leaves `dependencies` and appears in `devDependencies` with the same
   * version; everything else keeps its place and version; and the counter is
   * the number of listed dependencies that were movable to begin with.
   */
  lemma {:induction false} MoveAllRules(p: Package, deps: seq<string>)
    requires Distinct(deps)
    ensures var r := MoveAll(p, deps);
      (forall k :: k in r.dependencies <==> k in p.dependencies && !Moves(p, deps, k)) &&
      (forall k :: k in r.dependencies ==> r.dependencies[k] == p.dependencies[k]) &&
      (forall k :: k in r.devDependencies <==> k in p.devDependencies || Moves(p, deps, k)) &&
      (forall k :: k in r.devDependencies ==>
        r.devDependencies[k] == if Moves(p, deps, k) then p.dependencies[k] else p.devDependencies[k])
    ensures MovedCount(p, deps) == CountMovable(p, deps)
    decreases |deps|
  {
    if |deps| > 0 {
      var before := deps[..|deps| - 1];
      var d := deps[|deps| - 1];
      assert Distinct(before);
      MoveAllRules(p, before);
      assert d !in before;
      assert forall k :: k in deps <==> k in before || k == d;
      var q := MoveAll(p, before);
      assert Movable(q, d) <==> Movable(p, d);
    }
  }

  /** After a run nothing listed is movable any more, so a second run moves nothing and changes nothing. */
  lemma SecondRunMovesNothing(p: Package, deps: seq<string>)
    requires Distinct(deps)
    ensures forall k :: k in deps ==> !Movable(MoveAll(p, deps), k)
    ensures MoveAll(MoveAll(p, deps), deps) == MoveAll(p, deps)
    ensures MovedCount(MoveAll(p, deps), deps) == 0
  {
    var r := MoveAll(p, deps);
    MoveAllRules(p, deps);
    NothingMovable(r, deps);
  }

  /** With nothing in the list movable, the run is the identity and counts 0. */
  lemma {:induction false} NothingMovable(p: Package, deps: seq<string>)
    requires forall k :: k in deps ==> !Movable(p, k)
    ensures MoveAll(p, deps) == p && MovedCount(p, deps) == 0
    decreases |deps|
  {
    if |deps| > 0 {
      var before := deps[..|deps| - 1];
      assert forall k :: k in before ==> k in deps;
      NothingMovable(p, before);
    }
  }

  lemma ServerDepsDistinct()
    ensures Distinct(ServerDeps)
  {
  }

  /** The parsed package.json and the versions of it written back to disk. */
  class PackageFile {
    var dependencies: map<string, string>
    var devDependencies: map<string, string>
    /** Each `writeFileSync` of package.json, oldest first. */
    var writes: seq<Package>

    function Contents(): Package
      reads this
    {
      Package(dependencies, devDependencies)
    }

    /** The script: the loop over the server dependencies, then the write when something moved. */
    method FixDependencies() returns (moved: nat)
      modifies this
      ensures Contents() == MoveAll(old(Contents()), ServerDeps)
      ensures moved == MovedCount(old(Contents()), ServerDeps)
      ensures writes == old(writes) + (if moved > 0 then [Contents()] else [])
    {
      moved := 0;
      var i := 0;
      while i < |ServerDeps|
        invariant 0 <= i <= |ServerDeps|
        invariant Contents() == MoveAll(old(Contents()), ServerDeps[..i])
        invariant moved == MovedCount(old(Contents()), ServerDeps[..i])
        invariant writes == old(writes)
      {
        var dep := ServerDeps[i];
        assert ServerDeps[..i + 1][..i] == ServerDeps[..i];
        if dep in dependencies && dependencies[dep] != "" {
          var version := dependencies[dep];
          devDependencies := devDependencies[dep := version];
          dependencies := dependencies - {dep};
          moved := moved + 1;
        }
        i := i + 1;
      }
      assert ServerDeps[..i] == ServerDeps;
      if moved > 0 {
        writes := writes + [Contents()];
      }
    }
  }

  /** Running the script twice: the second run moves nothing and writes nothing. */
  method RunTwice(f: PackageFile) returns (first: nat, second: nat)
    modifies f
    ensures second == 0 && first == CountMovable(old(f.Contents()), ServerDeps)
    ensures f.Contents() == MoveAll(old(f.Contents()), ServerDeps)
    ensures |f.writes| == |old(f.writes)| + (if first > 0 then 1 else 0)
  {
    ServerDepsDistinct();
    MoveAllRules(f.Contents(), ServerDeps);
    SecondRunMovesNothing(f.Contents(), ServerDeps);
    first := f.FixDependencies();
    second := f.FixDependencies();
  }
}
