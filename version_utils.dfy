// lib/version-utils.ts: dotted version strings compared component by
// component, where a component is `Number(piece)` and a missing or
// non-numeric component counts as 0; and the update urgency derived from the
// current, latest and minimum supported versions.

module VersionUtils {
  import opened Text
  import opened Js

  /** `v.split('.').map(Number)`. */
  function Components(v: string): (c: seq<Num>)
    ensures |c| >= 1
  {
    var pieces := Split(v, '.');
    seq(|pieces|, i requires 0 <= i < |pieces| => ToNumber(pieces[i]))
  }

  /** `c[i] || 0`. */
  function Part(c: seq<Num>, i: int): int {
    if 0 <= i < |c| then OrZero(c[i]) else 0
  }

  /** `c[i]` itself: undefined past the end. */
  function PartAt(c: seq<Num>, i: nat): Num {
    if i < |c| then c[i] else Undefined
  }

  function Max(a: int, b: int): int {
    if a >= b then a else b
  }

  /** The comparison loop of `isNewerVersion` from index `i` on. */
  function NewerFrom(c: seq<Num>, t: seq<Num>, i: nat): bool
    decreases Max(|c|, |t|) - i
  {
    if i >= Max(|c|, |t|) then false
    else if Part(t, i) > Part(c, i) then true
    else if Part(t, i) < Part(c, i) then false
    else NewerFrom(c, t, i + 1)
  }

  /** `isNewerVersion(current, target)`: is target newer than current? */
  predicate IsNewerVersion(current: string, target: string) {
    NewerFrom(Components(current), Components(target), 0)
  }

  /**
   * The loop answers true exactly when, at the first position from `i` where
   * the two versions differ, the target's component is larger.
   */
  lemma {:induction false} NewerFromFirstDifference(c: seq<Num>, t: seq<Num>, i: nat)
    ensures NewerFrom(c, t, i) <==>
      exists k :: i <= k < Max(|c|, |t|) && Part(t, k) > Part(c, k) &&
        forall j :: i <= j < k ==> Part(t, j) == Part(c, j)
    decreases Max(|c|, |t|) - i
  {
    if i < Max(|c|, |t|) && Part(t, i) == Part(c, i) {
      NewerFromFirstDifference(c, t, i + 1);
      if NewerFrom(c, t, i + 1) {
        var k :| i + 1 <= k < Max(|c|, |t|) && Part(t, k) > Part(c, k) &&
          forall j :: i + 1 <= j < k ==> Part(t, j) == Part(c, j);
        assert forall j :: i <= j < k ==> Part(t, j) == Part(c, j);
      }
      if exists k :: i <= k < Max(|c|, |t|) && Part(t, k) > Part(c, k) &&
          forall j :: i <= j < k ==> Part(t, j) == Part(c, j) {
        var k :| i <= k < Max(|c|, |t|) && Part(t, k) > Part(c, k) &&
          forall j :: i <= j < k ==> Part(t, j) == Part(c, j);
        assert k != i;
        assert i + 1 <= k && forall j :: i + 1 <= j < k ==> Part(t, j) == Part(c, j);
      }
    }
  }

  /** No version is newer than itself. */
  lemma {:induction false} NewerFromIrreflexive(c: seq<Num>, i: nat)
    ensures !NewerFrom(c, c, i)
    decreases Max(|c|, |c|) - i
  {
    if i < |c| {
      NewerFromIrreflexive(c, i + 1);
    }
  }

  /** Two versions are never each newer than the other. */
  lemma {:induction false} NewerFromAsymmetric(c: seq<Num>, t: seq<Num>, i: nat)
    ensures !(NewerFrom(c, t, i) && NewerFrom(t, c, i))
    decreases Max(|c|, |t|) - i
  {
    if i < Max(|c|, |t|) && Part(t, i) == Part(c, i) {
      NewerFromAsymmetric(c, t, i + 1);
    }
  }

  /** Versions whose components agree once missing ones count as 0 are not newer than each other. */
  lemma {:induction false} NewerFromEquivalent(c: seq<Num>, t: seq<Num>, i: nat)
    requires forall k :: i <= k < Max(|c|, |t|) ==> Part(c, k) == Part(t, k)
    ensures !NewerFrom(c, t, i) && !NewerFrom(t, c, i)
    decreases Max(|c|, |t|) - i
  {
    if i < Max(|c|, |t|) {
      NewerFromEquivalent(c, t, i + 1);
    }
  }

  lemma IsNewerVersionIrreflexive(v: string)
    ensures !IsNewerVersion(v, v)
  {
    NewerFromIrreflexive(Components(v), 0);
  }

  lemma IsNewerVersionAsymmetric(a: string, b: string)
    ensures !(IsNewerVersion(a, b) && IsNewerVersion(b, a))
  {
    NewerFromAsymmetric(Components(a), Components(b), 0);
  }

  /** The components written back with `join('.')`. */
  function Dotted(c: seq<Num>): string {
    Join(seq(|c|, i requires 0 <= i < |c| => RenderInJoin(c[i])), ".")
  }

  predicate AllNatural(c: seq<Num>) {
    forall i :: 0 <= i < |c| ==> c[i].Int? && c[i].i >= 0
  }

  /** Natural components written with dots read back as themselves. */
  lemma ComponentsOfDotted(c: seq<Num>)
    requires |c| >= 1 && AllNatural(c)
    ensures Components(Dotted(c)) == c
  {
    var pieces := seq(|c|, i requires 0 <= i < |c| => RenderInJoin(c[i]));
    forall i | 0 <= i < |c|
      ensures '.' !in pieces[i] && ToNumber(pieces[i]) == c[i]
    {
      RenderHasNoDot(c[i]);
      ToNumberRender(c[i].i);
    }
    SplitJoin(pieces, '.');
  }

  /** "1.2" and "1.2.0" are not newer than each other. */
  lemma TrailingZeroIgnored()
    ensures !IsNewerVersion("1.2", "1.2.0") && !IsNewerVersion("1.2.0", "1.2")
  {
    var a := [Int(1), Int(2)];
    var b := [Int(1), Int(2), Int(0)];
    assert IntToString(0) == "0" && IntToString(1) == "1" && IntToString(2) == "2";
    var pa := seq(|a|, i requires 0 <= i < |a| => RenderInJoin(a[i]));
    var pb := seq(|b|, i requires 0 <= i < |b| => RenderInJoin(b[i]));
    assert pa == ["1", "2"];
    assert pb == ["1", "2", "0"];
    assert Join(pa, ".") == "1.2";
    assert pb[1..] == ["2", "0"];
    assert Join(pb[1..], ".") == "2.0";
    assert Join(pb, ".") == "1.2.0";
    ComponentsOfDotted(a);
    ComponentsOfDotted(b);
    NewerFromEquivalent(a, b, 0);
  }

  /** `isBelowMinimum(current, minimum)`. */
  predicate IsBelowMinimum(current: string, minimum: string) {
    IsNewerVersion(current, minimum)
  }

  datatype Urgency = Critical | Recommended | Optional | NoUpdate

  /** `getUpdateUrgency(current, latest, minimum)`. */
  function UpdateUrgency(current: string, latest: string, minimum: string): Urgency {
    if IsBelowMinimum(current, minimum) then Critical
    else if !IsNewerVersion(current, latest) then NoUpdate
    else if Greater(Components(latest)[0], Components(current)[0]) then Recommended
    else Optional
  }

  /**
   * Below the minimum is critical whatever the latest version; otherwise no
   * update unless latest is newer; a larger major component is recommended;
   * any other newer version is optional. An update is never urgent when
   * the current version is the latest and the minimum.
   */
  lemma UrgencyRules(current: string, latest: string, minimum: string)
    ensures IsNewerVersion(current, minimum) <==> UpdateUrgency(current, latest, minimum) == Critical
    ensures UpdateUrgency(current, latest, minimum) == NoUpdate <==>
      !IsNewerVersion(current, minimum) && !IsNewerVersion(current, latest)
    ensures UpdateUrgency(current, latest, minimum) in {Recommended, Optional} ==> IsNewerVersion(current, latest)
    ensures UpdateUrgency(current, latest, minimum) == Recommended ==>
      Components(latest)[0].Int? && Components(current)[0].Int? &&
      Components(latest)[0].i > Components(current)[0].i
    ensures UpdateUrgency(current, current, current) == NoUpdate
  {
    IsNewerVersionIrreflexive(current);
  }
}
