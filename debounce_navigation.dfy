// The navigation debouncer: a tap is ignored while a navigation is in flight or
// sooner than `delay` milliseconds after the last accepted one; an accepted tap
// pushes its route once pending interactions finish, and a timer started then
// clears the in-flight flag after `delay`.

module DebounceNavigation {

  const DefaultDelay: int := 300

  /**
   * Accepted times at least `delay` apart, one after the other: the times of
   * navigations the debouncer let through.
   */
  predicate Spaced(times: seq<int>, delay: int) {
    forall i :: 0 <= i < |times| - 1 ==> times[i + 1] - times[i] >= delay
  }

  /** With a non-negative delay, any two accepted navigations are at least `delay` apart. */
  lemma {:induction false} SpacedPairwise(times: seq<int>, delay: int, i: int, j: int)
    requires Spaced(times, delay) && delay >= 0
    requires 0 <= i < j < |times|
    ensures times[j] - times[i] >= delay * (j - i)
    decreases j - i
  {
    if j > i + 1 {
      SpacedPairwise(times, delay, i, j - 1);
      assert times[j] - times[j - 1] >= delay;
    }
  }

  /** The hook's refs, the deferred push and the reset timer, and the routes pushed so far. */
  class Debouncer {
    const delay: int
    var isNavigating: bool
    var lastNavigationTime: int
    /** Routes waiting for `InteractionManager.runAfterInteractions`. */
    var deferred: seq<string>
    /** Reset timers started and not yet fired. */
    var timers: nat
    var pushed: seq<string>
    /** The times of the accepted calls, oldest first. */
    var accepted: seq<int>

    predicate Valid()
      reads this
    {
      |deferred| + timers == (if isNavigating then 1 else 0) &&
      Spaced(accepted, delay) &&
      (|accepted| > 0 ==> lastNavigationTime == accepted[|accepted| - 1])
    }

    /** `useDebounceNavigation(delay)`: nothing in flight and a last navigation time of 0. */
    constructor(delay: int)
      ensures this.delay == delay && !isNavigating && lastNavigationTime == 0
      ensures deferred == [] && timers == 0 && pushed == [] && accepted == []
      ensures Valid()
    {
      this.delay := delay;
      isNavigating, lastNavigationTime := false, 0;
      deferred, timers, pushed, accepted := [], 0, [], [];
    }

    /** Whether a call at `now` gets through. */
    predicate Accepts(now: int)
      reads this
    {
      !isNavigating && now - lastNavigationTime >= delay
    }

    /** `navigate(path)` at time `now`. */
    method Navigate(path: string, now: int) returns (ok: bool)
      requires Valid()
      modifies this
      ensures ok <==> old(Accepts(now))
      ensures ok ==> (isNavigating && lastNavigationTime == now && deferred == old(deferred) + [path] &&
        accepted == old(accepted) + [now])
      ensures !ok ==> (isNavigating == old(isNavigating) && lastNavigationTime == old(lastNavigationTime) &&
        deferred == old(deferred) && accepted == old(accepted))
      ensures timers == old(timers) && pushed == old(pushed)
      ensures Valid()
    {
      if isNavigating || now - lastNavigationTime < delay {
        return false;
      }
      isNavigating := true;
      lastNavigationTime := now;
      deferred := deferred + [path];
      accepted := accepted + [now];
      ok := true;
    }

    /** The deferred callback runs: the route is pushed and the reset timer started. */
    method RunAfterInteractions()
      requires Valid()
      modifies this
      ensures old(deferred) != [] ==> (pushed == old(pushed) + [old(deferred)[0]] &&
        deferred == old(deferred)[1..] && timers == old(timers) + 1)
      ensures old(deferred) == [] ==> pushed == old(pushed) && deferred == old(deferred) && timers == old(timers)
      ensures isNavigating == old(isNavigating) && lastNavigationTime == old(lastNavigationTime) && accepted == old(accepted)
      ensures Valid()
    {
      if deferred != [] {
        pushed := pushed + [deferred[0]];
        deferred := deferred[1..];
        timers := timers + 1;
      }
    }

    /** The reset timer fires: the in-flight flag is cleared. */
    method TimerFires()
      requires Valid()
      modifies this
      ensures old(timers) > 0 ==> !isNavigating && timers == old(timers) - 1
      ensures old(timers) == 0 ==> isNavigating == old(isNavigating) && timers == 0
      ensures deferred == old(deferred) && pushed == old(pushed)
      ensures lastNavigationTime == old(lastNavigationTime) && accepted == old(accepted)
      ensures Valid()
    {
      if timers > 0 {
        timers := timers - 1;
        isNavigating := false;
      }
    }
  }

  /**
   * Two taps 100 ms apart with the default delay: the second is ignored even
   * after the first route was pushed and its timer fired.
   */
  method DoubleTap() returns (first: bool, second: bool, pushed: seq<string>)
    ensures first && !second && pushed == ["/album"]
  {
    var d := new Debouncer(DefaultDelay);
    first := d.Navigate("/album", 1000);
    d.RunAfterInteractions();
    d.TimerFires();
    second := d.Navigate("/album", 1100);
    d.RunAfterInteractions();
    pushed := d.pushed;
  }
}
