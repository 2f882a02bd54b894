// hooks/useAppUpdate.ts: the screen-side state of the update check: the last
// result worth showing, whether a check is running and whether the update
// modal is open. The service's answer is a parameter (it never throws, see
// update_service.dfy), and the links the hook asks the service to open are
// recorded in order.

module UseAppUpdate {
  import opened Text
  import opened UpdateService

  type Info = CheckResult<string>

  datatype HookState = HookState(updateInfo: Option<Info>, isChecking: bool, showModal: bool, openRequests: seq<string>)

  /** The branch of `checkForUpdates` on the service's result. */
  function AfterResult(s: HookState, force: bool, result: Option<Info>): HookState {
    if result.Some? && result.value.updateAvailable then s.(updateInfo := result, showModal := true)
    else if force && result.Some? then s.(updateInfo := result)
    else s
  }

  /** `handleUpdate`. */
  function AfterUpdate(s: HookState): HookState {
    if s.updateInfo.None? then s
    else
      var asked := s.(openRequests := s.openRequests + [s.updateInfo.value.updateUrl]);
      if !s.updateInfo.value.forceUpdate then asked.(showModal := false) else asked
  }

  /** `handleClose`. */
  function AfterClose(s: HookState): HookState {
    if s.updateInfo.Some? && !s.updateInfo.value.forceUpdate then s.(showModal := false) else s
  }

  /**
   * An available update is recorded and opens the modal; a forced check
   * without one records the result but leaves the modal as it was; a
   * skipped or failed check (None) and a background check without an update
   * change nothing.
   */
  lemma ResultRules(s: HookState, force: bool, result: Option<Info>)
    ensures var t := AfterResult(s, force, result);
      t.isChecking == s.isChecking && t.openRequests == s.openRequests
    ensures result.Some? && result.value.updateAvailable ==>
      AfterResult(s, force, result).updateInfo == result && AfterResult(s, force, result).showModal
    ensures result.Some? && !result.value.updateAvailable && force ==>
      AfterResult(s, force, result) == s.(updateInfo := result)
    ensures result.None? || (!result.value.updateAvailable && !force) ==> AfterResult(s, force, result) == s
  {
  }

  /**
   * Closing hides the modal only for a recorded optional update; updating is
   * a no-op without a recorded result, otherwise it asks for exactly that
   * result's link and hides the modal only when the update is optional.
   */
  lemma CloseAndUpdateRules(s: HookState)
    ensures AfterClose(s).showModal == (s.showModal && !(s.updateInfo.Some? && !s.updateInfo.value.forceUpdate))
    ensures AfterClose(s).updateInfo == s.updateInfo && AfterClose(s).openRequests == s.openRequests
    ensures s.updateInfo.None? ==> AfterUpdate(s) == s
    ensures s.updateInfo.Some? ==>
      AfterUpdate(s).openRequests == s.openRequests + [s.updateInfo.value.updateUrl] &&
      AfterUpdate(s).showModal == (s.showModal && s.updateInfo.value.forceUpdate)
  {
  }

  /** A modal showing a forced update stays open whatever the user presses. */
  lemma ForcedModalStaysOpen(s: HookState)
    requires s.showModal && s.updateInfo.Some? && s.updateInfo.value.forceUpdate
    ensures AfterClose(s).showModal && AfterUpdate(s).showModal
    ensures AfterClose(AfterUpdate(s)).showModal
  {
  }

  class AppUpdate {
    var updateInfo: Option<Info>
    var isChecking: bool
    var showModal: bool
    var openRequests: seq<string>

    function State(): HookState
      reads this
    {
      HookState(updateInfo, isChecking, showModal, openRequests)
    }

    constructor()
      ensures State() == HookState(None, false, false, [])
    {
      updateInfo := None;
      isChecking := false;
      showModal := false;
      openRequests := [];
    }

    /** The start of `checkForUpdates`: `setIsChecking(true)`. */
    method BeginCheck()
      modifies this
      ensures State() == old(State()).(isChecking := true)
    {
      isChecking := true;
    }

    /** The rest of `checkForUpdates` once the service answered, ending with the `finally`. */
    method FinishCheck(force: bool, result: Option<Info>)
      modifies this
      ensures State() == AfterResult(old(State()), force, result).(isChecking := false)
    {
      if result.Some? && result.value.updateAvailable {
        updateInfo := result;
        showModal := true;
      } else if force && result.Some? {
        updateInfo := result;
      }
      isChecking := false;
    }

    /** A whole check: isChecking is set while it runs and cleared after. */
    method CheckForUpdates(force: bool, result: Option<Info>)
      modifies this
      ensures State() == AfterResult(old(State()), force, result).(isChecking := false)
    {
      BeginCheck();
      assert isChecking;
      FinishCheck(force, result);
    }

    /** `handleUpdate`. */
    method HandleUpdate()
      modifies this
      ensures State() == AfterUpdate(old(State()))
    {
      if updateInfo.Some? {
        openRequests := openRequests + [updateInfo.value.updateUrl];
        if !updateInfo.value.forceUpdate {
          showModal := false;
        }
      }
    }

    /** `handleClose`. */
    method HandleClose()
      modifies this
      ensures State() == AfterClose(old(State()))
    {
      if updateInfo.Some? && !updateInfo.value.forceUpdate {
        showModal := false;
      }
    }
  }
}
