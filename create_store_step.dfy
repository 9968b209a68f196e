/**
 * The store creation step: the company name field. Every change forwards the
 * value to the demo; a non-empty value schedules a timer that later shows
 * the "Create ... Marketplace" button, an empty value hides it at once.
 * The timer is not cancelled when the value is emptied again.
 */
module CreateStoreStep {

  class CreateStore {
    var companyNameState: string
    var isTyping: bool
    var isReady: bool
    /** Timers `setTimeout(() => setIsReady(true), 500)` scheduled and not yet fired. */
    var pendingReady: nat

    /** The button "Create {name} Marketplace" is shown only for a non-empty name. */
    ghost predicate ReadyHasName()
      reads this
    {
      isReady ==> companyNameState != ""
    }

    constructor ()
      ensures ReadyHasName()
      ensures companyNameState == "" && !isTyping && !isReady && pendingReady == 0
    {
      companyNameState, isTyping, isReady, pendingReady := "", false, false, 0;
    }

    /**
     * `handleCompanyNameChange`: stores the value; an empty value clears the
     * typing and ready flags, a non-empty one sets typing and schedules the
     * ready timer. `forwarded` is what `onCompanyNameChange` receives.
     */
    method ChangeName(value: string) returns (forwarded: string)
      modifies this
      ensures forwarded == value && companyNameState == value
      ensures value == "" ==> !isTyping && !isReady && pendingReady == old(pendingReady)
      ensures value != "" ==> isTyping && isReady == old(isReady) && pendingReady == old(pendingReady) + 1
      ensures old(ReadyHasName()) ==> ReadyHasName()
    {
      companyNameState := value;
      isTyping := true;
      if value == "" {
        isTyping := false;
        isReady := false;
      } else {
        pendingReady := pendingReady + 1;
      }
      forwarded := value;
    }

    /** A scheduled ready timer fires: the button appears, whatever the field now holds. */
    method ReadyTimerFires()
      requires pendingReady > 0
      modifies this
      ensures isReady && pendingReady == old(pendingReady) - 1
      ensures companyNameState == old(companyNameState) && isTyping == old(isTyping)
    {
      isReady := true;
      pendingReady := pendingReady - 1;
    }

    /** The ready timer re-reading the field: it shows the button only for a non-empty name. */
    method ReadyTimerFiresChecked()
      requires pendingReady > 0
      modifies this
      ensures isReady <==> companyNameState != ""
      ensures ReadyHasName()
      ensures pendingReady == old(pendingReady) - 1
      ensures companyNameState == old(companyNameState) && isTyping == old(isTyping)
    {
      isReady := companyNameState != "";
      pendingReady := pendingReady - 1;
    }
  }

  /**
   * Typing one letter and deleting it within the delay: the pending timer
   * still fires and shows the create button for an empty name.
   */
  method ReadyWithEmptyName() returns (s: CreateStore)
    ensures s.isReady && s.companyNameState == ""
  {
    s := new CreateStore();
    var _ := s.ChangeName("a");
    var _ := s.ChangeName("");
    s.ReadyTimerFires();
  }
}
