/**
 * The onboarding tour (`src/components/OnboardingModal.tsx`): the seven steps,
 * the modal's step navigation with its bounds checks and the buttons it
 * shows, and the `useOnboarding` flags with the condition under which the tour
 * opens by itself. The highlight of the target element and the 1.5 s delay
 * before the automatic opening are outside the model.
 */
module Onboarding {
  import opened Wrappers
  import opened Types

  datatype Step = Step(id: string, title: string, target: Option<string>)

  const Steps: seq<Step> := [
    Step("welcome", "Welcome to ProfitPulse!", None),
    Step("dashboard", "Your Trading Dashboard", Some(".dashboard")),
    Step("portfolio", "Portfolio Positions", Some(".positions-section")),
    Step("navigation", "Navigation Menu", Some(".sidebar")),
    Step("notifications", "Stay Informed", Some("[aria-label*=\"Notifications\"]")),
    Step("search", "Search & Discover", Some(".search-container")),
    Step("complete", "You're All Set!", None)]

  const StepCount: nat := |Steps|

  lemma StepCountIsSeven()
    ensures StepCount == 7
  {
  }

  /** What the modal asks of its parent. */
  datatype Signal = Stay | Close

  class OnboardingModal {
    var currentStep: nat

    ghost predicate Valid()
      reads this
    {
      currentStep < StepCount
    }

    constructor ()
      ensures Valid() && currentStep == 0
    {
      currentStep := 0;
    }

    /** On the last of the steps: there is no step after the current one. */
    function IsLastStep(): (r: bool)
      reads this
      ensures Valid() ==> (r <==> currentStep + 1 >= |Steps|)
      ensures r ==> currentStep < |Steps| && Steps[currentStep].id == "complete"
    {
      currentStep == StepCount - 1
    }

    /** The Previous button is drawn from the second step on. */
    function ShowsPrevious(): (r: bool)
      reads this
      ensures r <==> currentStep != 0
    {
      currentStep > 0
    }

    /** The primary button: "Get Started" on the last step, "Next" before it. */
    function PrimaryLabel(): (r: string)
      reads this
      ensures r == "Get Started" <==> IsLastStep()
      ensures r == "Next" <==> !IsLastStep()
    {
      if IsLastStep() then "Get Started" else "Next"
    }

    /** The numbers of the text "`n` of `len`" and the bar's fill in percent. */
    function Progress(): (r: (nat, nat, real))
      reads this
      requires Valid()
      ensures r.0 == currentStep + 1 && r.1 == StepCount && 1 <= r.0 <= r.1
      ensures 0.0 < r.2 <= 100.0 && (r.2 == 100.0 <==> IsLastStep())
    {
      (currentStep + 1, StepCount, ((currentStep + 1) as real / StepCount as real) * 100.0)
    }

    method HandleNext()
      requires Valid()
      modifies this
      ensures Valid()
      ensures old(currentStep) < StepCount - 1 ==> currentStep == old(currentStep) + 1
      ensures old(currentStep) == StepCount - 1 ==> currentStep == old(currentStep)
    {
      if currentStep < StepCount - 1 {
        currentStep := currentStep + 1;
      }
    }

    method HandlePrevious()
      requires Valid()
      modifies this
      ensures Valid()
      ensures old(currentStep) > 0 ==> currentStep == old(currentStep) - 1
      ensures old(currentStep) == 0 ==> currentStep == 0
    {
      if currentStep > 0 {
        currentStep := currentStep - 1;
      }
    }

    /** A navigation dot; one is drawn for each step. */
    method GoToStep(index: nat)
      requires index < StepCount
      modifies this
      ensures Valid() && currentStep == index
    {
      currentStep := index;
    }

    /** Skip Tour, the overlay, the close button and Get Started all close the tour. */
    method HandleSkip() returns (s: Signal)
      ensures s == Close
    {
      s := Close;
    }
  }

  datatype NavEvent = NextPressed | PreviousPressed | DotPressed(index: nat)

  /** Any run of button presses keeps the step in range. */
  method Navigate(m: OnboardingModal, events: seq<NavEvent>)
    requires m.Valid()
    requires forall i :: 0 <= i < |events| && events[i].DotPressed? ==> events[i].index < StepCount
    modifies m
    ensures m.Valid()
  {
    var i := 0;
    while i < |events|
      invariant 0 <= i <= |events|
      invariant m.Valid()
    {
      match events[i] {
        case NextPressed => m.HandleNext();
        case PreviousPressed => m.HandlePrevious();
        case DotPressed(k) => m.GoToStep(k);
      }
      i := i + 1;
    }
  }

  /** Pressing Next `n` times moves `n` steps on, stopping at the last. */
  method NextTimes(m: OnboardingModal, n: nat)
    requires m.Valid()
    modifies m
    ensures m.Valid()
    ensures m.currentStep == if old(m.currentStep) + n < StepCount then old(m.currentStep) + n else StepCount - 1
  {
    var i := 0;
    while i < n
      invariant 0 <= i <= n
      invariant m.Valid()
      invariant m.currentStep == if old(m.currentStep) + i < StepCount then old(m.currentStep) + i else StepCount - 1
    {
      m.HandleNext();
      i := i + 1;
    }
  }

  /** The automatic opening is scheduled only for a signed-in user who has not finished the tour. */
  function SchedulesAutoShow(isAuthenticated: bool, user: Option<User>, completed: bool): (r: bool)
    ensures r ==> isAuthenticated && user.Some?
    ensures completed ==> !r
    ensures isAuthenticated && user.Some? && !completed ==> r
  {
    isAuthenticated && !completed && user.Some?
  }

  /** `useOnboarding`: the stored completion flag and whether the tour is shown. */
  class OnboardingState {
    var hasCompletedOnboarding: bool
    var showOnboarding: bool

    /** The completion flag comes from storage, `false` when absent. */
    constructor (stored: Option<bool>)
      ensures hasCompletedOnboarding == stored.GetOr(false) && !showOnboarding
    {
      hasCompletedOnboarding := stored.GetOr(false);
      showOnboarding := false;
    }

    /** The delayed timer firing; it exists only while the scheduling condition holds. */
    method AutoShowFires(isAuthenticated: bool, user: Option<User>)
      modifies this`showOnboarding
      ensures SchedulesAutoShow(isAuthenticated, user, hasCompletedOnboarding) ==> showOnboarding
      ensures !SchedulesAutoShow(isAuthenticated, user, hasCompletedOnboarding) ==> showOnboarding == old(showOnboarding)
    {
      if isAuthenticated && !hasCompletedOnboarding && user.Some? {
        showOnboarding := true;
      }
    }

    method StartOnboarding()
      modifies this`showOnboarding
      ensures showOnboarding
    {
      showOnboarding := true;
    }

    /** What closing the modal does. */
    method CompleteOnboarding()
      modifies this
      ensures !showOnboarding && hasCompletedOnboarding
    {
      showOnboarding := false;
      hasCompletedOnboarding := true;
    }

    method ResetOnboarding()
      modifies this`hasCompletedOnboarding
      ensures !hasCompletedOnboarding
    {
      hasCompletedOnboarding := false;
    }
  }

  /** Once the tour is completed the timer no longer opens it. */
  method CompleteStopsAutoShow(o: OnboardingState, isAuthenticated: bool, user: Option<User>)
    modifies o
    ensures !o.showOnboarding && o.hasCompletedOnboarding
  {
    o.CompleteOnboarding();
    o.AutoShowFires(isAuthenticated, user);
  }
}
