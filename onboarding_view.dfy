/** OnboardingView: three pages (tag, fiat currency, stablecoin) behind a step
    counter, a progress bar of three segments, Back and Next/Complete buttons,
    and a completion task that hands the choices to the auth manager. */
module Onboarding {

  import opened Auth

  /** The pages are numbered 0 to LastStep. */
  const LastStep: int := 2

  const FiatOptions: seq<string> := ["USD", "EUR", "GBP"]
  const StableOptions: seq<string> := ["USDC", "EURC"]

  /** The primary button's title. */
  function PrimaryLabel(step: int): (title: string)
    ensures title == "Complete" || title == "Next"
    ensures title == "Complete" <==> step == LastStep
  {
    if step == LastStep then "Complete" else "Next"
  }

  /** The primary button is disabled on the tag page while the tag is empty. */
  predicate PrimaryDisabled(step: int, tag: string): (disabled: bool)
    ensures disabled ==> PrimaryLabel(step) == "Next"
    ensures step != 0 ==> !disabled
  {
    step == 0 && |tag| == 0
  }

  /** Only an empty tag on the first page disables the button; on the later
      pages it is always enabled. */
  lemma PrimaryEnabled(step: int, tag: string)
    ensures !PrimaryDisabled(step, tag) <==> step != 0 || tag != ""
    ensures step == LastStep ==> !PrimaryDisabled(step, tag)
  {
  }

  /** The fill of the three progress segments: segment i is filled iff i <= step. */
  function Progress(step: int): (p: seq<bool>)
    ensures |p| == LastStep + 1
    ensures forall i | 0 <= i < |p| :: p[i] <==> i <= step
  {
    seq(LastStep + 1, i requires 0 <= i <= LastStep => i <= step)
  }

  /** How many segments are filled. */
  function Filled(p: seq<bool>): (n: nat)
    ensures n <= |p|
  {
    if p == [] then 0 else (if p[0] then 1 else 0) + Filled(p[1..])
  }

  /** If the filled segments are exactly the first k, k are filled. */
  lemma {:induction false} FilledPrefix(p: seq<bool>, k: nat)
    requires k <= |p|
    requires forall i | 0 <= i < |p| :: p[i] <==> i < k
    ensures Filled(p) == k
  {
    if p != [] {
      assert p[0] <==> 0 < k;
      var q := p[1..];
      var k' := if k > 0 then k - 1 else 0;
      forall i | 0 <= i < |q| ensures q[i] <==> i < k' {
        assert q[i] == p[i + 1];
      }
      FilledPrefix(q, k');
    }
  }

  /** On any page, the segments up to and including it are the filled ones:
      one on the first page, all three on the last. */
  lemma ProgressCount(step: int)
    requires 0 <= step <= LastStep
    ensures Filled(Progress(step)) == step + 1
  {
    FilledPrefix(Progress(step), step + 1);
  }

  class OnboardingView {
    var tag: string
    var selectedFiat: string
    var selectedStable: string
    var isLoading: bool
    var currentStep: int

    /** The environment object the view completes onboarding through. */
    const authManager: AuthManager

    /** Completion tasks started and not yet finished. */
    ghost var running: nat

    ghost predicate Valid()
      reads this
    {
      0 <= currentStep <= LastStep
    }

    /** The view's initial state: first page, empty tag, the default currencies. */
    constructor (authManager: AuthManager)
      ensures Valid()
      ensures currentStep == 0 && tag == "" && selectedFiat == "USD" && selectedStable == "USDC"
      ensures !isLoading && running == 0 && this.authManager == authManager
    {
      tag, selectedFiat, selectedStable := "", "USD", "USDC";
      isLoading, currentStep := false, 0;
      this.authManager := authManager;
      running := 0;
    }

    /** Typing in the tag field. */
    method EditTag(text: string)
      requires Valid()
      modifies this`tag
      ensures Valid() && tag == text
    {
      tag := text;
    }

    /** The segmented fiat picker offers only its options. */
    method PickFiat(option: string)
      requires Valid() && option in FiatOptions
      modifies this`selectedFiat
      ensures Valid() && selectedFiat == option
    {
      selectedFiat := option;
    }

    /** The segmented stablecoin picker offers only its options. */
    method PickStable(option: string)
      requires Valid() && option in StableOptions
      modifies this`selectedStable
      ensures Valid() && selectedStable == option
    {
      selectedStable := option;
    }

    /** Swiping the page view binds `currentStep` to one of the tagged pages;
        the disabled rule does not apply to swipes. */
    method SwipeTo(page: int)
      requires Valid() && 0 <= page <= LastStep
      modifies this`currentStep
      ensures Valid() && currentStep == page
    {
      currentStep := page;
    }

    /** Back: offered only past the first page, one page back. */
    method Back()
      requires Valid() && currentStep > 0
      modifies this`currentStep
      ensures Valid() && currentStep == old(currentStep) - 1
    {
      currentStep := currentStep - 1;
    }

    /** The primary button, when enabled: Complete on the last page starts the
        completion without moving; Next elsewhere moves one page on. */
    method Primary()
      requires Valid() && !PrimaryDisabled(currentStep, tag)
      modifies this`currentStep, this`isLoading, this`running
      ensures Valid()
      ensures old(currentStep) == LastStep ==> currentStep == LastStep && isLoading && running == old(running) + 1
      ensures old(currentStep) != LastStep ==>
        currentStep == old(currentStep) + 1 && isLoading == old(isLoading) && running == old(running)
    {
      if currentStep == LastStep {
        CompleteOnboarding();
      } else {
        currentStep := currentStep + 1;
      }
    }

    /** `completeOnboarding`: loading, with a task started. */
    method CompleteOnboarding()
      requires Valid()
      modifies this`isLoading, this`running
      ensures Valid() && isLoading && running == old(running) + 1
    {
      isLoading := true;
      running := running + 1;
    }

    /** A started completion task runs: the auth manager gets the choices as
        they are when the task runs, then loading ends. */
    method RunCompletionTask()
      requires Valid() && running > 0
      modifies this`isLoading, this`running, authManager`needsOnboarding, authManager`submitted
      ensures Valid() && !isLoading && running == old(running) - 1
      ensures !authManager.needsOnboarding
      ensures authManager.submitted == old(authManager.submitted) + [Preferences(tag, selectedFiat, selectedStable)]
      ensures tag == old(tag) && selectedFiat == old(selectedFiat) && selectedStable == old(selectedStable)
      ensures currentStep == old(currentStep)
    {
      authManager.CompleteOnboarding(tag, selectedFiat, selectedStable);
      isLoading := false;
      running := running - 1;
    }
  }

  /** Walking the pages with the defaults: Next is disabled until a tag is
      typed, Complete keeps the last page, and the task submits the tag with
      "USD" and "USDC". */
  method WalkthroughScenario()
  {
    var m := new AuthManager();
    var v := new OnboardingView(m);
    assert PrimaryDisabled(v.currentStep, v.tag);
    v.EditTag("@ness");
    v.Primary();
    v.Primary();
    assert PrimaryLabel(v.currentStep) == "Complete";
    v.Primary();
    assert v.currentStep == LastStep && v.isLoading;
    v.RunCompletionTask();
    assert !v.isLoading && !m.needsOnboarding;
    assert m.submitted == [Preferences("@ness", "USD", "USDC")];
  }
}
