/**
 * src/features/onboarding/OnboardingScreen.tsx: the four-step welcome
 * flow. Step 1 asks for the user's name, which `handleNext` saves trimmed;
 * `handleNext` on the last step completes the onboarding.
 */
module Onboarding {
  import opened Text
  import SettingsStore

  const StepsCount: nat := 4

  class Flow {
    var step: int
    var nameInput: string

    ghost predicate Valid()
      reads this
    {
      0 <= step < StepsCount
    }

    constructor()
      ensures step == 0 && nameInput == ""
      ensures Valid()
    {
      step := 0;
      nameInput := "";
    }

    /** The name field's `onChangeText`. */
    method SetNameInput(text: string)
      modifies this
      ensures nameInput == text && step == old(step)
    {
      nameInput := text;
    }

    /** `handleNext()`: save the trimmed name when leaving step 1, move to
        the next step, or complete the onboarding from the last one. */
    method HandleNext(settings: SettingsStore.Settings)
      requires Valid()
      modifies this, settings
      ensures Valid()
      ensures nameInput == old(nameInput)
      ensures old(step) < StepsCount - 1 ==> step == old(step) + 1
      ensures old(step) == StepsCount - 1 ==> step == old(step)
      ensures old(step) == 1 ==> settings.userName == Trim(nameInput)
      ensures old(step) != 1 ==> settings.userName == old(settings.userName)
      ensures settings.isOnboardingCompleted == (old(settings.isOnboardingCompleted) || old(step) == StepsCount - 1)
      ensures settings.themeMode == old(settings.themeMode) && settings.activeDeckId == old(settings.activeDeckId)
      ensures settings.aiConfig == old(settings.aiConfig) && settings.preferences == old(settings.preferences)
    {
      if step == 1 {
        settings.SetUserName(Trim(nameInput));
      }
      if step < StepsCount - 1 {
        step := step + 1;
      } else {
        settings.CompleteOnboarding();
      }
    }

    /** `handleBack()`: one step back, except on the first step. */
    method HandleBack()
      requires Valid()
      modifies this
      ensures Valid()
      ensures nameInput == old(nameInput)
      ensures old(step) == 0 ==> step == 0
      ensures old(step) > 0 ==> step == old(step) - 1
    {
      if step > 0 {
        step := step - 1;
      }
    }
  }
}
