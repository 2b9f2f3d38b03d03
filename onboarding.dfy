/**
 * The onboarding flag (lib/onboarding-storage.ts): one key of the device's
 * key-value store, `'true'` once the user finished the onboarding screens.
 */
module Onboarding {
  import opened Storage

  const CompleteMarker := "true"

  /** `isOnboardingComplete` on a stored value: exactly the string `'true'` counts. */
  predicate IsComplete(value: Slot<string>) {
    value == Holds(CompleteMarker)
  }

  /** The key after `setOnboardingComplete`: the marker, unless the write failed (and was swallowed). */
  function MarkComplete(value: Slot<string>, writeFails: bool): (after: Slot<string>)
    ensures !writeFails ==> IsComplete(after)
    ensures writeFails ==> after == value
  {
    if writeFails then value else Holds(CompleteMarker)
  }

  /** Marking twice is marking once, and marking never undoes completion. */
  lemma MarkCompleteIdempotent(value: Slot<string>, first: bool, second: bool)
    ensures MarkComplete(MarkComplete(value, first), second) == MarkComplete(value, first && second)
    ensures IsComplete(value) ==> IsComplete(MarkComplete(value, first))
  {
  }

  class OnboardingStore {
    var value: Slot<string>

    constructor (value: Slot<string>)
      ensures this.value == value
    {
      this.value := value;
    }

    /** `isOnboardingComplete`: false when nothing is stored, the read fails, or any other string is stored. */
    method IsOnboardingComplete() returns (complete: bool)
      ensures complete <==> value.Holds? && value.value == "true"
    {
      match value {
        case Holds(v) => complete := v == CompleteMarker;
        case _ => complete := false;
      }
    }

    /** `setOnboardingComplete`. */
    method SetOnboardingComplete(writeFails: bool)
      modifies this
      ensures value == MarkComplete(old(value), writeFails)
    {
      if !writeFails {
        value := Holds(CompleteMarker);
      }
    }
  }
}
