/**
 * The FAQ accordion of the help screen (app/help-support.tsx): at most one
 * answer is open, and tapping a question opens it or closes it.
 */
module HelpSupport {
  import opened Wrappers

  /** The number of entries in `faqItems`. */
  const FaqCount := 6

  /** The answer under question `index` is shown. */
  predicate AnswerShown(expanded: Option<nat>, index: nat) {
    expanded == Some(index)
  }

  /** After tapping a question its answer is shown exactly when it was hidden, and no other is. */
  lemma TapShowsOnlyTapped(expanded: Option<nat>, index: nat, other: nat)
    requires other != index
    ensures AnswerShown(ToggleSelection(expanded, index), index) <==> !AnswerShown(expanded, index)
    ensures !AnswerShown(ToggleSelection(expanded, index), other)
  {
  }

  /** The screen's state, updated in place by `toggleFAQ`. */
  class FaqScreen {
    var expandedFAQ: Option<nat>

    ghost predicate Valid()
      reads this
    {
      expandedFAQ.Some? ==> expandedFAQ.value < FaqCount
    }

    constructor ()
      ensures Valid() && expandedFAQ == None
    {
      expandedFAQ := None;
    }

    /** `toggleFAQ`. */
    method ToggleFaq(index: nat)
      requires Valid() && index < FaqCount
      modifies this
      ensures Valid()
      ensures expandedFAQ == ToggleSelection(old(expandedFAQ), index)
    {
      expandedFAQ := if expandedFAQ == Some(index) then None else Some(index);
    }
  }
}
