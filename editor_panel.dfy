/** The free-text editor (components/EditorPanel.tsx): one `prompt` field set
    by typing or by a suggestion, a submit handler that dispatches only a
    prompt with some non-whitespace in it, and the enabled state of its
    controls. */
module Editor {
  import opened Wrappers
  import opened JsString

  const Suggestions: seq<string> := [
    "Make it cyberpunk style",
    "Turn it into a pencil sketch",
    "Add a sunset background",
    "Make the object gold"
  ]

  /** Some character of `s` survives `trim()`. */
  predicate HasVisibleText(s: string) {
    exists k :: 0 <= k < |s| && !IsWhitespace(s[k])
  }

  class EditorPanel {
    var prompt: string

    constructor ()
      ensures prompt == ""
    {
      prompt := "";
    }

    /** The textarea's change handler. */
    method OnChange(value: string)
      modifies this
      ensures prompt == value
    {
      prompt := value;
    }

    /** A suggestion button: the prompt becomes exactly that suggestion. */
    method ChooseSuggestion(i: nat)
      requires i < |Suggestions|
      modifies this
      ensures prompt == Suggestions[i]
    {
      prompt := Suggestions[i];
    }

    /** handleSubmit: the prompt as typed, untrimmed, is handed to `onGenerate`
        exactly when it has some non-whitespace character; otherwise nothing is
        dispatched. */
    method HandleSubmit() returns (dispatched: Option<string>)
      ensures dispatched.Some? <==> HasVisibleText(prompt)
      ensures dispatched.Some? ==> dispatched.value == prompt
    {
      TrimEmptyIff(prompt);
      if Trim(prompt) != "" {
        dispatched := Some(prompt);
      } else {
        dispatched := None;
      }
    }

    /** `disabled={!prompt.trim() || isProcessing}` on the submit button, negated. */
    function SubmitEnabled(isProcessing: bool): (r: bool)
      reads this
      ensures r <==> !isProcessing && HasVisibleText(prompt)
    {
      TrimEmptyIff(prompt);
      Trim(prompt) != "" && !isProcessing
    }

    /** `disabled={isProcessing}` on the textarea. */
    function TextareaEnabled(isProcessing: bool): bool
    {
      !isProcessing
    }
  }

  /** Every suggestion, once chosen, is a prompt the submit handler dispatches. */
  lemma {:induction false} SuggestionsAreSubmittable(i: nat)
    requires i < |Suggestions|
    ensures HasVisibleText(Suggestions[i])
  {
    assert !IsWhitespace(Suggestions[i][0]);
  }
}
