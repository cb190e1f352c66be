/**
 * src/components/PetRegistration.tsx: the naming form. Only a name with a
 * non-whitespace character is handed on, and it is handed on trimmed.
 */
module PetRegistration {
  import opened Wrappers
  import JsText

  /** The save button's `disabled` rule: an all-whitespace name or a pending save. */
  function SubmitDisabled(petName: string, isLoading: bool): (disabled: bool)
    ensures disabled <==> isLoading || JsText.AllWhitespace(petName)
  {
    isLoading || JsText.Blank(petName)
  }

  class RegistrationForm {
    var petName: string

    constructor ()
      ensures petName == ""
    {
      petName := "";
    }

    /** The name input's `onChange`. */
    method OnNameChange(value: string)
      modifies this
      ensures petName == value
    {
      petName := value;
    }

    /**
     * `handleSubmit`: the trimmed name goes to `onSave` exactly when it is
     * not blank; the form itself keeps what was typed.
     */
    method HandleSubmit() returns (saved: Option<string>)
      ensures saved.Some? <==> !JsText.AllWhitespace(petName)
      ensures saved.Some? ==> saved.value == JsText.Trim(petName)
      ensures saved.Some? ==>
        |saved.value| <= |petName| && !JsText.IsWhitespace(saved.value[0]) && !JsText.IsWhitespace(saved.value[|saved.value| - 1])
    {
      JsText.TrimEmptyIff(petName);
      if JsText.Trim(petName) != [] {
        saved := Some(JsText.Trim(petName));
      } else {
        saved := None;
      }
    }
  }

  /** A name that is already trimmed is handed on unchanged. */
  lemma TrimmedNameKept(petName: string)
    requires petName != [] && !JsText.IsWhitespace(petName[0]) && !JsText.IsWhitespace(petName[|petName| - 1])
    ensures !SubmitDisabled(petName, false) && JsText.Trim(petName) == petName
  {
    JsText.TrimUnchanged(petName);
    JsText.TrimEmptyIff(petName);
  }
}
