/**
 * The script-generator form of components/ScriptGeneratorTab.tsx: seven form
 * fields, the script shown beside them and the loading flag, with the change,
 * generate and copy handlers and the two buttons' disabled conditions.
 *
 * The awaited call is split at the `await`: `BeginGenerate` runs up to the
 * call and says which call it makes, `CompleteGenerate` takes how the call
 * ended. `HandleGenerate` runs both with the outcome given as input;
 * `HandleGenerateWith` runs both around the service itself.
 */
module ScriptGenerator {
  import opened Wrappers
  import GeminiService

  /** The form's inputs, by their `name` attribute. */
  datatype Field = ContactName | Company | Position | Platform | MessageType | Context | Focus

  datatype FormData = FormData(contactName: string, company: string, position: string, platform: string,
                               messageType: string, context: string, focus: string)

  function Get(f: FormData, field: Field): string {
    match field
    case ContactName => f.contactName
    case Company => f.company
    case Position => f.position
    case Platform => f.platform
    case MessageType => f.messageType
    case Context => f.context
    case Focus => f.focus
  }

  /** `{ ...prev, [name]: value }`: the named field replaced, every other field kept. */
  function With(f: FormData, field: Field, value: string): (g: FormData)
    ensures Get(g, field) == value
    ensures forall other :: other != field ==> Get(g, other) == Get(f, other)
  {
    match field
    case ContactName => f.(contactName := value)
    case Company => f.(company := value)
    case Position => f.(position := value)
    case Platform => f.(platform := value)
    case MessageType => f.(messageType := value)
    case Context => f.(context := value)
    case Focus => f.(focus := value)
  }

  const InitialForm: FormData := FormData("", "", "", "linkedin", "initial", "", "central-banks")

  const PlaceholderStart: string := "Generated script"
  const Placeholder: string := PlaceholderStart + " will appear here..."
  const LoadingText: string := "Generating your script with AI... Please wait."
  const ErrorText: string := "An error occurred while generating the script."

  /** `!contactName || !company` is false: both are non-empty, blank or not. */
  predicate Validates(f: FormData) {
    f.contactName != "" && f.company != ""
  }

  /** The arguments of the one call, in the order `generateScript` takes them. */
  datatype ScriptCall = ScriptCall(contactName: string, company: string, position: string, platform: string,
                                   messageType: string, context: string, focus: string)

  function CallFor(f: FormData): (c: ScriptCall)
    ensures c.contactName == f.contactName && c.company == f.company && c.position == f.position
    ensures c.platform == f.platform && c.messageType == f.messageType
    ensures c.context == f.context && c.focus == f.focus
  {
    ScriptCall(f.contactName, f.company, f.position, f.platform, f.messageType, f.context, f.focus)
  }

  /** How the awaited call ended. */
  datatype CallResult = Returned(script: string) | Threw

  /** What the script shows once the call has ended. */
  function Outcome(r: CallResult): (shown: string)
    ensures r.Returned? ==> shown == r.script
    ensures r.Threw? ==> shown == ErrorText
  {
    match r
    case Returned(s) => s
    case Threw => ErrorText
  }

  class ScriptGeneratorTab {
    var formData: FormData
    var generatedScript: string
    var isLoading: bool

    /** While loading, the script area shows the loading text. */
    predicate Valid()
      reads this
    {
      isLoading ==> generatedScript == LoadingText
    }

    constructor ()
      ensures Valid()
      ensures formData == InitialForm && generatedScript == Placeholder && !isLoading
    {
      formData := InitialForm;
      generatedScript := Placeholder;
      isLoading := false;
    }

    /** `handleChange`: the edited field takes the new value. */
    method HandleChange(field: Field, value: string)
      requires Valid()
      modifies this
      ensures Valid()
      ensures formData == With(old(formData), field, value)
      ensures generatedScript == old(generatedScript) && isLoading == old(isLoading)
    {
      formData := With(formData, field, value);
    }

    /**
     * `handleGenerate` up to the `await`: with an empty contact name or
     * company nothing changes and no call is made; otherwise the loading text
     * shows and the call with the form's values is made.
     */
    method BeginGenerate() returns (call: Option<ScriptCall>)
      requires Valid()
      modifies this
      ensures Valid() && formData == old(formData)
      ensures call.Some? <==> Validates(old(formData))
      ensures !Validates(old(formData)) ==>
        generatedScript == old(generatedScript) && isLoading == old(isLoading)
      ensures Validates(old(formData)) ==>
        call == Some(CallFor(formData)) && isLoading && generatedScript == LoadingText
    {
      if formData.contactName == "" || formData.company == "" {
        return None;
      }
      isLoading := true;
      generatedScript := LoadingText;
      call := Some(CallFor(formData));
    }

    /** `handleGenerate` after the `await`: the result or the error text, then not loading. */
    method CompleteGenerate(result: CallResult)
      modifies this
      ensures Valid() && formData == old(formData) && !isLoading
      ensures result.Returned? ==> generatedScript == result.script
      ensures result.Threw? ==> generatedScript == ErrorText
    {
      generatedScript := Outcome(result);
      isLoading := false;
    }

    /** The whole `handleGenerate`, given how the call ends. */
    method HandleGenerate(result: CallResult) returns (call: Option<ScriptCall>)
      requires Valid()
      modifies this
      ensures Valid() && formData == old(formData) && isLoading == (old(isLoading) && call.None?)
      ensures call.Some? <==> Validates(old(formData))
      ensures call.None? ==> generatedScript == old(generatedScript)
      ensures call.Some? ==> call.value == CallFor(formData) && generatedScript == Outcome(result)
    {
      call := BeginGenerate();
      if call.Some? {
        CompleteGenerate(result);
      }
    }

    /**
     * `handleGenerate` around the service itself: the service catches every
     * failure itself and never throws, so the catch branch never runs and the
     * script becomes the service's answer.
     */
    method HandleGenerateWith(model: GeminiService.ModelRequest -> GeminiService.Reply)
      returns (call: Option<ScriptCall>)
      requires Valid()
      modifies this
      ensures Valid() && formData == old(formData)
      ensures call.Some? <==> Validates(old(formData))
      ensures call.None? ==> generatedScript == old(generatedScript) && isLoading == old(isLoading)
      ensures call.Some? ==> !isLoading && GeminiService.IsTrimmed(generatedScript)
      ensures call.Some? ==> generatedScript == GeminiService.GenerateScript(
        formData.contactName, formData.company, formData.position, formData.platform,
        formData.messageType, formData.context, formData.focus, model)
    {
      call := BeginGenerate();
      if call.Some? {
        var script := GeminiService.GenerateScript(
          formData.contactName, formData.company, formData.position, formData.platform,
          formData.messageType, formData.context, formData.focus, model);
        CompleteGenerate(Returned(script));
        assert generatedScript == script;
      }
    }

    /** `handleCopy`'s guard: something other than the placeholder is shown and nothing is loading. */
    predicate CopyActs()
      reads this
      ensures CopyActs() ==> !GenerateDisabled() && generatedScript != Placeholder
    {
      generatedScript != "" && generatedScript != Placeholder && !isLoading
    }

    /** `handleCopy`: the text put on the clipboard, if any. */
    method HandleCopy() returns (copied: Option<string>)
      ensures copied.Some? <==> generatedScript != "" && generatedScript != Placeholder && !isLoading
      ensures copied.Some? ==> copied.value == generatedScript
    {
      if CopyActs() {
        copied := Some(generatedScript);
      } else {
        copied := None;
      }
    }

    /** The copy button's `disabled`. */
    predicate CopyDisabled()
      reads this
      ensures generatedScript == Placeholder ==> CopyDisabled()
    {
      GeminiService.StartsWithAppended(PlaceholderStart, " will appear here...");
      isLoading || GeminiService.StartsWith(generatedScript, PlaceholderStart)
    }

    /** The generate button's `disabled`. */
    predicate GenerateDisabled()
      reads this
      ensures GenerateDisabled() ==> CopyDisabled()
    {
      isLoading
    }
  }

  /** The placeholder is never copied, and its copy button is disabled. */
  lemma PlaceholderNotCopied(tab: ScriptGeneratorTab)
    requires tab.generatedScript == Placeholder
    ensures !tab.CopyActs() && tab.CopyDisabled()
  {
    GeminiService.StartsWithAppended(PlaceholderStart, " will appear here...");
  }

  /**
   * The copy button and the copy handler disagree exactly when nothing is
   * loading and the script is empty (enabled, but copying does nothing) or
   * starts like the placeholder without being it (disabled, though copying
   * would act).
   */
  lemma CopyGuardsDisagree(tab: ScriptGeneratorTab)
    ensures (!tab.CopyDisabled() != tab.CopyActs()) <==>
      !tab.isLoading
      && (tab.generatedScript == ""
          || (GeminiService.StartsWith(tab.generatedScript, PlaceholderStart) && tab.generatedScript != Placeholder))
  {
    GeminiService.StartsWithAppended(PlaceholderStart, " will appear here...");
  }

  /** While the generate button is disabled, the loading text shows and copying is disabled too. */
  lemma LoadingDisablesBoth(tab: ScriptGeneratorTab)
    requires tab.Valid() && tab.GenerateDisabled()
    ensures tab.generatedScript == LoadingText && tab.CopyDisabled() && !tab.CopyActs()
  {
  }

  /** Blank names pass validation: emptiness is checked without trimming. */
  lemma BlankNamesValidate()
    ensures Validates(InitialForm.(contactName := " ", company := "\t"))
    ensures !Validates(InitialForm)
  {
  }
}
