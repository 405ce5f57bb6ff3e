/**
 The page component (src/App.tsx): it owns the notes (through the editor),
 the five preferences and the generation state, and `handleGenerate` decides
 whether to call the summary client and applies its outcome.

 `handleGenerate` is split at its `await`: `BeginGenerate` runs up to the
 call, `FinishGenerate` applies the outcome, and `HandleGenerate` runs both
 around one call of the client. Toast warnings and sent requests are kept as
 logs so that "no request is made" can be stated.
 */
module App {
  import opened Wrappers
  import Text
  import Api
  import NotesEditor

  const EmptyNotesWarning := "Please enter session notes before generating a summary."
  const NotEnoughInformation :=
    "Not enough information provided. Please enter more detailed session notes to generate a meaningful summary."
  const MinimumWords := 10

  /** The three ways `handleGenerate` can go. */
  datatype Gate = Blank | TooShort | Send

  /**
   The gate in front of the request: blank notes are refused, notes of fewer
   than ten words get the canned reply, anything else is sent.
   */
  function GateOf(notes: string): (g: Gate)
    ensures g == Blank <==> Text.AllWhitespace(notes)
    ensures g == TooShort <==> 0 < Text.CountRuns(notes) < MinimumWords
    ensures g == Send <==> Text.CountRuns(notes) >= MinimumWords
  {
    Text.NoRunsIffBlank(notes);
    if Text.Trim(notes) == [] then Blank
    else if Text.TokenCount(notes) < MinimumWords then TooShort
    else Send
  }

  class App {
    const config: Api.Config
    const editor: NotesEditor.DraftEditor
    var tone: string
    var includeActionItems: bool
    var anonymizeData: bool
    var sessionType: string
    var summaryLength: string
    var isGenerating: bool
    var generatedSummary: string
    var error: Option<string>
    /** The error toasts shown, oldest first. */
    var warnings: seq<string>
    /** The requests sent to the back end, oldest first. */
    var requests: seq<Api.HttpRequest>

    /** The snapshot passed to the client: the notes as typed and the five preferences. */
    function Args(): Api.SummaryArgs
      reads this, editor
    {
      Api.SummaryArgs(editor.notes, tone, sessionType, summaryLength, includeActionItems, anonymizeData)
    }

    /** The five preferences, in the order the request body lists them. */
    function Preferences(): Api.Prefs
      reads this
    {
      Api.Prefs(tone, includeActionItems, anonymizeData, sessionType, summaryLength)
    }

    /** The first render: default preferences, nothing generated, the editor just mounted. */
    constructor (config: Api.Config, storage: map<string, string>)
      ensures this.config == config
      ensures fresh(editor) && editor.State() == NotesEditor.Mounted(storage)
      ensures tone == "clinical" && includeActionItems && !anonymizeData
      ensures sessionType == "therapy" && summaryLength == "medium"
      ensures !isGenerating && generatedSummary == [] && error == None
      ensures warnings == [] && requests == []
    {
      this.config := config;
      editor := new NotesEditor.DraftEditor(storage);
      tone := "clinical";
      includeActionItems := true;
      anonymizeData := false;
      sessionType := "therapy";
      summaryLength := "medium";
      isGenerating := false;
      generatedSummary := [];
      error := None;
      warnings := [];
      requests := [];
    }

    /** `handleGenerate` up to the `await`: returns the arguments of the call to make, if any. */
    method BeginGenerate() returns (args: Option<Api.SummaryArgs>)
      modifies this
      ensures Preferences() == old(Preferences()) && requests == old(requests)
      ensures Text.AllWhitespace(editor.notes) ==>
        && args == None && warnings == old(warnings) + [EmptyNotesWarning]
        && generatedSummary == old(generatedSummary) && error == old(error) && isGenerating == old(isGenerating)
      ensures 0 < Text.CountRuns(editor.notes) < MinimumWords ==>
        && args == None && warnings == old(warnings)
        && generatedSummary == NotEnoughInformation && error == old(error) && isGenerating == old(isGenerating)
      ensures Text.CountRuns(editor.notes) >= MinimumWords ==>
        && args == Some(Args()) && warnings == old(warnings)
        && isGenerating && error == None && generatedSummary == []
    {
      match GateOf(editor.notes) {
        case Blank =>
          warnings := warnings + [EmptyNotesWarning];
          args := None;
        case TooShort =>
          generatedSummary := NotEnoughInformation;
          args := None;
        case Send =>
          isGenerating := true;
          error := None;
          generatedSummary := [];
          args := Some(Args());
      }
    }

    /** `handleGenerate` after the `await`: the summary or the error, then the `finally`. */
    method FinishGenerate(outcome: Result<string, string>)
      modifies this
      ensures Preferences() == old(Preferences()) && requests == old(requests) && warnings == old(warnings)
      ensures outcome.Ok? ==> generatedSummary == outcome.value && error == old(error)
      ensures outcome.Err? ==> error == Some(outcome.error) && generatedSummary == old(generatedSummary)
      ensures !isGenerating
    {
      match outcome {
        case Ok(summary) =>
          generatedSummary := summary;
        case Err(message) =>
          error := Some(message);
      }
      isGenerating := false;
    }

    /**
     A click on the generate button, with `fetch` producing `reply` if a
     request is made.
     */
    method HandleGenerate(reply: Api.FetchResult)
      modifies this
      ensures Preferences() == old(Preferences())
      ensures Text.CountRuns(editor.notes) < MinimumWords ==>
        requests == old(requests) && isGenerating == old(isGenerating) && error == old(error)
      ensures Text.AllWhitespace(editor.notes) ==>
        warnings == old(warnings) + [EmptyNotesWarning] && generatedSummary == old(generatedSummary)
      ensures 0 < Text.CountRuns(editor.notes) < MinimumWords ==>
        warnings == old(warnings) && generatedSummary == NotEnoughInformation
      ensures Text.CountRuns(editor.notes) >= MinimumWords ==>
        && warnings == old(warnings) && !isGenerating
        && |requests| == |old(requests)| + 1 && requests[..|old(requests)|] == old(requests)
        && requests[|old(requests)|].authorization == Api.BearerPrefix + config.apiKey
        && requests[|old(requests)|].body.notes == editor.notes
        && requests[|old(requests)|].body.prefs == Preferences()
      ensures Text.CountRuns(editor.notes) >= MinimumWords && Api.Resolve(reply).Ok? ==>
        generatedSummary == Api.Resolve(reply).value && error == None
      ensures Text.CountRuns(editor.notes) >= MinimumWords && Api.Resolve(reply).Err? ==>
        generatedSummary == [] && error == Some(Api.Resolve(reply).error) && error.value != []
    {
      Text.NoRunsIffBlank(editor.notes);
      var args := BeginGenerate();
      if args.Some? {
        var request, outcome := Api.GenerateSummaryRequest(config, args.value, reply);
        requests := requests + [request];
        FinishGenerate(outcome);
      }
    }
  }
}
