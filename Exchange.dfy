/**
 The HTTP contract between the two halves: how FastAPI reads the client's
 JSON body into the request model, how it writes the handler's result back,
 and what the client then makes of it. FastAPI answers a returned
 `SummaryResponse` with status 200 and `{"summary": ...}`, and an
 `HTTPException` with its status and `{"detail": ...}`.
 */
module Exchange {
  import opened Wrappers
  import Text
  import Api
  import Backend
  import App

  /** The JSON body, read into the back end's `SummaryRequest` model. */
  function Receive(body: Api.RequestBody): (req: Backend.SummaryRequest)
  {
    Backend.SummaryRequest(body.notes,
      Backend.Preferences(body.prefs.tone, body.prefs.includeActionItems, body.prefs.anonymizeData,
                          body.prefs.sessionType, body.prefs.summaryLength))
  }

  /** The response FastAPI sends for the handler's result. */
  function Reply(r: Result<string, Backend.HttpError>): Api.Response
  {
    match r
    case Ok(summary) => Api.Response(200, Some(Api.ResponseBody(None, None, Some(summary))))
    case Err(e) => Api.Response(e.status, Some(Api.ResponseBody(Some(e.detail), None, None)))
  }

  /** The header the client builds passes the key check exactly when both sides hold the same key. */
  lemma ClientKeyAccepted(config: Api.Config, args: Api.SummaryArgs, backendKey: string)
    ensures Backend.VerifyApiKey(Api.BuildRequest(config, args).authorization, backendKey).Ok?
      <==> config.apiKey == backendKey
  {
    var header := Api.BuildRequest(config, args).authorization;
    if header == Backend.BearerPrefix + backendKey {
      assert config.apiKey == header[|Backend.BearerPrefix|..];
      assert backendKey == header[|Backend.BearerPrefix|..];
    }
  }

  /** Every field of the client's request reaches the back end unchanged. */
  lemma RequestFieldsArrive(config: Api.Config, args: Api.SummaryArgs)
    ensures var req := Receive(Api.BuildRequest(config, args).body);
      && req.notes == args.notes
      && req.prefs.tone == args.tone && req.prefs.sessionType == args.sessionType
      && req.prefs.summaryLength == args.summaryLength
      && req.prefs.includeActionItems == args.includeActionItems
      && req.prefs.anonymizeData == args.anonymizeData
  {
  }

  /** Notes that pass the page's ten-word gate are never refused as empty by the back end. */
  lemma GatedNotesAreNotEmpty(notes: string)
    requires App.GateOf(notes) == App.Send
    ensures notes != [] && Text.Trim(notes) != []
  {
  }

  /** The back end's refusals and failures reach the user as their detail text. */
  lemma ErrorDetailReachesUser(e: Backend.HttpError)
    requires e.detail != [] && !(200 <= e.status <= 299)
    ensures Api.Resolve(Api.Delivered(Reply(Err(e)))) == Err(e.detail)
  {
  }

  /**
   A model answer reaches the user stripped by the back end and otherwise
   untouched; an answer that is only whitespace becomes the client's
   "no summary" error.
   */
  lemma AnswerReachesUser(content: string)
    ensures Api.Resolve(Api.Delivered(Reply(Ok(Text.Trim(content))))) ==
      if Text.AllWhitespace(content) then Err(Api.NoSummary) else Ok(Text.Trim(content))
  {
  }
}
