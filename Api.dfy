/**
 The summary request client (`generateSummaryRequest` in the front end's
 lib/api.ts): it serialises the notes and the five preferences, sends one
 POST with a bearer token, and turns the reply into the summary text or the
 message of the error it throws.

 The network exchange is a parameter: `fetch` either delivers a response
 (its status and its body, the body absent when it is not valid JSON) or is
 rejected with an error whose message may be empty.
 */
module Api {
  import opened Wrappers

  const Endpoint := "/api/generate-summary"
  const BearerPrefix := "Bearer "
  const GenericFailure := "Failed to generate summary"
  const NoSummary := "No summary returned from API."
  const NetworkError := "Network error. Please try again."

  /** The arguments `generateSummaryRequest` is called with. */
  datatype SummaryArgs = SummaryArgs(
    notes: string,
    tone: string,
    sessionType: string,
    summaryLength: string,
    includeActionItems: bool,
    anonymizeData: bool)

  /** The `prefs` object of the JSON body, fields in their serialised order. */
  datatype Prefs = Prefs(
    tone: string,
    includeActionItems: bool,
    anonymizeData: bool,
    sessionType: string,
    summaryLength: string)

  datatype RequestBody = RequestBody(notes: string, prefs: Prefs)

  datatype HttpRequest = HttpRequest(
    verb: string,
    url: string,
    contentType: string,
    authorization: string,
    body: RequestBody)

  /** The build-time configuration: the back end's base URL and its API key. */
  datatype Config = Config(apiUrl: string, apiKey: string)

  /** The fields of a parsed JSON body the client reads; `None` where a field is absent. */
  datatype ResponseBody = ResponseBody(detail: Option<string>, message: Option<string>, summary: Option<string>)

  const EmptyBody := ResponseBody(None, None, None)

  /** A delivered response; `body` is `None` when the body is not valid JSON. */
  datatype Response = Response(status: int, body: Option<ResponseBody>) {
    /** The `ok` flag of a fetch response: a 2xx status. */
    predicate Ok() {
      200 <= status <= 299
    }
  }

  /** What `fetch` produced; a rejection with no message carries "". */
  datatype FetchResult = Delivered(response: Response) | Rejected(message: string)

  /** JavaScript truthiness of an optional string field: present and not "". */
  predicate Truthy(field: Option<string>) {
    field.Some? && field.value != []
  }

  /**
   The request `fetch` is given: a JSON POST to the summary endpoint of the
   configured back end, whose bearer header yields the key back and whose body
   carries the notes as typed.
   */
  function BuildRequest(config: Config, args: SummaryArgs): (r: HttpRequest)
    ensures r.verb == "POST" && r.contentType == "application/json"
    ensures config.apiUrl <= r.url && r.url[|config.apiUrl|..] == Endpoint
    ensures BearerPrefix <= r.authorization && r.authorization[|BearerPrefix|..] == config.apiKey
    ensures r.body.notes == args.notes
  {
    HttpRequest(
      "POST",
      config.apiUrl + Endpoint,
      "application/json",
      BearerPrefix + config.apiKey,
      RequestBody(args.notes,
        Prefs(args.tone, args.includeActionItems, args.anonymizeData, args.sessionType, args.summaryLength)))
  }

  /**
   The decision the client takes on a delivered response: the summary it
   returns, or the message of the error it throws. A body that does not parse
   is read as `{}`; a falsy field (absent or "") is passed over.
   */
  function Classify(res: Response): (r: Result<string, string>)
    ensures r.Ok? <==> res.Ok() && res.body.Some? && Truthy(res.body.value.summary)
    ensures r.Ok? ==> r.value == res.body.value.summary.value && r.value != []
    ensures r.Err? ==> r.error != []
    ensures res.Ok() && r.Err? ==> r.error == NoSummary
    ensures !res.Ok() && res.body.None? ==> r == Err(GenericFailure)
    ensures !res.Ok() && res.body.Some? && Truthy(res.body.value.detail) ==>
      r == Err(res.body.value.detail.value)
    ensures !res.Ok() && res.body.Some? && !Truthy(res.body.value.detail) && Truthy(res.body.value.message) ==>
      r == Err(res.body.value.message.value)
    ensures !res.Ok() && res.body.Some? && !Truthy(res.body.value.detail) && !Truthy(res.body.value.message) ==>
      r == Err(GenericFailure)
  {
    var data := if res.body.Some? then res.body.value else EmptyBody;
    if !res.Ok() then
      Err(if Truthy(data.detail) then data.detail.value
          else if Truthy(data.message) then data.message.value
          else GenericFailure)
    else if !Truthy(data.summary) then Err(NoSummary)
    else Ok(data.summary.value)
  }

  /** The outer `catch`: a thrown error keeps its message unless it has none. */
  function Rewrap(message: string): (m: string)
    ensures m != []
    ensures message != [] ==> m == message
    ensures message == [] ==> m == NetworkError
  {
    if message != [] then message else NetworkError
  }

  /**
   What a call resolves to, given what `fetch` produced: the summary, or the
   message of the error that leaves the outer `catch`.
   */
  function Resolve(reply: FetchResult): (r: Result<string, string>)
    ensures r.Err? ==> r.error != []
    ensures reply.Rejected? ==> r.Err?
    ensures r.Ok? ==> reply.Delivered? && reply.response.Ok() && r.value != []
  {
    match reply
    case Rejected(message) => Err(Rewrap(message))
    case Delivered(res) =>
      match Classify(res)
      case Ok(summary) => Ok(summary)
      case Err(message) => Err(Rewrap(message))
  }

  /**
   `generateSummaryRequest`: the request it sends, and what it resolves to
   (`Ok`) or the message of the error it rejects with (`Err`).
   */
  method GenerateSummaryRequest(config: Config, args: SummaryArgs, reply: FetchResult)
    returns (request: HttpRequest, outcome: Result<string, string>)
    ensures request.verb == "POST" && request.url == config.apiUrl + Endpoint
    ensures request.contentType == "application/json"
    ensures request.authorization == BearerPrefix + config.apiKey
    ensures request.body.notes == args.notes
    ensures request.body.prefs ==
      Prefs(args.tone, args.includeActionItems, args.anonymizeData, args.sessionType, args.summaryLength)
    ensures reply.Rejected? ==> outcome == Err(if reply.message != [] then reply.message else NetworkError)
    ensures reply.Delivered? ==> outcome == Classify(reply.response)
    ensures outcome == Resolve(reply)
  {
    request := BuildRequest(config, args);
    var thrown: Option<string> := None;
    match reply {
      case Rejected(message) =>
        thrown := Some(message);
      case Delivered(res) =>
        var data := EmptyBody;
        if res.body.Some? {
          data := res.body.value;
        }
        if !res.Ok() {
          var message := if Truthy(data.detail) then data.detail.value
                         else if Truthy(data.message) then data.message.value
                         else GenericFailure;
          thrown := Some(message);
        } else if !Truthy(data.summary) {
          thrown := Some(NoSummary);
        } else {
          outcome := Ok(data.summary.value);
        }
    }
    if thrown.Some? {
      outcome := Err(Rewrap(thrown.value));
    }
  }
}
