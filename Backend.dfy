/**
 The summary endpoint of the back end (Backend/main.py): the bearer-key
 check, the empty-notes rejection, the optional anonymisation, the prompt
 built from the preferences, and the summary taken from the language model's
 reply.

 Two things the endpoint relies on are parameters here: the PII masking
 (`mask_pii`, a chain of regular-expression substitutions) and the
 chat-completion call, which either answers with some content or raises an
 exception whose text is given.
 */
module Backend {
  import opened Wrappers
  import Text

  const BearerPrefix := "Bearer "
  const InvalidKey := "Invalid or missing API key"
  const NotesRequired := "Session notes are required to generate a summary."
  const CompletionErrorPrefix := "OpenAI API error: "
  const SystemPrompt :=
    "You are a clinical assistant that produces structured, professional summaries "
    + "of therapy session notes. Follow user preferences carefully."

  datatype Preferences = Preferences(
    tone: string,
    includeActionItems: bool,
    anonymizeData: bool,
    sessionType: string,
    summaryLength: string)

  datatype SummaryRequest = SummaryRequest(notes: string, prefs: Preferences)

  /** An `HTTPException`: the status code and the detail sent back. */
  datatype HttpError = HttpError(status: nat, detail: string)

  datatype Message = Message(role: string, content: string)

  /** What the chat-completion call gave: the first choice's content, or the text of the exception it raised. */
  datatype Completion = Answer(content: string) | Failure(description: string)

  /**
   `verify_api_key`: the header must be "Bearer " followed by exactly the
   configured key; anything else is refused with 401.
   */
  function VerifyApiKey(authorization: string, backendKey: string): (r: Result<bool, HttpError>)
    ensures r.Ok? <==> authorization == BearerPrefix + backendKey
    ensures r.Ok? ==> r.value
    ensures r.Err? ==> r.error == HttpError(401, InvalidKey)
  {
    if !(BearerPrefix <= authorization) || authorization[|BearerPrefix|..] != backendKey then
      Err(HttpError(401, InvalidKey))
    else
      assert authorization == authorization[..|BearerPrefix|] + authorization[|BearerPrefix|..];
      Ok(true)
  }

  /** How the two boolean preferences are written into the prompt. */
  function YesNo(b: bool): (s: string)
    ensures s == "Yes" <==> b
    ensures s == "No" <==> !b
  {
    if b then "Yes" else "No"
  }

  /** `USER_TEMPLATE` filled in: five preference lines, a blank line, then the stripped notes. */
  function UserContent(prefs: Preferences, notes: string): string
  {
    "Session Type: " + prefs.sessionType + "\n" + (
    "Tone: " + prefs.tone + "\n" + (
    "Summary Length: " + prefs.summaryLength + "\n" + (
    "Include Action Items: " + YesNo(prefs.includeActionItems) + "\n" + (
    "Anonymize Data: " + YesNo(prefs.anonymizeData) + "\n" + (
    "" + "\n" + (
    "Notes:" + "\n" + (
    Text.Trim(notes) + "\n")))))))
  }

  /** `build_messages`: the system prompt, then the filled-in user template. */
  function BuildMessages(prefs: Preferences, notes: string): (messages: seq<Message>)
    ensures |messages| == 2
    ensures messages[0] == Message("system", SystemPrompt)
    ensures messages[1].role == "user"
    ensures messages[1].content == UserContent(prefs, notes)
  {
    [Message("system", SystemPrompt), Message("user", UserContent(prefs, notes))]
  }

  /** The lines of a text, as `str.split("\n")` gives them. */
  function Lines(s: string): seq<string>
  {
    if '\n' !in s then [s]
    else
      var i := FirstNewline(s);
      [s[..i]] + Lines(s[i + 1..])
  }

  function FirstNewline(s: string): (i: nat)
    requires '\n' in s
    ensures i < |s| && s[i] == '\n' && '\n' !in s[..i]
  {
    if s[0] == '\n' then 0
    else
      assert '\n' in s[1..] by {
        var j :| 0 <= j < |s| && s[j] == '\n';
        assert s[1..][j - 1] == '\n';
      }
      var i := 1 + FirstNewline(s[1..]);
      assert s[..i] == [s[0]] + s[1..][..i - 1];
      i
  }

  /** A line with no line break, followed by a break, is the first line. */
  lemma LinesCons(a: string, b: string)
    requires '\n' !in a
    ensures Lines(a + "\n" + b) == [a] + Lines(b)
  {
    var s := a + "\n" + b;
    assert s[|a|] == '\n';
    var i := FirstNewline(s);
    assert s[..i] == a;
    assert s[i + 1..] == b;
  }

  /**
   The layout of the user message: when no preference value holds a line
   break, its lines are the five preferences in the order session type, tone,
   summary length, action items, anonymisation, then a blank line, "Notes:",
   and the lines of the stripped notes.
   */
  lemma UserContentLayout(prefs: Preferences, notes: string)
    requires '\n' !in prefs.sessionType && '\n' !in prefs.tone && '\n' !in prefs.summaryLength
    ensures Lines(UserContent(prefs, notes)) ==
      [ "Session Type: " + prefs.sessionType,
        "Tone: " + prefs.tone,
        "Summary Length: " + prefs.summaryLength,
        "Include Action Items: " + YesNo(prefs.includeActionItems),
        "Anonymize Data: " + YesNo(prefs.anonymizeData),
        "",
        "Notes:" ]
      + Lines(Text.Trim(notes) + "\n")
  {
    var l0 := "Session Type: " + prefs.sessionType;
    var l1 := "Tone: " + prefs.tone;
    var l2 := "Summary Length: " + prefs.summaryLength;
    var l3 := "Include Action Items: " + YesNo(prefs.includeActionItems);
    var l4 := "Anonymize Data: " + YesNo(prefs.anonymizeData);
    var tail := Text.Trim(notes) + "\n";
    var block := "" + "\n" + ("Notes:" + "\n" + tail);
    var rest := Lines(tail);
    NotesBlockLines(tail);
    assert UserContent(prefs, notes) == l0 + "\n" + (l1 + "\n" + (l2 + "\n" + (l3 + "\n" + (l4 + "\n" + block))));
    HeaderLinesUnbroken(prefs);
    FiveLines(l0, l1, l2, l3, l4, block);
    SeqFiveThenTwo(l0, l1, l2, l3, l4, "", "Notes:", rest);
  }

  /** The blank line and the "Notes:" line come before the notes' own lines. */
  lemma NotesBlockLines(tail: string)
    ensures Lines("" + "\n" + ("Notes:" + "\n" + tail)) == ["", "Notes:"] + Lines(tail)
  {
    LinesCons("Notes:", tail);
    LinesCons("", "Notes:" + "\n" + tail);
  }

  lemma HeaderLinesUnbroken(prefs: Preferences)
    requires '\n' !in prefs.sessionType && '\n' !in prefs.tone && '\n' !in prefs.summaryLength
    ensures '\n' !in "Session Type: " + prefs.sessionType
    ensures '\n' !in "Tone: " + prefs.tone
    ensures '\n' !in "Summary Length: " + prefs.summaryLength
    ensures '\n' !in "Include Action Items: " + YesNo(prefs.includeActionItems)
    ensures '\n' !in "Anonymize Data: " + YesNo(prefs.anonymizeData)
  {
    NoBreakJoin("Session Type: ", prefs.sessionType);
    NoBreakJoin("Tone: ", prefs.tone);
    NoBreakJoin("Summary Length: ", prefs.summaryLength);
    NoBreakJoin("Include Action Items: ", YesNo(prefs.includeActionItems));
    NoBreakJoin("Anonymize Data: ", YesNo(prefs.anonymizeData));
  }

  lemma NoBreakJoin(a: string, b: string)
    requires '\n' !in a && '\n' !in b
    ensures '\n' !in a + b
  {
  }

  lemma SeqFiveThenTwo<T>(a: T, b: T, c: T, d: T, e: T, f: T, g: T, rest: seq<T>)
    ensures [a, b, c, d, e] + ([f, g] + rest) == [a, b, c, d, e, f, g] + rest
  {
  }

  lemma FiveLines(l0: string, l1: string, l2: string, l3: string, l4: string, r: string)
    requires '\n' !in l0 && '\n' !in l1 && '\n' !in l2 && '\n' !in l3 && '\n' !in l4
    ensures Lines(l0 + "\n" + (l1 + "\n" + (l2 + "\n" + (l3 + "\n" + (l4 + "\n" + r))))) ==
      [l0, l1, l2, l3, l4] + Lines(r)
  {
    var r4 := l4 + "\n" + r;
    var r3 := l3 + "\n" + r4;
    var r2 := l2 + "\n" + r3;
    var r1 := l1 + "\n" + r2;
    var rest := Lines(r);
    LinesCons(l4, r);
    LinesCons(l3, r4);
    LinesCons(l2, r3);
    LinesCons(l1, r2);
    LinesCons(l0, r1);
    calc {
      Lines(l0 + "\n" + r1);
      [l0] + ([l1] + ([l2] + ([l3] + ([l4] + rest))));
      { SeqFiveCons(l0, l1, l2, l3, l4, rest); }
      [l0, l1, l2, l3, l4] + rest;
    }
  }

  lemma SeqFiveCons<T>(a: T, b: T, c: T, d: T, e: T, rest: seq<T>)
    ensures [a] + ([b] + ([c] + ([d] + ([e] + rest)))) == [a, b, c, d, e] + rest
  {
  }

  /**
   The `/api/generate-summary` handler, with its key dependency run first.
   Returns the messages sent to the model (none when a check refuses the
   request) and the summary or the HTTP error.
   */
  method GenerateSummary(
    req: SummaryRequest,
    authorization: string,
    backendKey: string,
    maskPii: string -> string,
    complete: seq<Message> -> Completion)
    returns (prompt: Option<seq<Message>>, response: Result<string, HttpError>)
    ensures authorization != BearerPrefix + backendKey ==>
      prompt == None && response == Err(HttpError(401, InvalidKey))
    ensures authorization == BearerPrefix + backendKey && Text.AllWhitespace(req.notes) ==>
      prompt == None && response == Err(HttpError(400, NotesRequired))
    ensures authorization == BearerPrefix + backendKey && !Text.AllWhitespace(req.notes) ==>
      prompt == Some(BuildMessages(req.prefs, if req.prefs.anonymizeData then maskPii(req.notes) else req.notes))
    ensures prompt.Some? && complete(prompt.value).Answer? ==>
      response == Ok(Text.Trim(complete(prompt.value).content))
    ensures prompt.Some? && complete(prompt.value).Failure? ==>
      response == Err(HttpError(500, CompletionErrorPrefix + complete(prompt.value).description))
    ensures response.Ok? ==> Text.Trimmed(response.value)
    ensures response.Err? ==> response.error.detail != []
  {
    var auth := VerifyApiKey(authorization, backendKey);
    if auth.Err? {
      return None, Err(auth.error);
    }
    if req.notes == [] || Text.Trim(req.notes) == [] {
      return None, Err(HttpError(400, NotesRequired));
    }
    var text := req.notes;
    if req.prefs.anonymizeData {
      text := maskPii(text);
    }
    var messages := BuildMessages(req.prefs, text);
    prompt := Some(messages);
    var reply := complete(messages);
    match reply {
      case Failure(description) =>
        response := Err(HttpError(500, CompletionErrorPrefix + description));
      case Answer(content) =>
        response := Ok(Text.Trim(content));
    }
  }
}
