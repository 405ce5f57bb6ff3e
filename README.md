# Therapy Summary Generator — a Dafny model of its request logic

The Therapy Summary Generator is a web form. A clinician types session notes and picks five preferences: tone, session type, summary length, whether to include action items, and whether to anonymise. The page sends both to a FastAPI back end, which asks a language model for a summary and returns it. This project models the parts of that system that are decisions rather than rendering:

- **`App`** (src/App.tsx) models the page state and `handleGenerate`, as a class. Blank notes get a warning toast. Notes of fewer than ten words get a canned reply and no request. Otherwise the page sets the in-flight state, calls the client, and applies the summary or the error.
- **`NotesEditor`** (src/components/main/NotesEditor.tsx) models the word and character counters and the autosave. The autosave is a debounce: every change of the notes clears the armed timer and arms a new one. When a timer fires, it stores the untrimmed notes under `sessionNotes`, unless they are blank. Time is an event sequence of `Edit(text)` and `TimerFires(now)`. A pure `Step` function specifies it, and the `DraftEditor` class implements it.
- **`Api`** (src/lib/api.ts) models `generateSummaryRequest`. It builds the request: POST, a `Bearer` header, and the body `{notes, prefs}`. It classifies the reply. A body that does not parse counts as `{}`. A failed status yields `detail`, else `message`, else a generic text. A success without a summary yields "No summary returned from API.". The outer `catch` keeps any non-empty message.
- **`Backend`** (Backend/main.py) models the endpoint. It checks the bearer key (401), then rejects blank notes (400). It masks PII only when asked. It builds the two chat messages from `USER_TEMPLATE`. It returns the model's answer stripped, or a 500 error.
- **`Text`** holds the string primitives shared by both halves: `trim`/`strip`, JavaScript's `split(/\s+/)`, and an independent reference word count (`CountRuns`, the number of maximal non-whitespace runs).
- **`Exchange`** states the HTTP contract between the two halves. It shows that the client's header passes the key check exactly when both sides hold the same key. Under one shared whitespace set, it shows that gated notes never hit the 400 check. It also shows that back-end errors and answers reach the user as the client promises.

The network, the browser clock, the browser storage, the PII masking and the language model are inputs to the model: a `FetchResult` value, the `now` of a timer event, a `map<string, string>`, and two function parameters.

Two details of the code matter for the contracts:

- An empty `detail` falls through to `message` because api.ts:44 tests JavaScript truthiness (`Api.Classify`).
- `trim().split(/\s+/).length` is 1 for blank text, which is why NotesEditor.tsx:29 guards it (`Text.TokenCount`).

The page never reads the stored draft back; the notes always start empty.

## Model

| member | source | states |
|---|---|---|
| `Text.Trim` | Frontend-Summary-Generator/src/App.tsx:23 | the result neither starts nor ends with whitespace, and it is empty exactly when the input is all whitespace |
| `Text.TrimLayout` | Backend/main.py:103 | the trimmed text is the input's middle slice after its leading whitespace; only whitespace is cut from either end |
| `Text.TokenCount` | Frontend-Summary-Generator/src/App.tsx:28 | `trim().split(/\s+/).length` equals the number of words for non-blank text, and is 1 (not 0) for blank text |
| `Text.SplitTrimmed` | Frontend-Summary-Generator/src/App.tsx:28 | on trimmed non-empty text the `/\s+/` split has one piece per word, each piece non-empty and free of whitespace |
| `Text.TrimKeepsRuns` | Frontend-Summary-Generator/src/components/main/NotesEditor.tsx:29 | trimming the notes never changes their word count |
| `Text.NoRunsIffBlank` | Frontend-Summary-Generator/src/components/main/NotesEditor.tsx:29 | a text has zero words exactly when it is all whitespace |
| `NotesEditor.WordCount` | Frontend-Summary-Generator/src/components/main/NotesEditor.tsx:28-31 | the displayed word count is the number of maximal non-whitespace runs, and is 0 exactly for blank notes |
| `NotesEditor.CharCount` | Frontend-Summary-Generator/src/components/main/NotesEditor.tsx:32 | the displayed character count is JavaScript's `length` in UTF-16 code units: between one and two units per character, and equal to the number of characters exactly when none lies above U+FFFF |
| `NotesEditor.TrailingWhitespaceCountsAsCharacters` | Frontend-Summary-Generator/src/components/main/NotesEditor.tsx:28-32 | whitespace appended to the notes raises the character count by its length and leaves the word count unchanged |
| `NotesEditor.Step` | Frontend-Summary-Generator/src/components/main/NotesEditor.tsx:18-26 | an edit that changes the notes arms a timer on the new text and touches neither storage nor the last-saved time; setting the same text changes nothing; a firing leaves the notes and spends the timer, and with no timer armed it changes nothing |
| `NotesEditor.RunKeepsCapture` | Frontend-Summary-Generator/src/components/main/NotesEditor.tsx:18-26 | over any sequence of edits and timer firings, an armed timer always holds the current notes |
| `NotesEditor.SaveIsCurrentNotes` | Frontend-Summary-Generator/src/components/main/NotesEditor.tsx:19-22 | only a firing timer writes storage, and what it writes under "sessionNotes" is the current notes, with the firing time recorded |
| `NotesEditor.TimerSavesOnlyNonBlank` | Frontend-Summary-Generator/src/components/main/NotesEditor.tsx:20-23 | a firing timer stores the untrimmed notes and sets the last-saved time when they are not blank; for blank notes storage and time stay unchanged |
| `NotesEditor.EditsNeverSave` | Frontend-Summary-Generator/src/components/main/NotesEditor.tsx:18-26 | a burst of edits never writes storage or the last-saved time; afterwards the notes are the burst's last text |
| `NotesEditor.EditsLeaveTimer` | Frontend-Summary-Generator/src/components/main/NotesEditor.tsx:18-26 | after a burst of edits no timer is armed exactly when none was and every text of the burst equals the notes it started from |
| `NotesEditor.BurstSavesLastText` | Frontend-Summary-Generator/src/components/main/NotesEditor.tsx:18-26 | after a burst of edits and one quiet interval, storage holds exactly the burst's last text (if not blank), no earlier text, and no timer stays armed; a burst that arms no timer leaves the editor as it was |
| `NotesEditor.SecondFiringIsIdle` | Frontend-Summary-Generator/src/components/main/NotesEditor.tsx:19-25 | a second firing with no edit in between changes nothing: at most one save per quiet interval |
| `NotesEditor.DraftEditor.constructor` | Frontend-Summary-Generator/src/components/main/NotesEditor.tsx:18-26 | on mount the notes are empty, nothing has been saved, and the effect has armed a timer on the empty text |
| `NotesEditor.DraftEditor.Edit` | Frontend-Summary-Generator/src/components/main/NotesEditor.tsx:18-26 | a change of the notes replaces any armed timer with one capturing the new text; storage and the last-saved time are untouched |
| `NotesEditor.DraftEditor.TimerFires` | Frontend-Summary-Generator/src/components/main/NotesEditor.tsx:19-24 | the armed timer performs the save step and is spent; the notes are unchanged |
| `Api.BuildRequest` | Frontend-Summary-Generator/src/lib/api.ts:18-34 | a JSON POST to the configured URL followed by "/api/generate-summary"; the header is "Bearer " followed by the key, which can be read back from it; the body carries the notes as typed |
| `Api.Classify` | Frontend-Summary-Generator/src/lib/api.ts:37-50 | success exactly for a 2xx status with a non-empty summary, returned verbatim; a failed status yields `detail` if truthy, else `message` if truthy, else "Failed to generate summary"; an unparseable body counts as `{}`; a 2xx without a summary yields "No summary returned from API."; every error text is non-empty |
| `Api.Rewrap` | Frontend-Summary-Generator/src/lib/api.ts:51-53 | the catch keeps any non-empty message and substitutes "Network error. Please try again." for an empty one |
| `Api.Resolve` | Frontend-Summary-Generator/src/lib/api.ts:18-53 | a rejected fetch always fails; success only comes from a 2xx response with a non-empty summary; every failure message is non-empty |
| `Api.GenerateSummaryRequest` | Frontend-Summary-Generator/src/lib/api.ts:1-54 | sends one POST to the configured URL plus "/api/generate-summary", with "Bearer " plus the key and the notes and five preferences unchanged; resolves as `Resolve` says: a rejection keeps its message or becomes the network-error text, a delivered response is classified |
| `App.GateOf` | Frontend-Summary-Generator/src/App.tsx:23-34 | blank exactly for whitespace-only notes; too short exactly for 1 to 9 words; sent exactly for 10 or more words (words = maximal non-whitespace runs) |
| `App.App.constructor` | Frontend-Summary-Generator/src/App.tsx:11-20 | initial state: clinical tone, action items on, anonymisation off, therapy session, medium length, empty summary, no error, not generating |
| `App.App.BeginGenerate` | Frontend-Summary-Generator/src/App.tsx:22-38 | blank notes add the warning toast and change nothing else; too few words set the canned summary and make no call; otherwise generating is set, the error cleared and the summary emptied before the call, whose arguments are the current notes and preferences |
| `App.App.FinishGenerate` | Frontend-Summary-Generator/src/App.tsx:48-53 | a summary replaces the displayed one; an error message is shown; in both cases generating ends false |
| `App.App.HandleGenerate` | Frontend-Summary-Generator/src/App.tsx:22-54 | no request unless the notes hold 10 or more words; otherwise exactly one request carrying the untrimmed notes, the five preferences and the bearer key; the summary or a non-empty error is shown and generating ends false |
| `Backend.VerifyApiKey` | Backend/main.py:46-51 | accepts exactly the header "Bearer " followed by the configured key; anything else is 401 "Invalid or missing API key" |
| `Backend.YesNo` | Backend/main.py:85-86 | a boolean preference is written "Yes" exactly when true and "No" exactly when false |
| `Backend.BuildMessages` | Backend/main.py:80-92 | exactly two messages, the system prompt first and the filled-in user template second |
| `Backend.UserContentLayout` | Backend/main.py:71-88 | the user message's lines are Session Type, Tone, Summary Length, Include Action Items, Anonymize Data in that order, a blank line, "Notes:", then the lines of the stripped notes |
| `Backend.GenerateSummary` | Backend/main.py:96-126 | a wrong key gives 401 before anything else; blank notes give 400; otherwise the model gets the messages built from the masked notes when anonymisation is on, and the raw notes when it is off; the answer is returned stripped, a model failure gives 500 "OpenAI API error: …"; every error detail is non-empty |
| `Exchange.ClientKeyAccepted` | Backend/main.py:46-51 | the header the client builds passes the key check exactly when the client's key equals the back end's |
| `Exchange.RequestFieldsArrive` | Frontend-Summary-Generator/src/lib/api.ts:25-34 | the notes and each of the five preferences the client sends arrive unchanged in the back end's request model |
| `Exchange.GatedNotesAreNotEmpty` | Frontend-Summary-Generator/src/App.tsx:23-34 | notes that pass the ten-word gate are never refused by the back end's empty-notes check |
| `Exchange.ErrorDetailReachesUser` | Frontend-Summary-Generator/src/lib/api.ts:42-46 | a back-end error with a non-2xx status reaches the user as its detail text |
| `Exchange.AnswerReachesUser` | Backend/main.py:125-126 | a model answer reaches the user stripped and otherwise verbatim; an all-whitespace answer becomes "No summary returned from API." |

## Left out

- `mask_pii` (Backend/main.py:54-63) is a function parameter of `Backend.GenerateSummary`. Its regular expressions would need a regex engine; the model only fixes where it is applied.
- The chat-completion call is a function parameter that gives an answer or the text of an exception. Its model name, temperature and token limit are not modelled, and neither is an answer whose content is `None`, which would raise outside the `try`.
- The back end's start-up is not modelled: loading the environment, refusing to start without keys, the CORS setup, and FastAPI's own request validation. A missing `Authorization` header or a malformed body gets a 422 from the framework, not from the handler.
- Transport and JSON parsing are abstract in `Api`. A response is a status and a body that parsed or did not. The fields `detail`, `message` and `summary` are optional strings. A body that parses to `null` is not modelled, nor are non-string fields such as FastAPI's list-valued validation `detail`.
- Real timers, `Date` and `localStorage` are abstract in `NotesEditor`. The one-second interval is the `TimerFires` event, the clock is its `now`, and storage writes are assumed to succeed.
- Async interleaving is not modelled. A second click while a request is outstanding is prevented only by the disabled button. `handleGenerate` runs to completion in one `HandleGenerate` call.
- The preference setters are plain assignments to the `App` fields and have no methods.
- The presentational components are not part of this model: PreferenceSection.tsx, RichEditor.tsx, SummaryPannel.tsx and GenerateButton.tsx. The back end accepts any string for tone, session type and length, so the preferences are strings, not enumerations.
- Text.Trim: one whitespace set (space, tab, line feed, vertical tab, form feed, carriage return) stands for JavaScript's `trim` and `\s` and for Python's `strip`. The real sets differ. Python also strips U+001C to U+001F and U+0085, which JavaScript keeps. JavaScript also trims U+FEFF, which Python keeps. Both trim the other Unicode spaces (U+00A0, U+2028, and so on), which the model treats as word characters.
- Exchange.GatedNotesAreNotEmpty: holds only under the shared whitespace set. Take ten U+001C characters separated by spaces. JavaScript sees ten words, so they pass the gate (App.tsx:23, 28). Python's `strip()` removes them all, so the back end answers 400 (main.py:103).
- NotesEditor.CharCount: counts UTF-16 code units per Unicode scalar value. A lone surrogate, which a JavaScript string can hold and a Dafny string cannot, is not modelled.
- Backend.UserContentLayout: stated only for tone, session type and length without line breaks, because a value with a break would split across several lines.
