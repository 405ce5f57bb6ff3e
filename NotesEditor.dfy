/**
 The notes editor (components/main/NotesEditor.tsx): the word and character
 counters shown under the text area, and the draft autosave.

 The autosave is an effect that runs whenever the notes change: it arms a
 one-second timer that captures the text of that moment, and its cleanup
 clears the previous timer. Time is abstracted to events: `Edit(text)` is a
 change of the notes, `TimerFires(now)` is the armed timer going off once the
 notes have been quiet for the debounce interval (`now` is the clock reading
 stored as the last-saved time). The browser's storage is a map from keys to
 strings.
 */
module NotesEditor {
  import opened Wrappers
  import Text

  const StorageKey := "sessionNotes"

  type Time = nat

  /**
   The number of words shown: zero for blank notes, otherwise the length of
   the `/\s+/` split of the trimmed notes.
   */
  function WordCount(notes: string): (n: nat)
    ensures n == Text.CountRuns(notes)
    ensures n == 0 <==> Text.AllWhitespace(notes)
  {
    Text.NoRunsIffBlank(notes);
    if Text.Trim(notes) != [] then Text.TokenCount(notes) else 0
  }

  /** How many UTF-16 code units JavaScript stores for one character: two above U+FFFF. */
  function CodeUnits(c: char): nat
  {
    if c as int >= 0x1_0000 then 2 else 1
  }

  /**
   The number of characters shown, JavaScript's `notes.length`: UTF-16 code
   units, whitespace included, so a character beyond the Basic Multilingual
   Plane (an emoji, say) counts twice.
   */
  function CharCount(notes: string): (n: nat)
    ensures |notes| <= n <= 2 * |notes|
    ensures n == |notes| <==> forall i :: 0 <= i < |notes| ==> notes[i] as int < 0x1_0000
  {
    if notes == [] then 0
    else
      var n := CodeUnits(notes[0]) + CharCount(notes[1..]);
      assert forall i :: 0 < i < |notes| ==> notes[i] == notes[1..][i - 1];
      n
  }

  /** The character count of a concatenation is the sum of the counts. */
  lemma {:induction false} CharCountConcat(a: string, b: string)
    ensures CharCount(a + b) == CharCount(a) + CharCount(b)
  {
    if a != [] {
      assert (a + b)[0] == a[0] && (a + b)[1..] == a[1..] + b;
      CharCountConcat(a[1..], b);
    } else {
      assert a + b == b;
    }
  }

  /** Whitespace typed after the notes adds one character per whitespace character, and no words. */
  lemma TrailingWhitespaceCountsAsCharacters(notes: string, w: string)
    requires Text.AllWhitespace(w)
    ensures CharCount(notes + w) == CharCount(notes) + |w|
    ensures WordCount(notes + w) == WordCount(notes)
  {
    CharCountConcat(notes, w);
    assert forall i :: 0 <= i < |w| ==> w[i] as int < 0x1_0000 by {
      forall i | 0 <= i < |w| ensures w[i] as int < 0x1_0000 {
        assert Text.IsWhitespace(w[i]);
      }
    }
    Text.TrailingWhitespaceNoRuns(notes, w);
  }

  /** The editor's state: the notes, the text captured by the armed timer, the storage and the last-saved time. */
  datatype Draft = Draft(notes: string, pending: Option<string>, storage: map<string, string>, lastSaved: Option<Time>)

  datatype Event = Edit(text: string) | TimerFires(now: Time)

  /**
   The editor just mounted with empty notes: the effect has already run once
   and armed a timer on "".
   */
  function Mounted(storage: map<string, string>): Draft
  {
    Draft([], Some([]), storage, None)
  }

  /**
   One event. A change of the notes re-runs the effect: the old timer is
   cleared and a new one captures the new text; setting the same text again
   does not re-run it. A firing timer stores the captured text, untrimmed, and
   records the time, unless the text is blank.
   */
  function Step(d: Draft, e: Event): (r: Draft)
    ensures e.Edit? ==> r.notes == e.text && r.storage == d.storage && r.lastSaved == d.lastSaved
    ensures e.Edit? && e.text != d.notes ==> r.pending == Some(e.text)
    ensures e.Edit? && e.text == d.notes ==> r == d
    ensures e.TimerFires? ==> r.notes == d.notes && r.pending == None
    ensures e.TimerFires? && d.pending.None? ==> r == d
  {
    match e
    case Edit(text) =>
      if text == d.notes then d else d.(notes := text, pending := Some(text))
    case TimerFires(now) =>
      match d.pending
      case None => d
      case Some(captured) =>
        if Text.Trim(captured) != [] then
          d.(pending := None, storage := d.storage[StorageKey := captured], lastSaved := Some(now))
        else
          d.(pending := None)
  }

  function Run(d: Draft, events: seq<Event>): Draft
    decreases |events|
  {
    if events == [] then d else Run(Step(d, events[0]), events[1..])
  }

  function Edits(texts: seq<string>): (events: seq<Event>)
    ensures |events| == |texts|
    ensures forall i :: 0 <= i < |texts| ==> events[i] == Edit(texts[i])
  {
    if texts == [] then [] else [Edit(texts[0])] + Edits(texts[1..])
  }

  /** An armed timer always holds the current notes. */
  ghost predicate Captures(d: Draft) {
    d.pending.Some? ==> d.pending.value == d.notes
  }

  /** The initial state captures the notes, and every run of events keeps it so. */
  lemma {:induction false} RunKeepsCapture(d: Draft, events: seq<Event>)
    requires Captures(d)
    ensures Captures(Run(d, events))
    decreases |events|
  {
    if events != [] {
      RunKeepsCapture(Step(d, events[0]), events[1..]);
    }
  }

  /**
   Whatever a step writes to storage is the notes of that moment, never an
   older text, and only a firing timer writes.
   */
  lemma SaveIsCurrentNotes(d: Draft, e: Event)
    requires Captures(d)
    ensures Step(d, e).storage != d.storage ==>
      e.TimerFires? && Step(d, e).storage == d.storage[StorageKey := d.notes] && Step(d, e).lastSaved == Some(e.now)
  {
  }

  /** A firing timer saves non-blank notes and records the time; blank notes leave storage and time alone. */
  lemma TimerSavesOnlyNonBlank(d: Draft, now: Time)
    requires Captures(d) && d.pending.Some?
    ensures !Text.AllWhitespace(d.notes) ==>
      Step(d, TimerFires(now)).storage == d.storage[StorageKey := d.notes] && Step(d, TimerFires(now)).lastSaved == Some(now)
    ensures Text.AllWhitespace(d.notes) ==>
      Step(d, TimerFires(now)).storage == d.storage && Step(d, TimerFires(now)).lastSaved == d.lastSaved
  {
  }

  lemma {:induction false} RunAppend(d: Draft, a: seq<Event>, b: seq<Event>)
    ensures Run(d, a + b) == Run(Run(d, a), b)
    decreases |a|
  {
    if a != [] {
      assert (a + b)[0] == a[0] && (a + b)[1..] == a[1..] + b;
      RunAppend(Step(d, a[0]), a[1..], b);
    } else {
      assert a + b == b;
    }
  }

  /**
   A burst of edits never writes storage or the last-saved time; afterwards
   the notes are the last text.
   */
  lemma {:induction false} EditsNeverSave(d: Draft, texts: seq<string>)
    ensures Run(d, Edits(texts)).storage == d.storage
    ensures Run(d, Edits(texts)).lastSaved == d.lastSaved
    ensures Run(d, Edits(texts)).notes == if texts == [] then d.notes else texts[|texts| - 1]
    decreases |texts|
  {
    if texts != [] {
      assert Edits(texts)[1..] == Edits(texts[1..]);
      EditsNeverSave(Step(d, Edit(texts[0])), texts[1..]);
      if texts[1..] != [] {
        assert texts[1..][|texts[1..]| - 1] == texts[|texts| - 1];
      }
    }
  }

  /**
   After a burst of edits no timer is armed exactly when none was and every
   text of the burst equals the notes it started from.
   */
  lemma {:induction false} EditsLeaveTimer(d: Draft, texts: seq<string>)
    ensures Run(d, Edits(texts)).pending.None? <==>
      d.pending.None? && forall i | 0 <= i < |texts| :: texts[i] == d.notes
    decreases |texts|
  {
    if texts != [] {
      assert Edits(texts)[1..] == Edits(texts[1..]);
      EditsLeaveTimer(Step(d, Edit(texts[0])), texts[1..]);
      if texts[0] == d.notes {
        assert (forall i | 0 <= i < |texts| :: texts[i] == d.notes) <==>
               (forall i | 0 <= i < |texts[1..]| :: texts[1..][i] == d.notes) by {
          forall i | 0 < i < |texts| ensures texts[i] == texts[1..][i - 1] { }
        }
      }
    }
  }

  /** Whether a burst of edits leaves a timer armed: one already was, or some text differs from the notes. */
  ghost predicate Arms(d: Draft, texts: seq<string>) {
    d.pending.Some? || exists i :: 0 <= i < |texts| && texts[i] != d.notes
  }

  /**
   Last write wins: after a burst of edits and one quiet interval, the
   storage holds the burst's last text (when it is not blank) and none of the
   texts before it, and no timer remains armed. A burst that arms no timer
   leaves the editor exactly as it was.
   */
  lemma BurstSavesLastText(d: Draft, texts: seq<string>, now: Time)
    requires Captures(d) && texts != []
    ensures var last := texts[|texts| - 1];
      var after := Run(d, Edits(texts) + [TimerFires(now)]);
      Arms(d, texts) ==>
      && after.storage == (if Text.AllWhitespace(last) then d.storage else d.storage[StorageKey := last])
      && after.lastSaved == (if Text.AllWhitespace(last) then d.lastSaved else Some(now))
      && after.pending == None
    ensures !Arms(d, texts) ==> Run(d, Edits(texts) + [TimerFires(now)]) == d
  {
    var mid := Run(d, Edits(texts));
    RunAppend(d, Edits(texts), [TimerFires(now)]);
    EditsNeverSave(d, texts);
    EditsLeaveTimer(d, texts);
    RunKeepsCapture(d, Edits(texts));
    assert Run(mid, [TimerFires(now)]) == Step(mid, TimerFires(now));
    if !Arms(d, texts) {
      assert texts[|texts| - 1] == d.notes;
      assert mid == d;
    }
  }

  /** One save per quiet interval: a second firing with no edit between changes nothing. */
  lemma SecondFiringIsIdle(d: Draft, t1: Time, t2: Time)
    ensures Step(Step(d, TimerFires(t1)), TimerFires(t2)) == Step(d, TimerFires(t1))
  {
  }

  /** The editor component with its autosave effect. */
  class DraftEditor {
    var notes: string
    var pending: Option<string>
    var storage: map<string, string>
    var lastSaved: Option<Time>

    function State(): Draft
      reads this
    {
      Draft(notes, pending, storage, lastSaved)
    }

    constructor (storage0: map<string, string>)
      ensures State() == Mounted(storage0)
      ensures notes == [] && lastSaved == None
    {
      notes := [];
      pending := Some([]);
      storage := storage0;
      lastSaved := None;
    }

    /** `setNotes(text)` from the text area, and the effect re-run it causes. */
    method Edit(text: string)
      modifies this
      ensures State() == Step(old(State()), Event.Edit(text))
      ensures notes == text && storage == old(storage) && lastSaved == old(lastSaved)
    {
      if text != notes {
        notes := text;
        pending := Some(text);
      }
    }

    /** The armed timer goes off after a quiet interval. */
    method TimerFires(now: Time)
      modifies this
      ensures State() == Step(old(State()), Event.TimerFires(now))
      ensures notes == old(notes) && pending == None
    {
      if pending.Some? {
        var captured := pending.value;
        if Text.Trim(captured) != [] {
          storage := storage[StorageKey := captured];
          lastSaved := Some(now);
        }
        pending := None;
      }
    }
  }
}
