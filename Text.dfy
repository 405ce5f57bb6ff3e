/**
 The string primitives both halves of the system lean on: JavaScript's
 `String.prototype.trim` and Python's `str.strip` (one `Trim`), JavaScript's
 `s.split(/\s+/)` (`SplitWs`), and an independent reference count of the
 words in a text (`CountRuns`, the number of maximal non-whitespace runs).
 */
module Text {

  /** The whitespace class used by trim, `\s` and strip (ASCII members only). */
  predicate IsWhitespace(c: char) {
    c == ' ' || c == '\t' || c == '\n' || c == '\U{B}' || c == '\U{C}' || c == '\r'
  }

  predicate AllWhitespace(s: string) {
    forall i :: 0 <= i < |s| ==> IsWhitespace(s[i])
  }

  predicate NoWhitespace(s: string) {
    forall i :: 0 <= i < |s| ==> !IsWhitespace(s[i])
  }

  /** Neither starts nor ends with whitespace. */
  predicate Trimmed(s: string) {
    s == [] || (!IsWhitespace(s[0]) && !IsWhitespace(s[|s| - 1]))
  }

  /** `s` with its leading whitespace removed. */
  function TrimStart(s: string): string
  {
    if s != [] && IsWhitespace(s[0]) then TrimStart(s[1..]) else s
  }

  /** `TrimStart` drops a prefix made of whitespace and stops at a word character. */
  lemma {:induction false} TrimStartFacts(s: string)
    ensures |TrimStart(s)| <= |s| && TrimStart(s) == s[|s| - |TrimStart(s)|..]
    ensures AllWhitespace(s[..|s| - |TrimStart(s)|])
    ensures TrimStart(s) == [] || !IsWhitespace(TrimStart(s)[0])
  {
    if s != [] && IsWhitespace(s[0]) {
      TrimStartFacts(s[1..]);
      var r := TrimStart(s[1..]);
      assert s[..|s| - |r|] == [s[0]] + s[1..][..|s| - 1 - |r|];
    }
  }

  /** `s` with its trailing whitespace removed. */
  function TrimEnd(s: string): string
  {
    if s != [] && IsWhitespace(s[|s| - 1]) then TrimEnd(s[..|s| - 1]) else s
  }

  /** `TrimEnd` drops a suffix made of whitespace and stops at a word character. */
  lemma {:induction false} TrimEndFacts(s: string)
    ensures |TrimEnd(s)| <= |s| && TrimEnd(s) == s[..|TrimEnd(s)|]
    ensures AllWhitespace(s[|TrimEnd(s)|..])
    ensures TrimEnd(s) == [] || !IsWhitespace(TrimEnd(s)[|TrimEnd(s)| - 1])
  {
    if s != [] && IsWhitespace(s[|s| - 1]) {
      TrimEndFacts(s[..|s| - 1]);
      var r := TrimEnd(s[..|s| - 1]);
      assert s[|r|..] == s[..|s| - 1][|r|..] + [s[|s| - 1]];
    }
  }

  /** The number of whitespace characters `Trim` removes from the front. */
  function LeadingWhitespace(s: string): nat
  {
    TrimStartFacts(s);
    |s| - |TrimStart(s)|
  }

  /**
   JavaScript `trim` / Python `strip`: the middle of `s` left once the
   whitespace at both ends is cut away. It is empty exactly when `s` is all
   whitespace.
   */
  function Trim(s: string): (r: string)
    ensures Trimmed(r)
    ensures r == [] <==> AllWhitespace(s)
  {
    TrimStartFacts(s);
    TrimEndFacts(TrimStart(s));
    BlankIffTrimsToEmpty(s);
    TrimEnd(TrimStart(s))
  }

  /**
   Where the trimmed text sits in `s`: it is the slice that starts after the
   leading whitespace, and what is cut from either side is whitespace only.
   */
  lemma TrimLayout(s: string)
    ensures LeadingWhitespace(s) + |Trim(s)| <= |s|
    ensures Trim(s) == s[LeadingWhitespace(s)..LeadingWhitespace(s) + |Trim(s)|]
    ensures AllWhitespace(s[..LeadingWhitespace(s)])
    ensures AllWhitespace(s[LeadingWhitespace(s) + |Trim(s)|..])
  {
    var t := TrimStart(s);
    var r := TrimEnd(t);
    var lead := |s| - |t|;
    TrimStartFacts(s);
    TrimEndFacts(t);
    assert r == Trim(s);
    assert t == s[lead..];
    assert r == t[..|r|];
    assert s[lead + |r|..] == t[|r|..];
  }

  lemma BlankIffTrimsToEmpty(s: string)
    ensures TrimEnd(TrimStart(s)) == [] <==> AllWhitespace(s)
  {
    var t := TrimStart(s);
    TrimStartFacts(s);
    TrimEndFacts(t);
    var lead := |s| - |t|;
    if TrimEnd(t) == [] {
      assert AllWhitespace(t[0..]);
      BlankJoin(s[..lead], t);
      assert s == s[..lead] + t;
    } else if t != [] {
      assert t[0] == s[lead];
    }
  }

  lemma BlankJoin(a: string, b: string)
    requires AllWhitespace(a) && AllWhitespace(b)
    ensures AllWhitespace(a + b)
  {
    forall i | 0 <= i < |a + b| ensures IsWhitespace((a + b)[i]) {
      if i >= |a| { assert (a + b)[i] == b[i - |a|]; }
    }
  }

  /**
   The reference word count: the number of maximal runs of non-whitespace
   characters, counted at the character that ends each run.
   */
  function CountRuns(s: string): nat
  {
    if s == [] then 0
    else (if !IsWhitespace(s[0]) && (|s| == 1 || IsWhitespace(s[1])) then 1 else 0) + CountRuns(s[1..])
  }

  /** Length of the longest prefix of `s` holding no whitespace. */
  function NonWhitespaceSpan(s: string): (k: nat)
    ensures k <= |s| && forall i :: 0 <= i < k ==> !IsWhitespace(s[i])
    ensures k == |s| || IsWhitespace(s[k])
  {
    if s == [] || IsWhitespace(s[0]) then 0 else 1 + NonWhitespaceSpan(s[1..])
  }

  /** Length of the longest prefix of `s` made of whitespace. */
  function WhitespaceSpan(s: string): (k: nat)
    ensures k <= |s| && forall i :: 0 <= i < k ==> IsWhitespace(s[i])
    ensures k == |s| || !IsWhitespace(s[k])
  {
    if s == [] || !IsWhitespace(s[0]) then 0 else 1 + WhitespaceSpan(s[1..])
  }

  /**
   The text after the first word of `s` and the whitespace run that follows
   it, when `s` holds whitespace.
   */
  function AfterSeparator(s: string): (rest: string)
    requires NonWhitespaceSpan(s) < |s|
    ensures |rest| < |s|
  {
    var k := NonWhitespaceSpan(s);
    s[k + WhitespaceSpan(s[k..])..]
  }

  /**
   JavaScript `s.split(/\s+/)`: the pieces between maximal whitespace runs.
   A leading or trailing run yields an empty first or last piece, and the
   empty string splits into one empty piece.
   */
  function SplitWs(s: string): (pieces: seq<string>)
    decreases |s|
  {
    if NonWhitespaceSpan(s) == |s| then [s]
    else [s[..NonWhitespaceSpan(s)]] + SplitWs(AfterSeparator(s))
  }

  /**
   `s.trim().split(/\s+/).length`, the word count both front-end components
   compute. On a text that is not blank it is the reference word count; on a
   blank text JavaScript still reports one (empty) piece.
   */
  function TokenCount(s: string): (n: nat)
    ensures !AllWhitespace(s) ==> n == CountRuns(s) && n >= 1
    ensures AllWhitespace(s) ==> n == 1
  {
    var t := Trim(s);
    if t != [] then
      SplitTrimmed(t);
      TrimKeepsRuns(s);
      |SplitWs(t)|
    else
      |SplitWs(t)|
  }

  /** Whitespace in front of a text contributes no word. */
  lemma {:induction false} LeadingWhitespaceNoRuns(s: string, j: nat)
    requires j <= |s| && AllWhitespace(s[..j])
    ensures CountRuns(s) == CountRuns(s[j..])
  {
    if j > 0 {
      assert IsWhitespace(s[..j][0]);
      assert s[1..][..j - 1] == s[..j][1..];
      LeadingWhitespaceNoRuns(s[1..], j - 1);
      assert s[1..][j - 1..] == s[j..];
    }
  }

  /** Whitespace after a text contributes no word. */
  lemma {:induction false} TrailingWhitespaceNoRuns(s: string, w: string)
    requires AllWhitespace(w)
    ensures CountRuns(s + w) == CountRuns(s)
  {
    if s == [] {
      assert s + w == w;
      LeadingWhitespaceNoRuns(w, |w|);
    } else {
      assert (s + w)[0] == s[0];
      assert |s| > 1 ==> (s + w)[1] == s[1];
      assert |s| == 1 && |w| > 0 ==> (s + w)[1] == w[0];
      assert (s + w)[1..] == s[1..] + w;
      TrailingWhitespaceNoRuns(s[1..], w);
    }
  }

  /** A maximal non-whitespace block at the front of a text is exactly one word. */
  lemma {:induction false} LeadingWordIsOneRun(s: string, k: nat)
    requires 0 < k <= |s| && NoWhitespace(s[..k])
    requires k == |s| || IsWhitespace(s[k])
    ensures CountRuns(s) == 1 + CountRuns(s[k..])
  {
    assert !IsWhitespace(s[..k][0]);
    if k > 1 {
      assert !IsWhitespace(s[..k][1]);
      assert s[1..][..k - 1] == s[..k][1..];
      LeadingWordIsOneRun(s[1..], k - 1);
      assert s[1..][k - 1..] == s[k..];
    }
  }

  /** Trimming changes no word count. */
  lemma TrimKeepsRuns(s: string)
    ensures CountRuns(Trim(s)) == CountRuns(s)
  {
    var t := TrimStart(s);
    var r := Trim(s);
    TrimStartFacts(s);
    TrimEndFacts(t);
    var lead := |s| - |t|;
    TrimLayout(s);
    LeadingWhitespaceNoRuns(s, lead);
    assert t == r + t[|r|..];
    TrailingWhitespaceNoRuns(r, t[|r|..]);
  }

  /**
   On a trimmed, non-empty text the `/\s+/` split yields exactly the words:
   as many pieces as there are runs, each non-empty and free of whitespace.
   */
  lemma {:induction false} SplitTrimmed(s: string)
    requires s != [] && Trimmed(s)
    ensures |SplitWs(s)| == CountRuns(s)
    ensures forall i :: 0 <= i < |SplitWs(s)| ==> SplitWs(s)[i] != [] && NoWhitespace(SplitWs(s)[i])
    decreases |s|
  {
    var k := NonWhitespaceSpan(s);
    LeadingWordIsOneRun(s, k);
    if k < |s| {
      var rest := SplitStep(s);
      SplitTrimmed(rest);
      var pieces := SplitWs(s);
      forall i | 0 <= i < |pieces| ensures pieces[i] != [] && NoWhitespace(pieces[i]) {
        if i > 0 { assert pieces[i] == SplitWs(rest)[i - 1]; }
      }
    } else {
      assert s[k..] == [];
    }
  }

  /** One step of the split of a trimmed text that holds more than one word. */
  lemma SplitStep(s: string) returns (rest: string)
    requires s != [] && Trimmed(s) && NonWhitespaceSpan(s) < |s|
    ensures |rest| < |s| && rest != [] && Trimmed(rest)
    ensures rest == AfterSeparator(s)
    ensures CountRuns(s[NonWhitespaceSpan(s)..]) == CountRuns(rest)
  {
    var k := NonWhitespaceSpan(s);
    var w := WhitespaceSpan(s[k..]);
    rest := s[k + w..];
    assert rest != [] && Trimmed(rest) by {
      SeparatorFollowedByWord(s[k..], s[|s| - 1]);
      assert s[k..][w..] == rest;
    }
    assert CountRuns(s[k..]) == CountRuns(rest) by {
      LeadingWhitespaceNoRuns(s[k..], w);
      assert s[k..][w..] == rest;
    }
  }

  /** After a whitespace run that is not the end of the text comes a word. */
  lemma SeparatorFollowedByWord(u: string, last: char)
    requires u != [] && u[|u| - 1] == last && !IsWhitespace(last)
    ensures WhitespaceSpan(u) < |u|
    ensures Trimmed(u[WhitespaceSpan(u)..]) && u[WhitespaceSpan(u)..] != []
  {
    var w := WhitespaceSpan(u);
    var rest := u[w..];
    assert rest[|rest| - 1] == last;
  }

  /** A text has no words exactly when it is blank. */
  lemma NoRunsIffBlank(s: string)
    ensures CountRuns(s) == 0 <==> AllWhitespace(s)
  {
    if AllWhitespace(s) {
      LeadingWhitespaceNoRuns(s, |s|);
      assert s[|s|..] == [];
    } else {
      NonBlankHasRun(s);
    }
  }

  /** A text holding a non-whitespace character has at least one word. */
  lemma {:induction false} NonBlankHasRun(s: string)
    requires !AllWhitespace(s)
    ensures CountRuns(s) >= 1
    decreases |s|
  {
    if IsWhitespace(s[0]) || (|s| > 1 && !IsWhitespace(s[1])) {
      assert !AllWhitespace(s[1..]) by {
        var i :| 0 <= i < |s| && !IsWhitespace(s[i]);
        if IsWhitespace(s[0]) {
          assert s[1..][i - 1] == s[i];
        } else {
          assert !IsWhitespace(s[1..][0]);
        }
      }
      NonBlankHasRun(s[1..]);
    }
  }
}
