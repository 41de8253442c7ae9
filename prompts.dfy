/** Conversation turns and the prompt text the chat handler builds from a
    session's history: a fixed two-line preamble, a blank line, one
    "<Role>: <content>" line per turn in order, and a trailing "Assistant:" cue. */
module Prompts {
  import opened Responses

  datatype Role = User | Assistant {
    /** The role as stored in the history ("user" / "assistant"). */
    function Name(): string {
      if User? then "user" else "assistant"
    }

    /** `role.capitalize()`: the stored name with its first letter in upper case. */
    function Label(): (r: string)
      ensures |r| == |Name()| && 0 < |r|
      ensures r[0] == UpperAscii(Name()[0]) && r[1..] == Name()[1..]
      ensures '\n' !in r && ':' !in r
    {
      if User? then "User" else "Assistant"
    }
  }

  /** One entry of a session's history. */
  datatype Turn = Turn(role: Role, content: string)

  function UpperAscii(c: char): char {
    if 'a' <= c <= 'z' then (c as int - 32) as char else c
  }

  const Preamble: string :=
    "You are a helpful assistant that always replies in English.\nContinue the conversation naturally.\n\n"
  const Cue: string := "\nAssistant:"

  /** The prompt line for one turn. */
  function Line(t: Turn): string {
    t.role.Label() + ": " + t.content
  }

  /** `"\n".join(parts)`. */
  function JoinLines(parts: seq<string>): string
    decreases |parts|
  {
    if |parts| == 0 then ""
    else if |parts| == 1 then parts[0]
    else parts[0] + "\n" + JoinLines(parts[1..])
  }

  /** The lines of a history, one per turn, in insertion order. */
  function Lines(history: seq<Turn>): (r: seq<string>)
    ensures |r| == |history|
    ensures forall i :: 0 <= i < |history| ==> r[i] == Line(history[i])
  {
    seq(|history|, i requires 0 <= i < |history| => Line(history[i]))
  }

  /** The prompt sent to the language model for a history. */
  function PromptOf(history: seq<Turn>): (r: string)
    ensures |Preamble| + |Cue| <= |r|
    ensures r[..|Preamble|] == Preamble
    ensures EndsWith(r, Cue)
  {
    FramedSlices(Preamble, JoinLines(Lines(history)), Cue);
    Preamble + JoinLines(Lines(history)) + Cue
  }

  /** The loop that collects one line per stored turn, then the join. */
  method BuildPrompt(history: seq<Turn>) returns (prompt: string)
    ensures prompt == PromptOf(history)
  {
    var parts: seq<string> := [];
    for i := 0 to |history|
      invariant |parts| == i
      invariant forall j :: 0 <= j < i ==> parts[j] == Line(history[j])
    {
      parts := parts + [history[i].role.Label() + ": " + history[i].content];
    }
    assert parts == Lines(history);
    prompt := Preamble + JoinLines(parts) + Cue;
  }

  // ---- Reading a prompt back: the prompt determines the history ----

  /** `s.split("\n")`. */
  function SplitLines(s: string): (r: seq<string>)
    ensures 0 < |r|
    decreases |s|
  {
    if |s| == 0 then [""]
    else
      var rest := SplitLines(s[1..]);
      if s[0] == '\n' then [""] + rest
      else [[s[0]] + rest[0]] + rest[1..]
  }

  /** Reads one prompt line back into a turn. */
  function ParseLine(line: string): Option<Turn> {
    var user := User.Label() + ": ";
    var assistant := Assistant.Label() + ": ";
    if |user| <= |line| && line[..|user|] == user then Some(Turn(User, line[|user|..]))
    else if |assistant| <= |line| && line[..|assistant|] == assistant then Some(Turn(Assistant, line[|assistant|..]))
    else None
  }

  function ParseLines(lines: seq<string>): Option<seq<Turn>>
    decreases |lines|
  {
    if |lines| == 0 then Some([])
    else match (ParseLine(lines[0]), ParseLines(lines[1..]))
      case (Some(t), Some(ts)) => Some([t] + ts)
      case _ => None
  }

  /** Strips the preamble and the cue, splits the rest into lines and reads each back. */
  function ParsePrompt(prompt: string): Option<seq<Turn>> {
    if |Preamble| + |Cue| <= |prompt| && prompt[..|Preamble|] == Preamble && prompt[|prompt| - |Cue|..] == Cue
    then ParseLines(SplitLines(prompt[|Preamble|..|prompt| - |Cue|]))
    else None
  }

  predicate SingleLine(s: string) {
    '\n' !in s
  }

  lemma {:induction false} SplitSingleLine(a: string)
    requires SingleLine(a)
    ensures SplitLines(a) == [a]
    decreases |a|
  {
    if |a| > 0 {
      SplitSingleLine(a[1..]);
      assert [a[0]] + a[1..] == a;
    }
  }

  lemma {:induction false} SplitAfterLine(a: string, b: string)
    requires SingleLine(a)
    ensures SplitLines(a + "\n" + b) == [a] + SplitLines(b)
    decreases |a|
  {
    var s := a + "\n" + b;
    if |a| == 0 {
      assert s[1..] == b;
    } else {
      assert s[1..] == a[1..] + "\n" + b;
      SplitAfterLine(a[1..], b);
      assert [a[0]] + a[1..] == a;
    }
  }

  /** Splitting undoes joining when no part contains a line break. */
  lemma {:induction false} SplitJoin(parts: seq<string>)
    requires 0 < |parts|
    requires forall i :: 0 <= i < |parts| ==> SingleLine(parts[i])
    ensures SplitLines(JoinLines(parts)) == parts
    decreases |parts|
  {
    if |parts| == 1 {
      SplitSingleLine(parts[0]);
    } else {
      SplitJoin(parts[1..]);
      SplitAfterLine(parts[0], JoinLines(parts[1..]));
    }
  }

  lemma LineRoundTrip(t: Turn)
    ensures SingleLine(t.content) ==> SingleLine(Line(t))
    ensures ParseLine(Line(t)) == Some(t)
  {
    var user := User.Label() + ": ";
    var assistant := Assistant.Label() + ": ";
    var l := Line(t);
    if t.role == User {
      assert l[..|user|] == user;
      assert l[|user|..] == t.content;
    } else {
      assert l[..|assistant|] == assistant;
      assert l[|assistant|..] == t.content;
      assert l[0] != user[0];
    }
  }

  lemma {:induction false} ParseEachLine(lines: seq<string>, turns: seq<Turn>)
    requires |lines| == |turns|
    requires forall i :: 0 <= i < |lines| ==> ParseLine(lines[i]) == Some(turns[i])
    ensures ParseLines(lines) == Some(turns)
    decreases |lines|
  {
    if 0 < |lines| {
      ParseEachLine(lines[1..], turns[1..]);
      assert [turns[0]] + turns[1..] == turns;
    }
  }

  lemma ParseLinesRoundTrip(history: seq<Turn>)
    ensures ParseLines(Lines(history)) == Some(history)
  {
    forall i | 0 <= i < |history| ensures ParseLine(Lines(history)[i]) == Some(history[i]) {
      LineRoundTrip(history[i]);
    }
    ParseEachLine(Lines(history), history);
  }

  /** The prompt carries the whole history, every turn's role and content in
      insertion order: reading it back gives the history again, as long as
      no content spans several lines. */
  lemma PromptRoundTrip(history: seq<Turn>)
    requires 0 < |history|
    requires forall i :: 0 <= i < |history| ==> SingleLine(history[i].content)
    ensures ParsePrompt(PromptOf(history)) == Some(history)
  {
    var lines := Lines(history);
    forall i | 0 <= i < |lines| ensures SingleLine(lines[i]) {
      LineRoundTrip(history[i]);
    }
    SplitJoin(lines);
    ParseLinesRoundTrip(history);
    FramedSlices(Preamble, JoinLines(lines), Cue);
  }

  /** The three parts of `front + body + back` can be cut out again by length. */
  lemma FramedSlices(front: string, body: string, back: string)
    ensures var whole := front + body + back;
      && whole[..|front|] == front
      && whole[|whole| - |back|..] == back
      && whole[|front|..|whole| - |back|] == body
  {
  }

  predicate EndsWith(s: string, suffix: string) {
    |suffix| <= |s| && s[|s| - |suffix|..] == suffix
  }

  /** `"\n".join` of two or more parts is the join of all but the last,
      a line break, and the last part. */
  lemma {:induction false} JoinSnoc(parts: seq<string>)
    requires 1 < |parts|
    ensures JoinLines(parts) == JoinLines(parts[..|parts| - 1]) + "\n" + parts[|parts| - 1]
    decreases |parts|
  {
    var n := |parts|;
    if n == 2 {
      assert parts[1..] == [parts[1]];
      assert parts[..1] == [parts[0]];
    } else {
      JoinSnoc(parts[1..]);
      assert parts[1..][..n - 2] == parts[..n - 1][1..];
      assert parts[1..][n - 2] == parts[n - 1];
    }
  }

  lemma LinesSnoc(history: seq<Turn>, t: Turn)
    ensures Lines(history + [t]) == Lines(history) + [Line(t)]
  {
    var h := history + [t];
    assert forall i :: 0 <= i < |history| ==> h[i] == history[i];
  }

  /** Appending a turn to a non-empty history adds a line break and its line
      to the history text. */
  lemma HistoryTextAppend(history: seq<Turn>, t: Turn)
    requires 0 < |history|
    ensures JoinLines(Lines(history + [t])) == JoinLines(Lines(history)) + "\n" + Line(t)
  {
    LinesSnoc(history, t);
    var lines := Lines(history) + [Line(t)];
    JoinSnoc(lines);
    assert lines[..|lines| - 1] == Lines(history);
  }

  /** The text of a non-empty history ends with the line of its last turn. */
  lemma HistoryTextEndsWithLast(history: seq<Turn>)
    requires 0 < |history|
    ensures EndsWith(JoinLines(Lines(history)), Line(history[|history| - 1]))
  {
    var n := |history|;
    if n == 1 {
      assert JoinLines(Lines(history)) == Line(history[0]);
    } else {
      assert history[..n - 1] + [history[n - 1]] == history;
      HistoryTextAppend(history[..n - 1], history[n - 1]);
      EndsWithConcat(JoinLines(Lines(history[..n - 1])) + "\n", Line(history[n - 1]));
    }
  }

  lemma EndsWithConcat(front: string, suffix: string)
    ensures EndsWith(front + suffix, suffix)
  {
    assert (front + suffix)[|front|..] == suffix;
  }

  lemma EndsWithFramed(front: string, body: string, back: string, suffix: string)
    requires EndsWith(body, suffix)
    ensures EndsWith(front + body + back, suffix + back)
  {
    var whole := front + body + back;
    var k := |whole| - |suffix + back|;
    assert whole[k..] == body[|body| - |suffix|..] + back;
  }

  /** Appending a turn adds exactly its line just before the cue and leaves
      the earlier text untouched. */
  lemma PromptAppend(history: seq<Turn>, t: Turn)
    requires 0 < |history|
    ensures PromptOf(history + [t]) ==
            Preamble + (JoinLines(Lines(history)) + "\n" + Line(t)) + Cue
  {
    HistoryTextAppend(history, t);
  }

  /** The prompt built for a history ends with the last turn's line and the
      cue: the model is asked to answer the newest turn. */
  lemma PromptEndsWithLastTurn(history: seq<Turn>)
    requires 0 < |history|
    ensures EndsWith(PromptOf(history), Line(history[|history| - 1]) + Cue)
  {
    HistoryTextEndsWithLast(history);
    EndsWithFramed(Preamble, JoinLines(Lines(history)), Cue, Line(history[|history| - 1]));
  }
}
