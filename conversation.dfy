/** The chat endpoint's turn logic: the in-memory session store, the order
    in which one turn updates it, and the fallback chosen at each stage.
    The transcript is an input; the language model and the speech synthesis
    are oracles that map the text they are given to an optional result. */
module Conversation {
  import opened Responses
  import opened Prompts

  /** `chat_history_store`: session id to that session's turns. */
  type Store = map<string, seq<Turn>>

  const FallbackAudioUrl: string := "/static/fallback_audio.mp3"
  const FallbackReply: string := "I'm having trouble connecting to the language model right now."

  /** A remote stage that a turn invoked, with what it was given. */
  datatype Call = AskModel(prompt: string) | Synthesize(text: string)

  /** The endpoint's answer: the JSON payload (a None field is JSON null, a
      None `history` or `error` is a missing key), or an error status. */
  datatype ChatResponse =
    | Payload(sessionId: Option<string>, transcription: Option<string>, llmText: Option<string>,
              audioUrl: Option<string>, history: Option<seq<Turn>>, error: Option<string>)
    | Failure(status: nat, detail: string)

  /** The store after a turn, the answer, and the remote stages invoked in order. */
  datatype Outcome = Outcome(store: Store, response: ChatResponse, calls: seq<Call>)

  /** `chat_history_store.get(session_id, [])`. */
  function HistoryOf(store: Store, sid: string): (h: seq<Turn>)
    ensures sid in store ==> h == store[sid]
    ensures sid !in store ==> h == []
  {
    if sid in store then store[sid] else []
  }

  /** The session a successful turn writes to: a fresh id replaces an empty one. */
  function TargetSession(sid: string, freshSession: string): string {
    if sid == "" then freshSession else sid
  }

  /** The turns the target session holds before the user turn is appended:
      its stored turns, or none for a new (or freshly named) session. */
  function PriorHistory(store: Store, sid: string): seq<Turn> {
    if sid == "" then [] else HistoryOf(store, sid)
  }

  /** Session management before the user turn: an empty id is replaced by
      the fresh one, which starts empty; an unknown id starts empty; a known
      id keeps its turns. */
  function OpenSession(store: Store, sid: string, freshSession: string): (r: Store)
    ensures TargetSession(sid, freshSession) in r
    ensures r[TargetSession(sid, freshSession)] == PriorHistory(store, sid)
    ensures r.Keys == store.Keys + {TargetSession(sid, freshSession)}
    ensures forall k :: k in store && k != TargetSession(sid, freshSession) ==> r[k] == store[k]
  {
    var target := TargetSession(sid, freshSession);
    var named := if sid == "" then store[target := []] else store;
    if target !in named then named[target := []] else named
  }

  /** `chat_history_store[session].append(turn)`. */
  function AddTurn(store: Store, session: string, turn: Turn): (r: Store)
    requires session in store
    ensures r.Keys == store.Keys
    ensures r[session] == store[session] + [turn]
    ensures forall k :: k in store && k != session ==> r[k] == store[k]
  {
    store[session := store[session] + [turn]]
  }

  /** The text stored and spoken for the model's answer: the apology when the
      answer is missing or empty. */
  function ReplyText(answer: Option<string>): (r: string)
    ensures r != ""
    ensures Truthy(answer) ==> r == answer.value
    ensures !Truthy(answer) ==> r == FallbackReply
  {
    if !Truthy(answer) then FallbackReply else answer.value
  }

  /** The audio reference of the answer: the synthesized audio if there is
      any, else the fallback asset if the file exists, else nothing. */
  function AudioChoice(speech: Option<string>, fallbackExists: bool): (r: Option<string>)
    ensures Truthy(speech) ==> r == speech
    ensures !Truthy(speech) ==> (r.Some? <==> fallbackExists)
    ensures r.Some? ==> Truthy(speech) || r.value == FallbackAudioUrl
  {
    if Truthy(speech) then speech else if fallbackExists then Some(FallbackAudioUrl) else None
  }

  /** One call of the chat endpoint on a store, as a function. */
  function ChatTurn(store: Store, sid: string, freshSession: string, transcript: Option<string>,
                    llm: string -> Option<string>, tts: string -> Option<string>, fallbackExists: bool): (o: Outcome)
    ensures o.calls == [] <==> !Truthy(transcript)
    ensures !Truthy(transcript) ==> o.store == store
    ensures o.response.Failure? <==> !Truthy(transcript) && !fallbackExists
  {
    if !Truthy(transcript) then
      var answer :=
        if fallbackExists then Payload(if sid == "" then None else Some(sid), None, None, Some(FallbackAudioUrl), None, Some("STT failed"))
        else Failure(500, "STT failed");
      Outcome(store, answer, [])
    else
      var target := TargetSession(sid, freshSession);
      var withUser := AddTurn(OpenSession(store, sid, freshSession), target, Turn(User, transcript.value));
      var prompt := PromptOf(withUser[target]);
      var reply := ReplyText(llm(prompt));
      var withReply := AddTurn(withUser, target, Turn(Assistant, reply));
      Outcome(withReply,
              Payload(Some(target), transcript, Some(reply), AudioChoice(tts(reply), fallbackExists), Some(withReply[target]), None),
              [AskModel(prompt), Synthesize(reply)])
  }

  /** A missing or empty transcript ends the call before the store or any
      later stage is touched; the answer is the fallback payload, or a 500
      when there is no fallback audio. */
  lemma UntranscribedTurnChangesNothing(store: Store, sid: string, freshSession: string, transcript: Option<string>,
                                        llm: string -> Option<string>, tts: string -> Option<string>, fallbackExists: bool)
    requires !Truthy(transcript)
    ensures var o := ChatTurn(store, sid, freshSession, transcript, llm, tts, fallbackExists);
      && o.store == store
      && o.calls == []
      && (fallbackExists ==>
            o.response == Payload(if sid == "" then None else Some(sid), None, None, Some(FallbackAudioUrl), None, Some("STT failed")))
      && (!fallbackExists ==> o.response == Failure(500, "STT failed"))
  {
  }

  /** A transcribed call appends exactly two turns to the target session, the
      user's and then the reply, and changes no other session; the model is
      asked once, with the prompt for the history up to the user's turn, and
      the synthesis once, with the reply; a missing reply becomes the apology
      text and missing audio becomes the fallback asset when it exists. */
  lemma TranscribedTurnEffect(store: Store, sid: string, freshSession: string, transcript: Option<string>,
                              llm: string -> Option<string>, tts: string -> Option<string>, fallbackExists: bool)
    requires Truthy(transcript)
    ensures var o := ChatTurn(store, sid, freshSession, transcript, llm, tts, fallbackExists);
      var target := TargetSession(sid, freshSession);
      var prior := PriorHistory(store, sid);
      var prompt := PromptOf(prior + [Turn(User, transcript.value)]);
      var reply := if Truthy(llm(prompt)) then llm(prompt).value else FallbackReply;
      && o.store.Keys == store.Keys + {target}
      && o.store[target] == prior + [Turn(User, transcript.value), Turn(Assistant, reply)]
      && (forall k :: k in store && k != target ==> o.store[k] == store[k])
      && o.calls == [AskModel(prompt), Synthesize(reply)]
      && o.response == Payload(Some(target), transcript, Some(reply),
                               if Truthy(tts(reply)) then tts(reply) else if fallbackExists then Some(FallbackAudioUrl) else None,
                               Some(o.store[target]), None)
  {
  }

  /** The prompt a successful turn sends is built from the prior history plus
      the new user turn, so it holds no reply for this turn; it ends with the
      user's new line and the cue; and when no content spans lines it reads
      back into exactly that history. */
  lemma PromptShowsNewestUserTurn(store: Store, sid: string, freshSession: string, transcript: Option<string>,
                                  llm: string -> Option<string>, tts: string -> Option<string>, fallbackExists: bool)
    requires Truthy(transcript)
    ensures ChatTurn(store, sid, freshSession, transcript, llm, tts, fallbackExists).calls[0] ==
            AskModel(PromptOf(PriorHistory(store, sid) + [Turn(User, transcript.value)]))
    ensures EndsWith(ChatTurn(store, sid, freshSession, transcript, llm, tts, fallbackExists).calls[0].prompt,
                     Line(Turn(User, transcript.value)) + Cue)
    ensures (forall i :: 0 <= i < |PriorHistory(store, sid)| ==> SingleLine(PriorHistory(store, sid)[i].content)) &&
            SingleLine(transcript.value) ==>
              ParsePrompt(ChatTurn(store, sid, freshSession, transcript, llm, tts, fallbackExists).calls[0].prompt) ==
              Some(PriorHistory(store, sid) + [Turn(User, transcript.value)])
  {
    var h := PriorHistory(store, sid) + [Turn(User, transcript.value)];
    PromptEndsWithLastTurn(h);
    if (forall i :: 0 <= i < |h| - 1 ==> SingleLine(h[i].content)) && SingleLine(transcript.value) {
      PromptRoundTrip(h);
    }
  }

  /** One exchange of a conversation: the inputs of one call of the endpoint. */
  datatype Exchange = Exchange(freshSession: string, transcript: Option<string>,
                               llm: string -> Option<string>, tts: string -> Option<string>, fallbackExists: bool)

  /** The store after a sequence of calls on one session id, one after another. */
  function Replay(store: Store, sid: string, exchanges: seq<Exchange>): Store
    decreases |exchanges|
  {
    if |exchanges| == 0 then store
    else
      var x := exchanges[0];
      Replay(ChatTurn(store, sid, x.freshSession, x.transcript, x.llm, x.tts, x.fallbackExists).store, sid, exchanges[1..])
  }

  /** A transcribed call on a named session appends the user's turn and one
      assistant turn to it, and changes no other session. */
  lemma TranscribedTurnAppendsTwo(store: Store, sid: string, x: Exchange)
    requires sid != "" && Truthy(x.transcript)
    ensures var next := ChatTurn(store, sid, x.freshSession, x.transcript, x.llm, x.tts, x.fallbackExists).store;
      && |HistoryOf(next, sid)| == |HistoryOf(store, sid)| + 2
      && HistoryOf(next, sid)[..|HistoryOf(store, sid)|] == HistoryOf(store, sid)
      && HistoryOf(next, sid)[|HistoryOf(store, sid)|] == Turn(User, x.transcript.value)
      && HistoryOf(next, sid)[|HistoryOf(store, sid)| + 1].role == Assistant
      && (forall k :: k != sid ==> (k in next <==> k in store))
      && (forall k :: k != sid && k in store ==> next[k] == store[k])
  {
  }

  /** `turns` is what a run of `exchanges` adds to a session: for each
      exchange, a user turn with its transcript followed by an assistant turn. */
  predicate Answers(turns: seq<Turn>, exchanges: seq<Exchange>) {
    && |turns| == 2 * |exchanges|
    && forall i :: 0 <= i < |exchanges| ==>
         && exchanges[i].transcript.Some?
         && turns[2 * i] == Turn(User, exchanges[i].transcript.value)
         && turns[2 * i + 1].role == Assistant
  }

  /** Extending a history by one exchange's two turns and then by the turns
      of the remaining exchanges answers all of them. */
  lemma AnswersExtend(before: seq<Turn>, middle: seq<Turn>, after: seq<Turn>, exchanges: seq<Exchange>)
    requires 0 < |exchanges| && exchanges[0].transcript.Some?
    requires |middle| == |before| + 2 && middle[..|before|] == before
    requires middle[|before|] == Turn(User, exchanges[0].transcript.value) && middle[|before| + 1].role == Assistant
    requires |middle| <= |after| && after[..|middle|] == middle && Answers(after[|middle|..], exchanges[1..])
    ensures |before| <= |after| && after[..|before|] == before && Answers(after[|before|..], exchanges)
  {
    var added := after[|before|..];
    assert after[..|before|] == middle[..|before|];
    forall i | 0 <= i < |exchanges|
      ensures exchanges[i].transcript.Some?
      ensures added[2 * i] == Turn(User, exchanges[i].transcript.value)
      ensures added[2 * i + 1].role == Assistant
    {
      if i == 0 {
        assert added[0] == middle[|before|];
        assert added[1] == middle[|before| + 1];
      } else {
        assert exchanges[1..][i - 1] == exchanges[i];
        assert added[2 * i] == after[|middle|..][2 * (i - 1)];
        assert added[2 * i + 1] == after[|middle|..][2 * (i - 1) + 1];
      }
    }
  }

  /** After n transcribed calls on a named session its history has grown by
      exactly 2n turns, user and assistant alternating, each user turn holding
      that call's transcript; earlier turns and every other session are unchanged. */
  lemma {:induction false} ReplayHistory(store: Store, sid: string, exchanges: seq<Exchange>)
    requires sid != ""
    requires forall i :: 0 <= i < |exchanges| ==> Truthy(exchanges[i].transcript)
    ensures var before := HistoryOf(store, sid);
      var after := HistoryOf(Replay(store, sid, exchanges), sid);
      && |before| <= |after|
      && after[..|before|] == before
      && Answers(after[|before|..], exchanges)
    ensures forall k :: k != sid ==> (k in Replay(store, sid, exchanges) <==> k in store)
    ensures forall k :: k != sid && k in store ==> Replay(store, sid, exchanges)[k] == store[k]
    decreases |exchanges|
  {
    if |exchanges| > 0 {
      var x := exchanges[0];
      var next := ChatTurn(store, sid, x.freshSession, x.transcript, x.llm, x.tts, x.fallbackExists).store;
      var rest := exchanges[1..];
      TranscribedTurnAppendsTwo(store, sid, x);
      ReplayHistory(next, sid, rest);
      var before := HistoryOf(store, sid);
      var middle := HistoryOf(next, sid);
      var after := HistoryOf(Replay(next, sid, rest), sid);
      AnswersExtend(before, middle, after, exchanges);
    } else {
      assert HistoryOf(store, sid)[|HistoryOf(store, sid)|..] == [];
    }
  }

  /** A conversation of n transcribed calls on a new session id leaves 2n turns. */
  lemma NewSessionHistoryLength(store: Store, sid: string, exchanges: seq<Exchange>)
    requires sid != "" && sid !in store
    requires forall i :: 0 <= i < |exchanges| ==> Truthy(exchanges[i].transcript)
    ensures |HistoryOf(Replay(store, sid, exchanges), sid)| == 2 * |exchanges|
  {
    ReplayHistory(store, sid, exchanges);
  }

  /** `get_history`'s answer. */
  datatype HistoryView = HistoryView(sessionId: string, history: seq<Turn>)

  /** The process-wide session store and the two endpoints that use it. */
  class ChatStore {
    var sessions: Store

    constructor ()
      ensures sessions == map[]
    {
      sessions := map[];
    }

    /** `get_history`: reads the store and never adds a session to it. */
    function GetHistory(sid: string): (r: HistoryView)
      reads this
      ensures r.sessionId == sid
      ensures sid in sessions ==> r.history == sessions[sid]
      ensures sid !in sessions ==> r.history == []
    {
      HistoryView(sid, HistoryOf(sessions, sid))
    }

    /** The session-management step of `agent_chat`. */
    method OpenSessionFor(sid: string, freshSession: string) returns (session: string)
      modifies this
      ensures session == TargetSession(sid, freshSession)
      ensures sessions == OpenSession(old(sessions), sid, freshSession)
    {
      session := sid;
      if session == "" {
        session := freshSession;
        sessions := sessions[session := []];
      }
      if session !in sessions {
        sessions := sessions[session := []];
      }
    }

    /** Appends one turn to a stored session in place. */
    method Append(session: string, turn: Turn)
      requires session in sessions
      modifies this
      ensures sessions == AddTurn(old(sessions), session, turn)
    {
      sessions := sessions[session := sessions[session] + [turn]];
    }

    /** `agent_chat` after the upload is saved: the transcript is given, the
        model and the synthesis are oracles, `freshSession` is the uuid the
        handler would draw for an empty session id. */
    method HandleTurn(sid: string, freshSession: string, transcript: Option<string>,
                      llm: string -> Option<string>, tts: string -> Option<string>, fallbackExists: bool)
      returns (response: ChatResponse, calls: seq<Call>)
      modifies this
      ensures Outcome(sessions, response, calls) == ChatTurn(old(sessions), sid, freshSession, transcript, llm, tts, fallbackExists)
      ensures !Truthy(transcript) ==> sessions == old(sessions) && calls == []
      ensures Truthy(transcript) && sid != "" ==>
                GetHistory(sid).history == old(GetHistory(sid).history) + [Turn(User, transcript.value), Turn(Assistant, response.llmText.value)]
      ensures forall k :: k in old(sessions) && k != TargetSession(sid, freshSession) ==> k in sessions && sessions[k] == old(sessions)[k]
    {
      if !Truthy(transcript) {
        calls := [];
        if fallbackExists {
          response := Payload(if sid == "" then None else Some(sid), None, None, Some(FallbackAudioUrl), None, Some("STT failed"));
        } else {
          response := Failure(500, "STT failed");
        }
        UntranscribedTurnChangesNothing(old(sessions), sid, freshSession, transcript, llm, tts, fallbackExists);
        return;
      }
      TranscribedTurnEffect(sessions, sid, freshSession, transcript, llm, tts, fallbackExists);

      var session := OpenSessionFor(sid, freshSession);
      Append(session, Turn(User, transcript.value));

      var prompt := BuildPrompt(sessions[session]);
      calls := [AskModel(prompt)];
      var llmText := llm(prompt);
      var reply: string;
      if !Truthy(llmText) {
        reply := FallbackReply;
      } else {
        reply := llmText.value;
      }

      Append(session, Turn(Assistant, reply));

      calls := calls + [Synthesize(reply)];
      var audioUrl := tts(reply);
      if !Truthy(audioUrl) {
        if fallbackExists {
          audioUrl := Some(FallbackAudioUrl);
        } else {
          audioUrl := None;
        }
      }

      response := Payload(Some(session), transcript, Some(reply), audioUrl, Some(sessions[session]), None);
    }
  }
}
