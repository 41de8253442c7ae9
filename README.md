# Voice agent turn logic, modelled in Dafny

This project models the stateful core of a small voice-chat backend. The backend
turns an uploaded recording into a transcript with a speech-to-text service. It
asks a language model for a reply, given the whole conversation so far, and turns
the reply into audio with a text-to-speech service. Each stage has a fixed
fallback. The conversation is kept in a process-wide map from session id to the
list of turns.

The network is treated as an oracle. Every answer a remote service could give is
an input value, as follows:

- The speech-to-text client gets the answer to the upload, to the job creation and
  to each of up to 60 status polls.
- The synthesis client gets the synthesis answer and the answer to the mirror
  download.
- In a chat turn, the transcript is an input. The language model and the
  synthesis are total functions from the text they are sent to an optional
  result, so the model can state which prompt was sent.

Modules, one per component:

- `Responses` (responses.dfy): `Option`, a decoded JSON object (`map<string, string>`),
  Python truthiness, the `or` operator, and the shapes of HTTP answers.
- `Transcription` (transcription.dfy): `transcribe_with_assemblyai`. This covers
  the key check, the two request steps and the 60-attempt poll loop. The loop is
  an imperative method, proved equal to a recursive reading of the loop. Lemmas
  about that reading cover the first decisive poll, the time-out, and the converse.
- `Synthesis` (synthesis.dfy): `generate_murf_audio` and `download_url_to_file`.
  It holds the four-alias `or` chain and its equivalence with a priority list,
  the generated file name and a round trip that reads the name back, the static
  directory as a class updated by the downloader, and the final local-or-remote
  choice.
- `Prompts` (prompts.dfy): turns, the prompt text, the loop that builds it, and a
  parser showing that the prompt holds every turn, in order, with its role.
- `Conversation` (conversation.dfy): the `chat_history_store` as the class
  `ChatStore`, `agent_chat` as `HandleTurn`, `get_history`, and lemmas about
  one turn and about a run of turns.

The STT and TTS clients exist twice in the source: in `services/` and again in
`main.py` (lines 66-187). The copies behave the same, except that the `main.py`
synthesis client also logs the raw body. The model follows the `services/` files,
and the chat turn uses that behaviour.

Facts about the source's behaviour that the model keeps:

- The mirrored file name is `murf_<seconds>_<8 hex>.mp3`.
- The preamble comes before the turns in the prompt.
- The upload and job steps accept exactly 200 or 201. The poll and download
  steps accept exactly 200.
- When transcription fails and the fallback file is missing, the answer is a 500.

## Model

| member | source | states |
|---|---|---|
| `Transcription.StepValue` | services/stt_service.py:21-40 | an upload or job-creation step yields a value only for status 200 or 201 with a truthy `upload_url` / `id` field, and then yields that field |
| `Transcription.PollVerdict` | services/stt_service.py:44-56 | one poll answer: an exception ends the call with None; a non-200 status keeps polling; "completed" ends with the poll's `text`; "error" ends with None; any other status keeps polling |
| `Transcription.PollFrom` | services/stt_service.py:43-58 | the loop from attempt i makes more than i and at most 60 poll requests; with the budget spent it returns None after 60 |
| `Transcription.Transcribe` | services/stt_service.py:11-58 | no key: None and no request; failed upload: None after 1 request; failed job creation: None after 2; never more than 62 requests |
| `Transcription.FirstDecisivePollWins` | services/stt_service.py:43-55 | if polls before k were all pending and poll k decides, the result is poll k's verdict and exactly k+1 polls are made |
| `Transcription.AllPendingTimesOut` | services/stt_service.py:43-58 | if none of the 60 polls decides, the result is None after exactly 60 polls |
| `Transcription.PollResultExplained` | services/stt_service.py:43-58 | conversely, every poll before the last one made was pending, and the last either decided the result or was the pending 60th |
| `Transcription.CompletedPollReturnsText` | services/stt_service.py:50-52 | the first 200 "completed" poll returns its own `text` field, after k+3 requests in all, whatever pending polls came first |
| `Transcription.TranscribeWithAssemblyAI` | services/stt_service.py:7-61 | the imperative client (early returns, counted loop with `continue`) returns exactly the transcript and request count of `Transcribe` |
| `Synthesis.FirstTruthy` | services/tts_service.py:54 | the priority-list reading of the aliases: the value is truthy and belongs to a listed key, and there is one exactly when some listed field is truthy |
| `Synthesis.AudioReference` | services/tts_service.py:54 | the `or` chain as written: usable exactly when one of the four aliases is truthy, and `audioFile` wins whenever it is set; `AudioReferenceIsFirstTruthyAlias` gives the full priority order |
| `Synthesis.FirstTruthyPicksEarliest` | services/tts_service.py:54 | the earliest truthy field wins, whatever later fields hold |
| `Synthesis.AudioReferenceIsFirstTruthyAlias` | services/tts_service.py:54 | the source's `or` chain over `audioFile`, `audio_file`, `audio_url`, `audioFileUrl` is usable exactly when some alias is truthy, and then equals the first truthy one |
| `Synthesis.AnySingleAliasIsFound` | services/tts_service.py:54 | a response setting only one of the four aliases yields that value, whichever alias it is |
| `Synthesis.Decimal` | services/tts_service.py:59 | the rendering of the time stamp is a non-empty string of decimal digits |
| `Synthesis.DecimalRoundTrip` | services/tts_service.py:59 | reading the rendered time stamp back gives the number |
| `Synthesis.LocalName` | services/tts_service.py:59 | the generated name starts with `murf_`, ends with `.mp3`, and carries the first 8 characters of the uuid hex right before the extension; `LocalNameRoundTrip` reads the whole name back |
| `Synthesis.LocalNameRoundTrip` | services/tts_service.py:59 | `murf_<seconds>_<hex[:8]>.mp3` can be read back into the seconds and the 8-character tag |
| `Synthesis.LocalNameDistinct` | services/tts_service.py:59-60 | two mirrors get different file names unless both the second and the tag agree |
| `Synthesis.StaticDir.DownloadUrlToFile` | services/tts_service.py:10-23 | succeeds exactly on a 200 answer and then stores the body under `dest`; on another status or an exception it reports failure and writes nothing |
| `Synthesis.SynthesisResult` | services/tts_service.py:30-74 | there is a result exactly when the key is set, the answer is 200 and some alias is truthy; it is `/static/<name>` when the mirror succeeded and the first truthy alias otherwise |
| `Synthesis.GenerateMurfAudio` | services/tts_service.py:25-74 | the client returns `SynthesisResult` and changes the static directory only when it mirrored the audio under the generated name |
| `Prompts.Role.Label` | main.py:293 | the label is the stored role name with its first letter in upper case |
| `Prompts.Lines` | main.py:291-294 | one line per stored turn, in insertion order, each `<Role>: <content>` |
| `Prompts.PromptOf` | main.py:291-300 | the prompt starts with the preamble and ends with the `\nAssistant:` cue, the frame the parser checks; `PromptRoundTrip` and `PromptAppend` give the turns between them |
| `Prompts.BuildPrompt` | main.py:291-300 | the loop collecting lines, then the join and the framing, produces `PromptOf(history)`: preamble, the lines, and the `\nAssistant:` cue |
| `Prompts.SplitJoin` | main.py:295 | splitting the joined history text on line breaks gives back the lines, when no line contains a break |
| `Prompts.LineRoundTrip` | main.py:293-294 | a turn's line reads back into the same role and content |
| `Prompts.ParseLinesRoundTrip` | main.py:291-294 | the lines of a history read back into the same history |
| `Prompts.PromptRoundTrip` | main.py:291-300 | the prompt of a non-empty history reads back into exactly that history (roles, contents and order) when no content spans lines |
| `Prompts.PromptAppend` | main.py:288-300 | appending a turn adds exactly a line break and its line before the cue, and the earlier prompt text is unchanged |
| `Prompts.PromptEndsWithLastTurn` | main.py:291-300 | the prompt ends with the newest turn's line followed by the cue |
| `Conversation.HistoryOf` | main.py:367 | `get(session_id, [])`: the stored turns of a known session, the empty list for an unknown one |
| `Conversation.OpenSession` | main.py:281-285 | session management: an empty id is replaced by the fresh one, which starts empty; an unknown id starts empty; a known id keeps its turns; every other session is unchanged |
| `Conversation.AddTurn` | main.py:288 | appending adds the turn at the end of that session only, and adds no session |
| `Conversation.ReplyText` | main.py:315-318 | the stored reply is never empty: the model's answer when it is truthy, the fixed apology when it is missing or empty |
| `Conversation.AudioChoice` | main.py:324-330 | synthesized audio when it is truthy; otherwise the fallback asset exactly when the file exists; otherwise None |
| `Conversation.ChatTurn` | main.py:254-339 | one call of `agent_chat` on the store: stages are called exactly when there is a transcript, an untranscribed call leaves the store as it was, and the answer is an error exactly when the transcript is missing and so is the fallback file; `UntranscribedTurnChangesNothing` and `TranscribedTurnEffect` give the full effect |
| `Conversation.UntranscribedTurnChangesNothing` | main.py:263-275 | with a missing or empty transcript the store is unchanged, neither the model nor the synthesis is invoked, and the answer is the "STT failed" payload with null transcription and reply, or a 500 without the fallback file |
| `Conversation.TranscribedTurnEffect` | main.py:280-339 | with a transcript, the target session gains exactly `{user, transcript}` then `{assistant, reply}`, other sessions are unchanged, the model is asked once with the prompt of the history up to the user turn, the synthesis once with the reply, and the payload carries the id, transcript, reply, chosen audio and full history |
| `Conversation.PromptShowsNewestUserTurn` | main.py:288-306 | the prompt sent is the prompt of the prior history plus the user turn, so it holds no reply for this turn; it ends with the current transcript's user line and the cue for every transcript; when no content spans lines it reads back into the prior history plus the user turn |
| `Conversation.TranscribedTurnAppendsTwo` | main.py:284-321 | on a named session, a transcribed call grows the history by exactly two, keeps earlier turns, puts the transcript first and an assistant turn second, and leaves other sessions alone |
| `Conversation.ReplayHistory` | main.py:280-337 | after n transcribed calls on one named session the history has grown by exactly 2n turns, alternating user and assistant, with each call's transcript, earlier turns and other sessions unchanged |
| `Conversation.NewSessionHistoryLength` | main.py:281-321 | a new session after n transcribed calls holds exactly 2n turns |
| `Conversation.ChatStore.GetHistory` | main.py:365-367 | `get_history` answers with the id and the stored list, or `[]` for an unknown id; as a read-only function it adds no session |
| `Conversation.ChatStore.OpenSessionFor` | main.py:280-285 | the in-place session-management step yields the target id and the store `OpenSession` describes |
| `Conversation.ChatStore.Append` | main.py:288 | the in-place append leaves the store `AddTurn` describes |
| `Conversation.ChatStore.HandleTurn` | main.py:254-339 | the in-place handler leaves exactly the store, answer and calls of the turn function; without a transcript nothing changes and nothing is called; with one, a named session's history grows by the user turn and the reply, and every other session is unchanged |

## Left out

- Saving the upload (main.py:256-260) is not modelled. This covers the random
  upload name and the file copy. The transcript is an input of the turn.
- Real HTTP traffic, time-outs and the `asyncio.sleep` delays between polls are
  not modelled. Every answer is an input value. A transport error, a time-out and
  a body that is not JSON are all the single `Raised` answer.
- JSON values other than strings are not modelled. A field holding JSON null is
  treated like an absent field, because `dict.get` cannot tell them apart.
- The Gemini client and its configuration check are not modelled
  (main.py:43-55, main.py:304-313). The model's answer is an oracle that returns
  None both when the client is not configured and when the call fails. So the
  `AskModel` entry of a turn's call list records that the language-model stage
  was reached, not that a network request was sent.
- `query_gemini` (services/llm_service.py) and the `/llm/query` route are not
  modelled. They are thin wrappers over a library that is not part of this model.
- The `/generate-audio` route (main.py:230-245) is route plumbing around the
  synthesis client and is not modelled.
- The text and voice id sent to the synthesis endpoint are not modelled. Only the
  answer matters to the result.
- A failing write of the mirrored file is treated like a failed download, so the
  model writes nothing. Python might leave a partial file.
- `ensure_fallback_audio`, the startup hook, the app setup, the static mounts and
  the index route are not modelled. `fallbackExists` is an input.
- The top-level exception handler of `agent_chat` (main.py:341-351) is not
  modelled.
- Concurrency is not modelled. Each turn runs alone on the store.
- The `history` list in the answer is a value snapshot. In Python it is the live
  list that later turns keep appending to.
- Capitalisation is modelled for the two stored role names only, not for
  Python's full Unicode `str.capitalize`.
- The clock is a natural number of seconds. A clock before 1970 is not modelled.
- `uuid4().hex` is only required to have at least 8 characters. That its
  characters are hexadecimal is not checked.
- Conversation.PromptShowsNewestUserTurn: the read-back half needs every content to
  fit on one line, for the reason given for `Prompts.PromptRoundTrip` below.
- Prompts.PromptRoundTrip: needs every content to fit on one line. Without that,
  the prompt is ambiguous: a reply containing "\nUser: …" reads back as an extra
  turn. The source does nothing about this.
