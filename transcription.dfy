/** The speech-to-text client: upload the audio, create a transcription job,
    then poll the job at most 60 times. Every HTTP answer is an input; the
    model returns the transcript (or None) and how many requests were made. */
module Transcription {
  import opened Responses

  /** `for _ in range(60)`: the poll budget. */
  const MaxPolls: nat := 60

  /** The result of a run and the number of HTTP requests it made. */
  datatype Run = Run(text: Option<string>, requests: nat)

  /** What the poll loop does with one poll answer. */
  datatype Verdict = Pending | Done(text: Option<string>)

  /** A step (upload or job creation) succeeds with status 200 or 201 and a
      truthy value in `key`; the value is what the next step uses. */
  function StepValue(r: HttpResponse, key: string): (v: Option<string>)
    ensures v.Some? ==> r.Response? && (r.status == 200 || r.status == 201) && Truthy(v)
    ensures v.Some? ==> key in r.body && v.value == r.body[key]
    ensures r.Response? && (r.status == 200 || r.status == 201) && Truthy(Get(r.body, key)) ==> v.Some?
  {
    match r
    case Raised => None
    case Response(status, body) =>
      if status != 200 && status != 201 then None
      else if Truthy(Get(body, key)) then Get(body, key)
      else None
  }

  /** One poll: an exception ends the whole call with None; a status other
      than 200 and a job that is neither completed nor failed keep polling. */
  function PollVerdict(r: HttpResponse): (v: Verdict)
    ensures r.Raised? ==> v == Done(None)
    ensures r.Response? && r.status != 200 ==> v == Pending
    ensures r.Response? && r.status == 200 && Get(r.body, "status") == Some("completed") ==>
              v == Done(Get(r.body, "text"))
    ensures r.Response? && r.status == 200 && Get(r.body, "status") == Some("error") ==> v == Done(None)
    ensures r.Response? && r.status == 200 && Get(r.body, "status") !in {Some("completed"), Some("error")} ==>
              v == Pending
  {
    match r
    case Raised => Done(None)
    case Response(status, body) =>
      if status != 200 then Pending
      else if Get(body, "status") == Some("completed") then Done(Get(body, "text"))
      else if Get(body, "status") == Some("error") then Done(None)
      else Pending
  }

  /** The poll loop from attempt `i` on, read recursively: `polls[i]` is the
      answer to the (i+1)-th poll request. */
  function PollFrom(polls: seq<HttpResponse>, i: nat): (r: Run)
    requires i <= MaxPolls <= |polls|
    ensures i <= r.requests <= MaxPolls
    ensures i < MaxPolls ==> i < r.requests
    ensures i == MaxPolls ==> r == Run(None, MaxPolls)
    decreases MaxPolls - i
  {
    if i == MaxPolls then Run(None, MaxPolls)
    else match PollVerdict(polls[i])
      case Done(text) => Run(text, i + 1)
      case Pending => PollFrom(polls, i + 1)
  }

  /** The whole client as a function of the key's presence and the answers
      to the upload, the job creation and the polls. */
  function Transcribe(hasKey: bool, upload: HttpResponse, job: HttpResponse, polls: seq<HttpResponse>): (r: Run)
    requires MaxPolls <= |polls|
    ensures !hasKey ==> r == Run(None, 0)
    ensures hasKey && StepValue(upload, "upload_url").None? ==> r == Run(None, 1)
    ensures hasKey && StepValue(upload, "upload_url").Some? && StepValue(job, "id").None? ==> r == Run(None, 2)
    ensures r.requests <= 2 + MaxPolls
  {
    if !hasKey then Run(None, 0)
    else if StepValue(upload, "upload_url").None? then Run(None, 1)
    else if StepValue(job, "id").None? then Run(None, 2)
    else
      var p := PollFrom(polls, 0);
      Run(p.text, 2 + p.requests)
  }

  /** The first poll that ends the loop decides the result: polls before it
      were all pending, and none is made after it. */
  lemma {:induction false} FirstDecisivePollWins(polls: seq<HttpResponse>, i: nat, k: nat)
    requires i <= k < MaxPolls <= |polls|
    requires forall j :: i <= j < k ==> PollVerdict(polls[j]) == Pending
    requires PollVerdict(polls[k]).Done?
    ensures PollFrom(polls, i) == Run(PollVerdict(polls[k]).text, k + 1)
    decreases k - i
  {
    if i < k {
      FirstDecisivePollWins(polls, i + 1, k);
    }
  }

  /** When none of the 60 polls is decisive, the loop gives up with None
      after exactly 60 requests. */
  lemma {:induction false} AllPendingTimesOut(polls: seq<HttpResponse>, i: nat)
    requires i <= MaxPolls <= |polls|
    requires forall j :: i <= j < MaxPolls ==> PollVerdict(polls[j]) == Pending
    ensures PollFrom(polls, i) == Run(None, MaxPolls)
    decreases MaxPolls - i
  {
    if i < MaxPolls {
      AllPendingTimesOut(polls, i + 1);
    }
  }

  /** Conversely, every result is explained by the polls: all polls before
      the last one made were pending, and the last one either decided the
      result or was the 60th, pending, poll. */
  lemma {:induction false} PollResultExplained(polls: seq<HttpResponse>, i: nat)
    requires i < MaxPolls <= |polls|
    ensures var r := PollFrom(polls, i);
      && (forall j :: i <= j < r.requests - 1 ==> PollVerdict(polls[j]) == Pending)
      && (PollVerdict(polls[r.requests - 1]).Done? ==> r.text == PollVerdict(polls[r.requests - 1]).text)
      && (PollVerdict(polls[r.requests - 1]).Pending? ==> r.requests == MaxPolls && r.text == None)
    decreases MaxPolls - i
  {
    if PollVerdict(polls[i]).Pending? && i + 1 < MaxPolls {
      PollResultExplained(polls, i + 1);
    }
  }

  /** A completed poll returns its own `text` field, whatever came before it
      that was pending (failed requests, queued or processing jobs). */
  lemma CompletedPollReturnsText(hasKey: bool, upload: HttpResponse, job: HttpResponse, polls: seq<HttpResponse>, k: nat)
    requires MaxPolls <= |polls| && k < MaxPolls
    requires hasKey && StepValue(upload, "upload_url").Some? && StepValue(job, "id").Some?
    requires forall j :: 0 <= j < k ==> PollVerdict(polls[j]) == Pending
    requires polls[k].Response? && polls[k].status == 200 && Get(polls[k].body, "status") == Some("completed")
    ensures Transcribe(hasKey, upload, job, polls) == Run(Get(polls[k].body, "text"), k + 3)
  {
    FirstDecisivePollWins(polls, 0, k);
  }

  /** `transcribe_with_assemblyai` as the source runs it: early returns for
      each failed step, then a counted poll loop. */
  method TranscribeWithAssemblyAI(hasKey: bool, upload: HttpResponse, job: HttpResponse, polls: seq<HttpResponse>)
    returns (text: Option<string>, requests: nat)
    requires MaxPolls <= |polls|
    ensures Run(text, requests) == Transcribe(hasKey, upload, job, polls)
  {
    requests := 0;
    if !hasKey {
      return None, 0;
    }
    requests := 1;
    if StepValue(upload, "upload_url").None? {
      return None, requests;
    }
    requests := 2;
    if StepValue(job, "id").None? {
      return None, requests;
    }
    for attempt := 0 to MaxPolls
      invariant requests == 2 + attempt
      invariant PollFrom(polls, attempt) == PollFrom(polls, 0)
    {
      requests := requests + 1;
      var answer := polls[attempt];
      if answer.Raised? {
        return None, requests;
      }
      if answer.status != 200 {
        continue;
      }
      var status := Get(answer.body, "status");
      if status == Some("completed") {
        return Get(answer.body, "text"), requests;
      }
      if status == Some("error") {
        return None, requests;
      }
    }
    return None, requests;
  }
}
