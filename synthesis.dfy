/** The text-to-speech client: one synthesis request, an audio reference
    taken from whichever of four response fields is set, and an attempt to
    mirror the audio into the static directory under a generated name. */
module Synthesis {
  import opened Responses

  /** The field names the synthesis response may use, in priority order. */
  const Aliases: seq<string> := ["audioFile", "audio_file", "audio_url", "audioFileUrl"]

  /** The source's `or` chain over the four fields, as written. */
  function AudioReference(body: Json): (r: Option<string>)
    ensures Truthy(r) <==>
      Truthy(Get(body, "audioFile")) || Truthy(Get(body, "audio_file")) ||
      Truthy(Get(body, "audio_url")) || Truthy(Get(body, "audioFileUrl"))
    ensures Truthy(Get(body, "audioFile")) ==> r == Get(body, "audioFile")
  {
    Or(Or(Or(Get(body, "audioFile"), Get(body, "audio_file")), Get(body, "audio_url")), Get(body, "audioFileUrl"))
  }

  /** Reference definition: the value of the first key in `keys` whose field
      is truthy, or None when there is none. */
  function FirstTruthy(body: Json, keys: seq<string>): (r: Option<string>)
    ensures r.Some? ==> Truthy(r)
    ensures r.Some? <==> exists k :: k in keys && Truthy(Get(body, k))
    ensures r.Some? ==> exists k :: k in keys && Get(body, k) == r
    decreases |keys|
  {
    if |keys| == 0 then None
    else if Truthy(Get(body, keys[0])) then Get(body, keys[0])
    else
      assert forall k :: k in keys ==> k == keys[0] || k in keys[1..];
      FirstTruthy(body, keys[1..])
  }

  /** The earliest truthy field wins, whatever the later fields hold. */
  lemma {:induction false} FirstTruthyPicksEarliest(body: Json, keys: seq<string>, i: nat)
    requires i < |keys| && Truthy(Get(body, keys[i]))
    requires forall j :: 0 <= j < i ==> !Truthy(Get(body, keys[j]))
    ensures FirstTruthy(body, keys) == Get(body, keys[i])
    decreases i
  {
    if 0 < i {
      FirstTruthyPicksEarliest(body, keys[1..], i - 1);
    }
  }

  /** The `or` chain is the priority list: when it yields something usable it
      is the first truthy alias, and it yields nothing usable exactly when no
      alias is truthy. */
  lemma AudioReferenceIsFirstTruthyAlias(body: Json)
    ensures Truthy(AudioReference(body)) <==> FirstTruthy(body, Aliases).Some?
    ensures Truthy(AudioReference(body)) ==> AudioReference(body) == FirstTruthy(body, Aliases)
  {
    if Truthy(Get(body, "audioFile")) {
      FirstTruthyPicksEarliest(body, Aliases, 0);
    } else if Truthy(Get(body, "audio_file")) {
      FirstTruthyPicksEarliest(body, Aliases, 1);
    } else if Truthy(Get(body, "audio_url")) {
      FirstTruthyPicksEarliest(body, Aliases, 2);
    } else if Truthy(Get(body, "audioFileUrl")) {
      FirstTruthyPicksEarliest(body, Aliases, 3);
    } else {
      assert forall k :: k in Aliases ==> !Truthy(Get(body, k));
    }
  }

  /** A response that sets only one alias yields that value, whichever alias it is. */
  lemma AnySingleAliasIsFound(key: string, value: string)
    requires key in Aliases && value != ""
    ensures AudioReference(map[key := value]) == Some(value)
  {
  }

  // ---- The generated file name: murf_<seconds>_<8 hex digits>.mp3 ----

  function DigitChar(d: nat): char
    requires d < 10
  {
    "0123456789"[d]
  }

  predicate IsDigit(c: char) {
    '0' as int <= c as int <= '9' as int
  }

  /** `str(n)` for a non-negative integer. */
  function Decimal(n: nat): (s: string)
    ensures 0 < |s| && forall i :: 0 <= i < |s| ==> IsDigit(s[i])
  {
    if n < 10 then [DigitChar(n)] else Decimal(n / 10) + [DigitChar(n % 10)]
  }

  /** `int(s)` for a string of decimal digits. */
  function DecimalValue(s: string): nat
    requires forall i :: 0 <= i < |s| ==> IsDigit(s[i])
  {
    if |s| == 0 then 0
    else
      assert IsDigit(s[|s| - 1]);
      10 * DecimalValue(s[..|s| - 1]) + (s[|s| - 1] as int - '0' as int)
  }

  lemma {:induction false} DecimalRoundTrip(n: nat)
    ensures DecimalValue(Decimal(n)) == n
  {
    var s := Decimal(n);
    if 10 <= n {
      DecimalRoundTrip(n / 10);
      assert s[..|s| - 1] == Decimal(n / 10);
    }
  }

  /** `murf_{int(time.time())}_{uuid4().hex[:8]}.mp3`. */
  function LocalName(seconds: nat, uuidHex: string): (r: string)
    requires 8 <= |uuidHex|
    ensures 19 <= |r|
    ensures r[..5] == "murf_" && r[|r| - 4..] == ".mp3"
    ensures r[|r| - 12..|r| - 4] == uuidHex[..8]
  {
    "murf_" + Decimal(seconds) + "_" + uuidHex[..8] + ".mp3"
  }

  /** Reads a generated name back into its time stamp and its random tag. */
  function ParseLocalName(name: string): Option<(nat, string)> {
    if 19 <= |name| && name[..5] == "murf_" && name[|name| - 4..] == ".mp3" then
      var middle := name[5..|name| - 4];
      var digits := middle[..|middle| - 9];
      if middle[|middle| - 9] == '_' && 0 < |digits| && forall i :: 0 <= i < |digits| ==> IsDigit(digits[i])
      then Some((DecimalValue(digits), middle[|middle| - 8..]))
      else None
    else None
  }

  /** The name determines the time stamp and the tag it was made from. */
  lemma LocalNameRoundTrip(seconds: nat, uuidHex: string)
    requires 8 <= |uuidHex|
    ensures ParseLocalName(LocalName(seconds, uuidHex)) == Some((seconds, uuidHex[..8]))
  {
    var name := LocalName(seconds, uuidHex);
    var d := Decimal(seconds);
    assert name[..5] == "murf_";
    assert name[|name| - 4..] == ".mp3";
    var middle := name[5..|name| - 4];
    assert middle == d + "_" + uuidHex[..8];
    assert middle[..|middle| - 9] == d;
    assert middle[|middle| - 8..] == uuidHex[..8];
    DecimalRoundTrip(seconds);
  }

  /** Two downloads get the same file name only when both the second and the
      random tag agree. */
  lemma LocalNameDistinct(s1: nat, h1: string, s2: nat, h2: string)
    requires 8 <= |h1| && 8 <= |h2|
    requires s1 != s2 || h1[..8] != h2[..8]
    ensures LocalName(s1, h1) != LocalName(s2, h2)
  {
    LocalNameRoundTrip(s1, h1);
    LocalNameRoundTrip(s2, h2);
  }

  // ---- Downloading and the result ----

  /** `download_url_to_file` succeeds exactly on a 200 answer. */
  predicate Mirrored(fetch: Fetch) {
    fetch.Fetched? && fetch.status == 200
  }

  /** The static directory the server writes mirrored audio into, by file name. */
  class StaticDir {
    var files: map<string, seq<bv8>>

    constructor ()
      ensures files == map[]
    {
      files := map[];
    }

    /** Writes the body to `dest` only on a 200 answer; reports whether it did. */
    method DownloadUrlToFile(dest: string, fetch: Fetch) returns (ok: bool)
      modifies this
      ensures ok <==> Mirrored(fetch)
      ensures ok ==> files == old(files)[dest := fetch.bytes]
      ensures !ok ==> files == old(files)
    {
      match fetch
      case FetchRaised =>
        return false;
      case Fetched(status, bytes) =>
        if status != 200 {
          return false;
        }
        files := files[dest := bytes];
        return true;
    }
  }

  /** What `generate_murf_audio` returns, given the key's presence, the
      synthesis answer, the name the mirror would get and whether the mirror
      download succeeded. */
  function SynthesisResult(hasKey: bool, answer: HttpResponse, localName: string, mirrored: bool): (r: Option<string>)
    ensures r.Some? <==> hasKey && answer.Response? && answer.status == 200 && FirstTruthy(answer.body, Aliases).Some?
    ensures r.Some? && mirrored ==> r.value == "/static/" + localName
    ensures r.Some? && !mirrored ==> r == FirstTruthy(answer.body, Aliases)
  {
    if !hasKey then None
    else match answer
      case Raised => None
      case Response(status, body) =>
        if status != 200 then None
        else
          AudioReferenceIsFirstTruthyAlias(body);
          var reference := AudioReference(body);
          if !Truthy(reference) then None
          else if mirrored then Some("/static/" + localName)
          else reference
  }

  /** `generate_murf_audio`: the synthesis request's answer, the clock and
      the random tag are inputs, as is the answer to the mirror download. */
  method GenerateMurfAudio(dir: StaticDir, hasKey: bool, answer: HttpResponse,
                           seconds: nat, uuidHex: string, mirror: Fetch)
    returns (r: Option<string>)
    requires 8 <= |uuidHex|
    modifies dir
    ensures r == SynthesisResult(hasKey, answer, LocalName(seconds, uuidHex), Mirrored(mirror))
    ensures r.Some? && Mirrored(mirror) ==> dir.files == old(dir.files)[LocalName(seconds, uuidHex) := mirror.bytes]
    ensures r.None? || !Mirrored(mirror) ==> dir.files == old(dir.files)
  {
    if !hasKey {
      return None;
    }
    if answer.Raised? || answer.status != 200 {
      return None;
    }
    var audioUrl := AudioReference(answer.body);
    if Truthy(audioUrl) {
      var localName := LocalName(seconds, uuidHex);
      var ok := dir.DownloadUrlToFile(localName, mirror);
      if ok {
        return Some("/static/" + localName);
      }
      return audioUrl;
    }
    return None;
  }
}
