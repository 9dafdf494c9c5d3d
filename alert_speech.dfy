/** The speech lambda: it finds the newest analysed event, turns its alert level into a sentence for
  * the resident, and has it spoken into an MP3, retrying once when the speech service denies
  * access. */
module AlertSpeech {
  import opened Wrappers
  import opened Text
  import opened Json
  import opened Calendar

  const EventsBucket: string := "elderly-home-monitoring-events"
  const DetectedPrefix: string := "detected-images/"
  const PollyPrefix: string := "polly-alerts/"
  const AnalysisSuffix: string := "_analysis.json"

  // ---------------------------------------------------------------- the newest event

  /** `[k for k in keys if k.endswith('_analysis.json')]` */
  function AnalysisKeys(keys: seq<string>): (r: seq<string>)
    ensures forall k :: k in r <==> k in keys && EndsWith(k, AnalysisSuffix)
    ensures |r| <= |keys|
  {
    if keys == [] then []
    else
      var rest := AnalysisKeys(keys[..|keys| - 1]);
      var last := keys[|keys| - 1];
      assert forall k :: k in keys <==> k in keys[..|keys| - 1] || k == last by {
        assert keys == keys[..|keys| - 1] + [last];
      }
      if EndsWith(last, AnalysisSuffix) then rest + [last] else rest
  }

  /** The key `get_latest_event` reads: the greatest analysis key under the greatest folder prefix.
    * `folders` is the first listing (its common prefixes), `listing` the second, by prefix; a failed
    * listing is `Err`. */
  function LatestEventKey(folders: Result<seq<string>>, listing: string -> Result<seq<string>>): (r: Option<string>)
    ensures r.None? <==> (|| folders.Err? || folders.value == []
                          || listing(MaxString(folders.value)).Err?
                          || AnalysisKeys(listing(MaxString(folders.value)).value) == [])
    ensures r.Some? ==>
      var folder := MaxString(folders.value);
      && folder in folders.value && (forall f :: f in folders.value ==> !LexLess(folder, f))
      && r.value in listing(folder).value && EndsWith(r.value, AnalysisSuffix)
      && forall k :: k in listing(folder).value && EndsWith(k, AnalysisSuffix) ==> !LexLess(r.value, k)
  {
    if folders.Err? || folders.value == [] then None
    else
      var folder := MaxString(folders.value);
      forall f | f in folders.value ensures !LexLess(folder, f) {
        if f != folder { LexLessAsymmetric(f, folder); } else { LexLessIrreflexive(f); }
      }
      match listing(folder)
      case Err(_) => None
      case Ok(keys) =>
        var candidates := AnalysisKeys(keys);
        if candidates == [] then None
        else
          var key := MaxString(candidates);
          forall k | k in keys && EndsWith(k, AnalysisSuffix) ensures !LexLess(key, k) {
            if k != key { LexLessAsymmetric(k, key); } else { LexLessIrreflexive(k); }
          }
          Some(key)
  }

  /** `get_latest_event`: the newest event's report, or `None` when there is none or any call
    * fails. `fetch` is the read and decode of one object. */
  function LatestEvent(folders: Result<seq<string>>, listing: string -> Result<seq<string>>,
                       fetch: string -> Result<Json>): (r: Option<Json>)
    ensures r.Some? <==> LatestEventKey(folders, listing).Some? && fetch(LatestEventKey(folders, listing).value).Ok?
    ensures r.Some? ==> r.value == fetch(LatestEventKey(folders, listing).value).value
  {
    match LatestEventKey(folders, listing)
    case None => None
    case Some(key) => if fetch(key).Ok? then Some(fetch(key).value) else None
  }

  // ---------------------------------------------------------------- the message

  datatype AlertLevel = Fine | Minor | Serious | Undetermined

  /** `event_data.get('alert_level', 0)` compared with `==` against 0, 1 and 2. */
  function LevelOf(eventData: map<string, Json>): (r: AlertLevel)
    ensures "alert_level" !in eventData ==> r == Fine
    ensures "alert_level" in eventData ==>
      && (r == Fine <==> EqualsInt(eventData["alert_level"], 0))
      && (r == Minor <==> EqualsInt(eventData["alert_level"], 1))
      && (r == Serious <==> EqualsInt(eventData["alert_level"], 2))
  {
    var level := GetOr(JObj(eventData), "alert_level", JInt(0));
    if EqualsInt(level, 0) then Fine
    else if EqualsInt(level, 1) then Minor
    else if EqualsInt(level, 2) then Serious
    else Undetermined
  }

  const FineMessage: string := "Hello! Everything seems fine. No immediate issues detected."
  const MinorHead: string := "Hi! A minor incident was detected: "
  const MinorTail: string := ". Please respond if you are okay."
  const SeriousHead: string := "Attention! A serious incident was detected: "
  const SeriousTail: string := ". Please stay still. Help has been informed."
  const UndeterminedMessage: string := "Hello! Unable to determine alert level, please stay safe."
  const NoBrief: string := "No concerning activity detected."

  /** `event_data.get('brief_description', ...)` as the f-string renders it. */
  function Brief(eventData: map<string, Json>, repr: Json -> string): string {
    Str(GetOr(JObj(eventData), "brief_description", JStr(NoBrief)), repr)
  }

  /** `generate_message` */
  function GenerateMessage(eventData: map<string, Json>, repr: Json -> string): string {
    match LevelOf(eventData)
    case Fine => FineMessage
    case Minor => MinorHead + Brief(eventData, repr) + MinorTail
    case Serious => SeriousHead + Brief(eventData, repr) + SeriousTail
    case Undetermined => UndeterminedMessage
  }

  /** The two incident messages quote the brief description, right after their fixed opening; a
    * report without one is described as showing nothing of concern. */
  lemma IncidentMessageQuotesBrief(eventData: map<string, Json>, repr: Json -> string)
    requires LevelOf(eventData) == Minor || LevelOf(eventData) == Serious
    ensures var head := if LevelOf(eventData) == Minor then MinorHead else SeriousHead;
      var m := GenerateMessage(eventData, repr);
      && StartsWith(m, head) && m[|head|..|head| + |Brief(eventData, repr)|] == Brief(eventData, repr)
      && Contains(m, Brief(eventData, repr))
    ensures "brief_description" !in eventData ==> Brief(eventData, repr) == NoBrief
  {
    var head := if LevelOf(eventData) == Minor then MinorHead else SeriousHead;
    var tail := if LevelOf(eventData) == Minor then MinorTail else SeriousTail;
    var b := Brief(eventData, repr);
    var m := GenerateMessage(eventData, repr);
    assert m == head + b + tail;
    assert m[..|head|] == head;
    assert m[|head|..|head| + |b|] == b;
    ContainsAt(m, b, |head|);
  }

  /** A report that says nothing about its level, or says 0, gets the all-clear. */
  lemma MissingLevelIsFine(eventData: map<string, Json>, repr: Json -> string)
    requires "alert_level" !in eventData || eventData["alert_level"] == JInt(0) || eventData["alert_level"] == JBool(false)
    ensures GenerateMessage(eventData, repr) == FineMessage
  {
  }

  // ---------------------------------------------------------------- speech, with one retry

  /** What one synthesis attempt (the speech call and the upload of its audio) does. `text` is
    * `str(e)` of the exception. */
  datatype Attempt =
    | Saved
    | ClientFailure(code: string, text: string)
    | OtherFailure(text: string)

  const MaxRetries: nat := 2
  const RetryDelay: nat := 5
  const AccessDenied: string := "AccessDeniedException"

  /** `{output_prefix}{%Y%m%d-%H%M%S}.mp3` */
  function AudioKey(prefix: string, t: DateTime): (r: string)
    requires Valid(t)
    ensures StartsWith(r, prefix) && EndsWith(r, ".mp3")
  {
    var key := prefix + Stamp(t, "-", "") + ".mp3";
    assert key[..|prefix|] == prefix;
    EndsWithAppend(prefix + Stamp(t, "-", ""), ".mp3");
    key
  }

  /** Whether attempt `k` fails in a way that is tried again. */
  predicate Retried(attempts: nat -> Attempt, k: nat) {
    k < MaxRetries - 1 && attempts(k).ClientFailure? && attempts(k).code == AccessDenied
  }

  /** The attempt whose result `speak_to_elderly` reports: the first, or the second after a denied
    * first. */
  function Final(attempts: nat -> Attempt): (k: nat)
    ensures k < MaxRetries
    ensures k == 1 <==> Retried(attempts, 0)
  {
    if Retried(attempts, 0) then 1 else 0
  }

  /** The key of the saved audio, or the text of the exception that escapes. `clock(k)` is the time
    * read in attempt `k`. */
  function Synthesis(attempts: nat -> Attempt, clock: nat -> DateTime, prefix: string): (r: Result<string>)
    requires forall k :: Valid(clock(k))
  {
    var k := Final(attempts);
    match attempts(k)
    case Saved => Ok(AudioKey(prefix, clock(k)))
    case ClientFailure(_, text) => Err(text)
    case OtherFailure(text) => Err(text)
  }

  /** At most two attempts; a second only after access was denied; success is reported with the key
    * of the attempt that succeeded and a failure with the exception of the last attempt. */
  lemma SynthesisRetriesOnlyDenied(attempts: nat -> Attempt, clock: nat -> DateTime, prefix: string)
    requires forall k :: Valid(clock(k))
    ensures var r := Synthesis(attempts, clock, prefix);
      && (attempts(0) == Saved ==> r == Ok(AudioKey(prefix, clock(0))))
      && (attempts(0).OtherFailure? ==> r == Err(attempts(0).text))
      && (attempts(0).ClientFailure? && attempts(0).code != AccessDenied ==> r == Err(attempts(0).text))
      && (attempts(0).ClientFailure? && attempts(0).code == AccessDenied ==>
            (attempts(1) == Saved ==> r == Ok(AudioKey(prefix, clock(1))))
            && (!attempts(1).Saved? ==> r == Err(attempts(1).text)))
      && (r.Ok? ==> StartsWith(r.value, prefix) && EndsWith(r.value, ".mp3"))
  {
  }

  /** `speak_to_elderly`: the attempt loop. `calls` counts the attempts made and `waited` the
    * seconds slept between them. */
  method SpeakToElderly(attempts: nat -> Attempt, clock: nat -> DateTime, prefix: string)
    returns (r: Result<string>, calls: nat, waited: nat)
    requires forall k :: Valid(clock(k))
    ensures r == Synthesis(attempts, clock, prefix)
    ensures calls == Final(attempts) + 1 && 1 <= calls <= MaxRetries
    ensures waited == RetryDelay * (calls - 1)
  {
    var attempt: nat := 0;
    waited := 0;
    while attempt < MaxRetries
      invariant attempt < MaxRetries
      invariant attempt == 1 ==> Retried(attempts, 0)
      invariant waited == RetryDelay * attempt
    {
      match attempts(attempt) {
        case Saved =>
          return Ok(AudioKey(prefix, clock(attempt))), attempt + 1, waited;
        case ClientFailure(code, text) =>
          if code == AccessDenied && attempt < MaxRetries - 1 {
            waited := waited + RetryDelay;
            attempt := attempt + 1;
          } else {
            return Err(text), attempt + 1, waited;
          }
        case OtherFailure(text) =>
          return Err(text), attempt + 1, waited;
      }
    }
    assert false;
  }

  // ---------------------------------------------------------------- the handler

  /** What the lambda returns, or the exception it lets escape. */
  datatype Outcome = Response(statusCode: int, body: string) | Raised(message: string)

  const NoEvent: string := "No recent event found."

  /** `lambda_handler`: 404 without an event, 200 with the spoken message and the audio's location,
    * 500 when speaking fails; a report that is not a dict fails in `generate_message`, outside the
    * handler's `try`. */
  method Handler(folders: Result<seq<string>>, listing: string -> Result<seq<string>>, fetch: string -> Result<Json>,
                 attempts: nat -> Attempt, clock: nat -> DateTime, repr: Json -> string)
    returns (outcome: Outcome, spoken: Option<string>)
    requires forall k :: Valid(clock(k))
    ensures var event := LatestEvent(folders, listing, fetch);
      && (event.None? || !Truthy(event.value) ==> outcome == Response(404, NoEvent) && spoken.None?)
      && (event.Some? && Truthy(event.value) && !event.value.JObj? ==>
            outcome == Raised(NoAttribute(event.value, "get")) && spoken.None?)
      && (event.Some? && event.value.JObj? && Truthy(event.value) ==>
            var message := GenerateMessage(event.value.fields, repr);
            var speech := Synthesis(attempts, clock, PollyPrefix);
            && spoken == Some(message)
            && (speech.Ok? ==> outcome == Response(200, "Message sent to elderly: '" + message
                                                         + "'\nPolly audio saved to s3://" + EventsBucket + "/" + speech.value))
            && (speech.Err? ==> outcome == Response(500, "Error generating Polly audio: " + speech.error)))
  {
    var event := LatestEvent(folders, listing, fetch);
    if event.None? || !Truthy(event.value) {
      return Response(404, NoEvent), None;
    }
    if !event.value.JObj? {
      return Raised(NoAttribute(event.value, "get")), None;
    }
    var message := GenerateMessage(event.value.fields, repr);
    spoken := Some(message);
    var speech, _, _ := SpeakToElderly(attempts, clock, PollyPrefix);
    if speech.Ok? {
      outcome := Response(200, "Message sent to elderly: '" + message + "'\nPolly audio saved to s3://" + EventsBucket
                               + "/" + speech.value);
    } else {
      outcome := Response(500, "Error generating Polly audio: " + speech.error);
    }
  }
}
