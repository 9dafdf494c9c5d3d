/** The audio lambda: an utterance arrives as an S3 URI or as inline base64 audio, is transcribed,
  * tagged with the id of its 30-second event window, and stored for the event aggregator. */
module TranscribeInvoke {
  import opened Wrappers
  import opened Text
  import opened Json
  import opened Calendar

  // ---------------------------------------------------------------- the event window

  /** The length of an event window, in seconds. */
  const Window: nat := 30

  /** `(epoch // 30) * 30`: floor division, which for a positive divisor is Dafny's. */
  function WindowStart(epoch: int): (w: int)
    ensures w % Window == 0 && w <= epoch < w + Window
  {
    (epoch / Window) * Window
  }

  /** `_compute_event_id`: the window's start as `%Y%m%dT%H%M%SZ`, in UTC; `epoch` is the clock. */
  function EventId(epoch: int): (r: string)
    requires 0 <= epoch < EpochLimit
  {
    Stamp(FromEpoch(WindowStart(epoch)), "T", "Z")
  }

  /** The id is 16 characters, `T` between date and time, `Z` last, and its seconds are `00` or
    * `30`. */
  lemma EventIdShape(epoch: int)
    requires 0 <= epoch < EpochLimit
    ensures var r := EventId(epoch);
      |r| == 16 && r[8] == 'T' && r[15] == 'Z'
      && (r[13..15] == "00" || r[13..15] == "30")
  {
    var t := FromEpoch(WindowStart(epoch));
    var d, h := DatePart(t), TimePart(t);
    assert EventId(epoch) == d + "T" + h + "Z";
    assert h == PadDigits(t.hour, 2) + PadDigits(t.minute, 2) + PadDigits(t.second, 2);
    assert EventId(epoch)[13..15] == PadDigits(t.second, 2);
    HalfMinute(WindowStart(epoch));
    SecondsDigits(t.second);
  }

  /** A multiple of 30 seconds is on the minute or the half minute. */
  lemma HalfMinute(w: int)
    requires w % Window == 0
    ensures w % 60 == 0 || w % 60 == 30
  {
    var k := w / 60;
    assert w == 60 * k + w % 60;
    var m := w % 60;
    assert m % 30 == 0 by {
      assert w == 30 * (2 * k) + m;
    }
  }

  lemma SecondsDigits(second: nat)
    requires second == 0 || second == 30
    ensures PadDigits(second, 2) == "00" || PadDigits(second, 2) == "30"
  {
    if second == 0 {
      assert PadDigits(0, 2) == PadDigits(0, 1) + ['0'];
    } else {
      assert PadDigits(30, 2) == PadDigits(3, 1) + ['0'];
      assert PadDigits(3, 1) == PadDigits(0, 0) + ['3'];
    }
  }

  /** Two instants get the same id exactly when they fall in the same window. */
  lemma SameWindowSameId(a: int, b: int)
    requires 0 <= a < EpochLimit && 0 <= b < EpochLimit
    ensures EventId(a) == EventId(b) <==> a / Window == b / Window
  {
    if a / Window < b / Window {
      EventIdOrder(a, b);
      LexLessIrreflexive(EventId(a));
    } else if b / Window < a / Window {
      EventIdOrder(b, a);
      LexLessIrreflexive(EventId(b));
    }
  }

  /** Ids sort, as strings, in the order of their windows. */
  lemma EventIdOrder(a: int, b: int)
    requires 0 <= a < EpochLimit && 0 <= b < EpochLimit && a / Window < b / Window
    ensures LexLess(EventId(a), EventId(b))
  {
    FromEpochMonotone(WindowStart(a), WindowStart(b));
    StampOrder(FromEpoch(WindowStart(a)), FromEpoch(WindowStart(b)), "T", "Z");
  }

  // ---------------------------------------------------------------- the transcript

  /** A downloaded transcript file: the first transcript and whether `speaker_labels` is present. */
  datatype TranscriptFile = TranscriptFile(text: string, speakerLabels: bool)

  const SpeakerHead: string := "Audio Transcript:\n"
  const SpeakerTail: string := "\n\nSpeaker Analysis: Multiple speakers detected in audio stream."

  /** `_format_with_speakers`: the transcript under a fixed heading, then a fixed note. */
  function FormatWithSpeakers(transcript: string): (r: string)
    ensures |r| == |SpeakerHead| + |transcript| + |SpeakerTail|
    ensures r[..|SpeakerHead|] == SpeakerHead && r[|SpeakerHead|..|SpeakerHead| + |transcript|] == transcript
    ensures r[|SpeakerHead| + |transcript|..] == SpeakerTail
  {
    SpeakerHead + transcript + SpeakerTail
  }

  /** `_download_transcript` after the download. */
  function TranscriptText(f: TranscriptFile): (r: string)
    ensures f.speakerLabels ==> r != []
    ensures !f.speakerLabels ==> r == f.text
  {
    if f.speakerLabels then FormatWithSpeakers(f.text) else f.text
  }

  // ---------------------------------------------------------------- dispatch

  /** The lambda's configuration: `TRANSCRIPTION_BUCKET` and `EVENTS_BUCKET`. */
  datatype Config = Config(transcriptionBucket: Option<string>, eventsBucket: Option<string>)

  /** An environment variable that is set and non-empty. */
  predicate IsSet(v: Option<string>) {
    v.Some? && v.value != ""
  }

  datatype InputMode = S3Uri | Base64

  /** The results dict (its `timestamp` and the always-`None` `bedrock_analysis` left out). */
  datatype Results = Results(transcription: Option<string>, audioUri: Json, inputMode: InputMode, eventId: Json,
                             audioPresent: bool)

  /** Where the results go: an event-scoped key in the events bucket, or the transcription
    * bucket's dated key. */
  datatype Storage = EventsStore(bucket: string, key: string) | TranscriptionStore(bucket: string) | NoStore

  datatype Outcome = Outcome(results: Results, storage: Storage)

  const BothMissing: string := "audio_uri or audio_base64 is required in the event"
  const TranscriptionFailed: string := "Transcription failed"
  const NoStagingBucket: string := "Either TRANSCRIPTION_BUCKET or EVENTS_BUCKET must be configured to stage audio"

  /** `event.get('event_id') or self._compute_event_id()` */
  function ChosenEventId(event: map<string, Json>, epoch: int): (r: Json)
    requires 0 <= epoch < EpochLimit
    ensures Truthy(GetOr(JObj(event), "event_id", JNull)) ==> r == event["event_id"]
    ensures !Truthy(GetOr(JObj(event), "event_id", JNull)) ==> r == JStr(EventId(epoch))
  {
    var given := GetOr(JObj(event), "event_id", JNull);
    if Truthy(given) then given else JStr(EventId(epoch))
  }

  /** `transcribe/{event_id}.json` */
  function EventKey(eventId: Json, repr: Json -> string): string {
    "transcribe/" + Str(eventId, repr) + ".json"
  }

  /** Where the URI path stores: the events bucket first, then the transcription bucket. */
  function UriStorage(config: Config, eventId: Json, repr: Json -> string): (r: Storage)
    ensures IsSet(config.eventsBucket) ==> r == EventsStore(config.eventsBucket.value, EventKey(eventId, repr))
    ensures !IsSet(config.eventsBucket) && IsSet(config.transcriptionBucket) ==> r == TranscriptionStore(config.transcriptionBucket.value)
    ensures r == NoStore <==> !IsSet(config.eventsBucket) && !IsSet(config.transcriptionBucket)
  {
    if IsSet(config.eventsBucket) then EventsStore(config.eventsBucket.value, EventKey(eventId, repr))
    else if IsSet(config.transcriptionBucket) then TranscriptionStore(config.transcriptionBucket.value)
    else NoStore
  }

  /** The bucket inline audio is staged in: the transcription bucket, else the events bucket. */
  function StagingBucket(config: Config): (r: string)
    requires IsSet(config.transcriptionBucket) || IsSet(config.eventsBucket)
    ensures r != []
    ensures IsSet(config.transcriptionBucket) ==> r == config.transcriptionBucket.value
    ensures !IsSet(config.transcriptionBucket) ==> r == config.eventsBucket.value
  {
    if IsSet(config.transcriptionBucket) then config.transcriptionBucket.value else config.eventsBucket.value
  }

  /** `process_audio` up to the store, as a value. `transcribe` is `_transcribe_audio` up to the
    * download (`None` on any failure), `stage` the base64 decode and upload of inline audio
    * (`Some` message for what it raised), `stagingKey` the dated key it uploads to, `epoch` the
    * clock. */
  function Prepare(config: Config, event: map<string, Json>, epoch: int, repr: Json -> string,
                   transcribe: Json -> Option<TranscriptFile>, stage: Json -> Option<string>, stagingKey: string)
    : (r: Result<Outcome>)
    requires 0 <= epoch < EpochLimit
    ensures Truthy(GetOr(JObj(event), "audio_base64", JNull)) ==> r.Ok? ==> r.value.results.inputMode == Base64
    ensures !Truthy(GetOr(JObj(event), "audio_base64", JNull)) && !Truthy(GetOr(JObj(event), "audio_uri", JNull))
            ==> r == Err(BothMissing)
    ensures r.Ok? ==> r.value.results.eventId == ChosenEventId(event, epoch)
    ensures r.Ok? && r.value.results.inputMode == S3Uri ==> r.value.results.audioPresent
    ensures r.Ok? ==> (r.value.results.audioPresent <==> r.value.results.transcription.Some? && r.value.results.transcription.value != [])
    ensures Truthy(GetOr(JObj(event), "audio_base64", JNull))
            ==> r == DirectAudio(config, event, epoch, repr, transcribe, stage, stagingKey)
    ensures !Truthy(GetOr(JObj(event), "audio_base64", JNull)) && Truthy(GetOr(JObj(event), "audio_uri", JNull)) ==>
      var uri := GetOr(JObj(event), "audio_uri", JNull);
      var transcript := Transcribed(transcribe(uri));
      && (transcript.None? || transcript.value == [] ==> r == Err(TranscriptionFailed))
      && (transcript.Some? && transcript.value != [] ==>
            r.Ok? && r.value.results.transcription == transcript && r.value.results.audioUri == uri
            && r.value.results.inputMode == S3Uri
            && r.value.storage == UriStorage(config, r.value.results.eventId, repr))
  {
    if Truthy(GetOr(JObj(event), "audio_base64", JNull)) then
      DirectAudio(config, event, epoch, repr, transcribe, stage, stagingKey)
    else
      var uri := GetOr(JObj(event), "audio_uri", JNull);
      if !Truthy(uri) then Err(BothMissing)
      else
        var transcript := Transcribed(transcribe(uri));
        if transcript.None? || transcript.value == [] then Err(TranscriptionFailed)
        else
          var id := ChosenEventId(event, epoch);
          Ok(Outcome(Results(transcript, uri, S3Uri, id, true), UriStorage(config, id, repr)))
  }

  /** The transcript text of a finished job. */
  function Transcribed(f: Option<TranscriptFile>): Option<string> {
    if f.None? then None else Some(TranscriptText(f.value))
  }

  /** `_process_direct_audio`, up to the store. */
  function DirectAudio(config: Config, event: map<string, Json>, epoch: int, repr: Json -> string,
                       transcribe: Json -> Option<TranscriptFile>, stage: Json -> Option<string>, stagingKey: string)
    : (r: Result<Outcome>)
    requires 0 <= epoch < EpochLimit
    requires Truthy(GetOr(JObj(event), "audio_base64", JNull))
    ensures !IsSet(config.transcriptionBucket) && !IsSet(config.eventsBucket) ==> r == Err(NoStagingBucket)
    ensures r.Ok? ==> r.value.results.inputMode == Base64 && r.value.results.eventId == ChosenEventId(event, epoch)
    ensures r.Ok? ==> r.value.results.audioUri == JStr("s3://" + StagingBucket(config) + "/" + stagingKey)
    ensures r.Ok? ==> (r.value.results.audioPresent <==> r.value.results.transcription.Some? && r.value.results.transcription.value != [])
    ensures r.Ok? && IsSet(config.eventsBucket) ==> r.value.storage == EventsStore(config.eventsBucket.value, EventKey(r.value.results.eventId, repr))
    ensures r.Ok? && !IsSet(config.eventsBucket) ==> r.value.storage == TranscriptionStore(config.transcriptionBucket.value)
    ensures (IsSet(config.transcriptionBucket) || IsSet(config.eventsBucket)) && stage(event["audio_base64"]).Some?
            ==> r == Err(stage(event["audio_base64"]).value)
    ensures (IsSet(config.transcriptionBucket) || IsSet(config.eventsBucket)) && stage(event["audio_base64"]).None?
            ==> r.Ok? && r.value.results.transcription == Transcribed(transcribe(r.value.results.audioUri))
  {
    if !IsSet(config.transcriptionBucket) && !IsSet(config.eventsBucket) then Err(NoStagingBucket)
    else
      var audio := event["audio_base64"];
      match stage(audio)
      case Some(error) => Err(error)
      case None =>
        var uri := JStr("s3://" + StagingBucket(config) + "/" + stagingKey);
        var transcript := Transcribed(transcribe(uri));
        var id := ChosenEventId(event, epoch);
        var present := transcript.Some? && transcript.value != [];
        var storage := if IsSet(config.eventsBucket) then EventsStore(config.eventsBucket.value, EventKey(id, repr))
                       else TranscriptionStore(config.transcriptionBucket.value);
        Ok(Outcome(Results(transcript, uri, Base64, id, present), storage))
  }

  /** On the URI path the request succeeds exactly when the job yields a non-empty transcript, and
    * then the results carry that transcript (under the speaker heading when the job labelled
    * speakers) and report audio. */
  lemma UriPathFollowsTranscript(config: Config, event: map<string, Json>, epoch: int, repr: Json -> string,
                                 transcribe: Json -> Option<TranscriptFile>, stage: Json -> Option<string>, stagingKey: string)
    requires 0 <= epoch < EpochLimit
    requires !Truthy(GetOr(JObj(event), "audio_base64", JNull)) && Truthy(GetOr(JObj(event), "audio_uri", JNull))
    ensures var f := transcribe(event["audio_uri"]);
      var r := Prepare(config, event, epoch, repr, transcribe, stage, stagingKey);
      && (r.Ok? <==> f.Some? && TranscriptText(f.value) != [])
      && (r.Ok? ==> r.value.results.audioPresent
                    && r.value.results.transcription == Some(if f.value.speakerLabels then FormatWithSpeakers(f.value.text) else f.value.text))
  {
  }

  /** With speaker labels the transcript is never empty, so the inline path then reports audio. */
  lemma SpeakersMeanAudio(config: Config, event: map<string, Json>, epoch: int, repr: Json -> string,
                          transcribe: Json -> Option<TranscriptFile>, stage: Json -> Option<string>, stagingKey: string)
    requires 0 <= epoch < EpochLimit && Truthy(GetOr(JObj(event), "audio_base64", JNull))
    requires IsSet(config.transcriptionBucket) || IsSet(config.eventsBucket)
    requires var uri := JStr("s3://" + StagingBucket(config) + "/" + stagingKey);
      transcribe(uri).Some? && transcribe(uri).value.speakerLabels
    requires stage(event["audio_base64"]).None?
    ensures var r := DirectAudio(config, event, epoch, repr, transcribe, stage, stagingKey);
      r.Ok? && r.value.results.audioPresent
  {
  }

  // ---------------------------------------------------------------- the handler

  datatype Body = Completed(results: Results) | Failed(message: string)

  datatype Response = Response(statusCode: int, body: Body)

  /** The message of the `AttributeError` raised by calling the events store, which the class
    * never defines. */
  const MissingStore: string := "'TranscribeInvokeHandler' object has no attribute '_store_event_results'"

  /** `handler` as written: a store into the events bucket calls a method the class lacks, so every
    * request reaching it fails. */
  function HandlerAsWritten(config: Config, event: Json, epoch: int, repr: Json -> string,
                            transcribe: Json -> Option<TranscriptFile>, stage: Json -> Option<string>, stagingKey: string)
    : (r: Response)
    requires 0 <= epoch < EpochLimit
    ensures r.statusCode == 200 || r.statusCode == 500
    ensures r.statusCode == 200 <==> event.JObj? && Prepare(config, event.fields, epoch, repr, transcribe, stage, stagingKey).Ok?
                                     && !Prepare(config, event.fields, epoch, repr, transcribe, stage, stagingKey).value.storage.EventsStore?
    ensures r.statusCode == 200 ==> r.body == Completed(Prepare(config, event.fields, epoch, repr, transcribe, stage, stagingKey).value.results)
    ensures event.JObj? && Prepare(config, event.fields, epoch, repr, transcribe, stage, stagingKey).Ok?
            && Prepare(config, event.fields, epoch, repr, transcribe, stage, stagingKey).value.storage.EventsStore?
            ==> r == Response(500, Failed(MissingStore))
  {
    if !event.JObj? then Response(500, Failed(NoAttribute(event, "get")))
    else match Prepare(config, event.fields, epoch, repr, transcribe, stage, stagingKey)
      case Err(e) => Response(500, Failed(e))
      case Ok(outcome) =>
        if outcome.storage.EventsStore? then Response(500, Failed(MissingStore))
        else Response(200, Completed(outcome.results))
  }

  /** With an events bucket configured, no request succeeds as written. */
  lemma EventsBucketAlwaysFails(config: Config, event: Json, epoch: int, repr: Json -> string,
                                transcribe: Json -> Option<TranscriptFile>, stage: Json -> Option<string>, stagingKey: string)
    requires 0 <= epoch < EpochLimit && IsSet(config.eventsBucket)
    ensures HandlerAsWritten(config, event, epoch, repr, transcribe, stage, stagingKey).statusCode == 500
  {
    if event.JObj? {
      var r := Prepare(config, event.fields, epoch, repr, transcribe, stage, stagingKey);
      if r.Ok? && r.value.results.inputMode == S3Uri {
        assert r.value.storage == UriStorage(config, r.value.results.eventId, repr);
      }
    }
  }

  /** `handler`, with the events store it evidently means: the results are written under
    * `transcribe/{event_id}.json` and the request succeeds. `storage` is the store performed
    * (a failed transcription-bucket store is only logged). */
  method Handler(config: Config, event: Json, epoch: int, repr: Json -> string,
                 transcribe: Json -> Option<TranscriptFile>, stage: Json -> Option<string>, stagingKey: string)
    returns (response: Response, storage: Storage)
    requires 0 <= epoch < EpochLimit
    ensures !event.JObj? ==> response == Response(500, Failed(NoAttribute(event, "get"))) && storage == NoStore
    ensures event.JObj? ==>
      var r := Prepare(config, event.fields, epoch, repr, transcribe, stage, stagingKey);
      && (r.Err? ==> response == Response(500, Failed(r.error)) && storage == NoStore)
      && (r.Ok? ==> response == Response(200, Completed(r.value.results)) && storage == r.value.storage)
  {
    if !event.JObj? {
      return Response(500, Failed(NoAttribute(event, "get"))), NoStore;
    }
    var prepared := Prepare(config, event.fields, epoch, repr, transcribe, stage, stagingKey);
    if prepared.Err? {
      return Response(500, Failed(prepared.error)), NoStore;
    }
    storage := prepared.value.storage;
    response := Response(200, Completed(prepared.value.results));
  }

  /** With the events store in place, a transcribed URI request with an events bucket succeeds and
    * files its results under the window's id. */
  lemma EventsBucketStoresByWindow(config: Config, event: map<string, Json>, epoch: int, repr: Json -> string,
                                   transcribe: Json -> Option<TranscriptFile>, stage: Json -> Option<string>, stagingKey: string)
    requires 0 <= epoch < EpochLimit && IsSet(config.eventsBucket)
    requires !Truthy(GetOr(JObj(event), "audio_base64", JNull)) && !Truthy(GetOr(JObj(event), "event_id", JNull))
    requires Truthy(GetOr(JObj(event), "audio_uri", JNull))
    requires Transcribed(transcribe(event["audio_uri"])).Some? && Transcribed(transcribe(event["audio_uri"])).value != []
    ensures var r := Prepare(config, event, epoch, repr, transcribe, stage, stagingKey);
      r.Ok? && r.value.storage == EventsStore(config.eventsBucket.value, "transcribe/" + EventId(epoch) + ".json")
  {
  }
}
