/** The video lambda: person tracking on a stored clip, a rule-based fall score over the tracked
  * people, and the agent's answer (or a canned answer graded by the score). */
module VideoInvoke {
  import opened Wrappers
  import opened Text
  import opened Json

  // ---------------------------------------------------------------- tracked people

  /** The `Person` record of one tracked person: its `Index`, `Confidence` and bounding-box
    * `Height`, each possibly absent. */
  datatype PersonData = PersonData(index: Option<int>, confidence: Option<real>, height: Option<real>)

  /** One entry of `Persons`; `None` stands for an absent or empty `Person` record. */
  datatype Tracked = Tracked(person: Option<PersonData>)

  /** `_analyze_person_movement`'s verdict. */
  datatype Movement = Movement(movementType: string, speed: string, direction: string, stability: string)

  /** The movement every tracked person is given: the analysis is a fixed placeholder. */
  const Walking: Movement := Movement("walking", "normal", "forward", "stable")

  /** One entry of `movement_analysis`: the bounding box is represented by its height. */
  datatype MovementEntry = MovementEntry(personId: int, height: Option<real>, movement: Movement, confidence: real)

  datatype Indicator = PersonHorizontal | PersonLyingDown | UnstableMovement

  function IndicatorName(i: Indicator): string {
    match i
    case PersonHorizontal => "person_horizontal_position"
    case PersonLyingDown => "person_lying_down"
    case UnstableMovement => "unstable_movement"
  }

  /** A bounding box lower than this reads as a person lying flat. */
  const HorizontalHeight: real := 0.3

  /** `bounding_box.get('Height', 0) < 0.3` */
  predicate LowBox(height: Option<real>) {
    height.GetOr(0.0) < HorizontalHeight
  }

  function Count(b: bool): nat {
    if b then 1 else 0
  }

  /** `_check_fall_indicators`: one indicator per rule that fires, in rule order. */
  function Indicators(height: Option<real>, m: Movement): (r: seq<Indicator>)
    ensures PersonHorizontal in r <==> LowBox(height)
    ensures PersonLyingDown in r <==> m.movementType == "lying"
    ensures UnstableMovement in r <==> m.stability == "unstable"
    ensures |r| == Count(LowBox(height)) + Count(m.movementType == "lying") + Count(m.stability == "unstable") <= 3
    ensures forall i, j :: 0 <= i < j < |r| ==> r[i] != r[j]
  {
    (if LowBox(height) then [PersonHorizontal] else [])
    + (if m.movementType == "lying" then [PersonLyingDown] else [])
    + (if m.stability == "unstable" then [UnstableMovement] else [])
  }

  function Entry(p: PersonData): MovementEntry {
    MovementEntry(p.index.GetOr(0), p.height, Walking, p.confidence.GetOr(0.0))
  }

  /** The `movement_analysis` list built by the loop over `Persons`. */
  function Entries(persons: seq<Tracked>): (r: seq<MovementEntry>)
    ensures |r| <= |persons|
  {
    if persons == [] then []
    else
      var p := persons[|persons| - 1];
      Entries(persons[..|persons| - 1]) + (if p.person.Some? then [Entry(p.person.value)] else [])
  }

  /** The `fall_indicators` list built by the same loop. */
  function Indicated(persons: seq<Tracked>): seq<Indicator> {
    if persons == [] then []
    else
      var p := persons[|persons| - 1];
      Indicated(persons[..|persons| - 1]) + (if p.person.Some? then Indicators(p.person.value.height, Walking) else [])
  }

  /** The number of tracked people whose box is low. */
  function LowCount(persons: seq<Tracked>): (r: nat)
    ensures r <= |persons|
  {
    if persons == [] then 0
    else
      var p := persons[|persons| - 1];
      LowCount(persons[..|persons| - 1]) + Count(p.person.Some? && LowBox(p.person.value.height))
  }

  /** With the fixed movement, only a low bounding box raises an indicator: one per such person. */
  lemma {:induction false} OnlyHeightIndicates(persons: seq<Tracked>)
    ensures |Indicated(persons)| == LowCount(persons)
    ensures forall i :: 0 <= i < |Indicated(persons)| ==> Indicated(persons)[i] == PersonHorizontal
  {
    if persons != [] {
      OnlyHeightIndicates(persons[..|persons| - 1]);
    }
  }

  // ---------------------------------------------------------------- the safety score

  /** `max(0, min(100, x))` */
  function Clamp(x: int): (r: int)
    ensures 0 <= r <= 100
    ensures 0 <= x <= 100 ==> r == x
    ensures x < 0 ==> r == 0
    ensures x > 100 ==> r == 100
  {
    if x < 0 then 0 else if x > 100 then 100 else x
  }

  /** The number of movement entries whose stability is `unstable`. */
  function UnstableCount(movements: seq<MovementEntry>): (r: nat)
    ensures r <= |movements|
  {
    if movements == [] then 0
    else UnstableCount(movements[..|movements| - 1]) + Count(movements[|movements| - 1].movement.stability == "unstable")
  }

  /** The score the source computes: 100, less 20 per indicator and 10 per unstable movement,
    * clamped to 0..100. */
  function SafetyScore(indicators: nat, movements: seq<MovementEntry>): (r: int)
    ensures 0 <= r <= 100
    ensures indicators == 0 && UnstableCount(movements) == 0 ==> r == 100
  {
    Clamp(100 - 20 * indicators - 10 * UnstableCount(movements))
  }

  /** More indicators never raise the score. */
  lemma ScoreMonotone(a: nat, b: nat, movements: seq<MovementEntry>)
    requires a <= b
    ensures SafetyScore(b, movements) <= SafetyScore(a, movements)
  {
  }

  /** `_calculate_safety_score`. */
  method CalculateSafetyScore(indicators: nat, movements: seq<MovementEntry>) returns (score: int)
    ensures score == SafetyScore(indicators, movements)
  {
    score := 100;
    score := score - indicators * 20;
    var i := 0;
    while i < |movements|
      invariant 0 <= i <= |movements|
      invariant score == 100 - 20 * indicators - 10 * UnstableCount(movements[..i])
    {
      assert movements[..i + 1][..i] == movements[..i];
      if movements[i].movement.stability == "unstable" {
        score := score - 10;
      }
      i := i + 1;
    }
    assert movements[..i] == movements;
    score := if score < 0 then 0 else if score > 100 then 100 else score;
  }

  // ---------------------------------------------------------------- the analysis

  /** The analysis dict (its `timestamp` left out); `mock` marks `source: mock_analysis`. */
  datatype VideoAnalysis = VideoAnalysis(personCount: nat, movements: seq<MovementEntry>, fallIndicators: seq<Indicator>,
                                         safetyScore: int, mock: bool)

  /** `_get_mock_video_analysis`: one person walking, no indicators, score 85. */
  const MockAnalysis: VideoAnalysis :=
    VideoAnalysis(1, [MovementEntry(0, Some(0.6), Walking, 95.5)], [], 85, true)

  /** `_parse_video_analysis_results` as a value. */
  function Parsed(persons: seq<Tracked>): VideoAnalysis {
    VideoAnalysis(|persons|, Entries(persons), Indicated(persons), SafetyScore(|Indicated(persons)|, Entries(persons)), false)
  }

  /** A parsed analysis counts every tracked entry, describes at most that many, and scores
    * 100 less 20 per person lying flat. */
  lemma {:induction false} ParsedShape(persons: seq<Tracked>)
    ensures var a := Parsed(persons);
      && a.personCount == |persons| && |a.movements| <= a.personCount
      && |a.fallIndicators| == LowCount(persons)
      && a.safetyScore == Clamp(100 - 20 * LowCount(persons))
  {
    OnlyHeightIndicates(persons);
    StableEntries(persons);
  }

  /** Every movement entry carries the fixed, stable movement. */
  lemma {:induction false} StableEntries(persons: seq<Tracked>)
    ensures UnstableCount(Entries(persons)) == 0
  {
    if persons != [] {
      var init := persons[..|persons| - 1];
      StableEntries(init);
      var e := Entries(persons);
      var p := persons[|persons| - 1];
      if p.person.Some? {
        assert e[..|e| - 1] == Entries(init) && e[|e| - 1] == Entry(p.person.value);
      } else {
        assert e == Entries(init);
      }
    }
  }

  /** `_parse_video_analysis_results`. */
  method ParseVideoAnalysisResults(persons: seq<Tracked>) returns (analysis: VideoAnalysis)
    ensures analysis == Parsed(persons)
  {
    var movements: seq<MovementEntry> := [];
    var indicators: seq<Indicator> := [];
    var i := 0;
    while i < |persons|
      invariant 0 <= i <= |persons|
      invariant movements == Entries(persons[..i]) && indicators == Indicated(persons[..i])
    {
      assert persons[..i + 1][..i] == persons[..i];
      var data := persons[i].person;
      if data.Some? {
        movements := movements + [Entry(data.value)];
        var found := Indicators(data.value.height, Walking);
        if found != [] {
          indicators := indicators + found;
        }
      }
      i := i + 1;
    }
    assert persons[..i] == persons;
    var score := CalculateSafetyScore(|indicators|, movements);
    analysis := VideoAnalysis(|persons|, movements, indicators, score, false);
  }

  // ---------------------------------------------------------------- the canned answer

  datatype Priority = High | Medium | Low

  function PriorityName(p: Priority): string {
    match p
    case High => "HIGH"
    case Medium => "MEDIUM"
    case Low => "LOW"
  }

  /** The grading of `_get_mock_bedrock_response`. */
  function MockPriority(score: int, indicators: seq<Indicator>): (r: Priority)
    ensures r == High <==> score < 50 || indicators != []
    ensures r == Low <==> score >= 75 && indicators == []
  {
    if score < 50 || indicators != [] then High else if score < 75 then Medium else Low
  }

  /** The grading the test script prints for a score alone. */
  function ScriptPriority(score: int): Priority {
    if score < 50 then High else if score < 75 then Medium else Low
  }

  /** Without indicators the canned grading is the script's. */
  lemma MockPriorityMatchesScript(score: int)
    ensures MockPriority(score, []) == ScriptPriority(score)
  {
  }

  /** On a parsed analysis the canned grading is `HIGH` exactly when someone lies flat, and `LOW`
    * otherwise: `MEDIUM` cannot occur. */
  lemma ParsedPriority(persons: seq<Tracked>)
    ensures var a := Parsed(persons);
      && (MockPriority(a.safetyScore, a.fallIndicators) == High <==> LowCount(persons) > 0)
      && (MockPriority(a.safetyScore, a.fallIndicators) == Low <==> LowCount(persons) == 0)
  {
    ParsedShape(persons);
  }

  /** The answer's `source`: `mock_analysis` or `bedrock_agent`; a reply built after the stream
    * broke has no `source` but an `error`, the text of the exception. */
  datatype Source = MockSource | AgentSource | ParseFailed(error: string)

  /** The agent's answer (its `timestamp` left out). */
  datatype AgentReply = AgentReply(content: string, source: Source, priority: Option<Priority>)

  const ParseErrorText: string := "Error parsing Bedrock response"

  function Assessment(p: Priority): string {
    match p
    case High => "EMERGENCY: High risk situation detected in video. Immediate attention required."
    case Medium => "WARNING: Moderate risk detected in video. Monitor closely."
    case Low => "NORMAL: Video shows normal activity patterns. No immediate concerns."
  }

  /** `_get_mock_bedrock_response`. */
  function MockReply(a: VideoAnalysis): (r: AgentReply)
    ensures r.priority == Some(MockPriority(a.safetyScore, a.fallIndicators)) && r.source == MockSource
  {
    var p := MockPriority(a.safetyScore, a.fallIndicators);
    AgentReply("Video Analysis: " + Assessment(p) + "\nPriority: " + PriorityName(p)
               + "\nSafety Score: " + IntToString(a.safetyScore) + "/100", MockSource, Some(p))
  }

  // ---------------------------------------------------------------- the clip

  /** `video_uri.replace('s3://', '').split('/', 1)` as bucket and key; `None` where there is no
    * `/` and indexing the second part raises. */
  function SplitUri(uri: string): (r: Option<(string, string)>)
    ensures r.Some? ==> '/' !in r.value.0
  {
    var s := Replace(uri, "s3://", "");
    match IndexOf(s, "/")
    case None => None
    case Some(i) =>
      assert forall j :: 0 <= j < i ==> s[j] != '/' by {
        forall j | 0 <= j < i ensures s[j] != '/' { assert !OccursAt(s, "/", j); assert s[j..j + 1] == [s[j]]; }
      }
      Some((s[..i], s[i + 1..]))
  }

  /** A plain S3 URI splits back into its bucket and key. */
  lemma SplitUriRoundTrip(bucket: string, key: string)
    requires '/' !in bucket && ':' !in bucket && ':' !in key
    ensures SplitUri("s3://" + bucket + "/" + key) == Some((bucket, key))
  {
    var rest := bucket + "/" + key;
    assert "s3://" + bucket + "/" + key == "s3://" + rest;
    ReplaceLeading("s3://", rest, "");
    assert ':' !in rest;
    AbsentChar(rest, "s3://", 2);
    ReplaceWithout(rest, "s3://", "");
    assert Replace("s3://" + rest, "s3://", "") == rest;
    IndexAfterPrefix(bucket, "/", key);
    assert IndexOf(rest, "/") == Some(|bucket|);
    assert rest[..|bucket|] == bucket && rest[|bucket| + 1..] == key;
  }

  /** A text that opens with the pattern has it replaced first. */
  lemma ReplaceLeading(pat: string, rest: string, sub: string)
    requires |pat| > 0
    ensures Replace(pat + rest, pat, sub) == sub + Replace(rest, pat, sub)
  {
    var s := pat + rest;
    assert s[..|pat|] == pat && s[|pat|..] == rest;
  }

  /** The tracking result of a job: `None` when it failed, timed out or could not be read. */
  type TrackingOracle = string -> Option<seq<Tracked>>

  /** `_analyze_video` as a value: the parsed tracking of a started job, the mock analysis on any
    * failure. `startJob` starts person tracking on a bucket and key. */
  function Analysis(uri: Json, startJob: (string, string) -> Option<string>, tracking: TrackingOracle): (r: VideoAnalysis)
    ensures r.mock ==> r == MockAnalysis
    ensures !r.mock ==> exists persons :: r == Parsed(persons)
    ensures !uri.JStr? || SplitUri(uri.s).None? ==> r == MockAnalysis
    ensures uri.JStr? && SplitUri(uri.s).Some? ==>
      var p := SplitUri(uri.s).value;
      var job := startJob(p.0, p.1);
      && (job.None? || job.value == "" || tracking(job.value).None? ==> r == MockAnalysis)
      && (job.Some? && job.value != "" && tracking(job.value).Some? ==> r == Parsed(tracking(job.value).value))
  {
    if !uri.JStr? then MockAnalysis
    else match SplitUri(uri.s)
      case None => MockAnalysis
      case Some((bucket, key)) =>
        var job := startJob(bucket, key);
        if job.None? || job.value == "" then MockAnalysis
        else match tracking(job.value)
          case None => MockAnalysis
          case Some(persons) => Parsed(persons)
  }

  /** The mock analysis stands in exactly when the URI cannot be split, no job id comes back, or the
    * job yields no tracking result; a parsed analysis is never the mock. */
  lemma MockExactlyOnFailure(uri: Json, startJob: (string, string) -> Option<string>, tracking: TrackingOracle)
    ensures var failed := !uri.JStr? || SplitUri(uri.s).None?
          || var p := SplitUri(uri.s).value;
             var job := startJob(p.0, p.1);
             job.None? || job.value == "" || tracking(job.value).None?;
      Analysis(uri, startJob, tracking).mock <==> failed
  {
  }

  /** `_analyze_video`. */
  method AnalyzeVideo(uri: Json, startJob: (string, string) -> Option<string>, tracking: TrackingOracle)
    returns (analysis: VideoAnalysis)
    ensures analysis == Analysis(uri, startJob, tracking)
  {
    if !uri.JStr? {
      return MockAnalysis;
    }
    var parts := SplitUri(uri.s);
    if parts.None? {
      return MockAnalysis;
    }
    var job := startJob(parts.value.0, parts.value.1);
    if job.None? || job.value == "" {
      return MockAnalysis;
    }
    var result := tracking(job.value);
    if result.None? {
      return MockAnalysis;
    }
    analysis := ParseVideoAnalysisResults(result.value);
  }

  /** One event of the agent's completion stream: a chunk with bytes (decoded), an event without
    * them, or the exception raised while reading or decoding the stream. */
  datatype StreamItem = ChunkText(text: string) | NoChunk | Broken(error: string)

  /** What `invoke_agent` gave: the exception of the call itself, or the completion stream. */
  datatype AgentCall = CallFailed(error: string) | Completion(items: seq<StreamItem>)

  predicate Intact(items: seq<StreamItem>) {
    forall i :: 0 <= i < |items| ==> !items[i].Broken?
  }

  /** The loop of `_parse_bedrock_response`: the chunks' text in stream order, or the first
    * exception raised. */
  function StreamContent(items: seq<StreamItem>): (r: Result<string>)
    ensures r.Ok? <==> Intact(items)
  {
    if items == [] then Ok("")
    else
      var n := |items| - 1;
      assert forall i :: 0 <= i < n ==> items[..n][i] == items[i];
      match StreamContent(items[..n])
      case Err(e) => Err(e)
      case Ok(c) =>
        match items[n]
        case ChunkText(t) => Ok(c + t)
        case NoChunk => Ok(c)
        case Broken(e) => Err(e)
  }

  /** Reading on after the stream broke changes nothing: the first exception is the one reported. */
  lemma {:induction false} BrokenStays(items: seq<StreamItem>, more: seq<StreamItem>)
    requires StreamContent(items).Err?
    ensures StreamContent(items + more) == StreamContent(items)
    decreases |more|
  {
    if more != [] {
      var n := |more| - 1;
      BrokenStays(items, more[..n]);
      assert (items + more)[..|items + more| - 1] == items + more[..n];
    } else {
      assert items + more == items;
    }
  }

  /** An intact stream's content is the concatenation of its parts' content. */
  lemma {:induction false} StreamContentAppend(a: seq<StreamItem>, b: seq<StreamItem>)
    requires Intact(a) && Intact(b)
    ensures StreamContent(a + b) == Ok(StreamContent(a).value + StreamContent(b).value)
    decreases |b|
  {
    if b == [] {
      assert a + b == a;
      assert StreamContent(a).value + [] == StreamContent(a).value;
    } else {
      var n := |b| - 1;
      assert Intact(b[..n]) by {
        forall i | 0 <= i < n ensures !b[..n][i].Broken? { assert b[..n][i] == b[i]; }
      }
      StreamContentAppend(a, b[..n]);
      assert (a + b)[..|a + b| - 1] == a + b[..n];
      assert (a + b)[|a + b| - 1] == b[n];
      var ca, cb := StreamContent(a).value, StreamContent(b[..n]).value;
      if b[n].ChunkText? {
        assert ca + cb + b[n].text == ca + (cb + b[n].text);
      }
    }
  }

  /** `_parse_bedrock_response` as a value: the agent's text, or the parse-error reply carrying the
    * exception. */
  function StreamReply(items: seq<StreamItem>): (r: AgentReply)
    ensures r.priority.None?
    ensures Intact(items) ==> r == AgentReply(StreamContent(items).value, AgentSource, None)
    ensures !Intact(items) ==> r == AgentReply(ParseErrorText, ParseFailed(StreamContent(items).error), None)
  {
    match StreamContent(items)
    case Ok(c) => AgentReply(c, AgentSource, None)
    case Err(e) => AgentReply(ParseErrorText, ParseFailed(e), None)
  }

  /** `_parse_bedrock_response`. */
  method ParseBedrockResponse(items: seq<StreamItem>) returns (reply: AgentReply)
    ensures reply == StreamReply(items)
  {
    var content := "";
    var i := 0;
    while i < |items|
      invariant 0 <= i <= |items|
      invariant StreamContent(items[..i]) == Ok(content)
    {
      assert items[..i + 1][..i] == items[..i];
      match items[i] {
        case ChunkText(t) =>
          content := content + t;
        case NoChunk =>
        case Broken(e) =>
          assert StreamContent(items[..i + 1]) == Err(e);
          BrokenStays(items[..i + 1], items[i + 1..]);
          assert items[..i + 1] + items[i + 1..] == items;
          return AgentReply(ParseErrorText, ParseFailed(e), None);
      }
      i := i + 1;
    }
    assert items[..i] == items;
    reply := AgentReply(content, AgentSource, None);
  }

  /** `_invoke_bedrock_agent` as a value: the canned answer when no agent is configured or the call
    * itself fails, otherwise what the stream gives. */
  function AgentAnswer(a: VideoAnalysis, agentId: Option<string>, call: AgentCall): (r: AgentReply)
    ensures agentId.None? || agentId.value == "" || call.CallFailed? ==> r == MockReply(a)
    ensures agentId.Some? && agentId.value != "" && call.Completion? ==> r == StreamReply(call.items)
    ensures r.source == AgentSource ==> call.Completion? && Intact(call.items)
                                        && r.content == StreamContent(call.items).value && r.priority.None?
  {
    if agentId.None? || agentId.value == "" then MockReply(a)
    else match call
      case CallFailed(_) => MockReply(a)
      case Completion(items) => StreamReply(items)
  }

  /** With an agent configured, only a failing call is answered by the canned reply; a stream that
    * breaks is answered by the parse-error reply with no priority, and an intact one by the agent's
    * text. */
  lemma OnlyCallFailureIsMocked(a: VideoAnalysis, agentId: string, call: AgentCall)
    requires agentId != ""
    ensures AgentAnswer(a, Some(agentId), call).source == MockSource <==> call.CallFailed?
    ensures call.Completion? && !Intact(call.items) ==>
      AgentAnswer(a, Some(agentId), call).source.ParseFailed? && AgentAnswer(a, Some(agentId), call).priority.None?
  {
  }

  /** `_invoke_bedrock_agent`. */
  method InvokeBedrockAgent(a: VideoAnalysis, agentId: Option<string>, call: AgentCall) returns (reply: AgentReply)
    ensures reply == AgentAnswer(a, agentId, call)
  {
    if agentId.None? || agentId.value == "" {
      return MockReply(a);
    }
    if call.CallFailed? {
      return MockReply(a);
    }
    reply := ParseBedrockResponse(call.items);
  }

  // ---------------------------------------------------------------- the handler

  datatype VideoResults = VideoResults(analysis: VideoAnalysis, reply: AgentReply, videoUri: Json)

  /** The body before `json.dumps`: the results, or the text of the exception for a 500. */
  datatype Body = Completed(results: VideoResults) | Failed(message: string)

  datatype Response = Response(statusCode: int, body: Body)

  const UriRequired: string := "video_uri is required in the event"

  /** `handler` with `process_video`; `stored` tells whether the results went to the analysis
    * bucket (a failed store is only logged). */
  method Handler(event: Json, agentId: Option<string>, analysisBucket: Option<string>,
                 startJob: (string, string) -> Option<string>, tracking: TrackingOracle, call: AgentCall)
    returns (response: Response, stored: bool)
    ensures !event.JObj? ==> response == Response(500, Failed(NoAttribute(event, "get"))) && !stored
    ensures event.JObj? && !Truthy(GetOr(event, "video_uri", JNull)) ==> response == Response(500, Failed(UriRequired)) && !stored
    ensures event.JObj? && Truthy(GetOr(event, "video_uri", JNull)) ==>
      var uri := GetOr(event, "video_uri", JNull);
      var a := Analysis(uri, startJob, tracking);
      && response == Response(200, Completed(VideoResults(a, AgentAnswer(a, agentId, call), uri)))
      && stored == (analysisBucket.Some? && analysisBucket.value != "")
  {
    stored := false;
    if !event.JObj? {
      return Response(500, Failed(NoAttribute(event, "get"))), stored;
    }
    var uri := GetOr(event, "video_uri", JNull);
    if !Truthy(uri) {
      return Response(500, Failed(UriRequired)), stored;
    }
    var analysis := AnalyzeVideo(uri, startJob, tracking);
    var reply := InvokeBedrockAgent(analysis, agentId, call);
    stored := analysisBucket.Some? && analysisBucket.value != "";
    response := Response(200, Completed(VideoResults(analysis, reply, uri)));
  }

  /** With no agent configured, a clip whose tracking finds someone lying flat is answered `HIGH`,
    * and one where nobody is, `LOW`. */
  lemma LyingPersonIsHigh(bucket: string, key: string, startJob: (string, string) -> Option<string>,
                          tracking: TrackingOracle)
    requires '/' !in bucket && ':' !in bucket && ':' !in key
    requires startJob(bucket, key).Some? && startJob(bucket, key).value != ""
    requires tracking(startJob(bucket, key).value).Some?
    ensures var persons := tracking(startJob(bucket, key).value).value;
      var a := Analysis(JStr("s3://" + bucket + "/" + key), startJob, tracking);
      AgentAnswer(a, None, CallFailed("")).priority == Some(if LowCount(persons) > 0 then High else Low)
  {
    SplitUriRoundTrip(bucket, key);
    ParsedPriority(tracking(startJob(bucket, key).value).value);
  }
}
