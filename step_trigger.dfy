/** The HTTP entry that starts the analysis state machine: it normalises the request body into an
  * event, builds the state machine's input with defaults, refuses inputs over 256 KiB and starts a
  * time-named execution. */
module StepTrigger {
  import opened Wrappers
  import opened Text
  import opened Json
  import opened Calendar

  /** The service limit on an execution's input, in characters of its JSON text. */
  const InputLimit: nat := 262144
  const Source: string := "step-function-trigger"

  /** The event the handler goes on with once the body is interpreted. `unbase64` is
    * `base64.b64decode(body).decode('utf-8')`, `decode` is `json.loads`. */
  function Interpret(event: map<string, Json>, unbase64: Json -> Result<string>, decode: string -> Result<Json>)
    : (r: Result<Json>)
    requires "body" in event
    ensures !Truthy(GetOr(JObj(event), "isBase64Encoded", JNull)) && event["body"].JObj? ==> r == Ok(event["body"])
    ensures !Truthy(GetOr(JObj(event), "isBase64Encoded", JNull)) && event["body"].JStr? ==>
      r == Ok(if decode(event["body"].s).Ok? then decode(event["body"].s).value else JObj(map["raw_body" := event["body"]]))
    ensures !Truthy(GetOr(JObj(event), "isBase64Encoded", JNull)) && !event["body"].JStr? && !event["body"].JObj? ==>
      r == Ok(JObj(event))
    ensures Truthy(GetOr(JObj(event), "isBase64Encoded", JNull)) ==>
      (unbase64(event["body"]).Err? ==> r == Err(unbase64(event["body"]).error))
      && (unbase64(event["body"]).Ok? ==> var text := unbase64(event["body"]).value;
            r == Ok(if decode(text).Ok? then decode(text).value else JObj(map["raw_body" := JStr(text)])))
  {
    var body := event["body"];
    var decoded := if Truthy(GetOr(JObj(event), "isBase64Encoded", JNull)) then
        match unbase64(body)
        case Ok(text) => Ok(JStr(text))
        case Err(e) => Err(e)
      else Ok(body);
    match decoded
    case Err(e) => Err(e)
    case Ok(b) =>
      if b.JStr? then
        match decode(b.s)
        case Ok(j) => Ok(j)
        case Err(_) => Ok(JObj(map["raw_body" := b]))
      else if b.JObj? then Ok(b)
      else Ok(JObj(event))
  }

  /** `len(x)` raises for values without a length. */
  predicate HasLength(j: Json) {
    j.JStr? || j.JList? || j.JObj?
  }

  /** The state machine's input: the image, with `metadata` defaulting to `{}`, `transcript` to `""`,
    * and a fixed `source`. */
  function Payload(event: map<string, Json>, image: Json): (r: map<string, Json>)
    ensures r.Keys == {"image_base64", "metadata", "transcript", "source"}
    ensures r["image_base64"] == image && r["source"] == JStr(Source)
    ensures r["metadata"] == (if "metadata" in event then event["metadata"] else JObj(map[]))
    ensures r["transcript"] == (if "transcript" in event then event["transcript"] else JStr(""))
  {
    map["image_base64" := image,
        "metadata" := GetOr(JObj(event), "metadata", JObj(map[])),
        "transcript" := GetOr(JObj(event), "transcript", JStr("")),
        "source" := JStr(Source)]
  }

  /** `run-%Y%m%dT%H%M%S` of the current UTC time. */
  function ExecutionName(now: DateTime): (r: string)
    requires Valid(now)
    ensures StartsWith(r, "run-") && |r| == 19
  {
    var name := "run-" + Stamp(now, "T", "");
    assert name[..4] == "run-";
    name
  }

  /** Executions started later get names that sort later. */
  lemma ExecutionNamesOrdered(a: DateTime, b: DateTime)
    requires Valid(a) && Valid(b) && Calendar.Before(a, b)
    ensures LexLess(ExecutionName(a), ExecutionName(b))
  {
    StampOrder(a, b, "T", "");
    LexLessConcat("run-", Stamp(a, "T", ""), "run-", Stamp(b, "T", ""));
  }

  /** The response body: the started execution's ARN, or the text of the exception. */
  datatype Body = Started(executionArn: string) | Failed(error: string)

  datatype Response = Response(statusCode: int, body: Body)

  /** A started execution: its name and its input. */
  datatype Execution = Execution(name: string, input: Json)

  datatype Outcome = Outcome(response: Response, started: Option<Execution>)

  /** `handler`. `dumps` is `json.dumps`, `start` is `start_execution` by name and input text,
    * giving the execution's ARN or the text of its exception. */
  function Handler(event: map<string, Json>, unbase64: Json -> Result<string>, decode: string -> Result<Json>,
                   dumps: Json -> string, start: (string, string) -> Result<string>, now: DateTime): (r: Outcome)
    requires Valid(now)
    ensures r.response.statusCode == 200 <==> r.started.Some?
    ensures r.response.statusCode == 200 || r.response.statusCode == 500
    ensures "body" !in event ==> r == Outcome(Response(500, Failed("'body'")), None)
    ensures r.started.Some? ==>
      && r.started.value.name == ExecutionName(now)
      && r.started.value.input.JObj?
      && |dumps(r.started.value.input)| <= InputLimit
      && Get(r.started.value.input, "source") == Some(JStr(Source))
      && r.response.body.Started?
      && start(r.started.value.name, dumps(r.started.value.input)) == Ok(r.response.body.executionArn)
    ensures "body" in event && Interpret(event, unbase64, decode).Err?
            ==> r == Outcome(Response(500, Failed(Interpret(event, unbase64, decode).error)), None)
    ensures "body" in event && Interpret(event, unbase64, decode).Ok? && !Interpret(event, unbase64, decode).value.JObj?
            ==> r == Outcome(Response(500, Failed(NoAttribute(Interpret(event, unbase64, decode).value, "get"))), None)
    ensures "body" in event && Interpret(event, unbase64, decode).Ok? && Interpret(event, unbase64, decode).value.JObj? ==>
      var f := Interpret(event, unbase64, decode).value.fields;
      var image := GetOr(JObj(f), "image_base64", JNull);
      var input := JObj(Payload(f, image));
      var started := start(ExecutionName(now), dumps(input));
      && (!HasLength(image) ==> r == Outcome(Response(500, Failed("object of type '" + TypeName(image) + "' has no len()")), None))
      && (HasLength(image) && |dumps(input)| <= InputLimit && started.Ok?
          ==> r == Outcome(Response(200, Started(started.value)), Some(Execution(ExecutionName(now), input))))
      && (HasLength(image) && |dumps(input)| <= InputLimit && started.Err?
          ==> r == Outcome(Response(500, Failed(started.error)), None))
  {
    if "body" !in event then Outcome(Response(500, Failed("'body'")), None)
    else match Interpret(event, unbase64, decode)
      case Err(e) => Outcome(Response(500, Failed(e)), None)
      case Ok(interpreted) =>
        if !interpreted.JObj? then Outcome(Response(500, Failed(NoAttribute(interpreted, "get"))), None)
        else
          var image := GetOr(interpreted, "image_base64", JNull);
          if !HasLength(image) then
            Outcome(Response(500, Failed("object of type '" + TypeName(image) + "' has no len()")), None)
          else
            var input := JObj(Payload(interpreted.fields, image));
            var size := |dumps(input)|;
            if size > InputLimit then
              Outcome(Response(500, Failed("Input size " + NatToString(size) + " exceeds the 256 KB limit.")), None)
            else
              var name := ExecutionName(now);
              match start(name, dumps(input))
              case Ok(arn) => Outcome(Response(200, Started(arn)), Some(Execution(name, input)))
              case Err(e) => Outcome(Response(500, Failed(e)), None)
  }

  /** An input over the limit starts nothing. */
  lemma OversizeStartsNothing(event: map<string, Json>, unbase64: Json -> Result<string>, decode: string -> Result<Json>,
                              dumps: Json -> string, start: (string, string) -> Result<string>, now: DateTime)
    requires Valid(now) && "body" in event
    requires var i := Interpret(event, unbase64, decode);
      i.Ok? && i.value.JObj? && HasLength(GetOr(i.value, "image_base64", JNull))
      && |dumps(JObj(Payload(i.value.fields, GetOr(i.value, "image_base64", JNull))))| > InputLimit
    ensures var r := Handler(event, unbase64, decode, dumps, start, now);
      r.started.None? && r.response.statusCode == 500
      && r.response.body.Failed? && StartsWith(r.response.body.error, "Input size ")
  {
    var i := Interpret(event, unbase64, decode).value;
    var size := |dumps(JObj(Payload(i.fields, GetOr(i, "image_base64", JNull))))|;
    var message := "Input size " + NatToString(size) + " exceeds the 256 KB limit.";
    assert message[..11] == "Input size ";
  }

  /** A request whose body is already a dict with a string image starts the execution named for the
    * time, with that image, the request's metadata and transcript (or their defaults) as its input. */
  lemma DictBodyStarts(event: map<string, Json>, f: map<string, Json>, unbase64: Json -> Result<string>,
                       decode: string -> Result<Json>, dumps: Json -> string, start: (string, string) -> Result<string>,
                       now: DateTime)
    requires Valid(now) && "body" in event && event["body"] == JObj(f)
    requires !Truthy(GetOr(JObj(event), "isBase64Encoded", JNull))
    requires "image_base64" in f && f["image_base64"].JStr?
    requires |dumps(JObj(Payload(f, f["image_base64"])))| <= InputLimit
    requires start(ExecutionName(now), dumps(JObj(Payload(f, f["image_base64"])))).Ok?
    ensures var r := Handler(event, unbase64, decode, dumps, start, now);
      && r.response == Response(200, Started(start(ExecutionName(now), dumps(JObj(Payload(f, f["image_base64"])))).value))
      && r.started.Some? && r.started.value.name == ExecutionName(now)
      && r.started.value.input == JObj(Payload(f, f["image_base64"]))
      && Get(r.started.value.input, "image_base64") == Some(f["image_base64"])
      && Get(r.started.value.input, "metadata") == Some(GetOr(JObj(f), "metadata", JObj(map[])))
  {
    assert Interpret(event, unbase64, decode) == Ok(JObj(f));
  }

  /** A plain body that is not JSON becomes `{"raw_body": ...}`, which has no image, so the request
    * fails at `len(None)` and starts nothing. */
  lemma RawBodyNeverStarts(event: map<string, Json>, unbase64: Json -> Result<string>, decode: string -> Result<Json>,
                           dumps: Json -> string, start: (string, string) -> Result<string>, now: DateTime)
    requires Valid(now) && "body" in event && event["body"].JStr? && decode(event["body"].s).Err?
    requires !Truthy(GetOr(JObj(event), "isBase64Encoded", JNull))
    ensures Handler(event, unbase64, decode, dumps, start, now)
            == Outcome(Response(500, Failed("object of type 'NoneType' has no len()")), None)
  {
    var raw := JObj(map["raw_body" := event["body"]]);
    assert Interpret(event, unbase64, decode) == Ok(raw);
    assert "image_base64" != "raw_body" by { assert "image_base64"[0] != "raw_body"[0]; }
    assert GetOr(raw, "image_base64", JNull) == JNull;
    assert "object of type '" + TypeName(JNull) + "' has no len()" == "object of type 'NoneType' has no len()";
  }
}
