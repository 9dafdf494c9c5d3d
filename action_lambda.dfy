/** The action lambda's entry point: route the model output into actions, execute them, and answer
  * with a status code and a body. */
module ActionLambda {
  import opened Wrappers
  import opened Text
  import opened Json
  import opened ActionHandler
  import opened AgentExecutor

  /** The response body before `json.dumps`. */
  datatype Body =
    | NoActions                                                           // "No actions required", count 0
    | Done(actionsCount: nat, summary: string, results: Results)     // "Actions executed successfully"
    | Failed(message: string)                                            // error "Internal server error"

  datatype Response = Response(statusCode: int, body: Body)

  /** `event.get('bedrock_response', event)`. */
  function BedrockResponse(event: Json): Json
    requires event.JObj?
  {
    GetOr(event, "bedrock_response", event)
  }

  /** `handler`: `topicArn` is `ALERTS_TOPIC_ARN`, `repr` renders non-string values for `str()`,
    * and the two service oracles are indexed by action position. A non-dict event fails on `.get`. */
  method Handler(event: Json, repr: Json -> string, topicArn: Option<string>,
                 publish: nat -> Result<string>, synthesize: nat -> Result<nat>) returns (response: Response)
    ensures !event.JObj? ==> response == Response(500, Failed(NoAttribute(event, "get")))
    ensures event.JObj? ==>
      var actions := RouteContent(ExtractContent(BedrockResponse(event), repr));
      var results := Run(topicArn.Some? && topicArn.value != "", actions, publish, synthesize);
      && (actions == [] ==> response == Response(200, NoActions))
      && (actions != [] ==> response == Response(200, Done(|actions|, Summary(results), results)))
  {
    if !event.JObj? {
      return Response(500, Failed(NoAttribute(event, "get")));
    }
    var executor := new Executor(topicArn);
    var actions := ProcessBedrockOutput(BedrockResponse(event), repr);
    if actions == [] {
      return Response(200, NoActions);
    }
    var results := executor.ExecuteActions(actions, publish, synthesize);
    var summary := executor.GetExecutionSummary(results);
    response := Response(200, Done(|actions|, summary, results));
  }

  /** A request whose analysis mentions an emergency gets the fall and the emergency alerts, in that
    * order, both notified and spoken when the topic is set and the services answer; the executor
    * then reports no errors. */
  lemma EmergencyReachesCaregivers(event: Json, repr: Json -> string, publish: nat -> Result<string>,
                                   synthesize: nat -> Result<nat>)
    requires event.JObj? && "bedrock_response" in event.fields
    requires event.fields["bedrock_response"].JStr?
    requires Contains(Lower(event.fields["bedrock_response"].s), "emergency")
    requires forall i :: 0 <= i < 4 ==> publish(i).Ok? && synthesize(i).Ok?
    ensures var actions := RouteContent(ExtractContent(BedrockResponse(event), repr));
      var r := Run(true, actions, publish, synthesize);
      && |actions| >= 2 && actions[0].actionType == FallDetected && actions[1].actionType == EmergencyAlert
      && r.errors == [] && |r.notifications| >= 2 && |r.speech| >= 2
  {
    var text := event.fields["bedrock_response"].s;
    assert |Lower(text)| >= 9 by { assert OccursAt(Lower(text), "emergency", IndexOf(Lower(text), "emergency").value); }
    TextRequestRoutesScans(event, repr);
    EmergencyLeads(text);
    LeadingImmediateRun(Scans(text), publish, synthesize);
  }

  /** A request whose `bedrock_response` is non-empty text is routed by the four scans of that text. */
  lemma TextRequestRoutesScans(event: Json, repr: Json -> string)
    requires event.JObj? && "bedrock_response" in event.fields
    requires event.fields["bedrock_response"].JStr? && event.fields["bedrock_response"].s != []
    ensures RouteContent(ExtractContent(BedrockResponse(event), repr)) == Scans(event.fields["bedrock_response"].s)
  {
  }

  /** A short list that opens with two immediate actions is fully served when the services answer. */
  lemma LeadingImmediateRun(actions: seq<Action>, publish: nat -> Result<string>, synthesize: nat -> Result<nat>)
    requires 2 <= |actions| <= 4 && actions[0].immediate && actions[1].immediate
    requires forall i :: 0 <= i < 4 ==> publish(i).Ok? && synthesize(i).Ok?
    ensures var r := Run(true, actions, publish, synthesize);
      r.errors == [] && |r.notifications| >= 2 && |r.speech| >= 2
  {
    RunAllSucceed(actions, publish, synthesize);
    TwoGated(actions);
  }

  /** Two leading immediate actions pass both gates. */
  lemma {:induction false} TwoGated(actions: seq<Action>)
    requires |actions| >= 2 && actions[0].immediate && actions[1].immediate
    ensures NotifyCount(actions) >= 2 && SpeakCount(actions) >= 2
    decreases |actions|
  {
    if |actions| > 2 {
      TwoGated(actions[..|actions| - 1]);
    } else {
      assert actions[..1][..0] == [];
    }
  }
}
