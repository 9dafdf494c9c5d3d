/** The action executor of the action lambda: every routed action is logged, then notified over SNS
  * and spoken by Polly when its gates say so, with failures recorded per action instead of raised.
  * The two services are oracles indexed by the action's position in the list. */
module AgentExecutor {
  import opened Wrappers
  import opened Text
  import opened Json
  import opened ActionHandler

  /** An entry of `executed_actions` (its `timestamp` is left out). */
  datatype Executed = Executed(actionType: string, priority: int, message: string, immediate: bool,
                               metadata: Json, actionTaken: string)

  /** An entry of `sns_notifications` (status "sent"). */
  datatype Notification = Notification(actionType: string, messageId: string, subject: string)

  /** An entry of `polly_synthesis` (status "synthesized", voice "Joanna"). */
  datatype Speech = Speech(actionType: string, speechText: string, audioSize: nat)

  /** An entry of `errors`: the action's type and the text of the exception. */
  datatype Failure = Failure(actionType: string, error: string)

  /** The four lists of the `results` dictionary. */
  datatype Results = Results(executed: seq<Executed>, notifications: seq<Notification>,
                             speech: seq<Speech>, errors: seq<Failure>)

  const TopicMissing: string := "ALERTS_TOPIC_ARN environment variable not set"

  // ---------------------------------------------------------------- per-type texts

  /** `action_taken` of the executed entry. */
  function ActionTaken(t: ActionType): string {
    match t
    case EmergencyAlert => "Emergency alert processed"
    case FallDetected => "Fall detection alert processed"
    case UnusualActivity => "Unusual activity alert processed"
    case NormalActivity => "Normal activity logged"
    case _ => "Action processed"
  }

  /** The SNS subject line. */
  function Subject(t: ActionType): string {
    match t
    case EmergencyAlert => "\U{1F6A8} EMERGENCY ALERT - Immediate Attention Required"
    case FallDetected => "\U{26A0}\U{FE0F} FALL DETECTED - Elderly Safety Alert"
    case UnusualActivity => "\U{1F4CA} Unusual Activity Detected"
    case NormalActivity => "\U{2705} Normal Activity Confirmed"
    case _ => "\U{1F4CB} Activity Update"
  }

  /** The text given to Polly. */
  function SpeechText(t: ActionType): string {
    match t
    case EmergencyAlert => "Emergency alert! Immediate attention required. Please check on the elderly person immediately."
    case FallDetected => "Fall detected! The elderly person may have fallen. Please check on them immediately."
    case UnusualActivity => "Unusual activity detected. Please check on the elderly person when convenient."
    case NormalActivity => "Normal activity confirmed. Everything appears to be fine."
    case _ => "Activity update received. Please check the details in your notification."
  }

  /** `_execute_single_action`: the action as logged, with its `action_taken`. */
  function ExecutedEntry(a: Action): (e: Executed)
    ensures e.actionType == TypeValue(a.actionType) && e.actionTaken == ActionTaken(a.actionType)
    ensures e.priority == a.priority && e.message == a.message && e.immediate == a.immediate && e.metadata == a.metadata
  {
    Executed(TypeValue(a.actionType), a.priority, a.message, a.immediate, a.metadata, ActionTaken(a.actionType))
  }

  // ---------------------------------------------------------------- the notification body

  /** The lines of the notification body up to the immediate-response flag. */
  function NotificationHead(a: Action, timestamp: string): string {
    "Action Type: " + Title(Replace(TypeValue(a.actionType), "_", " "))
    + "\nPriority: " + IntToString(a.priority) + "/5"
    + "\nTimestamp: " + timestamp
    + "\nRequires Immediate Response: " + (if a.immediate then "Yes" else "No")
  }

  /** The body's text below the head. */
  function NotificationTail(a: Action, dump: string): string {
    "\n\nMessage: " + a.message + "\n\nMetadata: " + dump
  }

  /** `_get_notification_message`: the stripped body. `timestamp` is the formatted current time and
    * `dumps` stands for `json.dumps(metadata, indent=2)`. The body always opens with the head, and is
    * exactly head, message and metadata when the dump ends in a visible character (as JSON does). */
  function NotificationMessage(a: Action, timestamp: string, dumps: Json -> string): (r: string)
    ensures StartsWith(r, NotificationHead(a, timestamp))
    ensures var m := dumps(a.metadata);
      m != [] && !IsSpace(m[|m| - 1]) ==> r == NotificationHead(a, timestamp) + NotificationTail(a, m)
  {
    var head := NotificationHead(a, timestamp);
    var m := dumps(a.metadata);
    var rest := NotificationTail(a, m);
    HeadEnds(a, timestamp);
    IndentIsSpace();
    assert m != [] ==> rest[|rest| - 1] == m[|m| - 1];
    StrippedBody("\n", head, rest, "\n        ");
    Strip("\n" + (head + rest) + "\n        ")
  }

  /** Whitespace around a head with visible ends: `strip()` keeps the head, and keeps everything when
    * the text also ends visibly. */
  lemma StrippedBody(ws1: string, head: string, rest: string, ws2: string)
    requires AllSpace(ws1) && AllSpace(ws2)
    requires head != [] && !IsSpace(head[0]) && !IsSpace(head[|head| - 1])
    ensures StartsWith(Strip(ws1 + (head + rest) + ws2), head)
    ensures rest != [] && !IsSpace(rest[|rest| - 1]) ==> Strip(ws1 + (head + rest) + ws2) == head + rest
  {
    assert ws1 + (head + rest) + ws2 == ws1 + head + (rest + ws2);
    StripKeepsHead(ws1, head, rest + ws2);
    if rest != [] && !IsSpace(rest[|rest| - 1]) {
      var body := head + rest;
      assert body[0] == head[0] && body[|body| - 1] == rest[|rest| - 1];
      StripExact(ws1, body, ws2);
    }
  }

  /** The newline and the indentation around the f-string bodies are whitespace. */
  lemma IndentIsSpace()
    ensures AllSpace("\n") && AllSpace("\n        ")
  {
    var tail := "\n        ";
    forall i | 0 <= i < |tail| ensures IsSpace(tail[i]) {
      assert tail[i] == '\n' || tail[i] == ' ';
    }
  }

  lemma HeadEnds(a: Action, timestamp: string)
    ensures var head := NotificationHead(a, timestamp);
      head != [] && head[0] == 'A' && head[|head| - 1] == (if a.immediate then 's' else 'o')
  {
  }

  // ---------------------------------------------------------------- one action

  /** `_send_sns_notification`: no topic raises before any call; otherwise the publish result. */
  function SendNotification(hasTopic: bool, i: nat, publish: nat -> Result<string>): (r: Result<string>)
    ensures !hasTopic ==> r == Err(TopicMissing)
    ensures hasTopic ==> r == publish(i)
  {
    if !hasTopic then Err(TopicMissing) else publish(i)
  }

  /** What one pass of the loop adds to the four lists for action `a` at position `i`. Both service
    * calls sit in one `try`, so a failed notification skips the speech and logs one error. */
  function Outcome(hasTopic: bool, a: Action, i: nat, publish: nat -> Result<string>,
                   synthesize: nat -> Result<nat>): (r: Results)
    ensures r.executed == [ExecutedEntry(a)]
    ensures |r.notifications| <= 1 && |r.speech| <= 1 && |r.errors| <= 1
    ensures r.notifications != [] <==> ShouldSendAlert(a) && SendNotification(hasTopic, i, publish).Ok?
    ensures r.speech != [] <==> ShouldSynthesizeSpeech(a) && synthesize(i).Ok?
                                && (ShouldSendAlert(a) ==> SendNotification(hasTopic, i, publish).Ok?)
    ensures ShouldSendAlert(a) ==> |r.notifications| + |r.errors| >= 1
    ensures ShouldSendAlert(a) && SendNotification(hasTopic, i, publish).Err?
            ==> r.errors == [Failure(TypeValue(a.actionType), SendNotification(hasTopic, i, publish).error)]
    ensures !ShouldSendAlert(a) ==> r.notifications == [] && r.speech == [] && r.errors == []
    ensures forall n :: n in r.notifications ==> n.actionType == TypeValue(a.actionType)
    ensures forall s :: s in r.speech ==> s.actionType == TypeValue(a.actionType)
    ensures forall f :: f in r.errors ==> f.actionType == TypeValue(a.actionType)
  {
    var kind := TypeValue(a.actionType);
    var sent := SendNotification(hasTopic, i, publish);
    var notified := if ShouldSendAlert(a) && sent.Ok? then [Notification(kind, sent.value, Subject(a.actionType))] else [];
    if ShouldSendAlert(a) && sent.Err? then
      Results([ExecutedEntry(a)], [], [], [Failure(kind, sent.error)])
    else if !ShouldSynthesizeSpeech(a) then
      Results([ExecutedEntry(a)], notified, [], [])
    else
      match synthesize(i)
      case Ok(size) => Results([ExecutedEntry(a)], notified, [Speech(kind, SpeechText(a.actionType), size)], [])
      case Err(e) => Results([ExecutedEntry(a)], notified, [], [Failure(kind, e)])
  }

  function Combine(x: Results, y: Results): Results {
    Results(x.executed + y.executed, x.notifications + y.notifications, x.speech + y.speech, x.errors + y.errors)
  }

  /** The results of `execute_actions` over `actions`: each action's outcome, appended in order. */
  function Run(hasTopic: bool, actions: seq<Action>, publish: nat -> Result<string>,
               synthesize: nat -> Result<nat>): Results
    decreases |actions|
  {
    if actions == [] then Results([], [], [], [])
    else
      var n := |actions| - 1;
      Combine(Run(hasTopic, actions[..n], publish, synthesize), Outcome(hasTopic, actions[n], n, publish, synthesize))
  }

  lemma RunStep(hasTopic: bool, actions: seq<Action>, i: nat, publish: nat -> Result<string>,
                synthesize: nat -> Result<nat>)
    requires i < |actions|
    ensures Run(hasTopic, actions[..i + 1], publish, synthesize)
            == Combine(Run(hasTopic, actions[..i], publish, synthesize), Outcome(hasTopic, actions[i], i, publish, synthesize))
  {
    assert actions[..i + 1][..i] == actions[..i];
  }

  /** How many of `actions` pass the notification gate. */
  function NotifyCount(actions: seq<Action>): nat
    decreases |actions|
  {
    if actions == [] then 0
    else NotifyCount(actions[..|actions| - 1]) + (if ShouldSendAlert(actions[|actions| - 1]) then 1 else 0)
  }

  /** How many of `actions` pass the speech gate. */
  function SpeakCount(actions: seq<Action>): nat
    decreases |actions|
  {
    if actions == [] then 0
    else SpeakCount(actions[..|actions| - 1]) + (if ShouldSynthesizeSpeech(actions[|actions| - 1]) then 1 else 0)
  }

  // ---------------------------------------------------------------- properties of a run

  /** Every action is executed, in input order, whatever the services do. */
  lemma {:induction false} RunExecutesAll(hasTopic: bool, actions: seq<Action>, publish: nat -> Result<string>,
                                          synthesize: nat -> Result<nat>)
    ensures var r := Run(hasTopic, actions, publish, synthesize);
      |r.executed| == |actions| && forall i :: 0 <= i < |actions| ==> r.executed[i] == ExecutedEntry(actions[i])
    decreases |actions|
  {
    if actions != [] {
      var n := |actions| - 1;
      RunExecutesAll(hasTopic, actions[..n], publish, synthesize);
      var r := Run(hasTopic, actions, publish, synthesize);
      var p := Run(hasTopic, actions[..n], publish, synthesize);
      assert r.executed == p.executed + [ExecutedEntry(actions[n])];
    }
  }

  /** At most one error per action; no more notifications or speeches than actions passing their
    * gates; and every action passing the notification gate is either notified or failed. */
  lemma {:induction false} RunCounts(hasTopic: bool, actions: seq<Action>, publish: nat -> Result<string>,
                                     synthesize: nat -> Result<nat>)
    ensures var r := Run(hasTopic, actions, publish, synthesize);
      && |r.errors| <= |actions|
      && |r.notifications| <= NotifyCount(actions)
      && |r.speech| <= SpeakCount(actions)
      && NotifyCount(actions) <= |r.notifications| + |r.errors|
    decreases |actions|
  {
    if actions != [] {
      RunCounts(hasTopic, actions[..|actions| - 1], publish, synthesize);
    }
  }

  /** Without a topic nothing is published or spoken, and each action passing the notification gate
    * leaves exactly one error. */
  lemma {:induction false} RunWithoutTopic(actions: seq<Action>, publish: nat -> Result<string>,
                                           synthesize: nat -> Result<nat>)
    ensures var r := Run(false, actions, publish, synthesize);
      r.notifications == [] && r.speech == [] && |r.errors| == NotifyCount(actions)
      && forall f :: f in r.errors ==> f.error == TopicMissing
    decreases |actions|
  {
    if actions != [] {
      var n := |actions| - 1;
      RunWithoutTopic(actions[..n], publish, synthesize);
      SpeechImpliesAlert(actions[n]);
    }
  }

  /** When both services answer every call, nothing fails and every gated action is notified and
    * spoken. */
  lemma {:induction false} RunAllSucceed(actions: seq<Action>, publish: nat -> Result<string>,
                                         synthesize: nat -> Result<nat>)
    requires forall i :: 0 <= i < |actions| ==> publish(i).Ok? && synthesize(i).Ok?
    ensures var r := Run(true, actions, publish, synthesize);
      r.errors == [] && |r.notifications| == NotifyCount(actions) && |r.speech| == SpeakCount(actions)
    decreases |actions|
  {
    if actions != [] {
      var n := |actions| - 1;
      RunAllSucceed(actions[..n], publish, synthesize);
    }
  }

  /** The type values of a list of actions, and of each result list. */
  function Kinds(actions: seq<Action>): (ks: seq<string>)
    ensures |ks| == |actions| && forall i :: 0 <= i < |actions| ==> ks[i] == TypeValue(actions[i].actionType)
  {
    seq(|actions|, i requires 0 <= i < |actions| => TypeValue(actions[i].actionType))
  }

  /** The list of what `kind` says of each element, in order. */
  function Project<T>(xs: seq<T>, kind: T -> string): (ks: seq<string>)
    ensures |ks| == |xs| && forall i :: 0 <= i < |xs| ==> ks[i] == kind(xs[i])
  {
    seq(|xs|, i requires 0 <= i < |xs| => kind(xs[i]))
  }

  function NotificationType(n: Notification): string { n.actionType }
  function SpeechType(s: Speech): string { s.actionType }
  function FailureType(f: Failure): string { f.actionType }

  /** Extending both lists by the same last element, or only the larger one, keeps a subsequence. */
  lemma {:induction false} SubsequenceSnoc<T>(xs: seq<T>, ys: seq<T>, zs: seq<T>, y: T)
    requires IsSubsequence(xs, ys) && (zs == [] || zs == [y])
    ensures IsSubsequence(xs + zs, ys + [y])
    decreases |ys|
  {
    if ys == [] {
      assert xs == [];
      if zs == [y] {
        assert xs + zs == [y] && ys + [y] == [y];
        assert IsSubsequence([y][1..], [y][1..]);
      }
    } else {
      assert (ys + [y])[1..] == ys[1..] + [y];
      if xs == [] {
        if zs == [y] {
          SubsequenceSnoc([], ys[1..], zs, y);
          assert [] + zs == zs;
        }
      } else if xs[0] == ys[0] {
        SubsequenceSnoc(xs[1..], ys[1..], zs, y);
        assert (xs + zs)[1..] == xs[1..] + zs;
      } else {
        SubsequenceSnoc(xs, ys[1..], zs, y);
      }
    }
  }

  /** Each result list follows the order of the actions it comes from. */
  lemma {:induction false} RunKeepsOrder(hasTopic: bool, actions: seq<Action>, publish: nat -> Result<string>,
                                         synthesize: nat -> Result<nat>)
    ensures var r := Run(hasTopic, actions, publish, synthesize);
      && IsSubsequence(Project(r.notifications, NotificationType), Kinds(actions))
      && IsSubsequence(Project(r.speech, SpeechType), Kinds(actions))
      && IsSubsequence(Project(r.errors, FailureType), Kinds(actions))
    decreases |actions|
  {
    if actions != [] {
      var n := |actions| - 1;
      var front := actions[..n];
      RunKeepsOrder(hasTopic, front, publish, synthesize);
      var p, o := Run(hasTopic, front, publish, synthesize), Outcome(hasTopic, actions[n], n, publish, synthesize);
      var y := TypeValue(actions[n].actionType);
      KindsSnoc(actions);
      ProjectStep(p.notifications, o.notifications, Kinds(front), y, NotificationType);
      ProjectStep(p.speech, o.speech, Kinds(front), y, SpeechType);
      ProjectStep(p.errors, o.errors, Kinds(front), y, FailureType);
    }
  }

  lemma KindsSnoc(actions: seq<Action>)
    requires actions != []
    ensures Kinds(actions) == Kinds(actions[..|actions| - 1]) + [TypeValue(actions[|actions| - 1].actionType)]
  {
  }

  /** One more pass adds at most one entry, of the action's own type. */
  lemma ProjectStep<T>(p: seq<T>, o: seq<T>, ks: seq<string>, y: string, kind: T -> string)
    requires IsSubsequence(Project(p, kind), ks)
    requires |o| <= 1 && forall x :: x in o ==> kind(x) == y
    ensures IsSubsequence(Project(p + o, kind), ks + [y])
  {
    if o != [] { assert o[0] in o; }
    assert Project(p + o, kind) == Project(p, kind) + Project(o, kind);
    SubsequenceSnoc(Project(p, kind), ks, Project(o, kind), y);
  }

  // ---------------------------------------------------------------- the executor

  /** `AgentExecutor`: the topic comes from `ALERTS_TOPIC_ARN` when it is created; a missing or empty
    * one is only warned about. */
  class Executor {
    const topicArn: Option<string>

    constructor(topicArn: Option<string>)
      ensures this.topicArn == topicArn
    {
      this.topicArn := topicArn;
    }

    predicate HasTopic() {
      topicArn.Some? && topicArn.value != ""
    }

    /** `execute_actions`: visits every action in order; no failure escapes the loop. */
    method ExecuteActions(actions: seq<Action>, publish: nat -> Result<string>, synthesize: nat -> Result<nat>)
      returns (results: Results)
      ensures results == Run(HasTopic(), actions, publish, synthesize)
    {
      var executed, notifications, speech, errors := [], [], [], [];
      var i := 0;
      while i < |actions|
        invariant 0 <= i <= |actions|
        invariant Results(executed, notifications, speech, errors) == Run(HasTopic(), actions[..i], publish, synthesize)
      {
        ghost var before := Results(executed, notifications, speech, errors);
        var a := actions[i];
        var kind := TypeValue(a.actionType);
        executed := executed + [ExecutedEntry(a)];
        var notified: seq<Notification>, spoken: seq<Speech>, failed: seq<Failure> := [], [], [];
        if ShouldSendAlert(a) {
          match SendNotification(HasTopic(), i, publish)
          case Ok(id) =>
            notified := [Notification(kind, id, Subject(a.actionType))];
          case Err(e) =>
            failed := [Failure(kind, e)];
        }
        if failed == [] && ShouldSynthesizeSpeech(a) {
          match synthesize(i)
          case Ok(size) =>
            spoken := [Speech(kind, SpeechText(a.actionType), size)];
          case Err(e) =>
            failed := [Failure(kind, e)];
        }
        ghost var step := Outcome(HasTopic(), a, i, publish, synthesize);
        assert Results([ExecutedEntry(a)], notified, spoken, failed) == step;
        notifications := notifications + notified;
        speech := speech + spoken;
        errors := errors + failed;
        assert Results(executed, notifications, speech, errors) == Combine(before, step);
        RunStep(HasTopic(), actions, i, publish, synthesize);
        i := i + 1;
      }
      assert actions[..i] == actions;
      results := Results(executed, notifications, speech, errors);
    }

    /** `get_execution_summary`: the stripped count header, then the error lines appended one by
      * one when there are any. */
    method GetExecutionSummary(results: Results) returns (summary: string)
      ensures summary == Summary(results)
    {
      var header := SummaryHeader(results);
      HeaderStripped(results);
      summary := Strip("\n" + header + "\n        ");
      if |results.errors| > 0 {
        summary := AppendErrorLines(summary + "\n\nErrors:\n", results.errors);
      }
    }
  }

  /** The loop of `get_execution_summary` that appends one line per error. */
  method AppendErrorLines(prefix: string, errors: seq<Failure>) returns (text: string)
    ensures text == prefix + ErrorLines(errors)
  {
    text := prefix;
    var k := 0;
    while k < |errors|
      invariant 0 <= k <= |errors|
      invariant text == prefix + ErrorLines(errors[..k])
    {
      assert errors[..k + 1][..k] == errors[..k];
      text := text + ErrorLine(errors[k]);
      k := k + 1;
    }
    assert errors[..k] == errors;
  }

  // ---------------------------------------------------------------- the summary text

  /** The stripped four-count header of the summary. */
  function SummaryHeader(results: Results): string {
    "Execution Summary:"
    + "\n- Total actions executed: " + NatToString(|results.executed|)
    + "\n- SNS notifications sent: " + NatToString(|results.notifications|)
    + "\n- Speech synthesis completed: " + NatToString(|results.speech|)
    + "\n- Errors encountered: " + NatToString(|results.errors|)
  }

  /** The f-string's surrounding newline and indentation are all that `strip()` removes. */
  lemma HeaderStripped(results: Results)
    ensures Strip("\n" + SummaryHeader(results) + "\n        ") == SummaryHeader(results)
  {
    HeaderEnds(results);
    IndentIsSpace();
    StripExact("\n", SummaryHeader(results), "\n        ");
  }

  lemma HeaderEnds(results: Results)
    ensures var h := SummaryHeader(results); h != [] && !IsSpace(h[0]) && !IsSpace(h[|h| - 1])
  {
    var d := NatToString(|results.errors|);
    var h := SummaryHeader(results);
    assert h[|h| - 1] == d[|d| - 1];
    assert IsDigit(d[|d| - 1]);
  }

  function ErrorLine(f: Failure): string {
    "- " + f.actionType + ": " + f.error + "\n"
  }

  /** One line per error, in list order. */
  function ErrorLines(errors: seq<Failure>): string
    decreases |errors|
  {
    if errors == [] then "" else ErrorLines(errors[..|errors| - 1]) + ErrorLine(errors[|errors| - 1])
  }

  /** The whole summary text. */
  function Summary(results: Results): string {
    if results.errors == [] then SummaryHeader(results)
    else SummaryHeader(results) + "\n\nErrors:\n" + ErrorLines(results.errors)
  }

  /** Every error has its line in the listing. */
  lemma {:induction false} ErrorLinesListEach(errors: seq<Failure>)
    ensures forall i :: 0 <= i < |errors| ==> Contains(ErrorLines(errors), ErrorLine(errors[i]))
    decreases |errors|
  {
    if errors != [] {
      var n := |errors| - 1;
      var front := errors[..n];
      ErrorLinesListEach(front);
      forall i | 0 <= i < |errors| ensures Contains(ErrorLines(errors), ErrorLine(errors[i])) {
        ContainsInConcat(ErrorLines(front), ErrorLine(errors[n]), ErrorLine(errors[i]));
        if i == n {
          assert OccursAt(ErrorLine(errors[n]), ErrorLine(errors[n]), 0);
          ContainsAt(ErrorLine(errors[n]), ErrorLine(errors[n]), 0);
        } else {
          assert errors[i] == front[i];
        }
      }
    }
  }

  /** The summary is the bare count header exactly when there is no error; otherwise an "Errors:"
    * section follows it, holding the line of every error. */
  lemma SummaryShape(results: Results)
    ensures results.errors == [] ==> Summary(results) == SummaryHeader(results)
    ensures results.errors != [] ==> StartsWith(Summary(results), SummaryHeader(results) + "\n\nErrors:\n")
    ensures forall i :: 0 <= i < |results.errors| ==> Contains(Summary(results), ErrorLine(results.errors[i]))
  {
    if results.errors != [] {
      Listing(SummaryHeader(results) + "\n\nErrors:\n", results.errors);
    }
  }

  /** Every error's line occurs in a listing of them, whatever precedes it. */
  lemma Listing(head: string, errors: seq<Failure>)
    ensures forall i :: 0 <= i < |errors| ==> Contains(head + ErrorLines(errors), ErrorLine(errors[i]))
  {
    ErrorLinesListEach(errors);
    forall i | 0 <= i < |errors| ensures Contains(head + ErrorLines(errors), ErrorLine(errors[i])) {
      ContainsInConcat(head, ErrorLines(errors), ErrorLine(errors[i]));
    }
  }
}
