/** The action router of the action lambda: four case-insensitive keyword scans turn the model's
  * analysis text into a priority-ordered list of actions, failing toward an emergency alert. */
module ActionHandler {
  import opened Wrappers
  import opened Text
  import opened Json

  datatype ActionType =
    | EmergencyAlert
    | FallDetected
    | UnusualActivity
    | NormalActivity
    | CheckInReminder
    | MedicationReminder

  /** The enum's `.value`. */
  function TypeValue(t: ActionType): string {
    match t
    case EmergencyAlert => "emergency_alert"
    case FallDetected => "fall_detected"
    case UnusualActivity => "unusual_activity"
    case NormalActivity => "normal_activity"
    case CheckInReminder => "check_in_reminder"
    case MedicationReminder => "medication_reminder"
  }

  /** Priority runs from 1 (most urgent) to 5; `immediate` is `requires_immediate_response`. */
  datatype Action = Action(actionType: ActionType, priority: int, message: string, metadata: Json, immediate: bool)

  const FallKeywords: seq<string> :=
    ["fall", "fallen", "fell", "collapsed", "unconscious", "motionless", "lying down", "on floor", "emergency"]
  const EmergencyKeywords: seq<string> :=
    ["emergency", "urgent", "critical", "immediate", "help needed", "medical emergency", "ambulance", "911"]
  const UnusualKeywords: seq<string> :=
    ["unusual", "abnormal", "concerning", "worrisome", "strange", "out of ordinary", "not normal"]
  const NormalKeywords: seq<string> :=
    ["normal", "regular", "routine", "fine", "okay", "good", "healthy", "active", "moving", "walking"]

  /** `xs` is `ys` with some elements dropped, the rest in their original order. */
  predicate IsSubsequence<T(==)>(xs: seq<T>, ys: seq<T>)
    decreases |ys|
  {
    xs == [] || (ys != [] && (if xs[0] == ys[0] then IsSubsequence(xs[1..], ys[1..]) else IsSubsequence(xs, ys[1..])))
  }

  /** `[k for k in keywords if k in text]`: the keywords found, in list order. */
  function Found(keywords: seq<string>, text: string): (r: seq<string>)
    ensures forall k :: k in r <==> k in keywords && Contains(text, k)
    ensures IsSubsequence(r, keywords)
    ensures |r| <= |keywords|
  {
    if keywords == [] then []
    else
      var rest := Found(keywords[1..], text);
      assert forall k :: k in keywords <==> k == keywords[0] || k in keywords[1..];
      if Contains(text, keywords[0]) then [keywords[0]] + rest else rest
  }

  /** `any(k in text for k in keywords)`. */
  predicate AnyFound(keywords: seq<string>, text: string) {
    exists k :: k in keywords && Contains(text, k)
  }

  // ---------------------------------------------------------------- the four scans

  /** The fixed settings of each scan: `(priority, immediate, message prefix)`. */
  function Priority(t: ActionType): int {
    match t
    case FallDetected => 1
    case EmergencyAlert => 1
    case UnusualActivity => 3
    case _ => 5
  }

  predicate Immediate(t: ActionType) {
    t == FallDetected || t == EmergencyAlert
  }

  function Label(t: ActionType): string {
    match t
    case FallDetected => "Fall detected: "
    case EmergencyAlert => "Emergency situation detected: "
    case UnusualActivity => "Unusual activity detected: "
    case _ => "Normal activity confirmed: "
  }

  /** The action a scan of kind `t` appends for `content`, with the indicators it found. */
  function ScanAction(t: ActionType, content: string, indicators: seq<string>): (a: Action)
    ensures a.actionType == t && a.priority == Priority(t) && a.immediate == Immediate(t)
    ensures a.message == Label(t) + Take(content, 200) + "..."
  {
    var full := map["full_content" := JStr(content)];
    var meta := if t == NormalActivity then full
      else full["indicators" := JList(seq(|indicators|, i requires 0 <= i < |indicators| => JStr(indicators[i])))];
    Action(t, Priority(t), Label(t) + Take(content, 200) + "...", JObj(meta), Immediate(t))
  }

  /** One of the `_analyze_*` scans: at most one action, present exactly when a keyword matched. */
  function Scan(t: ActionType, keywords: seq<string>, content: string): (r: seq<Action>)
    ensures r != [] <==> AnyFound(keywords, Lower(content))
    ensures |r| <= 1 && (r != [] ==> r[0] == ScanAction(t, content, Found(keywords, Lower(content))))
    ensures forall a :: a in r ==> a.actionType == t && a.priority == Priority(t) && a.immediate == Immediate(t)
                                   && a.message == Label(t) + Take(content, 200) + "..."
  {
    var found := Found(keywords, Lower(content));
    if found != [] then
      assert found[0] in found;
      [ScanAction(t, content, found)]
    else []
  }

  function AnalyzeFallDetection(content: string): seq<Action> {
    Scan(FallDetected, FallKeywords, content)
  }

  function AnalyzeEmergencySituations(content: string): seq<Action> {
    Scan(EmergencyAlert, EmergencyKeywords, content)
  }

  function AnalyzeUnusualActivity(content: string): seq<Action> {
    Scan(UnusualActivity, UnusualKeywords, content)
  }

  function AnalyzeNormalActivity(content: string): seq<Action> {
    Scan(NormalActivity, NormalKeywords, content)
  }

  /** Whether the scan for `t` fires on `content`; reminders have no scan. */
  predicate Fires(t: ActionType, content: string) {
    var lower := Lower(content);
    match t
    case FallDetected => AnyFound(FallKeywords, lower)
    case EmergencyAlert => AnyFound(EmergencyKeywords, lower)
    case UnusualActivity => AnyFound(UnusualKeywords, lower)
    case NormalActivity => AnyFound(NormalKeywords, lower)
    case _ => false
  }

  // ---------------------------------------------------------------- stable sort by priority

  predicate SortedByPriority(s: seq<Action>) {
    forall i, j :: 0 <= i < j < |s| ==> s[i].priority <= s[j].priority
  }

  /** Insert `a` in front of the first element of no smaller priority. */
  function Insert(a: Action, s: seq<Action>): (r: seq<Action>)
    requires SortedByPriority(s)
    ensures SortedByPriority(r) && multiset(r) == multiset(s) + multiset{a}
  {
    if s == [] || a.priority <= s[0].priority then [a] + s
    else
      var rest := Insert(a, s[1..]);
      InsertStep(a, s, rest);
      [s[0]] + rest
  }

  /** The head, of smaller priority than `a`, stays in front of the insertion into the tail. */
  lemma InsertStep(a: Action, s: seq<Action>, rest: seq<Action>)
    requires SortedByPriority(s) && s != [] && s[0].priority < a.priority
    requires SortedByPriority(rest) && multiset(rest) == multiset(s[1..]) + multiset{a}
    ensures SortedByPriority([s[0]] + rest) && multiset([s[0]] + rest) == multiset(s) + multiset{a}
  {
    assert s == [s[0]] + s[1..];
    forall x | x in rest ensures x.priority >= s[0].priority {
      assert x in multiset(rest);
    }
    SortedAppend([s[0]], rest);
  }

  /** `actions.sort(key=lambda x: x.priority)`. */
  function SortByPriority(s: seq<Action>): (r: seq<Action>)
    ensures SortedByPriority(r) && multiset(r) == multiset(s)
  {
    if s == [] then []
    else
      assert multiset(s) == multiset{s[0]} + multiset(s[1..]) by { assert s == [s[0]] + s[1..]; }
      Insert(s[0], SortByPriority(s[1..]))
  }

  /** Python's sort is stable, so a list already in priority order comes back unchanged (an unstable
    * sort could swap two actions of equal priority). */
  lemma {:induction false} SortStableOnSorted(s: seq<Action>)
    requires SortedByPriority(s)
    ensures SortByPriority(s) == s
  {
    if s != [] {
      SortStableOnSorted(s[1..]);
      assert [s[0]] + s[1..] == s;
    }
  }

  // ---------------------------------------------------------------- routing

  /** `_extract_content`: the first of `content`, `text`, `response`, `output`, `message` that holds
    * a string, or a dict with a `text` entry (whose value is returned whatever its type); then
    * `completion` likewise; otherwise `str(response)`. */
  function ExtractContent(response: Json, repr: Json -> string): (r: Json)
    ensures response.JStr? ==> r == response
    ensures !response.JObj? ==> r == JStr(Str(response, repr))
  {
    ExtractFrom(response, ["content", "text", "response", "output", "message", "completion"], repr)
  }

  /** Key `key` of `response` holds a string, or a dict with a `text` entry. */
  predicate Answers(response: Json, key: string) {
    Has(response, key) && (response.fields[key].JStr? || (response.fields[key].JObj? && "text" in response.fields[key].fields))
  }

  /** What an answering key yields: the string itself, or the dict's `text` value. */
  function Answer(v: Json): Json {
    if v.JObj? && "text" in v.fields then v.fields["text"] else v
  }

  /** The probe over `keys`: the first key that answers decides; with none, `str(response)`. */
  function ExtractFrom(response: Json, keys: seq<string>, repr: Json -> string): (r: Json)
    ensures !response.JObj? ==> r == JStr(Str(response, repr))
    ensures forall i :: (0 <= i < |keys| && Answers(response, keys[i]) && (forall j :: 0 <= j < i ==> !Answers(response, keys[j])))
                        ==> r == Answer(response.fields[keys[i]])
    ensures (forall i :: 0 <= i < |keys| ==> !Answers(response, keys[i])) ==> r == JStr(Str(response, repr))
  {
    if !response.JObj? || keys == [] then JStr(Str(response, repr))
    else match Get(response, keys[0])
      case Some(JStr(s)) => JStr(s)
      case Some(JObj(m)) =>
        if "text" in m then m["text"] else ExtractFrom(response, keys[1..], repr)
      case _ => ExtractFrom(response, keys[1..], repr)
  }

  /** The single action returned when processing raises (here: calling `.lower()` on a non-string). */
  function AnalysisFailure(error: string): Action {
    Action(EmergencyAlert, 1, "Error in analysis - manual check required", JObj(map["error" := JStr(error)]), true)
  }

  /** The four scans in the order `process_bedrock_output` extends its list with them. */
  function Scans(content: string): seq<Action> {
    AnalyzeFallDetection(content) + AnalyzeEmergencySituations(content)
    + AnalyzeUnusualActivity(content) + AnalyzeNormalActivity(content)
  }

  /** The actions routed for extracted content `c`. */
  function RouteContent(c: Json): seq<Action> {
    if !Truthy(c) then []
    else if !c.JStr? then [AnalysisFailure(NoAttribute(c, "lower"))]
    else Scans(c.s)
  }

  /** `process_bedrock_output`: no actions for empty content; the scans' actions in scan order
    * (which the stable sort by priority leaves alone) for a string; and the single fail-safe
    * emergency alert when the extracted value is not a string. */
  method ProcessBedrockOutput(response: Json, repr: Json -> string) returns (actions: seq<Action>)
    ensures actions == RouteContent(ExtractContent(response, repr))
    ensures var c := ExtractContent(response, repr);
      && (!Truthy(c) ==> actions == [])
      && (Truthy(c) && !c.JStr? ==> actions == [AnalysisFailure(NoAttribute(c, "lower"))])
      && (Truthy(c) && c.JStr? ==> actions == Scans(c.s) && SortedByPriority(actions))
  {
    var content := ExtractContent(response, repr);
    if !Truthy(content) {
      return [];
    }
    if !content.JStr? {
      return [AnalysisFailure(NoAttribute(content, "lower"))];
    }
    actions := AnalyzeFallDetection(content.s);
    actions := actions + AnalyzeEmergencySituations(content.s);
    actions := actions + AnalyzeUnusualActivity(content.s);
    actions := actions + AnalyzeNormalActivity(content.s);
    assert actions == Scans(content.s);
    ScansSorted(content.s);
    SortStableOnSorted(actions);
    actions := SortByPriority(actions);
  }

  lemma SortedAppend(a: seq<Action>, b: seq<Action>)
    requires SortedByPriority(a) && SortedByPriority(b)
    requires forall x, y :: x in a && y in b ==> x.priority <= y.priority
    ensures SortedByPriority(a + b)
  {
    forall i, j | 0 <= i < j < |a + b| ensures (a + b)[i].priority <= (a + b)[j].priority {
      if j >= |a| && i < |a| {
        assert (a + b)[i] == a[i] && (a + b)[j] == b[j - |a|];
      }
    }
  }

  /** The scans emit their actions with priorities 1, 1, 3 and 5: already in priority order. */
  lemma ScansSorted(content: string)
    ensures SortedByPriority(Scans(content))
  {
    SortedPieces(AnalyzeFallDetection(content), AnalyzeEmergencySituations(content),
                 AnalyzeUnusualActivity(content), AnalyzeNormalActivity(content));
  }

  /** At most one action each, with priorities 1, 1, 3 and 5, in that order. */
  lemma SortedPieces(f: seq<Action>, e: seq<Action>, u: seq<Action>, n: seq<Action>)
    requires |f| <= 1 && |e| <= 1 && |u| <= 1 && |n| <= 1
    requires forall x :: x in f ==> x.priority == Priority(FallDetected)
    requires forall x :: x in e ==> x.priority == Priority(EmergencyAlert)
    requires forall x :: x in u ==> x.priority == Priority(UnusualActivity)
    requires forall x :: x in n ==> x.priority == Priority(NormalActivity)
    ensures SortedByPriority(f + e + u + n)
  {
    SortedAppend(f, e);
    assert forall x: Action :: x in f + e ==> x.priority == 1;
    SortedAppend(f + e, u);
    assert forall x: Action :: x in f + e + u ==> x.priority <= 3;
    SortedAppend(f + e + u, n);
  }

  /** The types of the actions the scans emit: the scans that fired, in scan order. */
  function FiredTypes(content: string): seq<ActionType> {
    FiredIf(FallDetected, content) + FiredIf(EmergencyAlert, content)
    + FiredIf(UnusualActivity, content) + FiredIf(NormalActivity, content)
  }

  function FiredIf(t: ActionType, content: string): seq<ActionType> {
    if Fires(t, content) then [t] else []
  }

  function TypesOf(s: seq<Action>): (ts: seq<ActionType>)
    ensures |ts| == |s| && forall i :: 0 <= i < |s| ==> ts[i] == s[i].actionType
  {
    seq(|s|, i requires 0 <= i < |s| => s[i].actionType)
  }

  lemma TypesOfAppend(a: seq<Action>, b: seq<Action>)
    ensures TypesOf(a + b) == TypesOf(a) + TypesOf(b)
  {
  }

  lemma TypesOfScan(t: ActionType, keywords: seq<string>, content: string)
    ensures TypesOf(Scan(t, keywords, content)) == if AnyFound(keywords, Lower(content)) then [t] else []
  {
    var r := Scan(t, keywords, content);
    if r != [] { assert r[0] in r; }
  }

  lemma TypesOfPieces(f: seq<Action>, e: seq<Action>, u: seq<Action>, n: seq<Action>, content: string)
    requires TypesOf(f) == FiredIf(FallDetected, content) && TypesOf(e) == FiredIf(EmergencyAlert, content)
    requires TypesOf(u) == FiredIf(UnusualActivity, content) && TypesOf(n) == FiredIf(NormalActivity, content)
    ensures TypesOf(f + e + u + n) == FiredTypes(content)
  {
    TypesOfAppend(f, e);
    TypesOfAppend(f + e, u);
    TypesOfAppend(f + e + u, n);
  }

  /** The routed actions are those of the scans that fired, in scan order. */
  lemma ScansAreFired(content: string)
    ensures TypesOf(Scans(content)) == FiredTypes(content)
  {
    TypesOfScan(FallDetected, FallKeywords, content);
    TypesOfScan(EmergencyAlert, EmergencyKeywords, content);
    TypesOfScan(UnusualActivity, UnusualKeywords, content);
    TypesOfScan(NormalActivity, NormalKeywords, content);
    TypesOfPieces(AnalyzeFallDetection(content), AnalyzeEmergencySituations(content),
                  AnalyzeUnusualActivity(content), AnalyzeNormalActivity(content), content);
  }

  /** Every routed action carries its scan's fixed priority, immediacy and message. */
  lemma ScanSettings(content: string)
    ensures forall a :: a in Scans(content) ==>
      a.priority == Priority(a.actionType) && a.immediate == Immediate(a.actionType)
      && a.message == Label(a.actionType) + Take(content, 200) + "..."
  {
    var f, e, u, n := AnalyzeFallDetection(content), AnalyzeEmergencySituations(content),
                      AnalyzeUnusualActivity(content), AnalyzeNormalActivity(content);
    forall a | a in Scans(content)
      ensures a.priority == Priority(a.actionType) && a.immediate == Immediate(a.actionType)
      ensures a.message == Label(a.actionType) + Take(content, 200) + "..."
    {
      assert a in f + e + u || a in n;
      assert a in f + e || a in u || a in n;
      assert a in f || a in e || a in u || a in n;
    }
  }

  /** At most one action per category, so no type twice; the reminders are never produced; a type
    * is present exactly when its scan fired. */
  lemma FiredTypesShape(content: string)
    ensures var ts := FiredTypes(content);
      && (forall i, j :: 0 <= i < j < |ts| ==> ts[i] != ts[j])
      && (forall t :: t in ts <==> Fires(t, content))
      && CheckInReminder !in ts && MedicationReminder !in ts
  {
    var a, b := Fires(FallDetected, content), Fires(EmergencyAlert, content);
    var c, d := Fires(UnusualActivity, content), Fires(NormalActivity, content);
    FourFlags(a, b, c, d);
    assert !Fires(CheckInReminder, content) && !Fires(MedicationReminder, content);
  }

  /** The shape of the fired list, whatever the four scans found. */
  lemma FourFlags(a: bool, b: bool, c: bool, d: bool)
    ensures var ts := (if a then [FallDetected] else []) + (if b then [EmergencyAlert] else [])
                      + (if c then [UnusualActivity] else []) + (if d then [NormalActivity] else []);
      && (forall i, j :: 0 <= i < j < |ts| ==> ts[i] != ts[j])
      && (forall t :: t in ts <==> (t == FallDetected && a) || (t == EmergencyAlert && b)
                                   || (t == UnusualActivity && c) || (t == NormalActivity && d))
  {
  }

  lemma EmergencyFiresBoth(content: string)
    requires Contains(Lower(content), "emergency")
    ensures Fires(FallDetected, content) && Fires(EmergencyAlert, content)
  {
    assert FallKeywords[8] == "emergency" && EmergencyKeywords[0] == "emergency";
  }

  /** The word "emergency" is in both the fall and the emergency lists, so it raises both alerts,
    * and the fall alert comes first. */
  lemma EmergencyRaisesBoth(content: string)
    requires Contains(Lower(content), "emergency")
    ensures var r := Scans(content);
      |r| >= 2 && r[0].actionType == FallDetected && r[1].actionType == EmergencyAlert
  {
    ScansAreFired(content);
    EmergencyFiresBoth(content);
    FiredIfFires(FallDetected, content);
    FiredIfFires(EmergencyAlert, content);
    LeadingPair(FiredIf(FallDetected, content), FiredIf(EmergencyAlert, content),
                FiredIf(UnusualActivity, content), FiredIf(NormalActivity, content));
  }

  lemma LeadingPair(f: seq<ActionType>, e: seq<ActionType>, u: seq<ActionType>, n: seq<ActionType>)
    requires f == [FallDetected] && e == [EmergencyAlert]
    ensures var ts := f + e + u + n; |ts| >= 2 && ts[0] == FallDetected && ts[1] == EmergencyAlert
  {
  }

  lemma FiredIfFires(t: ActionType, content: string)
    requires Fires(t, content)
    ensures FiredIf(t, content) == [t]
  {
  }

  /** Text mentioning an emergency leads with two immediate alerts, fall first; at most the four
    * scans' actions follow. */
  lemma EmergencyLeads(content: string)
    requires Contains(Lower(content), "emergency")
    ensures var r := Scans(content);
      && 2 <= |r| <= 4 && r[0].actionType == FallDetected && r[1].actionType == EmergencyAlert
      && r[0].immediate && r[1].immediate
  {
    EmergencyRaisesBoth(content);
    ScanSettings(content);
    ScansAreFired(content);
    var r := Scans(content);
    assert r[0] in r && r[1] in r;
  }

  // ---------------------------------------------------------------- gates

  /** `should_send_alert` */
  predicate ShouldSendAlert(a: Action) {
    a.priority <= 3 || a.immediate
  }

  /** `should_synthesize_speech` */
  predicate ShouldSynthesizeSpeech(a: Action) {
    a.priority <= 2 || a.immediate
  }

  /** Every action that is spoken is also notified. */
  lemma SpeechImpliesAlert(a: Action)
    ensures ShouldSynthesizeSpeech(a) ==> ShouldSendAlert(a)
  {
  }
}
