/** The severity-report lambda: picks the newest camera frame, recalls the last day's analyses from
  * the knowledge base, asks the model for a JSON severity report (falling back to an alert-level-0
  * report when the model cannot be reached or its answer is not JSON), and stores the report next
  * to the frame and in the knowledge base. */
module AgentInvoke {
  import opened Wrappers
  import opened Text
  import opened Json
  import opened Calendar

  const ModelId: string := "anthropic.claude-3-5-sonnet-20240620-v1:0"
  const KnowledgeBasePrefix: string := "knowledge-base/"
  const AnalysisSuffix: string := "_analysis.json"
  const JsonExt: string := ".json"
  const NoHistory: string := "No previous events found in the knowledge base."
  const HistoryHeader: string := "Previous events from knowledge base:\n"
  /** How many recalled events reach the prompt. */
  const HistoryLimit: nat := 10

  // ---------------------------------------------------------------- the model's answer

  /** `len(x) == 0` for the values `len` accepts. */
  predicate EmptyContainer(j: Json) {
    j == JStr([]) || j == JList([]) || j == JObj(map[])
  }

  /** `len(x)`: the length of a string, list or dict, or `str(e)` of the `TypeError` raised on any
    * other value. */
  function Len(j: Json): (r: Result<nat>)
    ensures r.Ok? <==> j.JStr? || j.JList? || j.JObj?
    ensures r.Ok? ==> (r.value == 0 <==> EmptyContainer(j))
    ensures r.Err? ==> r.error == "object of type '" + TypeName(j) + "' has no len()"
  {
    match j
    case JStr(s) => Ok(|s|)
    case JList(items) => Ok(|items|)
    case JObj(fields) => Ok(|fields|)
    case _ => Err("object of type '" + TypeName(j) + "' has no len()")
  }

  /** `x[0]` on a non-empty string, list or dict: a dict's keys are strings, so it raises
    * `KeyError(0)`, whose text is `0`. */
  function First(j: Json): (r: Result<Json>)
    requires Len(j).Ok? && Len(j).value > 0
    ensures j.JList? ==> r == Ok(j.items[0])
    ensures j.JStr? ==> r == Ok(JStr([j.s[0]]))
    ensures j.JObj? ==> r == Err("0")
  {
    match j
    case JStr(s) => Ok(JStr([s[0]]))
    case JList(items) => Ok(items[0])
    case _ => Err("0")
  }

  /** `x[key]` for a string key: the dict's value, or `str(e)` of the `KeyError` or `TypeError`
    * raised. */
  function Item(j: Json, key: string): (r: Result<Json>)
    ensures r.Ok? <==> Has(j, key)
    ensures r.Ok? ==> r.value == j.fields[key]
    ensures j.JObj? && key !in j.fields ==> r == Err("'" + key + "'")
    ensures j.JStr? ==> r == Err("string indices must be integers, not 'str'")
    ensures j.JList? ==> r == Err("list indices must be integers or slices, not str")
    ensures !(j.JObj? || j.JStr? || j.JList?) ==> r == Err("'" + TypeName(j) + "' object is not subscriptable")
  {
    match j
    case JObj(fields) => if key in fields then Ok(fields[key]) else Err("'" + key + "'")
    case JStr(_) => Err("string indices must be integers, not 'str'")
    case JList(_) => Err("list indices must be integers or slices, not str")
    case _ => Err("'" + TypeName(j) + "' object is not subscriptable")
  }

  /** `invoke_bedrock_model` after the call returned `body`: the first content block's `text` when
    * `content` is non-empty, otherwise `text`, falling back to `str()` of the whole body. `Err`
    * carries the text of the exception raised on the way. */
  function ModelAnswer(body: map<string, Json>, repr: Json -> string): (r: Result<Json>)
    ensures ("content" !in body || EmptyContainer(body["content"]))
            ==> r == Ok(GetOr(JObj(body), "text", JStr(Str(JObj(body), repr))))
    ensures "content" in body && Len(body["content"]).Err? ==> r == Err(Len(body["content"]).error)
    ensures "content" in body && body["content"].JList? && body["content"].items != []
            ==> r == Item(body["content"].items[0], "text")
    ensures "content" in body && body["content"].JStr? && body["content"].s != []
            ==> r == Err("string indices must be integers, not 'str'")
    ensures "content" in body && body["content"].JObj? && body["content"].fields != map[] ==> r == Err("0")
  {
    if "content" !in body then Ok(GetOr(JObj(body), "text", JStr(Str(JObj(body), repr))))
    else
      var content := body["content"];
      match Len(content)
      case Err(e) => Err(e)
      case Ok(n) =>
        if n == 0 then Ok(GetOr(JObj(body), "text", JStr(Str(JObj(body), repr))))
        else
          match First(content)
          case Err(e) => Err(e)
          case Ok(block) => Item(block, "text")
  }

  /** The answer text the handler goes on with: the call's answer, which `.strip()` needs to be a
    * string; `invoked` is the call (`Err` with the message of what it raised). */
  function AnalysisText(invoked: Result<map<string, Json>>, repr: Json -> string): (r: Result<string>)
    ensures invoked.Err? ==> r == Err(invoked.error)
    ensures r.Ok? <==> invoked.Ok? && ModelAnswer(invoked.value, repr).Ok? && ModelAnswer(invoked.value, repr).value.JStr?
    ensures r.Ok? ==> ModelAnswer(invoked.value, repr) == Ok(JStr(r.value))
    ensures invoked.Ok? && ModelAnswer(invoked.value, repr).Ok? && !ModelAnswer(invoked.value, repr).value.JStr?
            ==> r == Err(NoAttribute(ModelAnswer(invoked.value, repr).value, "strip"))
  {
    match invoked
    case Err(e) => Err(e)
    case Ok(body) =>
      match ModelAnswer(body, repr)
      case Err(e) => Err(e)
      case Ok(JStr(s)) => Ok(s)
      case Ok(other) => Err(NoAttribute(other, "strip"))
  }

  // ---------------------------------------------------------------- fence stripping

  const Fence: string := "```"
  const JsonFence: string := "```json"

  /** The text `json.loads` is given: the stripped answer, and when that opens a ```` ```json ````
    * fence, the stripped text between the opening marker and the next fence. */
  function CleanReport(text: string): (r: string)
    ensures !StartsWith(Strip(text), JsonFence) ==> r == Strip(text)
  {
    var t := Strip(text);
    if StartsWith(t, JsonFence) then Strip(Text.Before(Text.Before(t[|JsonFence|..], JsonFence), Fence)) else t
  }

  /** A fenced answer gives back its stripped body: the model's habit of wrapping JSON in a code
    * fence does not reach the decoder. */
  lemma FenceRoundTrip(ws1: string, body: string, ws2: string)
    requires AllSpace(ws1) && AllSpace(ws2) && '`' !in body
    ensures CleanReport(ws1 + JsonFence + body + Fence + ws2) == Strip(body)
  {
    var x := JsonFence + body + Fence;
    assert ws1 + JsonFence + body + Fence + ws2 == ws1 + x + ws2;
    assert x[0] == '`' && x[|x| - 1] == '`';
    StripExact(ws1, x, ws2);
    FencedBody(body);
  }

  /** The fence-stripping step on an already stripped fenced text. */
  lemma FencedBody(body: string)
    requires '`' !in body
    ensures StartsWith(JsonFence + body + Fence, JsonFence)
    ensures Text.Before(Text.Before((JsonFence + body + Fence)[|JsonFence|..], JsonFence), Fence) == body
  {
    var x := JsonFence + body + Fence;
    assert x[..|JsonFence|] == JsonFence;
    assert x[|JsonFence|..] == body + Fence;
    NoOpeningMarker(body);
    assert Text.Before(body + Fence, JsonFence) == body + Fence;
    IndexAfterPrefix(body, Fence, []);
    assert body + Fence + [] == body + Fence;
    assert (body + Fence)[..|body|] == body;
  }

  /** A fence-free body followed by the closing fence holds no opening marker. */
  lemma NoOpeningMarker(body: string)
    requires '`' !in body
    ensures !Contains(body + Fence, JsonFence)
  {
    var s := body + Fence;
    forall j | 0 <= j && j + |JsonFence| <= |s| ensures !OccursAt(s, JsonFence, j) {
      assert s[j..j + |JsonFence|][0] == s[j] == body[j];
    }
  }

  // ---------------------------------------------------------------- the report

  /** `str(e)` of the `TypeError` raised by `report["timestamp"] = ...` on a decoded non-dict. */
  function ItemAssignError(j: Json): string {
    if j.JList? then "list indices must be integers or slices, not str"
    else "'" + TypeName(j) + "' object does not support item assignment"
  }

  /** The fields a fallback report holds besides the handler's metadata: no alert. */
  function Fallback(reason: string, logFileName: string, brief: string, full: string): (r: map<string, Json>)
    ensures "alert_level" in r && r["alert_level"] == JInt(0)
    ensures "log_file_name" in r && r["log_file_name"] == JStr(logFileName)
  {
    map["reason" := JStr(reason), "brief_description" := JStr(brief), "full_description" := JStr(full),
        "log_file_name" := JStr(logFileName), "alert_level" := JInt(0)]
  }

  /** The fallback report when the answer is not JSON. */
  function ParsingFailed(timestamp: string, imageKey: string, text: string, history: nat): map<string, Json> {
    Stamped(Fallback("JSON parsing failed", timestamp + "_parsing_error" + JsonExt, "Failed to parse AI response",
                     "Raw response: " + text), timestamp, imageKey, history)
  }

  /** The fallback report when the call, or anything after it but the decoding, raised. */
  function InvocationFailed(timestamp: string, imageKey: string, error: string, history: nat): map<string, Json> {
    Stamped(Fallback("Bedrock invocation failed", timestamp + "_invocation_error" + JsonExt, "AI analysis failed",
                     "Error: " + error), timestamp, imageKey, history)
  }

  /** The four fields the handler writes over whatever the model returned. */
  predicate IsMetadataKey(k: string) {
    k == "timestamp" || k == "image_key" || k == "model_used" || k == "historical_context_used"
  }

  /** The model's report with the handler's metadata written over it; every other field is kept. */
  function Stamped(report: map<string, Json>, timestamp: string, imageKey: string, history: nat): (r: map<string, Json>)
    ensures forall k :: k in r <==> k in report || IsMetadataKey(k)
    ensures forall k :: k in report && !IsMetadataKey(k) ==> r[k] == report[k]
    ensures "timestamp" in r && r["timestamp"] == JStr(timestamp) && "image_key" in r && r["image_key"] == JStr(imageKey)
    ensures "model_used" in r && r["model_used"] == JStr(ModelId)
    ensures "historical_context_used" in r && r["historical_context_used"] == JInt(history)
  {
    report["timestamp" := JStr(timestamp)]["image_key" := JStr(imageKey)]["model_used" := JStr(ModelId)]
          ["historical_context_used" := JInt(history)]
  }

  /** Step 7 of `lambda_handler`: `analysis` is the answer text (or what the call raised) and
    * `parse` stands for `json.loads` (`None` for a decode error). Whatever happens, the report
    * carries the handler's metadata, and a failure yields an alert-level-0 report. */
  function BuildReport(analysis: Result<string>, parse: string -> Option<Json>, timestamp: string,
                       imageKey: string, history: nat): (r: map<string, Json>)
    ensures "timestamp" in r && r["timestamp"] == JStr(timestamp)
    ensures "image_key" in r && r["image_key"] == JStr(imageKey)
    ensures "model_used" in r && r["model_used"] == JStr(ModelId)
    ensures "historical_context_used" in r && r["historical_context_used"] == JInt(history)
    ensures analysis.Err? ==> r == InvocationFailed(timestamp, imageKey, analysis.error, history)
    ensures analysis.Ok? ==>
      var decoded := parse(CleanReport(analysis.value));
      && (decoded.None? ==> r == ParsingFailed(timestamp, imageKey, CleanReport(analysis.value), history))
      && (decoded.Some? && !decoded.value.JObj? ==> r == InvocationFailed(timestamp, imageKey, ItemAssignError(decoded.value), history))
      && (decoded.Some? && decoded.value.JObj? ==> r == Stamped(decoded.value.fields, timestamp, imageKey, history))
  {
    match analysis
    case Err(e) => InvocationFailed(timestamp, imageKey, e, history)
    case Ok(text) =>
      var cleaned := CleanReport(text);
      match parse(cleaned)
      case None => ParsingFailed(timestamp, imageKey, cleaned, history)
      case Some(JObj(m)) => Stamped(m, timestamp, imageKey, history)
      case Some(other) => InvocationFailed(timestamp, imageKey, ItemAssignError(other), history)
  }

  /** A report that does not come from a decoded object is a quiet fallback: alert level 0. */
  lemma FallbackIsQuiet(analysis: Result<string>, parse: string -> Option<Json>, timestamp: string,
                        imageKey: string, history: nat)
    requires analysis.Err? || !parse(CleanReport(analysis.value)).Some? || !parse(CleanReport(analysis.value)).value.JObj?
    ensures var r := BuildReport(analysis, parse, timestamp, imageKey, history);
      "alert_level" in r && r["alert_level"] == JInt(0) && "log_file_name" in r && r["log_file_name"].JStr?
      && EndsWith(r["log_file_name"].s, JsonExt)
  {
    var r := BuildReport(analysis, parse, timestamp, imageKey, history);
    assert !IsMetadataKey("alert_level") && !IsMetadataKey("log_file_name");
    if analysis.Err? {
      EndsWithAppend(timestamp + "_invocation_error", JsonExt);
    } else {
      EndsWithAppend(timestamp + "_parsing_error", JsonExt);
    }
  }

  // ---------------------------------------------------------------- recalling the knowledge base

  /** An event that carries a `%Y%m%d-%H%M%S` timestamp no older than `cutoff` (epoch seconds; the
    * ceiling of now minus 24 hours). */
  predicate Recallable(e: map<string, Json>, cutoff: int) {
    "timestamp" in e && e["timestamp"].JStr?
    && var t := ParseStamp(e["timestamp"].s);
    t.Some? && ToEpoch(t.value) >= cutoff
  }

  /** The filter of `get_historical_events`: an `_analysis.json` object whose download decoded to
    * a recallable dict (`None` is a failed download or decode, which is skipped). */
  predicate Admitted(key: string, fetched: Option<Json>, cutoff: int) {
    EndsWith(key, AnalysisSuffix) && fetched.Some? && fetched.value.JObj? && Recallable(fetched.value.fields, cutoff)
  }

  /** The events collected by the loop over the listing, in listing order: at most one per key,
    * and each recallable. */
  function Admit(keys: seq<string>, fetch: string -> Option<Json>, cutoff: int): (r: seq<map<string, Json>>)
    ensures |r| <= |keys|
    ensures forall e :: e in r ==> Recallable(e, cutoff)
  {
    if keys == [] then []
    else
      var n := |keys| - 1;
      var k := keys[n];
      var prev := Admit(keys[..n], fetch, cutoff);
      assert keys == keys[..n] + [k];
      prev + Contribution(k, fetch, cutoff)
  }

  /** What one listed key adds: its event when admitted, nothing otherwise. */
  function Contribution(k: string, fetch: string -> Option<Json>, cutoff: int): seq<map<string, Json>> {
    if Admitted(k, fetch(k), cutoff) then [fetch(k).value.fields] else []
  }

  /** Every admitted key contributes its event, and nothing else is collected. */
  lemma {:induction false} AdmitExactly(keys: seq<string>, fetch: string -> Option<Json>, cutoff: int)
    ensures forall k :: k in keys && Admitted(k, fetch(k), cutoff) ==> fetch(k).value.fields in Admit(keys, fetch, cutoff)
    ensures forall e :: e in Admit(keys, fetch, cutoff) ==>
              exists k :: k in keys && Admitted(k, fetch(k), cutoff) && e == fetch(k).value.fields
    decreases |keys|
  {
    if keys != [] {
      var n := |keys| - 1;
      AdmitExactly(keys[..n], fetch, cutoff);
      assert keys == keys[..n] + [keys[n]];
      forall e | e in Admit(keys, fetch, cutoff)
        ensures exists k :: k in keys && Admitted(k, fetch(k), cutoff) && e == fetch(k).value.fields
      {
        if e !in Admit(keys[..n], fetch, cutoff) {
          assert keys[n] in keys;
        }
      }
    }
  }

  /** Collecting keeps listing order: the events of two listings in a row are those of the first
    * followed by those of the second. */
  lemma {:induction false} AdmitAppend(a: seq<string>, b: seq<string>, fetch: string -> Option<Json>, cutoff: int)
    ensures Admit(a + b, fetch, cutoff) == Admit(a, fetch, cutoff) + Admit(b, fetch, cutoff)
    decreases |b|
  {
    if b == [] {
      assert a + b == a;
    } else {
      var init, k := b[..|b| - 1], b[|b| - 1];
      SplitLast(a, b);
      AdmitSnoc(a + init, k, fetch, cutoff);
      AdmitSnoc(init, k, fetch, cutoff);
      AdmitAppend(a, init, fetch, cutoff);
      ConcatAssoc(Admit(a, fetch, cutoff), Admit(init, fetch, cutoff), Contribution(k, fetch, cutoff));
    }
  }

  /** Collecting over one more key appends that key's contribution. */
  lemma AdmitSnoc(keys: seq<string>, k: string, fetch: string -> Option<Json>, cutoff: int)
    ensures Admit(keys + [k], fetch, cutoff) == Admit(keys, fetch, cutoff) + Contribution(k, fetch, cutoff)
  {
  }

  /** A non-empty suffix splits at its last element. */
  lemma SplitLast<T>(a: seq<T>, b: seq<T>)
    requires b != []
    ensures a + b == (a + b[..|b| - 1]) + [b[|b| - 1]] && b == b[..|b| - 1] + [b[|b| - 1]]
  {
  }

  /** Concatenation is associative. */
  lemma ConcatAssoc<T>(x: seq<T>, y: seq<T>, z: seq<T>)
    ensures (x + y) + z == x + (y + z)
  {
  }

  /** The sort key `x.get("timestamp", "")`. */
  function SortKey(e: map<string, Json>): string {
    if "timestamp" in e && e["timestamp"].JStr? then e["timestamp"].s else ""
  }

  predicate SortedDesc(s: seq<map<string, Json>>) {
    forall i, j :: 0 <= i < j < |s| ==> !LexLess(SortKey(s[i]), SortKey(s[j]))
  }

  /** Insert `e` in front of the first element whose key is not greater. */
  function InsertDesc(e: map<string, Json>, s: seq<map<string, Json>>): (r: seq<map<string, Json>>)
    requires SortedDesc(s)
    ensures SortedDesc(r) && multiset(r) == multiset(s) + multiset{e}
  {
    if s == [] || !LexLess(SortKey(e), SortKey(s[0])) then
      NotNewerThanHead(SortKey(e), s);
      [e] + s
    else
      var rest := InsertDesc(e, s[1..]);
      InsertDescStep(e, s, rest);
      [s[0]] + rest
  }

  /** Keeping the newer head in front of the insertion into the tail. */
  lemma InsertDescStep(e: map<string, Json>, s: seq<map<string, Json>>, rest: seq<map<string, Json>>)
    requires SortedDesc(s) && s != [] && LexLess(SortKey(e), SortKey(s[0]))
    requires SortedDesc(rest) && multiset(rest) == multiset(s[1..]) + multiset{e}
    ensures SortedDesc([s[0]] + rest) && multiset([s[0]] + rest) == multiset(s) + multiset{e}
  {
    assert s == [s[0]] + s[1..];
    LexLessAsymmetric(SortKey(e), SortKey(s[0]));
    HeadNotOlder(s[0], e, s[1..], rest);
  }

  /** A key no smaller than the newest one is no smaller than any. */
  lemma NotNewerThanHead(k: string, s: seq<map<string, Json>>)
    requires SortedDesc(s) && (s == [] || !LexLess(k, SortKey(s[0])))
    ensures forall j :: 0 <= j < |s| ==> !LexLess(k, SortKey(s[j]))
  {
    forall j | 0 <= j < |s| ensures !LexLess(k, SortKey(s[j])) {
      if LexLess(k, SortKey(s[j])) {
        LexLessTrichotomy(k, SortKey(s[0]));
        if LexLess(SortKey(s[0]), k) {
          LexLessTransitive(SortKey(s[0]), k, SortKey(s[j]));
        }
      }
    }
  }

  /** The head stays in front of everything inserted after it. */
  lemma HeadNotOlder(h: map<string, Json>, e: map<string, Json>, tail: seq<map<string, Json>>, rest: seq<map<string, Json>>)
    requires SortedDesc([h] + tail) && !LexLess(SortKey(h), SortKey(e))
    requires SortedDesc(rest) && multiset(rest) == multiset(tail) + multiset{e}
    ensures SortedDesc([h] + rest)
  {
    var r := [h] + rest;
    forall i, j | 0 <= i < j < |r| ensures !LexLess(SortKey(r[i]), SortKey(r[j])) {
      if i == 0 {
        var x := rest[j - 1];
        assert r[0] == h && r[j] == x;
        assert x in multiset(rest);
        if x != e {
          assert x in multiset(tail);
          var k :| 0 <= k < |tail| && tail[k] == x;
          assert ([h] + tail)[0] == h && ([h] + tail)[k + 1] == x;
        }
      } else {
        assert r[i] == rest[i - 1] && r[j] == rest[j - 1];
      }
    }
  }

  /** `events.sort(key=..., reverse=True)`: newest first, and events with equal keys keep their
    * listing order. */
  function SortDesc(s: seq<map<string, Json>>): (r: seq<map<string, Json>>)
    ensures SortedDesc(r) && multiset(r) == multiset(s)
  {
    if s == [] then []
    else
      assert multiset(s) == multiset{s[0]} + multiset(s[1..]) by { assert s == [s[0]] + s[1..]; }
      InsertDesc(s[0], SortDesc(s[1..]))
  }

  /** The sort is stable: a list already newest-first comes back unchanged. */
  lemma {:induction false} SortDescStable(s: seq<map<string, Json>>)
    requires SortedDesc(s)
    ensures SortDesc(s) == s
  {
    if s != [] {
      SortDescStable(s[1..]);
      assert [s[0]] + s[1..] == s;
    }
  }

  /** What `get_historical_events` returns: nothing when the listing has no contents, otherwise the
    * ten newest admitted events. */
  function Recent(listing: Option<seq<string>>, fetch: string -> Option<Json>, cutoff: int): seq<map<string, Json>> {
    match listing
    case None => []
    case Some(keys) =>
      var sorted := SortDesc(Admit(keys, fetch, cutoff));
      if |sorted| <= HistoryLimit then sorted else sorted[..HistoryLimit]
  }

  /** `get_historical_events`: `listing` is the knowledge-base listing (`None` when it has no
    * contents or fails), `fetch` the download and decode of one key. */
  method GetHistoricalEvents(listing: Option<seq<string>>, fetch: string -> Option<Json>, cutoff: int)
    returns (events: seq<map<string, Json>>)
    ensures events == Recent(listing, fetch, cutoff)
  {
    if listing.None? {
      return [];
    }
    var keys := listing.value;
    var admitted: seq<map<string, Json>> := [];
    var i := 0;
    while i < |keys|
      invariant 0 <= i <= |keys|
      invariant admitted == Admit(keys[..i], fetch, cutoff)
    {
      var k := keys[i];
      assert keys[..i + 1][..i] == keys[..i];
      var fetched := fetch(k);
      if Admitted(k, fetched, cutoff) {
        admitted := admitted + [fetched.value.fields];
      }
      i := i + 1;
    }
    assert keys[..i] == keys;
    var sorted := SortDesc(admitted);
    events := if |sorted| <= HistoryLimit then sorted else sorted[..HistoryLimit];
  }

  /** The recalled events are at most ten, newest first, all within the window, drawn from the
    * admitted ones, and none left out is newer than one kept. */
  lemma RecentIsNewest(listing: Option<seq<string>>, fetch: string -> Option<Json>, cutoff: int)
    requires listing.Some?
    ensures var admitted := Admit(listing.value, fetch, cutoff);
      var r := Recent(listing, fetch, cutoff);
      && |r| == (if |admitted| <= HistoryLimit then |admitted| else HistoryLimit)
      && SortedDesc(r)
      && multiset(r) <= multiset(admitted)
      && (forall e :: e in r ==> Recallable(e, cutoff))
      && (forall e, d :: e in r && d in multiset(admitted) - multiset(r) ==> !LexLess(SortKey(e), SortKey(d)))
  {
    var admitted := Admit(listing.value, fetch, cutoff);
    var sorted := SortDesc(admitted);
    var n := if |sorted| <= HistoryLimit then |sorted| else HistoryLimit;
    assert sorted[..n] == Recent(listing, fetch, cutoff);
    KeptNotOlder(sorted, n);
    forall e | e in sorted[..n] ensures Recallable(e, cutoff) {
      assert e in multiset(sorted);
      assert e in admitted;
    }
  }

  /** Cutting a newest-first list keeps a newest-first list whose entries are no older than any
    * entry cut off. */
  lemma KeptNotOlder(sorted: seq<map<string, Json>>, n: nat)
    requires SortedDesc(sorted) && n <= |sorted|
    ensures SortedDesc(sorted[..n]) && multiset(sorted[..n]) <= multiset(sorted)
    ensures forall e, d :: e in sorted[..n] && d in multiset(sorted) - multiset(sorted[..n]) ==> !LexLess(SortKey(e), SortKey(d))
  {
    assert sorted == sorted[..n] + sorted[n..];
    assert multiset(sorted) == multiset(sorted[..n]) + multiset(sorted[n..]);
    forall e, d | e in sorted[..n] && d in multiset(sorted) - multiset(sorted[..n])
      ensures !LexLess(SortKey(e), SortKey(d))
    {
      var i :| 0 <= i < n && sorted[..n][i] == e;
      assert d in sorted[n..];
      var j :| 0 <= j < |sorted| - n && sorted[n..][j] == d;
      assert sorted[i] == e && sorted[n + j] == d;
    }
  }

  // ---------------------------------------------------------------- the prompt context

  /** `event.get(name, 'Unknown')` as an f-string renders it. */
  function Field(e: map<string, Json>, name: string, repr: Json -> string): string {
    Str(GetOr(JObj(e), name, JStr("Unknown")), repr)
  }

  /** The five lines describing the `n`-th event. */
  function Block(n: nat, e: map<string, Json>, repr: Json -> string): string {
    NatToString(n) + ". Time: " + Field(e, "timestamp", repr) + "\n"
    + "   Alert Level: " + Field(e, "alert_level", repr) + "\n"
    + "   Reason: " + Field(e, "reason", repr) + "\n"
    + "   Brief: " + Field(e, "brief_description", repr) + "\n"
    + "\n"
  }

  /** The blocks of all events, numbered from 1. */
  function Blocks(events: seq<map<string, Json>>, repr: Json -> string): string {
    if events == [] then []
    else Blocks(events[..|events| - 1], repr) + Block(|events|, events[|events| - 1], repr)
  }

  /** `format_context_for_prompt` as a value. */
  function ContextText(events: seq<map<string, Json>>, repr: Json -> string): string {
    if events == [] then NoHistory else HistoryHeader + Blocks(events, repr)
  }

  /** `format_context_for_prompt`. */
  method FormatContext(events: seq<map<string, Json>>, repr: Json -> string) returns (context: string)
    ensures context == ContextText(events, repr)
  {
    if events == [] {
      return NoHistory;
    }
    context := HistoryHeader;
    var i := 0;
    assert Blocks(events[..0], repr) == [];
    EmptyRight(HistoryHeader);
    while i < |events|
      invariant 0 <= i <= |events|
      invariant context == HistoryHeader + Blocks(events[..i], repr)
    {
      BlocksSnoc(events, i, repr);
      AppendAssoc(HistoryHeader, Blocks(events[..i], repr), Block(i + 1, events[i], repr));
      context := context + Block(i + 1, events[i], repr);
      i := i + 1;
    }
    assert events[..i] == events;
  }

  lemma EmptyRight(s: string)
    ensures s + [] == s
  {
  }

  lemma AppendAssoc(a: string, b: string, c: string)
    ensures (a + b) + c == a + (b + c)
  {
  }

  lemma BlocksSnoc(events: seq<map<string, Json>>, i: nat, repr: Json -> string)
    requires i < |events|
    ensures Blocks(events[..i + 1], repr) == Blocks(events[..i], repr) + Block(i + 1, events[i], repr)
  {
    assert events[..i + 1][..i] == events[..i];
  }

  /** Every recalled event reaches the prompt under its own number, after the header that tells a
    * non-empty history from the placeholder. */
  lemma {:induction false} ContextListsEach(events: seq<map<string, Json>>, repr: Json -> string)
    ensures events == [] ==> ContextText(events, repr) == NoHistory
    ensures events != [] ==> StartsWith(ContextText(events, repr), HistoryHeader)
    ensures forall i :: 0 <= i < |events| ==> Contains(ContextText(events, repr), Block(i + 1, events[i], repr))
  {
    if events != [] {
      BlocksListEach(events, repr);
      forall i | 0 <= i < |events| ensures Contains(ContextText(events, repr), Block(i + 1, events[i], repr)) {
        ContainsInConcat(HistoryHeader, Blocks(events, repr), Block(i + 1, events[i], repr));
      }
    }
  }

  lemma {:induction false} BlocksListEach(events: seq<map<string, Json>>, repr: Json -> string)
    ensures forall i :: 0 <= i < |events| ==> Contains(Blocks(events, repr), Block(i + 1, events[i], repr))
    decreases |events|
  {
    if events != [] {
      var n := |events|;
      var init := events[..n - 1];
      BlocksListEach(init, repr);
      var last := Block(n, events[n - 1], repr);
      var b0 := Blocks(init, repr);
      assert Blocks(events, repr) == b0 + last;
      forall i | 0 <= i < n ensures Contains(b0 + last, Block(i + 1, events[i], repr)) {
        if i < n - 1 {
          assert init[i] == events[i];
          ContainsLeft(b0, last, Block(i + 1, events[i], repr));
        } else {
          assert last[0..|last|] == last;
          ContainsAt(last, last, 0);
          ContainsRight(b0, last, last);
        }
      }
    }
  }

  // ---------------------------------------------------------------- choosing the frame

  /** An entry of the frame listing: its key and its `LastModified`, in epoch seconds. */
  datatype S3Object = S3Object(key: string, lastModified: int)

  /** `key.lower().endswith('.jpg')` */
  predicate IsJpg(key: string) {
    EndsWith(Lower(key), ".jpg")
  }

  /** `max(jpg_files, key=LastModified)` as a position in the listing: `max` keeps the first of
    * several equally recent frames. */
  function LatestJpg(objs: seq<S3Object>): (r: Option<nat>)
    ensures IsLatest(objs, IsJpg, r)
  {
    if objs == [] then None
    else
      var n := |objs| - 1;
      var prev := LatestJpg(objs[..n]);
      var r := if !IsJpg(objs[n].key) then prev
               else if prev.None? || objs[n].lastModified > objs[prev.value].lastModified then Some(n)
               else prev;
      LatestStep(objs, IsJpg, prev, r);
      r
  }

  /** The position of the first most recent object whose key passes `keep`, or none. */
  predicate IsLatest(objs: seq<S3Object>, keep: string -> bool, r: Option<nat>) {
    && (r.None? <==> forall i :: 0 <= i < |objs| ==> !keep(objs[i].key))
    && (r.Some? ==> r.value < |objs| && keep(objs[r.value].key))
    && (r.Some? ==> forall i :: 0 <= i < |objs| && keep(objs[i].key) ==> objs[i].lastModified <= objs[r.value].lastModified)
    && (r.Some? ==> forall i :: 0 <= i < r.value && keep(objs[i].key) ==> objs[i].lastModified < objs[r.value].lastModified)
  }

  /** One more object keeps the latest unless it passes and is strictly more recent. */
  lemma LatestStep(objs: seq<S3Object>, keep: string -> bool, prev: Option<nat>, r: Option<nat>)
    requires objs != [] && IsLatest(objs[..|objs| - 1], keep, prev)
    requires var last := objs[|objs| - 1];
      r == if !keep(last.key) then prev
           else if prev.None? || last.lastModified > objs[prev.value].lastModified then Some(|objs| - 1)
           else prev
    ensures IsLatest(objs, keep, r)
  {
  }

  // ---------------------------------------------------------------- where the report goes

  /** `key.replace(".jpg", "_analysis.json")`, as written. */
  function OutputKeyAsWritten(key: string): string {
    Replace(key, ".jpg", AnalysisSuffix)
  }

  /** A frame selected by its lower-cased extension but named in upper case (`frame.JPG`) keeps its
    * key, so the report is written over the image itself. */
  lemma OutputKeyOverwritesUpperCase(stem: string)
    requires 'j' !in stem
    ensures IsJpg(stem + ".JPG") && OutputKeyAsWritten(stem + ".JPG") == stem + ".JPG"
  {
    var key := stem + ".JPG";
    assert Lower(key)[|key| - 4..] == ".jpg" by {
      assert key[|key| - 4..] == ".JPG";
    }
    assert 'j' !in key by {
      assert forall i :: |stem| <= i < |key| ==> key[i] in ".JPG";
    }
    AbsentChar(key, ".jpg", 1);
    ReplaceWithout(key, ".jpg", AnalysisSuffix);
  }

  /** The output key meant: the frame's name with its extension, in whatever case, replaced. */
  function OutputKey(key: string): (r: string)
    requires IsJpg(key)
    ensures EndsWith(r, AnalysisSuffix) && r != key
  {
    var r := key[..|key| - 4] + AnalysisSuffix;
    assert r[|r| - 1] == 'n';
    assert Lower(key)[|key| - 1] == 'g';
    r
  }

  /** On a frame with one dot, in lower case, the meant key is the one the code writes. */
  lemma OutputKeyAgrees(stem: string)
    requires '.' !in stem
    ensures IsJpg(stem + ".jpg") && OutputKey(stem + ".jpg") == OutputKeyAsWritten(stem + ".jpg")
  {
    var key := stem + ".jpg";
    assert Lower(key)[|key| - 4..] == ".jpg" by { assert key[|key| - 4..] == ".jpg"; }
    ReplaceSuffix(stem, ".jpg", AnalysisSuffix);
    assert key[..|key| - 4] == stem;
  }

  /** The fields of a knowledge-base entry copied from the report, with the default each takes when
    * the report lacks it. */
  const KbDefaults: map<string, Json> :=
    map["alert_level" := JInt(0), "reason" := JStr(""), "log_file_name" := JStr(""),
        "brief_description" := JStr(""), "full_description" := JStr(""), "model_used" := JStr(ModelId)]

  /** `save_to_knowledge_base`'s entry: the frame's key, the run's id and creation time, the report's
    * timestamp (`None` when it has none), and the report's other fields or their defaults. */
  function KbEntry(report: map<string, Json>, imageKey: string, id: string, createdAt: string): (r: map<string, Json>)
    ensures r.Keys == KbDefaults.Keys + {"timestamp", "image_key", "knowledge_base_id", "created_at"}
    ensures r["timestamp"] == (if "timestamp" in report then report["timestamp"] else JNull)
    ensures r["image_key"] == JStr(imageKey) && r["knowledge_base_id"] == JStr(id) && r["created_at"] == JStr(createdAt)
    ensures forall f :: f in KbDefaults ==> r[f] == (if f in report then report[f] else KbDefaults[f])
  {
    var fields := map f | f in KbDefaults :: if f in report then report[f] else KbDefaults[f];
    map["image_key" := JStr(imageKey), "knowledge_base_id" := JStr(id), "created_at" := JStr(createdAt),
        "timestamp" := GetOr(JObj(report), "timestamp", JNull)] + fields
  }

  /** The knowledge-base key, as written: `{timestamp}_{log_file_name}.json`. */
  function KbKeyAsWritten(report: map<string, Json>, repr: Json -> string): string {
    KnowledgeBasePrefix + Str(GetOr(JObj(report), "timestamp", JStr("unknown")), repr) + "_"
    + Str(GetOr(JObj(report), "log_file_name", JStr("event")), repr) + ".json"
  }

  /** A report whose log file name already ends in `.json`, as every fallback report's does, is
    * filed under a key the recall filter never admits, so it never reaches a later prompt. */
  lemma KbKeyNeverRecalled(report: map<string, Json>, repr: Json -> string, fetched: Option<Json>, cutoff: int)
    requires "log_file_name" in report && report["log_file_name"].JStr? && EndsWith(report["log_file_name"].s, JsonExt)
    ensures !Admitted(KbKeyAsWritten(report, repr), fetched, cutoff)
  {
    var key := KbKeyAsWritten(report, repr);
    var name := report["log_file_name"].s;
    assert name[|name| - 1] == 'n';
    assert key[|key| - 6] == 'n' by {
      assert key == KnowledgeBasePrefix + Str(GetOr(JObj(report), "timestamp", JStr("unknown")), repr) + "_" + name + ".json";
    }
    assert AnalysisSuffix[|AnalysisSuffix| - 6] == 's';
  }

  /** In particular no fallback report, as filed, ever reaches a later prompt. */
  lemma FallbackNeverRecalled(analysis: Result<string>, parse: string -> Option<Json>, timestamp: string,
                              imageKey: string, history: nat, repr: Json -> string, fetched: Option<Json>, cutoff: int)
    requires analysis.Err? || !parse(CleanReport(analysis.value)).Some? || !parse(CleanReport(analysis.value)).value.JObj?
    ensures !Admitted(KbKeyAsWritten(BuildReport(analysis, parse, timestamp, imageKey, history), repr), fetched, cutoff)
  {
    FallbackIsQuiet(analysis, parse, timestamp, imageKey, history);
    KbKeyNeverRecalled(BuildReport(analysis, parse, timestamp, imageKey, history), repr, fetched, cutoff);
  }

  /** The key meant: the entry filed under the suffix the recall filter looks for. */
  function KbKey(report: map<string, Json>, repr: Json -> string): (r: string)
    ensures StartsWith(r, KnowledgeBasePrefix) && EndsWith(r, AnalysisSuffix)
  {
    var r := KnowledgeBasePrefix + Str(GetOr(JObj(report), "timestamp", JStr("unknown")), repr) + "_"
    + Str(GetOr(JObj(report), "log_file_name", JStr("event")), repr) + AnalysisSuffix;
    assert r[..|KnowledgeBasePrefix|] == KnowledgeBasePrefix;
    r
  }

  /** What the knowledge base gains from one run is recalled by a later run exactly while the
    * run's time is inside that later run's window. */
  lemma KbEntryRecalled(report: map<string, Json>, now: DateTime, imageKey: string, id: string, createdAt: string,
                        repr: Json -> string, cutoff: int)
    requires Valid(now) && "timestamp" in report && report["timestamp"] == JStr(Stamp(now, "-", ""))
    ensures Admitted(KbKey(report, repr), Some(JObj(KbEntry(report, imageKey, id, createdAt))), cutoff)
            <==> ToEpoch(now) >= cutoff
  {
    ParseStampRoundTrip(now);
  }

  // ---------------------------------------------------------------- the handler

  /** An object the handler stores, whether or not the store succeeds. */
  datatype Put = Put(key: string, body: map<string, Json>)

  /** The handler's reply before `json.dumps`: a message for 404 and 500, the report for 200. */
  datatype Response = Response(statusCode: int, body: Json)

  /** Steps 1 to 7 of `lambda_handler`: the 404 and 500 replies, or else the key of the frame
    * analysed and its report. The services are values: `listing` is the frame listing (`None`
    * without contents), `kbListing`/`fetch`/`cutoff` the knowledge base, `download` the frame
    * download (its size, or the error), `invoked` the model call's decoded body, `parse` stands for
    * `json.loads` and `now` is the clock. */
  method Analyse(listing: Option<seq<S3Object>>, kbListing: Option<seq<string>>, fetch: string -> Option<Json>,
                 cutoff: int, download: Result<nat>, invoked: Result<map<string, Json>>,
                 parse: string -> Option<Json>, now: DateTime, repr: Json -> string)
    returns (failure: Option<Response>, key: string, report: map<string, Json>)
    requires Valid(now)
    ensures listing.None? ==> failure == Some(Response(404, JStr("No files found.")))
    ensures listing.Some? && LatestJpg(listing.value).None? ==> failure == Some(Response(404, JStr("No JPG images found.")))
    ensures listing.Some? && LatestJpg(listing.value).Some? && download.Err?
            ==> failure == Some(Response(500, JStr("Failed to download image: " + download.error)))
    ensures failure.None? <==> listing.Some? && LatestJpg(listing.value).Some? && download.Ok?
    ensures failure.None? ==>
      && key == listing.value[LatestJpg(listing.value).value].key
      && report == BuildReport(AnalysisText(invoked, repr), parse, Stamp(now, "-", ""), key,
                               |Recent(kbListing, fetch, cutoff)|)
  {
    key, report := [], map[];
    if listing.None? {
      return Some(Response(404, JStr("No files found."))), key, report;
    }
    var latest := LatestJpg(listing.value);
    if latest.None? {
      return Some(Response(404, JStr("No JPG images found."))), key, report;
    }
    key := listing.value[latest.value].key;
    var events := GetHistoricalEvents(kbListing, fetch, cutoff);
    var context := FormatContext(events, repr);
    if download.Err? {
      return Some(Response(500, JStr("Failed to download image: " + download.error))), key, report;
    }
    var timestamp := Stamp(now, "-", "");
    report := BuildReport(AnalysisText(invoked, repr), parse, timestamp, key, |events|);
    failure := None;
  }

  /** `lambda_handler` as written: the report goes to `key.replace(".jpg", "_analysis.json")` and
    * its entry to `{timestamp}_{log_file_name}.json` in the knowledge base; `id`/`createdAt` are the
    * entry's id and creation time. */
  method HandlerAsWritten(listing: Option<seq<S3Object>>, kbListing: Option<seq<string>>, fetch: string -> Option<Json>,
                          cutoff: int, download: Result<nat>, invoked: Result<map<string, Json>>,
                          parse: string -> Option<Json>, now: DateTime, repr: Json -> string, id: string, createdAt: string)
    returns (response: Response, puts: seq<Put>)
    requires Valid(now)
    ensures listing.None? ==> response == Response(404, JStr("No files found.")) && puts == []
    ensures listing.Some? && LatestJpg(listing.value).None? ==> response == Response(404, JStr("No JPG images found.")) && puts == []
    ensures listing.Some? && LatestJpg(listing.value).Some? && download.Err?
            ==> response == Response(500, JStr("Failed to download image: " + download.error)) && puts == []
    ensures listing.Some? && LatestJpg(listing.value).Some? && download.Ok? ==>
      var key := listing.value[LatestJpg(listing.value).value].key;
      var report := BuildReport(AnalysisText(invoked, repr), parse, Stamp(now, "-", ""), key,
                                |Recent(kbListing, fetch, cutoff)|);
      && response == Response(200, JObj(report))
      && puts == [Put(OutputKeyAsWritten(key), report), Put(KbKeyAsWritten(report, repr), KbEntry(report, key, id, createdAt))]
  {
    var failure, key, report := Analyse(listing, kbListing, fetch, cutoff, download, invoked, parse, now, repr);
    if failure.Some? {
      return failure.value, [];
    }
    var entry := KbEntry(report, key, id, createdAt);
    puts := [Put(OutputKeyAsWritten(key), report), Put(KbKeyAsWritten(report, repr), entry)];
    response := Response(200, JObj(report));
  }

  /** `lambda_handler` corrected: the same run, with the report filed under `OutputKey` and its
    * knowledge-base entry under `KbKey`, the keys the reader and the frame listing expect. */
  method Handler(listing: Option<seq<S3Object>>, kbListing: Option<seq<string>>, fetch: string -> Option<Json>,
                 cutoff: int, download: Result<nat>, invoked: Result<map<string, Json>>,
                 parse: string -> Option<Json>, now: DateTime, repr: Json -> string, id: string, createdAt: string)
    returns (response: Response, puts: seq<Put>)
    requires Valid(now)
    ensures listing.None? ==> response == Response(404, JStr("No files found.")) && puts == []
    ensures listing.Some? && LatestJpg(listing.value).None? ==> response == Response(404, JStr("No JPG images found.")) && puts == []
    ensures listing.Some? && LatestJpg(listing.value).Some? && download.Err?
            ==> response == Response(500, JStr("Failed to download image: " + download.error)) && puts == []
    ensures listing.Some? && LatestJpg(listing.value).Some? && download.Ok? ==>
      var key := listing.value[LatestJpg(listing.value).value].key;
      var report := BuildReport(AnalysisText(invoked, repr), parse, Stamp(now, "-", ""), key,
                                |Recent(kbListing, fetch, cutoff)|);
      && response == Response(200, JObj(report))
      && puts == [Put(OutputKey(key), report), Put(KbKey(report, repr), KbEntry(report, key, id, createdAt))]
  {
    var failure, key, report := Analyse(listing, kbListing, fetch, cutoff, download, invoked, parse, now, repr);
    if failure.Some? {
      return failure.value, [];
    }
    var entry := KbEntry(report, key, id, createdAt);
    puts := [Put(OutputKey(key), report), Put(KbKey(report, repr), entry)];
    response := Response(200, JObj(report));
  }

  /** A successful run of the corrected handler files its report where the next run's recall will
    * find it while the window covers it, and never over the frame it analysed. */
  lemma HandlerFeedsHistory(listing: seq<S3Object>, invoked: Result<map<string, Json>>, parse: string -> Option<Json>,
                            now: DateTime, repr: Json -> string, history: nat, id: string, createdAt: string, cutoff: int)
    requires Valid(now) && LatestJpg(listing).Some?
    ensures var key := listing[LatestJpg(listing).value].key;
      var report := BuildReport(AnalysisText(invoked, repr), parse, Stamp(now, "-", ""), key, history);
      && OutputKey(key) != key
      && (Admitted(KbKey(report, repr), Some(JObj(KbEntry(report, key, id, createdAt))), cutoff) <==> ToEpoch(now) >= cutoff)
  {
    var key := listing[LatestJpg(listing).value].key;
    var report := BuildReport(AnalysisText(invoked, repr), parse, Stamp(now, "-", ""), key, history);
    KbEntryRecalled(report, now, key, id, createdAt, repr, cutoff);
  }
}
