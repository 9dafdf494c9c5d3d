/** The Telegram bot: a webhook update is either one of four commands over the subscriber table or a
  * question for the agent, whose streamed answer is assembled into one reply. */
module Telegram {
  import opened Wrappers
  import opened Text
  import opened Json

  // ---------------------------------------------------------------- the agent's stream

  /** The `bytes` of a `chunk` event: absent, a string rendering such as `b'...'`, or real bytes,
    * which decode to text or fail to (`None`). */
  datatype ChunkBytes = NoBytes | StrBytes(rendering: string) | RawBytes(decoded: Option<string>)

  /** The `text` of a `contentBlock` event: absent, a string, or some other value, which cannot be
    * appended to the reply. */
  datatype BlockText = NoBlockText | BlockStr(text: string) | BlockOther

  /** One event of the completion stream, or the failure of the stream itself. */
  datatype StreamEvent = Event(chunk: ChunkBytes, block: BlockText) | StreamBroken

  /** `byte_str.replace("b'", "").replace("'", "")`, as written. */
  function Unwrap(rendering: string): (r: string)
    ensures '\'' !in r
  {
    RemoveChar(Replace(rendering, "b'", ""), '\'');
    Replace(Replace(rendering, "b'", ""), "'", "")
  }

  /** A rendering `b'...'` of text without quotes that does not end in `b` gives back its text. */
  lemma UnwrapRoundTrip(s: string)
    requires '\'' !in s && (s == [] || s[|s| - 1] != 'b')
    ensures Unwrap("b'" + s + "'") == s
  {
    var x := s + "'";
    assert "b'" + s + "'" == "b'" + x;
    assert ("b'" + x)[..2] == "b'" && ("b'" + x)[2..] == x;
    assert Replace("b'" + x, "b'", "") == "" + Replace(x, "b'", "");
    assert !Contains(x, "b'") by {
      forall j | 0 <= j && j + 2 <= |x| ensures !OccursAt(x, "b'", j) {
        if j + 1 < |s| {
          assert x[j..j + 2][1] == s[j + 1];
        } else {
          assert x[j..j + 2][0] == s[|s| - 1];
        }
      }
    }
    ReplaceWithout(x, "b'", "");
    assert "" + x == x;
    ReplaceSuffix(s, "'", "");
    assert s + "" == s;
  }

  /** The text of a rendering that ends in `b` loses that `b`: the closing quote makes a second
    * `b'` for the first replacement to remove. */
  lemma UnwrapDropsTrailingB(t: string)
    requires '\'' !in t && 'b' !in t
    ensures Unwrap("b'" + (t + "b") + "'") == t
  {
    var x := t + "b'";
    assert "b'" + (t + "b") + "'" == "b'" + x;
    assert ("b'" + x)[..2] == "b'" && ("b'" + x)[2..] == x;
    assert Replace("b'" + x, "b'", "") == "" + Replace(x, "b'", "");
    ReplaceSuffix(t, "b'", "");
    assert "" + (t + "") == t;
    ReplaceAbsent(t, "'", "");
  }

  /** The unwrapping meant: the text between the opening `b'` and the closing quote, and any other
    * text unchanged. */
  function UnwrapMeant(rendering: string): (r: string)
    ensures StartsWith(rendering, "b'") && |rendering| >= 3 && rendering[|rendering| - 1] == '\''
            ==> rendering == "b'" + r + "'"
    ensures !(StartsWith(rendering, "b'") && |rendering| >= 3 && rendering[|rendering| - 1] == '\'') ==> r == rendering
  {
    if StartsWith(rendering, "b'") && |rendering| >= 3 && rendering[|rendering| - 1] == '\'' then
      var r := rendering[2..|rendering| - 1];
      assert rendering == rendering[..2] + r + [rendering[|rendering| - 1]];
      r
    else rendering
  }

  /** Every text survives the meant unwrapping, including one that ends in `b` or holds a quote. */
  lemma UnwrapMeantRoundTrip(s: string)
    ensures UnwrapMeant("b'" + s + "'") == s
  {
    var x := "b'" + s + "'";
    assert x[..2] == "b'";
    assert x[2..|x| - 1] == s;
  }

  /** The text gathered so far and whether an exception ended the gathering. */
  datatype Gathered = Gathered(text: string, stopped: bool)

  /** The effect of one event on the gathered text: the chunk's text, a string rendering passed
    * through `unwrap`, then the block's, each appended; an exception keeps what was appended before
    * it and stops. The program unwraps with `Unwrap`; `UnwrapMeant` is the corrected unwrap. */
  function Step(text: string, e: StreamEvent, unwrap: string -> string): (r: Gathered)
    ensures StartsWith(r.text, text)
    ensures r.stopped <==> e == StreamBroken || (e.Event? && (e.chunk == RawBytes(None) || e.block == BlockOther))
  {
    match e
    case StreamBroken => Gathered(text, true)
    case Event(chunk, block) =>
      var afterChunk := match chunk
        case NoBytes => Gathered(text, false)
        case StrBytes(rendering) => Gathered(text + unwrap(rendering), false)
        case RawBytes(decoded) => if decoded.Some? then Gathered(text + decoded.value, false) else Gathered(text, true);
      if afterChunk.stopped then afterChunk
      else match block
        case NoBlockText => afterChunk
        case BlockStr(t) => Gathered(afterChunk.text + t, false)
        case BlockOther => Gathered(afterChunk.text, true)
  }

  /** The loop of `parse_agent_response` over a prefix of the stream, unwrapping with `unwrap`. */
  function Gather(events: seq<StreamEvent>, unwrap: string -> string): (r: Gathered)
  {
    if events == [] then Gathered([], false)
    else
      var before := Gather(events[..|events| - 1], unwrap);
      if before.stopped then before else Step(before.text, events[|events| - 1], unwrap)
  }

  predicate Intact(events: seq<StreamEvent>, unwrap: string -> string) {
    forall i :: 0 <= i < |events| ==> !Step([], events[i], unwrap).stopped
  }

  lemma StepFrom(text: string, e: StreamEvent, unwrap: string -> string)
    ensures Step(text, e, unwrap) == Gathered(text + Step([], e, unwrap).text, Step([], e, unwrap).stopped)
  {
    match e
    case StreamBroken =>
      assert text + [] == text;
    case Event(chunk, block) =>
      match chunk {
        case NoBytes =>
          assert text + [] == text;
          match block {
            case NoBlockText =>
            case BlockStr(t) => assert [] + t == t;
            case BlockOther =>
          }
        case StrBytes(rendering) =>
          var u := unwrap(rendering);
          assert [] + u == u;
          match block {
            case NoBlockText =>
            case BlockStr(t) => assert text + u + t == text + (u + t);
            case BlockOther =>
          }
        case RawBytes(decoded) =>
          if decoded.Some? {
            assert [] + decoded.value == decoded.value;
            match block {
              case NoBlockText =>
              case BlockStr(t) => assert text + decoded.value + t == text + (decoded.value + t);
              case BlockOther =>
            }
          } else {
            assert text + [] == text;
          }
      }
  }

  /** Without failures the reply is the events' texts concatenated in stream order. */
  lemma {:induction false} GatherConcatenates(events: seq<StreamEvent>, more: seq<StreamEvent>, unwrap: string -> string)
    requires Intact(more, unwrap)
    ensures Gather(events + more, unwrap).stopped == Gather(events, unwrap).stopped
    ensures !Gather(events, unwrap).stopped
            ==> Gather(events + more, unwrap).text == Gather(events, unwrap).text + Gather(more, unwrap).text
    decreases |more|
  {
    if more == [] {
      assert events + more == events;
    } else {
      var init, last := more[..|more| - 1], more[|more| - 1];
      assert Intact(init, unwrap) by {
        forall i | 0 <= i < |init| ensures !Step([], init[i], unwrap).stopped { assert init[i] == more[i]; }
      }
      assert !Step([], last, unwrap).stopped by { assert last == more[|more| - 1]; }
      GatherConcatenates(events, init, unwrap);
      GatherConcatenates([], init, unwrap);
      assert [] + init == init;
      assert (events + more)[..|events + more| - 1] == events + init;
      assert (events + more)[|events + more| - 1] == last;
      if !Gather(events, unwrap).stopped {
        StepAfter(Gather(events, unwrap).text, Gather(events + init, unwrap), Gather(init, unwrap), last, unwrap);
      }
    }
  }

  /** One more intact event extends two gatherings that differ by a prefix alike. */
  lemma StepAfter(prefix: string, g1: Gathered, g2: Gathered, e: StreamEvent, unwrap: string -> string)
    requires !g1.stopped && !g2.stopped && g1.text == prefix + g2.text && !Step([], e, unwrap).stopped
    ensures !Step(g1.text, e, unwrap).stopped && Step(g1.text, e, unwrap).text == prefix + Step(g2.text, e, unwrap).text
  {
    var c := Step([], e, unwrap).text;
    StepFrom(g1.text, e, unwrap);
    StepFrom(g2.text, e, unwrap);
    assert prefix + g2.text + c == prefix + (g2.text + c);
  }

  /** A failure keeps the text gathered before it, whatever follows. */
  lemma {:induction false} FailureKeepsPrefix(events: seq<StreamEvent>, more: seq<StreamEvent>, unwrap: string -> string)
    requires Gather(events, unwrap).stopped
    ensures Gather(events + more, unwrap) == Gather(events, unwrap)
    decreases |more|
  {
    if more == [] {
      assert events + more == events;
    } else {
      FailureKeepsPrefix(events, more[..|more| - 1], unwrap);
      assert (events + more)[..|events + more| - 1] == events + more[..|more| - 1];
    }
  }

  /** A stream of one string chunk gathers exactly its unwrapped text. */
  lemma OneChunk(rendering: string, unwrap: string -> string)
    ensures Gather([Event(StrBytes(rendering), NoBlockText)], unwrap) == Gathered(unwrap(rendering), false)
  {
    var events := [Event(StrBytes(rendering), NoBlockText)];
    assert events[..0] == [];
    assert [] + unwrap(rendering) == unwrap(rendering);
  }

  /** As written, a reply whose only chunk ends in `b` loses that `b`; the corrected unwrap keeps it. */
  lemma ReplyDropsTrailingB(t: string)
    requires '\'' !in t && 'b' !in t
    ensures var events := [Event(StrBytes("b'" + (t + "b") + "'"), NoBlockText)];
      Gather(events, Unwrap).text == t && Gather(events, UnwrapMeant).text == t + "b"
  {
    var rendering := "b'" + (t + "b") + "'";
    OneChunk(rendering, Unwrap);
    OneChunk(rendering, UnwrapMeant);
    UnwrapDropsTrailingB(t);
    UnwrapMeantRoundTrip(t + "b");
  }

  /** The clean-up after the loop: nothing gathered is `None`; otherwise literal `\n` pairs become
    * newlines, three newlines become two, and the result is stripped. */
  function Finish(text: string): (r: Option<string>)
    ensures r.None? <==> text == []
    ensures r.Some? ==> Trimmed(r.value)
    ensures text != [] && '\\' !in text && '\n' !in text ==> r == Some(Strip(text))
  {
    if text == [] then None
    else
      var converted := Replace(Replace(text, "\\n", "\n"), "\n\n\n", "\n\n");
      PlainUnconverted(text);
      StrippedEnds(converted);
      Some(Strip(converted))
  }

  /** Text without backslashes or newlines has nothing to convert. */
  lemma PlainUnconverted(text: string)
    ensures '\\' !in text && '\n' !in text ==> Replace(Replace(text, "\\n", "\n"), "\n\n\n", "\n\n") == text
  {
    if '\\' !in text && '\n' !in text {
      ReplaceAbsent(text, "\\n", "\n");
      ReplaceAbsent(text, "\n\n\n", "\n\n");
    }
  }

  /** Text that neither starts nor ends with whitespace. */
  predicate Trimmed(s: string) {
    s == [] || (!IsSpace(s[0]) && !IsSpace(s[|s| - 1]))
  }

  /** What `strip()` leaves is trimmed. */
  lemma StrippedEnds(s: string)
    ensures Trimmed(Strip(s))
  {
    var l := LStrip(s);
    var r := RStrip(l);
    if r != [] {
      assert r[0] == l[0];
    }
  }

  /** A literal `\n` between two lines of plain text becomes a newline. */
  lemma FinishConvertsNewline(a: string, b: string)
    requires a != [] && b != [] && !IsSpace(a[0]) && !IsSpace(b[|b| - 1])
    requires '\\' !in a && '\n' !in a && '\\' !in b && '\n' !in b
    ensures Finish(a + "\\n" + b) == Some(a + "\n" + b)
  {
    LiteralConverted(a, b);
    SingleNewlineKept(a, b);
    var x := a + "\n" + b;
    assert x[0] == a[0] && x[|x| - 1] == b[|b| - 1];
    StripPlain(x);
  }

  /** The first replacement turns the one literal `\n` into a newline. */
  lemma LiteralConverted(a: string, b: string)
    requires '\\' !in a && '\\' !in b
    ensures Replace(a + "\\n" + b, "\\n", "\n") == a + "\n" + b
  {
    var lit: string := "\\n";
    var nl: string := "\n";
    assert a + lit + b == a + (lit + b);
    ReplaceSkip(a, lit + b, lit, nl);
    assert (lit + b)[..2] == lit && (lit + b)[2..] == b;
    ReplaceAbsent(b, lit, nl);
    assert a + (nl + b) == a + nl + b;
  }

  /** A single newline between text without newlines is not a triple to collapse. */
  lemma SingleNewlineKept(a: string, b: string)
    requires b != [] && '\n' !in a && '\n' !in b
    ensures Replace(a + "\n" + b, "\n\n\n", "\n\n") == a + "\n" + b
  {
    var nl: string := "\n";
    var t: string := "\n\n\n";
    assert a + nl + b == a + (nl + b);
    ReplaceSkip(a, nl + b, t, "\n\n");
    if |nl + b| >= 3 {
      assert (nl + b)[..3] != t by { assert (nl + b)[..3][1] == b[0]; }
    }
    assert (nl + b)[1..] == b;
    ReplaceAbsent(b, t, "\n\n");
  }

  /** `parse_agent_response`. `completion` is the `completion` stream, `None` when it is missing or
    * empty; `unwrap` unwraps string chunks (the bot passes the as-written `Unwrap`). */
  method ParseAgentResponse(completion: Option<seq<StreamEvent>>, unwrap: string -> string) returns (reply: Option<string>)
    ensures completion.None? ==> reply.None?
    ensures completion.Some? ==> reply == Finish(Gather(completion.value, unwrap).text)
  {
    var text := "";
    if completion.Some? {
      var events := completion.value;
      var i := 0;
      var stopped := false;
      while i < |events| && !stopped
        invariant 0 <= i <= |events|
        invariant Gathered(text, stopped) == Gather(events[..i], unwrap)
        invariant stopped ==> Gather(events, unwrap) == Gather(events[..i], unwrap)
      {
        assert events[..i + 1][..i] == events[..i];
        var g := Step(text, events[i], unwrap);
        text, stopped := g.text, g.stopped;
        i := i + 1;
        if stopped {
          FailureKeepsPrefix(events[..i], events[i..], unwrap);
          assert events[..i] + events[i..] == events;
        }
      }
      if !stopped {
        assert events[..i] == events;
      }
    }
    reply := Finish(text);
  }

  // ---------------------------------------------------------------- commands

  datatype Command = SubscribeCmd | UnsubscribeCmd | StatusCmd | StartCmd

  function CommandText(c: Command): string {
    match c
    case SubscribeCmd => "/subscribe"
    case UnsubscribeCmd => "/unsubscribe"
    case StatusCmd => "/status"
    case StartCmd => "/start"
  }

  /** The command a message names once lower-cased, matched exactly. */
  function CommandOf(text: string): (r: Option<Command>)
    ensures r.Some? ==> Lower(text) == CommandText(r.value)
    ensures r.None? ==> forall c :: Lower(text) != CommandText(c)
  {
    var lowered := Lower(text);
    if lowered == "/subscribe" then Some(SubscribeCmd)
    else if lowered == "/unsubscribe" then Some(UnsubscribeCmd)
    else if lowered == "/status" then Some(StatusCmd)
    else if lowered == "/start" then Some(StartCmd)
    else None
  }

  /** Commands are case-insensitive. */
  lemma CommandIgnoresCase(text: string)
    ensures CommandOf(Lower(text)) == CommandOf(text)
  {
    LowerIdempotent(text);
  }

  /** What an update asks for. */
  datatype Request =
    | NoText
    | Run(chatId: Json, command: Command, username: Json)
    | Ask(chatId: Json, sessionId: string, text: string)

  /** What the handler reads off an update: `chat.id`, `text` and `from.username`. */
  datatype Update = Update(chatId: Json, text: Json, username: Json)

  /** The parsing at the top of `lambda_handler`, with the exception each step can raise. `decode`
    * is `json.loads`. */
  function Parse(event: map<string, Json>, decode: string -> Result<Json>): Result<Update> {
    var raw := GetOr(JObj(event), "body", JStr("{}"));
    if !raw.JStr? then Err("the JSON object must be str, bytes or bytearray, not " + TypeName(raw))
    else match decode(raw.s)
      case Err(e) => Err(e)
      case Ok(body) =>
        if !body.JObj? then Err(NoAttribute(body, "get"))
        else
          var message := GetOr(body, "message", JObj(map[]));
          if !message.JObj? then Err(NoAttribute(message, "get"))
          else
            var chat := GetOr(message, "chat", JObj(map[]));
            if !chat.JObj? then Err(NoAttribute(chat, "get"))
            else
              var from := GetOr(message, "from", JObj(map[]));
              if !from.JObj? then Err(NoAttribute(from, "get"))
              else Ok(Update(GetOr(chat, "id", JNull), GetOr(message, "text", JNull), GetOr(from, "username", JStr(""))))
  }

  /** What an update asks for: nothing without text or chat id, one of the commands when the
    * lower-cased text names it, and otherwise a question under the chat's session. */
  function Route(event: map<string, Json>, decode: string -> Result<Json>, repr: Json -> string): (r: Result<Request>)
    ensures Parse(event, decode).Err? ==> r == Err(Parse(event, decode).error)
    ensures Parse(event, decode).Ok? ==>
      var u := Parse(event, decode).value;
      && (r == Ok(NoText) <==> !Truthy(u.text) || !Truthy(u.chatId))
      && (Truthy(u.text) && Truthy(u.chatId) && !u.text.JStr? ==> r == Err(NoAttribute(u.text, "lower")))
      && (Truthy(u.chatId) && u.text.JStr? && u.text.s != [] && CommandOf(u.text.s).Some?
          ==> r == Ok(Run(u.chatId, CommandOf(u.text.s).value, u.username)))
      && (Truthy(u.chatId) && u.text.JStr? && u.text.s != [] && CommandOf(u.text.s).None?
          ==> r == Ok(Ask(u.chatId, Str(u.chatId, repr), u.text.s)))
    ensures r.Ok? && r.value.Run? ==> Truthy(r.value.chatId)
    ensures r.Ok? && r.value.Ask? ==> r.value.sessionId == Str(r.value.chatId, repr) && r.value.text != []
                                      && CommandOf(r.value.text).None?
  {
    match Parse(event, decode)
    case Err(e) => Err(e)
    case Ok(u) =>
      if !Truthy(u.text) || !Truthy(u.chatId) then Ok(NoText)
      else if !u.text.JStr? then Err(NoAttribute(u.text, "lower"))
      else match CommandOf(u.text.s)
        case Some(c) => Ok(Run(u.chatId, c, u.username))
        case None => Ok(Ask(u.chatId, Str(u.chatId, repr), u.text.s))
  }

  /** A text update from a chat runs a command exactly when its lower-cased text is that command's
    * name, in any letter case; `/subscribe` and `/unsubscribe` are never confused. */
  lemma RouteByCommandName(event: map<string, Json>, decode: string -> Result<Json>, repr: Json -> string, c: Command)
    requires Parse(event, decode).Ok?
    requires var u := Parse(event, decode).value; u.text.JStr? && u.text.s != [] && Truthy(u.chatId)
    ensures var u := Parse(event, decode).value; var r := Route(event, decode, repr);
      (r.Ok? && r.value.Run? && r.value.command == c) <==> Lower(u.text.s) == CommandText(c)
  {
    var u := Parse(event, decode).value;
    var o := CommandOf(u.text.s);
    if o.Some? && o.value != c {
      assert CommandText(o.value) != CommandText(c);
    }
  }

  /** An update without text or without a chat id is acknowledged and nothing else. */
  lemma MissingTextIgnored(event: map<string, Json>, decode: string -> Result<Json>, repr: Json -> string, body: map<string, Json>,
                           message: map<string, Json>)
    requires "body" in event && event["body"].JStr? && decode(event["body"].s) == Ok(JObj(body))
    requires "message" in body && body["message"] == JObj(message)
    requires "chat" !in message && "from" !in message
    ensures Route(event, decode, repr) == Ok(NoText)
  {
  }

  // ---------------------------------------------------------------- the subscriber table

  /** One row of the subscribers table. */
  datatype Subscriber = Subscriber(chatId: string, username: Json, subscribedAt: string, active: bool)

  /** The fixed texts the bot sends, by name. */
  datatype BotText = SubscribedNote | UnsubscribedNote | SubscribedStatus | NotSubscribedStatus | Welcome | Answer(text: string)

  /** A message sent to a chat; `html` is the `parse_mode` of `send_telegram_message`. */
  datatype Sent = Sent(chatId: Json, text: BotText, html: bool)

  datatype Response = Response(statusCode: int, body: string)

  const Sorry: string := "Sorry, I couldn't generate a response."

  /** The reply sent for what the agent answered: its text, or an apology when there is none. */
  function ReplyText(reply: Option<string>): (r: string)
    ensures r != []
    ensures reply.Some? && reply.value != [] ==> r == reply.value
  {
    if reply.None? || reply.value == [] then Sorry else reply.value
  }

  /** The table after `/subscribe`: an active row under the chat id, replacing any earlier one. */
  function WithSubscriber(table: map<string, Subscriber>, key: string, username: Json, now: string)
    : (t: map<string, Subscriber>)
    ensures key in t && t[key].active && t[key].chatId == key
    ensures t.Keys == table.Keys + {key}
    ensures forall k :: k in table && k != key ==> t[k] == table[k]
  {
    table[key := Subscriber(key, if Truthy(username) then username else JStr(""), now, true)]
  }

  /** The table after `/unsubscribe`. */
  function WithoutSubscriber(table: map<string, Subscriber>, key: string): (t: map<string, Subscriber>)
    ensures key !in t && t.Keys == table.Keys - {key}
    ensures forall k :: k in t ==> t[k] == table[k]
  {
    table - {key}
  }

  /** Subscribing twice is subscribing once (at the later time). */
  lemma SubscribeIdempotent(table: map<string, Subscriber>, key: string, username: Json, t1: string, t2: string)
    ensures WithSubscriber(WithSubscriber(table, key, username, t1), key, username, t2)
            == WithSubscriber(table, key, username, t2)
  {
  }

  /** Unsubscribing undoes a first subscription, and leaves every other chat's row alone. */
  lemma UnsubscribeUndoes(table: map<string, Subscriber>, key: string, username: Json, now: string)
    requires key !in table
    ensures WithoutSubscriber(WithSubscriber(table, key, username, now), key) == table
  {
  }

  /** The bot's state: the subscriber table, the messages it has sent and the questions it has put
    * to the agent (session id and text). */
  class Bot {
    var subscribers: map<string, Subscriber>
    var outbox: seq<Sent>
    var questions: seq<(string, string)>

    constructor(subscribers: map<string, Subscriber>)
      ensures this.subscribers == subscribers && outbox == [] && questions == []
    {
      this.subscribers := subscribers;
      outbox := [];
      questions := [];
    }

    /** `handle_status`'s test. */
    predicate IsSubscribed(key: string)
      reads this
    {
      key in subscribers
    }

    /** `handle_subscribe` */
    method Subscribe(chatId: Json, username: Json, now: string, repr: Json -> string)
      modifies this
      ensures subscribers == WithSubscriber(old(subscribers), Str(chatId, repr), username, now)
      ensures outbox == old(outbox) + [Sent(chatId, SubscribedNote, true)] && questions == old(questions)
      ensures IsSubscribed(Str(chatId, repr))
    {
      subscribers := WithSubscriber(subscribers, Str(chatId, repr), username, now);
      outbox := outbox + [Sent(chatId, SubscribedNote, true)];
    }

    /** `handle_unsubscribe` */
    method Unsubscribe(chatId: Json, repr: Json -> string)
      modifies this
      ensures subscribers == WithoutSubscriber(old(subscribers), Str(chatId, repr))
      ensures outbox == old(outbox) + [Sent(chatId, UnsubscribedNote, true)] && questions == old(questions)
      ensures !IsSubscribed(Str(chatId, repr))
    {
      subscribers := WithoutSubscriber(subscribers, Str(chatId, repr));
      outbox := outbox + [Sent(chatId, UnsubscribedNote, true)];
    }

    /** `handle_status`: the answer says subscribed exactly when the table has the chat's row. */
    method Status(chatId: Json, repr: Json -> string)
      modifies this
      ensures subscribers == old(subscribers) && questions == old(questions)
      ensures outbox == old(outbox) + [Sent(chatId, if Str(chatId, repr) in subscribers then SubscribedStatus else NotSubscribedStatus, true)]
    {
      var answer := if Str(chatId, repr) in subscribers then SubscribedStatus else NotSubscribedStatus;
      outbox := outbox + [Sent(chatId, answer, true)];
    }

    /** `lambda_handler`. `agent` is `invoke_agent` by session id and text, giving the completion
    * stream (`None` when missing or empty) or the text of its exception; `now` is the subscription
    * time. */
    method Handle(event: map<string, Json>, decode: string -> Result<Json>, agent: (string, string) -> Result<Option<seq<StreamEvent>>>,
                  now: string, repr: Json -> string)
      returns (response: Response)
      modifies this
      ensures var route := Route(event, decode, repr);
        && (route.Err? ==>
              response == Response(500, "Error: " + route.error)
              && subscribers == old(subscribers) && outbox == old(outbox) && questions == old(questions))
        && (route == Ok(NoText) ==>
              response == Response(200, "No text found")
              && subscribers == old(subscribers) && outbox == old(outbox) && questions == old(questions))
        && (route.Ok? && route.value.Run? ==> questions == old(questions))
        && (route.Ok? && route.value.Run? && route.value.command == SubscribeCmd ==>
              response == Response(200, "Subscribed")
              && subscribers == WithSubscriber(old(subscribers), Str(route.value.chatId, repr), route.value.username, now)
              && outbox == old(outbox) + [Sent(route.value.chatId, SubscribedNote, true)])
        && (route.Ok? && route.value.Run? && route.value.command == UnsubscribeCmd ==>
              response == Response(200, "Unsubscribed")
              && subscribers == WithoutSubscriber(old(subscribers), Str(route.value.chatId, repr))
              && outbox == old(outbox) + [Sent(route.value.chatId, UnsubscribedNote, true)])
        && (route.Ok? && route.value.Run? && route.value.command == StatusCmd ==>
              var key := Str(route.value.chatId, repr);
              response == Response(200, "Status checked") && subscribers == old(subscribers)
              && outbox == old(outbox) + [Sent(route.value.chatId, if key in old(subscribers) then SubscribedStatus else NotSubscribedStatus, true)])
        && (route.Ok? && route.value.Run? && route.value.command == StartCmd ==>
              response == Response(200, "Start message sent") && subscribers == old(subscribers)
              && outbox == old(outbox) + [Sent(route.value.chatId, Welcome, true)])
        && (route.Ok? && route.value.Ask? ==>
              var ask := route.value;
              var answer := agent(ask.sessionId, ask.text);
              && subscribers == old(subscribers) && questions == old(questions) + [(ask.sessionId, ask.text)]
              && (answer.Err? ==> response == Response(500, "Error: " + answer.error) && outbox == old(outbox))
              && (answer.Ok? ==>
                    var reply := if answer.value.None? then None else Finish(Gather(answer.value.value, Unwrap).text);
                    response == Response(200, "OK")
                    && outbox == old(outbox) + [Sent(ask.chatId, Answer(ReplyText(reply)), false)]))
    {
      var route := Route(event, decode, repr);
      if route.Err? {
        return Response(500, "Error: " + route.error);
      }
      match route.value
      case NoText =>
        response := Response(200, "No text found");
      case Run(chatId, command, username) =>
        match command {
          case SubscribeCmd =>
            Subscribe(chatId, username, now, repr);
            response := Response(200, "Subscribed");
          case UnsubscribeCmd =>
            Unsubscribe(chatId, repr);
            response := Response(200, "Unsubscribed");
          case StatusCmd =>
            Status(chatId, repr);
            response := Response(200, "Status checked");
          case StartCmd =>
            outbox := outbox + [Sent(chatId, Welcome, true)];
            response := Response(200, "Start message sent");
        }
      case Ask(chatId, sessionId, text) =>
        questions := questions + [(sessionId, text)];
        var answer := agent(sessionId, text);
        if answer.Err? {
          return Response(500, "Error: " + answer.error);
        }
        var reply := ParseAgentResponse(answer.value, Unwrap);
        outbox := outbox + [Sent(chatId, Answer(ReplyText(reply)), false)];
        response := Response(200, "OK");
    }
  }
}
