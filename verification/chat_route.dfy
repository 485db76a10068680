/**
 * The chat endpoint: `POST` validates the message, builds the list of
 * messages for the model from the conversation history and the new message,
 * and relays the model's text deltas to the browser as a `text/event-stream`
 * (server-sent events, section 9.2 of the HTML Living Standard): one
 * `data: {"text":…}` event per delta, then `data: [DONE]`.
 *
 * The request body is the parsed JSON value, or `None` when it does not
 * parse. The model's answer is a parameter: the chunks its stream yields, and
 * whether the call or the stream fails.
 */
module ChatRoute {
  import opened Wrappers
  import opened Json
  import opened Seqs

  // ----- the message list -----

  datatype Role = User | Assistant

  /** One entry of `messages`; `content` is passed on as the history holds it. */
  datatype ApiMessage = ApiMessage(role: Role, content: JsonValue)

  /** `conversationHistory && Array.isArray(conversationHistory)`: only an array is used. */
  function HistoryItems(history: JsonValue): (items: seq<JsonValue>)
    ensures history.Array? ==> items == history.items
    ensures !history.Array? ==> items == []
  {
    if history.Array? then history.items else []
  }

  /** `msg.role` can be read: the item is neither `null` nor `undefined`. */
  predicate Mappable(item: JsonValue) {
    Member(item, "role").Some?
  }

  predicate AllMappable(items: seq<JsonValue>) {
    forall i :: 0 <= i < |items| ==> Mappable(items[i])
  }

  /** The entry a history item becomes: role `'user'` stays, every other role becomes `'assistant'`. */
  function HistoryMessage(item: JsonValue): (m: ApiMessage)
    requires Mappable(item)
    ensures m.role == User <==> Member(item, "role") == Some(Str("user"))
    ensures m.content == Member(item, "content").value
  {
    ApiMessage(if Member(item, "role").value == Str("user") then User else Assistant, Member(item, "content").value)
  }

  /**
   * The `forEach` that pushes one entry per history item, followed by the
   * push of the current message. A `null` item makes `msg.role` throw.
   */
  method BuildMessages(history: JsonValue, message: string) returns (o: Outcome<seq<ApiMessage>>)
    ensures o.Returned? <==> AllMappable(HistoryItems(history))
    ensures o.Returned? ==> |o.value| == |HistoryItems(history)| + 1
    ensures o.Returned? ==> forall i :: 0 <= i < |HistoryItems(history)| ==> o.value[i] == HistoryMessage(HistoryItems(history)[i])
    ensures o.Returned? ==> o.value[|HistoryItems(history)|] == ApiMessage(User, Str(message))
  {
    var items := HistoryItems(history);
    var messages: seq<ApiMessage> := [];
    for i := 0 to |items|
      invariant |messages| == i
      invariant forall k :: 0 <= k < i ==> Mappable(items[k]) && messages[k] == HistoryMessage(items[k])
    {
      if !Mappable(items[i]) {
        return Threw("Cannot read properties of null (reading 'role')");
      }
      messages := messages + [HistoryMessage(items[i])];
    }
    messages := messages + [ApiMessage(User, Str(message))];
    return Returned(messages);
  }

  // ----- framing -----

  function HexDigit(d: nat): (c: char)
    requires d < 16
  {
    if d < 10 then ('0' as int + d) as char else ('a' as int + d - 10) as char
  }

  predicate IsHexChar(c: char) {
    '0' <= c <= '9' || 'a' <= c <= 'f' || 'A' <= c <= 'F'
  }

  function HexValue(c: char): (d: nat)
    requires IsHexChar(c)
    ensures d < 16
  {
    if '0' <= c <= '9' then c as int - '0' as int
    else if 'a' <= c <= 'f' then c as int - 'a' as int + 10
    else c as int - 'A' as int + 10
  }

  lemma HexRoundTrip(d: nat)
    requires d < 16
    ensures IsHexChar(HexDigit(d)) && HexValue(HexDigit(d)) == d
  {
  }

  /** A line terminator of the event-stream format: LF or CR. */
  predicate IsLineBreak(c: char) {
    c == '\n' || c == '\r'
  }

  /**
   * How `JSON.stringify` writes one character inside a string literal: the
   * quote and the backslash are escaped, the five control characters with a
   * short escape use it, the other control characters become `\u00xx` in
   * lower-case hex, and everything else is written as is.
   */
  function EscapeChar(c: char): (e: string)
    ensures e != []
    ensures forall i :: 0 <= i < |e| ==> !IsLineBreak(e[i])
  {
    if c == '"' then ['\\', '"']
    else if c == '\\' then ['\\', '\\']
    else if c as int == 0x08 then ['\\', 'b']
    else if c == '\t' then ['\\', 't']
    else if c == '\n' then ['\\', 'n']
    else if c as int == 0x0C then ['\\', 'f']
    else if c == '\r' then ['\\', 'r']
    else if c as int < 0x20 then ['\\', 'u', '0', '0', HexDigit(c as int / 16), HexDigit(c as int % 16)]
    else [c]
  }

  /** The body of the string literal `JSON.stringify(t)`; it never contains a line break. */
  function Escape(t: string): (e: string)
    ensures forall i :: 0 <= i < |e| ==> !IsLineBreak(e[i])
    decreases |t|
  {
    if t == [] then [] else EscapeChar(t[0]) + Escape(t[1..])
  }

  /** `data: ${JSON.stringify({ text })}\n\n`, pieced together. */
  const TEXT_OPEN: string := "data: {\"text\":\""
  const FRAME_CLOSE: string := "}\n\n"
  const DONE_FRAME: string := "data: [DONE]\n\n"

  function TextFrame(t: string): string {
    TEXT_OPEN + Escape(t) + "\"" + FRAME_CLOSE
  }

  /** A text frame is one `data:` line followed by the blank line that ends the event, so it dispatches exactly one event. */
  lemma TextFrameIsOneEvent(t: string)
    ensures var f := TextFrame(t);
            |f| >= 2 && f[|f| - 2..] == "\n\n" && forall i :: 0 <= i < |f| - 2 ==> !IsLineBreak(f[i])
  {
    var f := TextFrame(t);
    var e := Escape(t);
    forall i | 0 <= i < |f| - 2 ensures !IsLineBreak(f[i]) {
      if |TEXT_OPEN| <= i < |TEXT_OPEN| + |e| {
        assert f[i] == e[i - |TEXT_OPEN|];
      }
    }
  }

  // ----- the relay loop -----

  datatype Delta = Delta(kind: string, text: string)
  datatype Chunk = Chunk(kind: string, delta: Delta)

  predicate IsTextDelta(c: Chunk) {
    c.kind == "content_block_delta" && c.delta.kind == "text_delta"
  }

  /** The texts of the text-delta chunks, in stream order. */
  function DeltaTexts(chunks: seq<Chunk>): (texts: seq<string>)
    ensures |texts| <= |chunks|
  {
    if chunks == [] then []
    else
      var last := chunks[|chunks| - 1];
      DeltaTexts(chunks[..|chunks| - 1]) + (if IsTextDelta(last) then [last.delta.text] else [])
  }

  /** The relayed texts are exactly those of the chunks that pass the text-delta test, in order. */
  lemma {:induction false} DeltaTextsAreFiltered(chunks: seq<Chunk>)
    ensures var f := Filter(chunks, IsTextDelta);
            DeltaTexts(chunks) == seq(|f|, i requires 0 <= i < |f| => f[i].delta.text)
  {
    if chunks != [] {
      var init, last := chunks[..|chunks| - 1], chunks[|chunks| - 1];
      DeltaTextsAreFiltered(init);
      assert chunks == init + [last];
      FilterAppend(init, [last], IsTextDelta);
      assert Filter([last], IsTextDelta) == if IsTextDelta(last) then [last] else [];
    }
  }

  function Framed(texts: seq<string>): (frames: seq<string>)
    ensures |frames| == |texts|
  {
    seq(|texts|, i requires 0 <= i < |texts| => TextFrame(texts[i]))
  }

  /**
   * The `for await` loop of the stream's `start`: one frame per text delta,
   * then the terminator and `close`. When the model stream throws after the
   * given chunks, the frames sent so far stay sent, no terminator follows and
   * the stream is errored instead of closed.
   */
  method Relay(chunks: seq<Chunk>, fails: bool) returns (sent: seq<string>, closed: bool, errored: bool)
    ensures sent == Framed(DeltaTexts(chunks)) + (if fails then [] else [DONE_FRAME])
    ensures closed == !fails && errored == fails
  {
    sent := [];
    for i := 0 to |chunks|
      invariant sent == Framed(DeltaTexts(chunks[..i]))
    {
      var chunk := chunks[i];
      assert chunks[..i + 1][..i] == chunks[..i];
      if IsTextDelta(chunk) {
        sent := sent + [TextFrame(chunk.delta.text)];
      }
    }
    assert chunks[..|chunks|] == chunks;
    if fails {
      return sent, false, true;
    }
    sent := sent + [DONE_FRAME];
    return sent, true, false;
  }

  // ----- reading the stream back -----

  /** What a client reading the stream sees: a text event, or the terminator. */
  datatype Event = TextEvent(text: string) | Done

  function Concat(frames: seq<string>): string
    decreases |frames|
  {
    if frames == [] then [] else frames[0] + Concat(frames[1..])
  }

  function ConsChar(c: char, o: Option<(string, string)>): Option<(string, string)> {
    if o.None? then None else Some(([c] + o.value.0, o.value.1))
  }

  function ShortEscape(e: char): Option<char> {
    if e == '"' then Some('"')
    else if e == '\\' then Some('\\')
    else if e == '/' then Some('/')
    else if e == 'b' then Some(8 as char)
    else if e == 't' then Some('\t')
    else if e == 'n' then Some('\n')
    else if e == 'f' then Some(12 as char)
    else if e == 'r' then Some('\r')
    else None
  }

  predicate HasUnicodeEscape(s: string) {
    |s| >= 6 && s[0] == '\\' && s[1] == 'u' && IsHexChar(s[2]) && IsHexChar(s[3]) && IsHexChar(s[4]) && IsHexChar(s[5])
  }

  /**
   * A JSON string literal's body up to its closing quote, unescaped, and what
   * follows the quote; `None` for a malformed literal.
   */
  function ReadString(s: string): (r: Option<(string, string)>)
    ensures r.Some? ==> |r.value.1| < |s|
    decreases |s|
  {
    if s == [] then None
    else if s[0] == '"' then Some(([], s[1..]))
    else if HasUnicodeEscape(s) then
      var v := 4096 * HexValue(s[2]) + 256 * HexValue(s[3]) + 16 * HexValue(s[4]) + HexValue(s[5]);
      if 0xD800 <= v < 0xE000 then None else ConsChar(v as char, ReadString(s[6..]))
    else if s[0] == '\\' then
      if |s| >= 2 && ShortEscape(s[1]).Some? then ConsChar(ShortEscape(s[1]).value, ReadString(s[2..])) else None
    else if s[0] as int < 0x20 then None
    else ConsChar(s[0], ReadString(s[1..]))
  }

  function ConsEvent(e: Event, o: Option<seq<Event>>): Option<seq<Event>> {
    if o.None? then None else Some([e] + o.value)
  }

  /** The first whole frame of `s`, as an event, and the text after it; `None` when `s` does not start with one. */
  function ReadFrame(s: string): (r: Option<(Event, string)>)
    ensures r.Some? ==> |r.value.1| < |s|
  {
    if DONE_FRAME <= s then Some((Done, s[|DONE_FRAME|..]))
    else if TEXT_OPEN <= s then
      match ReadString(s[|TEXT_OPEN|..])
      case None => None
      case Some((t, rest)) =>
        if FRAME_CLOSE <= rest then Some((TextEvent(t), rest[|FRAME_CLOSE|..])) else None
    else None
  }

  /** The events a client reads from the stream's text; `None` when it is not a sequence of whole frames. */
  function ReadEvents(s: string): Option<seq<Event>>
    decreases |s|
  {
    if s == [] then Some([])
    else match ReadFrame(s)
      case None => None
      case Some((e, rest)) => ConsEvent(e, ReadEvents(rest))
  }

  lemma ReadEscapedChar(c: char, tail: string)
    ensures ReadString(EscapeChar(c) + tail) == ConsChar(c, ReadString(tail))
  {
    var s := EscapeChar(c) + tail;
    if c as int < 0x20 && c as int !in {0x08, 0x09, 0x0A, 0x0C, 0x0D} {
      var hi, lo := c as int / 16, c as int % 16;
      HexRoundTrip(hi);
      HexRoundTrip(lo);
      assert HasUnicodeEscape(s);
      assert 4096 * HexValue(s[2]) + 256 * HexValue(s[3]) + 16 * HexValue(s[4]) + HexValue(s[5]) == c as int;
      assert s[6..] == tail;
    } else if c == '"' || c == '\\' || c as int < 0x20 {
      assert s[2..] == tail;
    } else {
      assert s[1..] == tail;
    }
  }

  /** Unescaping undoes escaping: the literal's body reads back as the original text, and the rest is left over. */
  lemma {:induction false} ReadEscaped(t: string, rest: string)
    ensures ReadString(Escape(t) + "\"" + rest) == Some((t, rest))
    decreases |t|
  {
    if t == [] {
      assert Escape(t) + "\"" + rest == ['"'] + rest;
    } else {
      assert Escape(t) + "\"" + rest == EscapeChar(t[0]) + (Escape(t[1..]) + "\"" + rest);
      ReadEscapedChar(t[0], Escape(t[1..]) + "\"" + rest);
      ReadEscaped(t[1..], rest);
      assert [t[0]] + t[1..] == t;
    }
  }

  lemma ReadTextFrame(t: string, rest: string)
    ensures ReadFrame(TextFrame(t) + rest) == Some((TextEvent(t), rest))
  {
    var s := TextFrame(t) + rest;
    assert s[6] == '{' && DONE_FRAME[6] == '[';
    assert s[..|TEXT_OPEN|] == TEXT_OPEN;
    assert s[|TEXT_OPEN|..] == Escape(t) + "\"" + (FRAME_CLOSE + rest);
    ReadEscaped(t, FRAME_CLOSE + rest);
    assert (FRAME_CLOSE + rest)[|FRAME_CLOSE|..] == rest;
  }

  lemma ReadDoneFrame(rest: string)
    ensures ReadFrame(DONE_FRAME + rest) == Some((Done, rest))
  {
    assert (DONE_FRAME + rest)[|DONE_FRAME|..] == rest;
  }

  function TextEvents(texts: seq<string>): (events: seq<Event>)
    ensures |events| == |texts|
  {
    seq(|texts|, i requires 0 <= i < |texts| => TextEvent(texts[i]))
  }

  /**
   * A client reading what `Relay` sent gets every relayed text back, in order,
   * followed by the terminator exactly when the model stream did not fail.
   */
  lemma {:induction false} RelayReadsBack(texts: seq<string>, done: bool)
    ensures ReadEvents(Concat(Framed(texts) + (if done then [DONE_FRAME] else [])))
         == Some(TextEvents(texts) + (if done then [Done] else []))
    decreases |texts|
  {
    var tail: seq<string> := if done then [DONE_FRAME] else [];
    var last: seq<Event> := if done then [Done] else [];
    if texts == [] {
      ReadTerminator(done);
      assert Framed(texts) + tail == tail;
      assert TextEvents(texts) + last == last;
    } else {
      RelayReadsBack(texts[1..], done);
      ReadFirstText(texts, tail, last);
    }
  }

  /** One more text frame in front adds its text event in front. */
  lemma ReadFirstText(texts: seq<string>, tail: seq<string>, last: seq<Event>)
    requires texts != []
    requires ReadEvents(Concat(Framed(texts[1..]) + tail)) == Some(TextEvents(texts[1..]) + last)
    ensures ReadEvents(Concat(Framed(texts) + tail)) == Some(TextEvents(texts) + last)
  {
    var rest := Concat(Framed(texts[1..]) + tail);
    FramedCons(texts, tail);
    ReadTextFrame(texts[0], rest);
    ReadEventsStep(TextFrame(texts[0]) + rest, TextEvent(texts[0]), rest, TextEvents(texts[1..]) + last);
    TextEventsCons(texts, last);
  }

  lemma TextEventsCons(texts: seq<string>, last: seq<Event>)
    requires texts != []
    ensures TextEvents(texts) + last == [TextEvent(texts[0])] + (TextEvents(texts[1..]) + last)
  {
    assert TextEvents(texts) == [TextEvent(texts[0])] + TextEvents(texts[1..]);
  }

  /** Reading a stream whose first frame reads as `e` gives `e` and then the events of the rest. */
  lemma ReadEventsStep(s: string, e: Event, rest: string, events: seq<Event>)
    requires ReadFrame(s) == Some((e, rest)) && ReadEvents(rest) == Some(events)
    ensures ReadEvents(s) == Some([e] + events)
  {
  }

  lemma FramedCons(texts: seq<string>, tail: seq<string>)
    requires texts != []
    ensures Concat(Framed(texts) + tail) == TextFrame(texts[0]) + Concat(Framed(texts[1..]) + tail)
  {
    var frames := Framed(texts) + tail;
    assert frames[1..] == Framed(texts[1..]) + tail;
  }

  /** The terminator alone reads as the one `Done` event; nothing reads as no events. */
  lemma ReadTerminator(done: bool)
    ensures ReadEvents(Concat(if done then [DONE_FRAME] else [])) == Some(if done then [Done] else [])
  {
    var none: seq<Event> := [];
    assert ReadEvents([]) == Some(none);
    if done {
      assert [DONE_FRAME][1..] == [];
      assert Concat([DONE_FRAME]) == DONE_FRAME + [];
      ReadDoneFrame([]);
      ReadEventsStep(DONE_FRAME + [], Done, [], none);
      assert [Done] + none == [Done];
    }
  }

  // ----- the handler -----

  const MODEL: string := "claude-sonnet-4-5-20250929"
  const MAX_TOKENS: nat := 1024

  /** The call `anthropic.messages.stream(…)`: the episode title feeds the system prompt. */
  datatype ModelRequest = ModelRequest(model: string, maxTokens: nat, episodeTitle: JsonValue, messages: seq<ApiMessage>)

  /** A JSON error answer, or the event stream with the request behind it and what was sent on it. */
  datatype ChatResponse =
    | ErrorJson(status: nat, error: string)
    | EventStream(request: ModelRequest, sent: seq<string>, closed: bool, errored: bool)

  /** `!message || typeof message !== 'string'` is false: a non-empty string. */
  predicate ValidMessage(message: JsonValue) {
    message.Str? && message.s != ""
  }

  /**
   * `POST`: a body that does not parse, or is `null`, and a throwing history
   * item or model call end in the catch-all 500; a missing, empty or
   * non-string message is a 400 and reaches no model; otherwise the answer is
   * the event stream.
   */
  method Post(body: Option<JsonValue>, chunks: seq<Chunk>, callFails: bool, streamFails: bool) returns (r: ChatResponse)
    ensures body.None? || Member(body.value, "message").None? ==> r == ErrorJson(500, "Failed to process chat request")
    ensures body.Some? && Member(body.value, "message").Some? && !ValidMessage(Member(body.value, "message").value)
            ==> r == ErrorJson(400, "Message is required")
    ensures r.ErrorJson? ==> r.status == 400 || r == ErrorJson(500, "Failed to process chat request")
    ensures r.EventStream? <==>
              body.Some? && Member(body.value, "message").Some? && ValidMessage(Member(body.value, "message").value) && !callFails
              && AllMappable(HistoryItems(Member(body.value, "conversationHistory").value))
    ensures r.EventStream? ==>
              var history := HistoryItems(Member(body.value, "conversationHistory").value);
              && r.request.model == MODEL && r.request.maxTokens == MAX_TOKENS
              && r.request.episodeTitle == Member(body.value, "episodeTitle").value
              && |r.request.messages| == |history| + 1
              && (forall i :: 0 <= i < |history| ==> r.request.messages[i] == HistoryMessage(history[i]))
              && r.request.messages[|history|] == ApiMessage(User, Member(body.value, "message").value)
              && r.sent == Framed(DeltaTexts(chunks)) + (if streamFails then [] else [DONE_FRAME])
              && r.closed == !streamFails && r.errored == streamFails
  {
    var failure := ErrorJson(500, "Failed to process chat request");
    if body.None? || Member(body.value, "message").None? {
      return failure;
    }
    var message := Member(body.value, "message").value;
    if !ValidMessage(message) {
      return ErrorJson(400, "Message is required");
    }
    var built := BuildMessages(Member(body.value, "conversationHistory").value, message.s);
    if built.Threw? || callFails {
      return failure;
    }
    var request := ModelRequest(MODEL, MAX_TOKENS, Member(body.value, "episodeTitle").value, built.value);
    var sent, closed, errored := Relay(chunks, streamFails);
    return EventStream(request, sent, closed, errored);
  }
}
