/**
 * The lesson chat panel: the message list and input box, and what one send
 * does to them.
 *
 * `fetch('/api/chat', …)` is the parameter `fetch`: a network failure, or a
 * response with its `ok` flag and body text. `JSON.parse` is not modelled:
 * a response carries the value it parses to as `parsed`, which is used only
 * when the text can begin a JSON text at all. The clock readings
 * `Date.now()` before and after the request are the parameters `now` and
 * `later`.
 */
module ChatPanel {
  import opened Wrappers
  import opened Json
  import opened Strings
  import opened ChatRoute

  datatype Sender = UserSender | Ai

  datatype Message = Message(id: string, sender: Sender, content: JsonValue, timestamp: int)

  const GREETING: string := "Hello! Welcome to Meridian Learning. How can I help you with this lesson today?"
  const DEFAULT_REPLY: string := "That's a great question! Let me help you understand this concept better."
  const FALLBACK_REPLY: string :=
    "That's a great question! Let me help you understand this concept better. Could you elaborate on what part you'd like me to explain?"

  datatype FetchResult =
    | NetworkError
    | HttpResponse(ok: bool, bodyText: string, parsed: Option<JsonValue>)

  /** The request body `JSON.stringify({ message: inputValue })`, as the route reads it. */
  function RequestBody(input: string): JsonValue {
    Object(map["message" := Str(input)])
  }

  // ----- reading the reply as written -----

  predicate IsJsonWhitespace(c: char) {
    c == ' ' || c == '\t' || c == '\n' || c == '\r'
  }

  /** The first character after JSON whitespace, if any. */
  function FirstSignificant(text: string): (r: Option<char>)
    ensures r.Some? ==> r.value in text
    decreases |text|
  {
    if text == [] then None
    else if IsJsonWhitespace(text[0]) then FirstSignificant(text[1..])
    else Some(text[0])
  }

  /** A JSON text starts with a value: an object, array, string, number or literal. */
  predicate CanStartJson(text: string) {
    var c := FirstSignificant(text);
    c.Some? && (c.value in "{[\"-0123456789tfn")
  }

  /** `await response.json()`: `None` when it throws. */
  function ResponseJson(ok: bool, bodyText: string, parsed: Option<JsonValue>): (r: Option<JsonValue>)
    ensures !CanStartJson(bodyText) ==> r.None?
  {
    if CanStartJson(bodyText) then parsed else None
  }

  /**
   * The AI message's content, as written: `data.reply`, or the default text
   * when it is falsy, after an ok response that parses as JSON; the fallback
   * text after a network error, a status that is not ok, a body that does not
   * parse, or a `null` body (reading `.reply` of it throws).
   */
  function JsonReply(fetch: FetchResult): (r: JsonValue)
    ensures Truthy(r)
    ensures r == Str(FALLBACK_REPLY) <==>
              fetch.NetworkError? || !fetch.ok || ResponseJson(fetch.ok, fetch.bodyText, fetch.parsed).None?
              || Member(ResponseJson(fetch.ok, fetch.bodyText, fetch.parsed).value, "reply").None?
              || Member(ResponseJson(fetch.ok, fetch.bodyText, fetch.parsed).value, "reply") == Some(Str(FALLBACK_REPLY))
  {
    if fetch.NetworkError? || !fetch.ok then Str(FALLBACK_REPLY)
    else
      match ResponseJson(fetch.ok, fetch.bodyText, fetch.parsed)
      case None => Str(FALLBACK_REPLY)
      case Some(data) =>
        match Member(data, "reply")
        case None => Str(FALLBACK_REPLY)
        case Some(reply) => if Truthy(reply) then reply else Str(DEFAULT_REPLY)
  }

  /** Every frame the chat route sends begins with `data: `. */
  lemma {:induction false} StreamStartsWithData(frames: seq<string>)
    requires forall i :: 0 <= i < |frames| ==> "data: " <= frames[i]
    ensures Concat(frames) == [] || Concat(frames)[0] == 'd'
    decreases |frames|
  {
    if frames != [] {
      assert frames[0][0] == "data: "[0];
      assert Concat(frames) == frames[0] + Concat(frames[1..]);
    }
  }

  /**
   * The route answers with an event stream, never a JSON body, so the panel
   * as written shows the fallback text after every successful exchange,
   * whatever the model said.
   */
  lemma PanelDropsStreamedReply(texts: seq<string>, done: bool, parsed: Option<JsonValue>)
    ensures JsonReply(HttpResponse(true, Concat(Framed(texts) + (if done then [DONE_FRAME] else [])), parsed))
         == Str(FALLBACK_REPLY)
  {
    var body := Concat(Framed(texts) + (if done then [DONE_FRAME] else []));
    FramesStartWithData(texts, done);
    StreamStartsWithData(Framed(texts) + (if done then [DONE_FRAME] else []));
    NotJson(body);
  }

  lemma FramesStartWithData(texts: seq<string>, done: bool)
    ensures var frames := Framed(texts) + (if done then [DONE_FRAME] else []);
            forall i :: 0 <= i < |frames| ==> "data: " <= frames[i]
  {
    var frames := Framed(texts) + (if done then [DONE_FRAME] else []);
    forall i | 0 <= i < |frames| ensures "data: " <= frames[i] {
      if i < |texts| {
        TextFrameStartsWithData(texts[i]);
      }
    }
  }

  lemma TextFrameStartsWithData(t: string)
    ensures "data: " <= TextFrame(t)
  {
    assert TextFrame(t) == TEXT_OPEN + (Escape(t) + "\"" + FRAME_CLOSE);
  }

  /** A body that is empty or starts with `d` does not parse. */
  lemma NotJson(body: string)
    requires body == [] || body[0] == 'd'
    ensures !CanStartJson(body)
  {
    if body != [] {
      FirstSignificantIsFirst(body);
    }
  }

  lemma FirstSignificantIsFirst(text: string)
    requires text != [] && !IsJsonWhitespace(text[0])
    ensures FirstSignificant(text) == Some(text[0])
  {
  }

  // ----- reading the reply from the stream -----

  /** The text of a stream's events up to its terminator; `None` when the terminator never comes. */
  function StreamText(events: seq<Event>): (r: Option<string>)
    decreases |events|
  {
    if events == [] then None
    else match events[0]
      case Done => Some([])
      case TextEvent(t) =>
        var rest := StreamText(events[1..]);
        if rest.None? then None else Some(t + rest.value)
  }

  /**
   * The AI message's content read from the event stream: the streamed texts
   * joined, or the default text when they are empty; the fallback text when
   * the request fails or the stream is cut off before its terminator.
   */
  function StreamReply(fetch: FetchResult): (r: JsonValue)
    ensures Truthy(r)
  {
    if fetch.NetworkError? || !fetch.ok then Str(FALLBACK_REPLY)
    else
      match ReadEvents(fetch.bodyText)
      case None => Str(FALLBACK_REPLY)
      case Some(events) =>
        match StreamText(events)
        case None => Str(FALLBACK_REPLY)
        case Some(text) => if text != [] then Str(text) else Str(DEFAULT_REPLY)
  }

  /**
   * Reading the route's stream shows exactly the text the model streamed,
   * joined in order, when the stream completed; a stream cut off by a model
   * failure shows the fallback text.
   */
  lemma StreamedReplyShown(texts: seq<string>, done: bool, parsed: Option<JsonValue>)
    ensures var body := Concat(Framed(texts) + (if done then [DONE_FRAME] else []));
            StreamReply(HttpResponse(true, body, parsed))
              == if !done then Str(FALLBACK_REPLY)
                 else if Concat(texts) != [] then Str(Concat(texts))
                 else Str(DEFAULT_REPLY)
  {
    RelayReadsBack(texts, done);
    StreamTextOfTexts(texts, done);
  }

  lemma {:induction false} StreamTextOfTexts(texts: seq<string>, done: bool)
    ensures StreamText(TextEvents(texts) + (if done then [Done] else [])) == if done then Some(Concat(texts)) else None
    decreases |texts|
  {
    var last: seq<Event> := if done then [Done] else [];
    if texts == [] {
      assert TextEvents(texts) + last == last;
    } else {
      StreamTextOfTexts(texts[1..], done);
      TextEventsCons(texts, last);
      assert ([TextEvent(texts[0])] + (TextEvents(texts[1..]) + last))[1..] == TextEvents(texts[1..]) + last;
    }
  }

  // ----- the panel -----

  /** The panel's state: the message list and the input box. */
  class Panel {
    var messages: seq<Message>
    var inputValue: string

    /** The first render: the greeting alone, and an empty input. */
    constructor (now: int)
      ensures messages == [Message("1", Ai, Str(GREETING), now)] && inputValue == ""
    {
      messages := [Message("1", Ai, Str(GREETING), now)];
      inputValue := "";
    }

    /** The input's `onChange`. */
    method Type(text: string)
      modifies this
      ensures inputValue == text && messages == old(messages)
    {
      inputValue := text;
    }

    /**
     * `handleSendMessage`: a blank input changes nothing and sends nothing;
     * otherwise the input, untrimmed, is appended as the user's message and
     * sent, the input is cleared, and one AI message follows with the reply.
     */
    method SendMessage(now: nat, later: nat, fetch: FetchResult) returns (request: Option<JsonValue>)
      modifies this
      ensures IsBlank(old(inputValue)) ==> request.None? && messages == old(messages) && inputValue == old(inputValue)
      ensures !IsBlank(old(inputValue)) ==>
                && request == Some(RequestBody(old(inputValue)))
                && inputValue == ""
                && messages == old(messages) + [Message(NatToString(now), UserSender, Str(old(inputValue)), now)]
                                             + [Message(NatToString(later + 1), Ai, JsonReply(fetch), later)]
    {
      if IsBlank(inputValue) {
        return None;
      }
      var input := inputValue;
      messages := messages + [Message(NatToString(now), UserSender, Str(input), now)];
      inputValue := "";
      request := Some(RequestBody(input));
      messages := messages + [Message(NatToString(later + 1), Ai, JsonReply(fetch), later)];
    }

    /** `handleSendMessage` with the reply read from the event stream the route sends. */
    method SendMessageStreamed(now: nat, later: nat, fetch: FetchResult) returns (request: Option<JsonValue>)
      modifies this
      ensures IsBlank(old(inputValue)) ==> request.None? && messages == old(messages) && inputValue == old(inputValue)
      ensures !IsBlank(old(inputValue)) ==>
                && request == Some(RequestBody(old(inputValue)))
                && inputValue == ""
                && messages == old(messages) + [Message(NatToString(now), UserSender, Str(old(inputValue)), now)]
                                             + [Message(NatToString(later + 1), Ai, StreamReply(fetch), later)]
    {
      if IsBlank(inputValue) {
        return None;
      }
      var input := inputValue;
      messages := messages + [Message(NatToString(now), UserSender, Str(input), now)];
      inputValue := "";
      request := Some(RequestBody(input));
      messages := messages + [Message(NatToString(later + 1), Ai, StreamReply(fetch), later)];
    }
  }

  /**
   * What the panel sends always passes the route's checks: a non-empty
   * string message and no history, so the route streams unless the model
   * call fails.
   */
  lemma RequestAccepted(input: string)
    requires !IsBlank(input)
    ensures var body := RequestBody(input);
            && Member(body, "message").Some? && ValidMessage(Member(body, "message").value)
            && Member(body, "conversationHistory") == Some(Undefined)
            && AllMappable(HistoryItems(Member(body, "conversationHistory").value))
  {
    BlankIffAllWhitespace(input);
  }
}
