// The serverless chat proxy (api/ask-ai-agent.ts): a chain of early-return
// checks, message sanitising, and the mapping of the upstream completion
// service's outcome to an HTTP status and JSON body. The environment's API key
// is a presence flag and the upstream call is an abstract outcome; the handler
// itself is a pure function of these and the request.

module ChatProxy {
  import opened Maybe
  import opened Text
  import Seqs

  /** `msg.content`: a string, or anything else (absent, a number, an object). */
  datatype Content = StringContent(text: string) | NonString

  /**
   * One element of `body.messages`: a falsy entry, or an object whose `role` is given as a
   * string ("" stands for a falsy or absent role).
   */
  datatype RawMessage = NullEntry | Entry(role: string, content: Content)

  /** `body.messages`: an array, or anything that is not one. */
  datatype MessagesField = NotArray | ArrayOf(items: seq<RawMessage>)

  datatype Body = Body(messages: MessagesField)

  /** The request; an absent `body` stands for any falsy body. */
  datatype Request = Request(httpMethod: string, body: Option<Body>)

  /** A message as forwarded upstream. */
  datatype ChatMessage = ChatMessage(role: string, content: string)

  /**
   * What the completion service did: the call (or reading its JSON) threw, it answered with a
   * status that is not ok, or it answered ok with the first choice's content, if any.
   */
  datatype Upstream = Threw | Failed(status: int) | Answered(content: Option<string>)

  datatype Payload = ErrorBody(error: string) | ReplyBody(reply: string)

  datatype Response = Response(status: int, payload: Payload)

  const MethodNotAllowedText := "Method not allowed"
  const MissingKeyText := "AI service is not configured." + " Please set the AI_AGENT_API_KEY" + " environment variable."
  const MessagesRequiredText := "Invalid request: messages array is required"
  const NoValidMessagesText := "Invalid request: no valid messages provided"
  const UpstreamFailedText := "Failed to get response from AI service"
  const NoReplyText := "Sorry, I did not receive a valid response."
  const UnexpectedText := "An unexpected error occurred." + " Please try again later."

  /** The fixed error texts: nothing from the request or the upstream service reaches the client. */
  predicate IsFixedErrorText(s: string) {
    s in {MethodNotAllowedText, MissingKeyText, MessagesRequiredText, NoValidMessagesText,
          UpstreamFailedText, UnexpectedText}
  }

  // ---------------------------------------------------------------------------
  // Sanitising

  /** `msg && typeof msg.content === 'string' && msg.content.trim().length > 0` */
  predicate IsValid(m: RawMessage) {
    m.Entry? && m.content.StringContent? && !IsBlank(m.content.text)
  }

  /** `msg.role || 'user'` */
  function DefaultRole(role: string): (r: string)
    ensures r != ""
    ensures role != "" ==> r == role
  {
    if role == "" then "user" else role
  }

  /**
   * The filter and the map of the sanitising pipeline, fused: the valid messages in order,
   * each with its role defaulted and its content trimmed.
   */
  function Sanitize(items: seq<RawMessage>): (r: seq<ChatMessage>)
    ensures |r| <= |items|
    ensures forall i :: 0 <= i < |r| ==> r[i].role != "" && r[i].content != ""
  {
    if items == [] then []
    else
      var rest := Sanitize(items[1..]);
      if IsValid(items[0]) then
        var m := ChatMessage(DefaultRole(items[0].role), Trim(items[0].content.text));
        assert m.content != "";
        [m] + rest
      else rest
  }

  /** Sanitising works message by message, so it keeps the original order. */
  lemma {:induction false} SanitizeAppend(a: seq<RawMessage>, b: seq<RawMessage>)
    ensures Sanitize(a + b) == Sanitize(a) + Sanitize(b)
  {
    if a == [] {
      assert a + b == b;
    } else {
      var ab := a + b;
      assert ab != [] && ab[0] == a[0];
      assert ab[1..] == a[1..] + b;
      SanitizeAppend(a[1..], b);
    }
  }

  /** A forwarded message: its content is non-blank and already trimmed. */
  predicate IsClean(m: ChatMessage) {
    Trim(m.content) == m.content && !IsBlank(m.content)
  }

  /** A trimmed non-blank text is clean. */
  lemma TrimmedIsClean(role: string, s: string)
    requires !IsBlank(s)
    ensures IsClean(ChatMessage(role, Trim(s)))
  {
    TrimIdempotent(s);
  }

  /** Every forwarded message is clean. */
  lemma {:induction false} SanitizedAreClean(items: seq<RawMessage>)
    ensures forall i :: 0 <= i < |Sanitize(items)| ==> IsClean(Sanitize(items)[i])
  {
    if items != [] {
      var rest := Sanitize(items[1..]);
      SanitizedAreClean(items[1..]);
      if IsValid(items[0]) {
        var m := ChatMessage(DefaultRole(items[0].role), Trim(items[0].content.text));
        TrimmedIsClean(m.role, items[0].content.text);
        var r := Sanitize(items);
        assert r == [m] + rest;
        forall i | 0 <= i < |r| ensures IsClean(r[i]) {
          if i > 0 {
            assert r[i] == rest[i - 1];
          }
        }
      }
    }
  }

  /** Nothing survives exactly when no message is valid. */
  lemma {:induction false} SanitizeEmptyIffNoneValid(items: seq<RawMessage>)
    ensures Sanitize(items) == [] <==> forall i :: 0 <= i < |items| ==> !IsValid(items[i])
  {
    if items != [] {
      SanitizeEmptyIffNoneValid(items[1..]);
      assert forall i :: 1 <= i < |items| ==> items[i] == items[1..][i - 1];
    }
  }

  /** What one entry becomes when it is kept: its role defaulted and its text trimmed. */
  function Kept(m: RawMessage): (r: ChatMessage)
    ensures IsValid(m) ==> r.role == DefaultRole(m.role) && r.content == Trim(m.content.text)
  {
    match m
    case Entry(role, StringContent(text)) => ChatMessage(DefaultRole(role), Trim(text))
    case _ => ChatMessage("user", "")
  }

  /** The fused pipeline is the filter on validity followed by the map to kept messages. */
  lemma {:induction false} SanitizeIsFilterMap(items: seq<RawMessage>)
    ensures Sanitize(items) == Seqs.Map(Kept, Seqs.Filter(IsValid, items))
  {
    if items != [] {
      SanitizeIsFilterMap(items[1..]);
      var rest := Seqs.Filter(IsValid, items[1..]);
      if IsValid(items[0]) {
        Seqs.MapCons(Kept, items[0], rest);
      }
    }
  }

  /** A list of valid messages loses none of them, and each one is kept in place. */
  lemma SanitizeKeepsValid(items: seq<RawMessage>)
    requires forall i :: 0 <= i < |items| ==> IsValid(items[i])
    ensures |Sanitize(items)| == |items|
    ensures forall i :: 0 <= i < |items| ==> Sanitize(items)[i] == Kept(items[i])
  {
    SanitizeIsFilterMap(items);
    Seqs.FilterKeepsAll(IsValid, items);
  }

  // ---------------------------------------------------------------------------
  // The handler

  /** The messages sent upstream, when validation lets the request get that far. */
  function Forwarded(req: Request, keyPresent: bool): (r: Option<seq<ChatMessage>>)
    ensures r.Some? ==> r.value != []
  {
    if req.httpMethod != "POST" || !keyPresent then None
    else if req.body.None? || req.body.value.messages.NotArray? || |req.body.value.messages.items| == 0 then None
    else
      var valid := Sanitize(req.body.value.messages.items);
      if valid == [] then None else Some(valid)
  }

  /** `handler(req, res)`: the status and JSON body it responds with. */
  function Handler(req: Request, keyPresent: bool, upstream: Upstream): Response {
    if req.httpMethod != "POST" then Response(405, ErrorBody(MethodNotAllowedText))
    else if !keyPresent then Response(500, ErrorBody(MissingKeyText))
    else if req.body.None? || req.body.value.messages.NotArray? || |req.body.value.messages.items| == 0 then
      Response(400, ErrorBody(MessagesRequiredText))
    else if Sanitize(req.body.value.messages.items) == [] then
      Response(400, ErrorBody(NoValidMessagesText))
    else
      match upstream
      case Threw => Response(500, ErrorBody(UnexpectedText))
      case Failed(status) => Response(status, ErrorBody(UpstreamFailedText))
      case Answered(content) =>
        Response(200, ReplyBody(if content.Some? && content.value != "" then content.value else NoReplyText))
  }

  /** The method is checked before anything else. */
  lemma MethodCheckedFirst(req: Request, keyPresent: bool, upstream: Upstream)
    requires req.httpMethod != "POST"
    ensures Handler(req, keyPresent, upstream) == Response(405, ErrorBody(MethodNotAllowedText))
    ensures Forwarded(req, keyPresent) == None
  {
  }

  /** A missing key is reported before the body is looked at. */
  lemma KeyCheckedBeforeBody(req: Request, upstream: Upstream)
    requires req.httpMethod == "POST"
    ensures Handler(req, false, upstream) == Response(500, ErrorBody(MissingKeyText))
  {
  }

  /** A missing body, a `messages` that is not an array, or an empty array is a 400. */
  lemma MalformedBodyRejected(req: Request, upstream: Upstream)
    requires req.httpMethod == "POST"
    requires req.body.None? || req.body.value.messages.NotArray? || req.body.value.messages.items == []
    ensures Handler(req, true, upstream) == Response(400, ErrorBody(MessagesRequiredText))
  {
  }

  /** A non-empty array with no valid message is a 400 of its own. */
  lemma NoValidMessagesRejected(items: seq<RawMessage>, upstream: Upstream)
    requires items != [] && forall i :: 0 <= i < |items| ==> !IsValid(items[i])
    ensures Handler(Request("POST", Some(Body(ArrayOf(items)))), true, upstream)
         == Response(400, ErrorBody(NoValidMessagesText))
  {
    SanitizeEmptyIffNoneValid(items);
  }

  /**
   * The upstream service is consulted exactly when validation passes: otherwise the response
   * does not depend on it.
   */
  lemma UpstreamOnlyAfterChecks(req: Request, keyPresent: bool, u1: Upstream, u2: Upstream)
    requires Forwarded(req, keyPresent) == None
    ensures Handler(req, keyPresent, u1) == Handler(req, keyPresent, u2)
    ensures Handler(req, keyPresent, u1).status in {400, 405, 500}
  {
  }

  /**
   * Past validation: a non-ok upstream status is passed through with a fixed text, an ok answer
   * is a 200 whose reply is the content or the fallback, and anything thrown is a 500.
   */
  lemma UpstreamOutcomeMapping(req: Request, upstream: Upstream)
    requires Forwarded(req, true).Some?
    ensures var r := Handler(req, true, upstream);
      && (upstream.Failed? ==> r == Response(upstream.status, ErrorBody(UpstreamFailedText)))
      && (upstream.Threw? ==> r == Response(500, ErrorBody(UnexpectedText)))
      && (upstream.Answered? ==> r.status == 200 && r.payload.ReplyBody? && r.payload.reply != "")
      && (upstream.Answered? && upstream.content.Some? && upstream.content.value != "" ==>
            r.payload == ReplyBody(upstream.content.value))
      && (upstream.Answered? && (upstream.content.None? || upstream.content.value == "") ==>
            r.payload == ReplyBody(NoReplyText))
  {
  }

  /** Every error body carries one of the fixed texts; none echoes the request or the upstream error. */
  lemma ErrorsAreFixedTexts(req: Request, keyPresent: bool, upstream: Upstream)
    ensures var r := Handler(req, keyPresent, upstream);
      r.payload.ErrorBody? ==> IsFixedErrorText(r.payload.error)
    ensures Handler(req, keyPresent, upstream).payload.ReplyBody? <==> Forwarded(req, keyPresent).Some? && upstream.Answered?
  {
  }

  /** The messages forwarded are exactly the sanitised ones, all trimmed and non-blank. */
  lemma ForwardedAreSanitized(items: seq<RawMessage>)
    requires exists i :: 0 <= i < |items| && IsValid(items[i])
    ensures var f := Forwarded(Request("POST", Some(Body(ArrayOf(items)))), true);
      && f == Some(Sanitize(items))
      && forall i :: 0 <= i < |f.value| ==> IsClean(f.value[i])
  {
    SanitizeEmptyIffNoneValid(items);
    SanitizedAreClean(items);
  }
}
