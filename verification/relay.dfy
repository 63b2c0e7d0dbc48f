/** What both handlers share: the inbound message as Discordeno hands it
    over, the outcomes of the awaited calls (the only way the platform and
    the completion provider reach the model), the effects a handler
    attempts, and the completion request it posts. */
module Relay {

  import opened Wrappers
  import opened JsText
  import opened Mention

  /** A JavaScript integer as strict equality `===` sees it: a BigInt and a
      Number with the same value are different values. */
  datatype JsInteger = BigInt(value: int) | Number(value: int)

  /** `channel.type === 1n`: a direct-message channel. */
  predicate IsDM(channelType: JsInteger) {
    channelType == BigInt(1)
  }

  /** The fields of the inbound message the handlers read. `mentions` is
      the list of mentioned user ids (`None` when the property is absent);
      `referencedAuthorId` is the author of the message replied to (`None`
      when there is no referenced message). */
  datatype Message = Message(
    isBot: bool,
    authorId: nat,
    channelId: nat,
    content: string,
    mentions: Option<seq<nat>>,
    referencedAuthorId: Option<nat>)

  /** The provider credentials read from the environment at start-up. */
  datatype Config = Config(apiKey: string, shapeUsername: string)

  /** `data.choices?.[0]?.message?.content`: missing somewhere along the
      path, JSON `null`, or a string. */
  datatype ReplyField = Absent | Null | Text(text: string)

  /** How each awaited call of one invocation ends.
      `channelType`: `getChannel` resolves with a channel of this type, or
      rejects (`None`). `typingOk`: whether `sendTyping` resolves.
      `response`: the reply field of the parsed body, or `None` when `fetch`
      or `response.json()` throws. `replySent`: whether sending the reply
      resolves. */
  datatype Outcomes = Outcomes(
    channelType: Option<JsInteger>,
    typingOk: bool,
    response: Option<ReplyField>,
    replySent: bool)

  datatype ChatMessage = ChatMessage(role: string, content: string)

  /** The POST to the completion provider: its URL, the four headers and
      the two body fields. */
  datatype Request = Request(
    url: string,
    authorization: string,
    contentType: string,
    userIdHeader: string,
    channelIdHeader: string,
    model: string,
    messages: seq<ChatMessage>)

  /** A call a handler makes on the platform or the provider, whether or
      not it then succeeds. */
  datatype Effect =
    | GetChannel(channelId: nat)
    | SendTyping(channelId: nat)
    | Post(request: Request)
    | SendMessage(channelId: nat, content: string)

  const CompletionsUrl := "https://api.shapes.inc/v1/chat/completions"

  /** The request both handlers post for `content` on behalf of message `m`:
      a JSON POST to the completion endpoint whose one message is the
      user's content and whose id headers are plain decimal numbers. */
  function BuildRequest(config: Config, m: Message, content: string): (r: Request)
    ensures r.url == CompletionsUrl && r.contentType == "application/json"
    ensures |r.messages| == 1 && r.messages[0].role == "user" && r.messages[0].content == content
    ensures AllDigits(r.userIdHeader) && AllDigits(r.channelIdHeader)
  {
    Request(
      CompletionsUrl,
      "Bearer " + config.apiKey,
      "application/json",
      DecimalString(m.authorId),
      DecimalString(m.channelId),
      "shapesinc/" + config.shapeUsername,
      [ChatMessage("user", content)])
  }

  /** The request names the configured shape, carries the prepared content
      as its one user message, and its identity headers read back as the
      author's and the channel's ids. */
  lemma RequestShape(config: Config, m: Message, content: string)
    ensures var r := BuildRequest(config, m, content);
      r.model == "shapesinc/" + config.shapeUsername &&
      r.messages == [ChatMessage("user", content)] &&
      r.authorization == "Bearer " + config.apiKey &&
      AllDigits(r.userIdHeader) && ParseDecimal(r.userIdHeader) == m.authorId &&
      AllDigits(r.channelIdHeader) && ParseDecimal(r.channelIdHeader) == m.channelId
  {
    ParseDecimalString(m.authorId);
    ParseDecimalString(m.channelId);
  }

  /** The text forwarded to the provider: with the leftmost mention token
      removed and trimmed when the bot is mentioned, verbatim otherwise. */
  function Forwarded(content: string, isMentioned: bool): (r: string)
    ensures |r| <= |content|
    ensures !isMentioned ==> r == content
  {
    if isMentioned then StripMention(content) else content
  }
}
