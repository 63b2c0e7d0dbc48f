/** The message handler of index.ts: the same gates and mention strip as
    index.js, but `message.mentions` is read without a guard, the reply
    fallback uses `??`, and the apology has one fixed wording. */
module IndexTs {

  import opened Wrappers
  import opened JsText
  import opened Mention
  import opened Relay

  /** Sent when the provider's reply field is missing or null. */
  const NoResponse := "No response received."

  /** Sent when the request block throws, in a DM or not. */
  const Apology := "Sorry, I had a hiccup trying to respond."

  /** `isDM || isMentioned || isReply` for the mention ids `ids`. Every DM
      qualifies; in a server channel, a message that replies to nobody
      qualifies exactly when it mentions the bot. */
  predicate Acts(botId: nat, ids: seq<nat>, m: Message, channelType: JsInteger): (b: bool)
    ensures IsDM(channelType) ==> b
    ensures m.referencedAuthorId == Some(botId) ==> b
    ensures !IsDM(channelType) && m.referencedAuthorId.None? ==> (b <==> botId in ids)
  {
    IsDM(channelType) || botId in ids || m.referencedAuthorId == Some(botId)
  }

  /** `data.choices?.[0]?.message?.content ?? NoResponse`: only a missing or
      null field gives the fallback; any string, the empty one included,
      is sent as it is. */
  function ReplyText(field: ReplyField): (r: string)
    ensures field.Text? ==> r == field.text
    ensures !field.Text? ==> r == NoResponse
    ensures r == "" <==> field == Text("")
  {
    if field.Text? then field.text else NoResponse
  }

  /** The messages sent after the request: the reply, then the apology if
      the request, the parse or the send threw. One message is sent, or
      two when the reply's send fails; all go to the message's channel, and
      after any failure the last one is the apology. */
  function Delivery(channelId: nat, o: Outcomes): (d: seq<Effect>)
    ensures |d| == (if o.response.Some? && !o.replySent then 2 else 1)
    ensures d[0].SendMessage? && d[0].channelId == channelId
    ensures d[|d| - 1].SendMessage? && d[|d| - 1].channelId == channelId
    ensures o.response.None? || !o.replySent ==> d[|d| - 1].content == Apology
    ensures o.response.Some? ==> d[0] == SendMessage(channelId, ReplyText(o.response.value))
  {
    match o.response
    case None => [SendMessage(channelId, Apology)]
    case Some(field) =>
      [SendMessage(channelId, ReplyText(field))] +
      (if o.replySent then [] else [SendMessage(channelId, Apology)])
  }

  /** Every call one invocation of the handler makes, in order. A rejected
      `getChannel`, and `mentions.some` on an absent mention list, throw
      outside the try blocks: they end the invocation. */
  function Trace(config: Config, botId: nat, m: Message, o: Outcomes): (t: seq<Effect>)
    ensures t == [] <==> m.isBot
    ensures t != [] ==> t[0] == GetChannel(m.channelId) && |t| <= 5
    ensures |t| > 1 ==> (m.mentions.Some? && |t| >= 4 && t[1] == SendTyping(m.channelId) && t[2].Post? &&
                         t[3].SendMessage? && t[|t| - 1].SendMessage? &&
                         t[2].request.messages == [ChatMessage("user", Forwarded(m.content, botId in m.mentions.value))])
  {
    if m.isBot then []
    else if o.channelType.None? || m.mentions.None? ||
            !Acts(botId, m.mentions.value, m, o.channelType.value) then
      [GetChannel(m.channelId)]
    else
      var content := Forwarded(m.content, botId in m.mentions.value);
      [GetChannel(m.channelId), SendTyping(m.channelId), Post(BuildRequest(config, m, content))] +
      Delivery(m.channelId, o)
  }

  /** The Discordeno bot object, as far as the handler uses it. */
  class Bot {
    const config: Config
    var id: nat

    /** `createBot` with `botId: BigInt("0")`: the id is 0 until the ready
        event. */
    constructor (config: Config)
      ensures this.config == config && id == 0
    {
      this.config := config;
      id := 0;
    }

    /** The ready event stores the logged-in user's id. */
    method Ready(userId: nat)
      modifies this
      ensures id == userId
    {
      id := userId;
    }

    /** One `messageCreate` invocation, step by step; returns the calls it
        made. */
    method MessageCreate(m: Message, o: Outcomes) returns (effects: seq<Effect>)
      ensures effects == Trace(config, id, m, o)
    {
      effects := [];
      if m.isBot {
        return;
      }
      effects := effects + [GetChannel(m.channelId)];
      if o.channelType.None? {
        return;
      }
      var isDM := IsDM(o.channelType.value);
      if m.mentions.None? {
        // `message.mentions.some` throws a TypeError
        return;
      }
      var isMentioned := id in m.mentions.value;
      var isReply := m.referencedAuthorId.Some? && m.referencedAuthorId.value == id;
      if isDM || isMentioned || isReply {
        assert Acts(id, m.mentions.value, m, o.channelType.value);
        var content := if isMentioned then StripMention(m.content) else m.content;
        effects := effects + [SendTyping(m.channelId)];
        if !o.typingOk {
          // `catch {}`: the failed typing indicator is ignored
        }
        effects := effects + [Post(BuildRequest(config, m, content))];
        assert effects == [GetChannel(m.channelId), SendTyping(m.channelId), Post(BuildRequest(config, m, content))];
        ghost var requested := effects;
        var failed := true;
        if o.response.Some? {
          var field := o.response.value;
          var reply := if field.Text? then field.text else NoResponse;
          effects := effects + [SendMessage(m.channelId, reply)];
          failed := !o.replySent;
        }
        if failed {
          effects := effects + [SendMessage(m.channelId, Apology)];
        }
        assert effects == requested + Delivery(m.channelId, o);
      }
    }
  }

  /** A bot-authored message produces no call at all. */
  lemma BotMessageIgnored(config: Config, botId: nat, m: Message, o: Outcomes)
    requires m.isBot
    ensures Trace(config, botId, m, o) == []
  {
  }

  /** A rejected channel lookup, or a message without a mention list, ends
      the invocation after the lookup: no typing, no request, no message. */
  lemma EarlyThrowIsSilent(config: Config, botId: nat, m: Message, o: Outcomes)
    requires !m.isBot && (o.channelType.None? || m.mentions.None?)
    ensures Trace(config, botId, m, o) == [GetChannel(m.channelId)]
  {
  }

  /** A user's message with a mention list goes on to the typing indicator
      and the request if and only if the channel is a DM, the bot is among
      the mentioned ids, or the referenced message is the bot's; otherwise
      only the channel lookup happens. */
  lemma ActsIff(config: Config, botId: nat, m: Message, o: Outcomes, ids: seq<nat>)
    requires !m.isBot && o.channelType.Some? && m.mentions == Some(ids)
    ensures var t := Trace(config, botId, m, o);
      var acts := IsDM(o.channelType.value) || botId in ids || m.referencedAuthorId == Some(botId);
      (|t| > 1 <==> acts) &&
      (!acts ==> t == [GetChannel(m.channelId)]) &&
      (acts ==> t[1] == SendTyping(m.channelId) && t[2].Post?)
  {
  }

  /** When the bot is mentioned, the request carries the content with its
      leftmost mention token removed, then trimmed; otherwise the content
      is forwarded verbatim. */
  lemma ForwardedContent(config: Config, botId: nat, m: Message, o: Outcomes, ids: seq<nat>)
    requires !m.isBot && o.channelType.Some? && m.mentions == Some(ids)
    requires Acts(botId, ids, m, o.channelType.value)
    ensures var t := Trace(config, botId, m, o);
      |t| > 2 && t[2].Post? && t[2].request.messages ==
        [ChatMessage("user", if botId in ids then StripMention(m.content) else m.content)]
  {
  }

  /** The typing indicator's outcome changes nothing: a failure is
      swallowed and the request still follows. */
  lemma TypingFailureIgnored(config: Config, botId: nat, m: Message, o: Outcomes)
    ensures Trace(config, botId, m, o) == Trace(config, botId, m, o.(typingOk := !o.typingOk))
  {
  }

  /** The request names the shape, holds one user message and is
      attributed to the message's author and channel. */
  lemma RequestAttributed(config: Config, botId: nat, m: Message, o: Outcomes, ids: seq<nat>)
    requires !m.isBot && o.channelType.Some? && m.mentions == Some(ids)
    requires Acts(botId, ids, m, o.channelType.value)
    ensures var t := Trace(config, botId, m, o);
      |t| > 2 && t[2].Post? &&
      t[2].request.model == "shapesinc/" + config.shapeUsername &&
      |t[2].request.messages| == 1 && t[2].request.messages[0].role == "user" &&
      ParseDecimal(t[2].request.userIdHeader) == m.authorId &&
      ParseDecimal(t[2].request.channelIdHeader) == m.channelId
  {
    RequestShape(config, m, Forwarded(m.content, botId in ids));
  }

  /** A request that succeeds ends with exactly one message: the provider's
      text whenever it is a string, the empty string included; the fallback
      only for a missing or null field. */
  lemma ReplySelection(config: Config, botId: nat, m: Message, o: Outcomes, ids: seq<nat>, field: ReplyField)
    requires !m.isBot && o.channelType.Some? && m.mentions == Some(ids)
    requires Acts(botId, ids, m, o.channelType.value)
    requires o.response == Some(field) && o.replySent
    ensures var t := Trace(config, botId, m, o);
      |t| == 4 && t[3] == SendMessage(m.channelId, if field.Text? then field.text else NoResponse)
  {
  }

  /** Whatever throws inside the request block, the invocation ends with the
      one fixed apology, whether the channel is a DM or not. When it is the
      reply's send that throws, the reply was attempted first. */
  lemma FailureApology(config: Config, botId: nat, m: Message, o: Outcomes, ids: seq<nat>)
    requires !m.isBot && o.channelType.Some? && m.mentions == Some(ids)
    requires Acts(botId, ids, m, o.channelType.value)
    requires o.response.None? || !o.replySent
    ensures var t := Trace(config, botId, m, o);
      |t| == (if o.response.None? then 4 else 5) &&
      t[|t| - 1] == SendMessage(m.channelId, Apology) &&
      (o.response.Some? ==> t[3] == SendMessage(m.channelId, ReplyText(o.response.value)))
  {
  }
}
