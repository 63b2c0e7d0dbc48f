/** The message handler of index.js: the bot-author gate, the
    DM/mention/reply gate, the mention strip, the completion request, the
    `||` reply fallback and the DM-dependent apology. */
module IndexJs {

  import opened Wrappers
  import opened JsText
  import opened Mention
  import opened Relay

  /** Sent when the provider's reply field is missing, null or empty. */
  const Fallback := "\U{1F914} I couldn't think of a reply."

  /** The apology sent when the request block throws: a sentence that can
      never be mistaken for the fallback reply. */
  function Apology(isDM: bool): (r: string)
    ensures r != "" && r != Fallback
  {
    "Sorry, I had a little hiccup " + (if isDM then "in your DMs" else "in the server") + "."
  }

  /** `message.mentions?.map(m => m.id) ?? []`: the mentioned ids, and none
      when the list is absent. */
  function MentionIds(m: Message): (ids: seq<nat>)
    ensures m.mentions.None? ==> ids == []
    ensures m.mentions.Some? ==> ids == m.mentions.value
  {
    if m.mentions.Some? then m.mentions.value else []
  }

  /** `isDM || isMentioned || isReply` with the bot's id `botId`. Every DM
      qualifies; in a server channel, a message that replies to nobody
      qualifies exactly when it mentions the bot; without a mention list
      only a DM or a reply to the bot qualifies. */
  predicate Acts(botId: nat, m: Message, channelType: JsInteger): (b: bool)
    ensures IsDM(channelType) ==> b
    ensures !IsDM(channelType) && m.referencedAuthorId.None? ==> (b <==> botId in MentionIds(m))
    ensures m.mentions.None? ==> (b <==> IsDM(channelType) || m.referencedAuthorId == Some(botId))
  {
    IsDM(channelType) || botId in MentionIds(m) || m.referencedAuthorId == Some(botId)
  }

  /** `data.choices?.[0]?.message?.content || Fallback`: every falsy field
      (missing, null, the empty string) gives the fallback. */
  function ReplyText(field: ReplyField): (r: string)
    ensures r != ""
    ensures field.Text? && field.text != "" ==> r == field.text
    ensures !field.Text? || field.text == "" ==> r == Fallback
  {
    if field.Text? && field.text != "" then field.text else Fallback
  }

  /** The messages sent after the request: the reply, then the apology if
      the request, the parse or the send threw. One message is sent, or
      two when the reply's send fails; all go to the message's channel, and
      after any failure the last one is the apology. */
  function Delivery(channelId: nat, isDM: bool, o: Outcomes): (d: seq<Effect>)
    ensures |d| == (if o.response.Some? && !o.replySent then 2 else 1)
    ensures d[0].SendMessage? && d[0].channelId == channelId
    ensures d[|d| - 1].SendMessage? && d[|d| - 1].channelId == channelId
    ensures o.response.None? || !o.replySent ==> d[|d| - 1].content == Apology(isDM)
    ensures o.response.Some? ==> d[0] == SendMessage(channelId, ReplyText(o.response.value))
  {
    match o.response
    case None => [SendMessage(channelId, Apology(isDM))]
    case Some(field) =>
      [SendMessage(channelId, ReplyText(field))] +
      (if o.replySent then [] else [SendMessage(channelId, Apology(isDM))])
  }

  /** Every call one invocation of the handler makes, in order, for bot id
      `botId`, message `m` and call outcomes `o`. A rejected `getChannel`
      is outside both try blocks: it ends the invocation. */
  function Trace(config: Config, botId: nat, m: Message, o: Outcomes): (t: seq<Effect>)
    ensures t == [] <==> m.isBot
    ensures t != [] ==> t[0] == GetChannel(m.channelId) && |t| <= 5
    ensures |t| > 1 ==> (|t| >= 4 && t[1] == SendTyping(m.channelId) && t[2].Post? &&
                         t[3].SendMessage? && t[|t| - 1].SendMessage? &&
                         t[2].request.messages == [ChatMessage("user", Forwarded(m.content, botId in MentionIds(m)))])
  {
    if m.isBot then []
    else if o.channelType.None? || !Acts(botId, m, o.channelType.value) then
      [GetChannel(m.channelId)]
    else
      var content := Forwarded(m.content, botId in MentionIds(m));
      [GetChannel(m.channelId), SendTyping(m.channelId), Post(BuildRequest(config, m, content))] +
      Delivery(m.channelId, IsDM(o.channelType.value), o)
  }

  /** The Discordeno bot object, as far as the handlers use it: the
      credentials and the bot's own user id. */
  class Bot {
    const config: Config
    var id: nat

    /** `createBot` without a `botId`: the id is the one the library derives
        from the token. */
    constructor (config: Config, idFromToken: nat)
      ensures this.config == config && id == idFromToken
    {
      this.config := config;
      id := idFromToken;
    }

    /** The ready event stores the logged-in user's id. */
    method Ready(userId: nat)
      modifies this
      ensures id == userId
    {
      id := userId;
    }

    /** One `messageCreate` invocation, step by step; returns the calls it
        made. */
    method MessageCreate(m: Message, o: Outcomes) returns (effects: seq<Effect>)
      ensures effects == Trace(config, id, m, o)
    {
      effects := [];
      if m.isBot {
        return;
      }
      effects := effects + [GetChannel(m.channelId)];
      if o.channelType.None? {
        return;
      }
      var isDM := IsDM(o.channelType.value);
      var mentions := if m.mentions.Some? then m.mentions.value else [];
      var isMentioned := id in mentions;
      var isReply := m.referencedAuthorId == Some(id);
      if !isDM && !isMentioned && !isReply {
        return;
      }
      assert Acts(id, m, o.channelType.value);
      var content := if isMentioned then StripMention(m.content) else m.content;
      effects := effects + [SendTyping(m.channelId)];
      if !o.typingOk {
        // `catch {}`: the failed typing indicator is ignored
      }
      effects := effects + [Post(BuildRequest(config, m, content))];
      assert effects == [GetChannel(m.channelId), SendTyping(m.channelId), Post(BuildRequest(config, m, content))];
      ghost var requested := effects;
      var failed := true;
      if o.response.Some? {
        var field := o.response.value;
        var reply := if field.Text? && field.text != "" then field.text else Fallback;
        effects := effects + [SendMessage(m.channelId, reply)];
        failed := !o.replySent;
      }
      if failed {
        effects := effects + [SendMessage(m.channelId, Apology(isDM))];
      }
      assert effects == requested + Delivery(m.channelId, isDM, o);
    }
  }

  /** A bot-authored message produces no call at all. */
  lemma BotMessageIgnored(config: Config, botId: nat, m: Message, o: Outcomes)
    requires m.isBot
    ensures Trace(config, botId, m, o) == []
  {
  }

  /** A rejected channel lookup ends the invocation before any message is
      sent: no typing, no request, no apology. */
  lemma LookupFailureIsSilent(config: Config, botId: nat, m: Message, o: Outcomes)
    requires !m.isBot && o.channelType.None?
    ensures Trace(config, botId, m, o) == [GetChannel(m.channelId)]
  {
  }

  /** A user's message goes on to the typing indicator and the request if
      and only if the channel is a DM, the bot is among the mentioned ids,
      or the referenced message is the bot's; otherwise only the channel
      lookup happens. */
  lemma ActsIff(config: Config, botId: nat, m: Message, o: Outcomes)
    requires !m.isBot && o.channelType.Some?
    ensures var t := Trace(config, botId, m, o);
      var acts := IsDM(o.channelType.value) || botId in MentionIds(m) || m.referencedAuthorId == Some(botId);
      (|t| > 1 <==> acts) &&
      (!acts ==> t == [GetChannel(m.channelId)]) &&
      (acts ==> t[1] == SendTyping(m.channelId) && t[2].Post?)
  {
  }

  /** Absent mentions behave exactly as an empty mention list. */
  lemma AbsentMentionsAreEmpty(config: Config, botId: nat, m: Message, o: Outcomes)
    requires m.mentions.None?
    ensures Trace(config, botId, m, o) == Trace(config, botId, m.(mentions := Some([])), o)
  {
  }

  /** When the bot is mentioned, the request carries the content with its
      leftmost mention token removed, then trimmed; the token need not be
      the bot's. Otherwise (a DM or a reply) the content is forwarded
      verbatim, untrimmed. */
  lemma ForwardedContent(config: Config, botId: nat, m: Message, o: Outcomes)
    requires !m.isBot && o.channelType.Some? && Acts(botId, m, o.channelType.value)
    ensures var t := Trace(config, botId, m, o);
      |t| > 2 && t[2].Post? && t[2].request.messages ==
        [ChatMessage("user", if botId in MentionIds(m) then StripMention(m.content) else m.content)]
  {
  }

  /** A mention of the bot whose content opens with a mention token `t` of
      any user, `<@id>` or `<@!id>`, is forwarded as the rest of the
      content, trimmed. */
  lemma LeadingMentionForwarded(config: Config, botId: nat, t: string, rest: string, m: Message, o: Outcomes)
    requires !m.isBot && o.channelType.Some? && botId in MentionIds(m)
    requires IsToken(t) && m.content == t + rest
    ensures Trace(config, botId, m, o)[2] == Post(BuildRequest(config, m, Trim(rest)))
  {
    StripLeadingMention(t, rest);
  }

  /** The typing indicator's outcome changes nothing: a failure is
      swallowed and the request still follows. */
  lemma TypingFailureIgnored(config: Config, botId: nat, m: Message, o: Outcomes)
    ensures Trace(config, botId, m, o) == Trace(config, botId, m, o.(typingOk := !o.typingOk))
  {
  }

  /** The request names the shape, holds one user message and is
      attributed to the message's author and channel. */
  lemma RequestAttributed(config: Config, botId: nat, m: Message, o: Outcomes)
    requires !m.isBot && o.channelType.Some? && Acts(botId, m, o.channelType.value)
    ensures var t := Trace(config, botId, m, o);
      |t| > 2 && t[2].Post? &&
      t[2].request.model == "shapesinc/" + config.shapeUsername &&
      |t[2].request.messages| == 1 && t[2].request.messages[0].role == "user" &&
      ParseDecimal(t[2].request.userIdHeader) == m.authorId &&
      ParseDecimal(t[2].request.channelIdHeader) == m.channelId
  {
    var content := Forwarded(m.content, botId in MentionIds(m));
    RequestShape(config, m, content);
  }

  /** A request that succeeds ends with exactly one message: the provider's
      text when it is a non-empty string, the fallback otherwise. The
      handler never sends an empty message. */
  lemma ReplySelection(config: Config, botId: nat, m: Message, o: Outcomes, field: ReplyField)
    requires !m.isBot && o.channelType.Some? && Acts(botId, m, o.channelType.value)
    requires o.response == Some(field) && o.replySent
    ensures var t := Trace(config, botId, m, o);
      |t| == 4 &&
      t[3] == SendMessage(m.channelId, if field.Text? && field.text != "" then field.text else Fallback) &&
      t[3].content != ""
  {
  }

  /** Whatever throws inside the request block (the request, the parse or
      the send of the reply), the invocation ends with the one apology,
      worded for a DM or for a server channel. When it is the reply's send
      that throws, the reply was attempted first, so the apology is the
      second of two messages. */
  lemma FailureApology(config: Config, botId: nat, m: Message, o: Outcomes)
    requires !m.isBot && o.channelType.Some? && Acts(botId, m, o.channelType.value)
    requires o.response.None? || !o.replySent
    ensures var t := Trace(config, botId, m, o);
      |t| == (if o.response.None? then 4 else 5) &&
      t[|t| - 1] == SendMessage(m.channelId, Apology(IsDM(o.channelType.value))) &&
      (o.response.Some? ==> t[3] == SendMessage(m.channelId, ReplyText(o.response.value)))
  {
  }
}
