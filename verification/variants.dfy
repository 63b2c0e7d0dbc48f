/** How the two handlers compare: they gate, strip and request alike, and
    differ only in the reply fallback (`||` against `??`), in the apology's
    wording and in how an absent mention list is read. */
module Variants {

  import opened Wrappers
  import opened Relay
  import IndexJs
  import IndexTs

  /** With a mention list present, both handlers act on the same messages. */
  lemma SameGate(botId: nat, m: Message, ids: seq<nat>, channelType: JsInteger)
    requires m.mentions == Some(ids)
    ensures IndexJs.Acts(botId, m, channelType) <==> IndexTs.Acts(botId, ids, m, channelType)
  {
  }

  /** When the provider answers with a non-empty string and it is sent,
      both handlers make exactly the same calls. */
  lemma SameTraceOnNonEmptyReply(config: Config, botId: nat, m: Message, o: Outcomes, text: string)
    requires m.mentions.Some?
    requires o.response == Some(Text(text)) && text != "" && o.replySent
    ensures IndexJs.Trace(config, botId, m, o) == IndexTs.Trace(config, botId, m, o)
  {
  }

  /** An empty reply string is where `||` and `??` part: index.js sends its
      fallback, index.ts sends the empty string. */
  lemma EmptyReplyDiffers(config: Config, botId: nat, m: Message, o: Outcomes)
    requires !m.isBot && o.channelType.Some? && m.mentions.Some?
    requires IndexJs.Acts(botId, m, o.channelType.value)
    requires o.response == Some(Text("")) && o.replySent
    ensures IndexJs.Trace(config, botId, m, o)[3] == SendMessage(m.channelId, IndexJs.Fallback)
    ensures IndexTs.Trace(config, botId, m, o)[3] == SendMessage(m.channelId, "")
  {
  }

  /** An absent mention list is where the gates part: index.js reads it as
      empty and still answers a DM or a reply, index.ts throws after the
      channel lookup. */
  lemma AbsentMentionsDiffer(config: Config, botId: nat, m: Message, o: Outcomes)
    requires !m.isBot && o.channelType.Some? && m.mentions.None?
    requires IsDM(o.channelType.value)
    ensures |IndexJs.Trace(config, botId, m, o)| > 1
    ensures IndexTs.Trace(config, botId, m, o) == [GetChannel(m.channelId)]
  {
  }

  /** The index.js apology names the kind of channel; the index.ts one is
      the same everywhere. */
  lemma ApologyWording()
    ensures IndexJs.Apology(true) != IndexJs.Apology(false)
    ensures IndexJs.Apology(true) != IndexTs.Apology && IndexJs.Apology(false) != IndexTs.Apology
  {
    assert IndexJs.Apology(true)[29] == 'i' && IndexJs.Apology(false)[29] == 'i';
    assert IndexJs.Apology(true)[32] == 'y' && IndexJs.Apology(false)[32] == 't';
    assert IndexTs.Apology[15] == 'h';
    assert IndexJs.Apology(true)[15] == 'l' && IndexJs.Apology(false)[15] == 'l';
  }
}
