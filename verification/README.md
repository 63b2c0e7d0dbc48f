# Shapes Discord relay bot: the message handler

The bot (`index.js` and its near-twin `index.ts`) listens to Discord
messages through Discordeno and relays some of them to the Shapes
completion endpoint (`https://api.shapes.inc/v1/chat/completions`). Each
file registers two event handlers:

- `ready`, which stores the logged-in user's id on the bot object;
- `messageCreate`, which drops bot-authored messages, looks up the
  channel, acts only on a DM, a mention of the bot or a reply to the bot,
  strips the leftmost `<@…>`/`<@!…>` token from a mention, shows the typing
  indicator, posts the content to the provider, and sends back the
  provider's reply, a fallback text, or an apology when the request block
  throws.

The model is written in these modules:

- `Wrappers`: the `Option` type, standing for a JavaScript value that may be
  `undefined` and for an awaited call that may reject.
- `JsText`: `String.prototype.trim` over the exact ECMAScript white-space
  and line-terminator set, and `BigInt.prototype.toString()` for the id
  headers, with a parser that reads a rendered id back.
- `Mention`: a hand-written matcher for the one regular expression
  `/<@!?(\d+)>/` and the non-global `replace(…, "")` followed by `trim()`.
  It is proved to find every token and to remove only the leftmost one.
- `Relay`: what both files share. This covers the inbound message and the
  outcomes of the awaited calls. It also covers the calls a handler makes
  (`GetChannel`, `SendTyping`, `Post`, `SendMessage`) and the request it
  posts.
- `IndexJs` and `IndexTs`: one module per source file. Each has a `Bot`
  class whose `Ready` method updates `id` and whose `MessageCreate` method
  follows the handler step by step. `MessageCreate` returns the calls made
  and is proved equal to the module's `Trace` specification function. The
  listed properties are lemmas about `Trace`.
- `Variants`: where the two handlers agree and where they part.

Every effectful call is an input. `Outcomes` records how the channel lookup,
the typing indicator, the request with its JSON parse, and the send of the
reply end. A handler invocation then becomes a function from the bot's id,
the message and those outcomes to the sequence of calls made.

Two readings of the code are worth stating:

- `channel.type === 1n` is strict equality with a BigInt. The model keeps
  the distinction (`JsInteger`): only a BigInt 1 is a DM. A channel type
  delivered as the Number 1 does not count. How Discordeno represents
  channel types is not part of this model.
- `index.ts` calls `message.mentions.some(…)` without a guard. An absent
  mention list throws there, after the channel lookup, and the invocation
  ends. `index.js` reads an absent list as empty.

Neither handler records which messages it has handled, builds a
participant list, registers a slash command or sets a timeout on the
request. A missing or null reply field gets the fallback text in both
files; an empty string gets it only in index.js, while index.ts sends it as
it is.

## Model

| member | source | states |
|---|---|---|
| `IndexJs.Bot.constructor` | index.js:24-31 | the bot is created with the configured credentials and the id the library derives from the token |
| `IndexJs.Bot.Ready` | index.js:34-36 | the ready event sets the bot's id to the logged-in user's id |
| `IndexJs.Bot.MessageCreate` | index.js:43-91 | the step-by-step handler makes exactly the calls `Trace` gives for the current bot id, message and call outcomes |
| `IndexJs.Trace` | index.js:43-91 | a bot's message makes no call; every other invocation starts with the channel lookup, makes at most five calls, and when it goes past the lookup it shows typing, posts the forwarded content as the one user message, then sends one or two messages (the fourth call and the last are sends) |
| `IndexJs.Acts` | index.js:47-52 | every DM qualifies; in a server channel a message that replies to nobody qualifies exactly when it mentions the bot; without a mention list only a DM or a reply to the bot qualifies |
| `IndexJs.MentionIds` | index.js:48 | the ids are those of the mention list, and there are none when the list is absent |
| `Relay.Forwarded` | index.js:54-56 | the forwarded text is never longer than the content, and is the content itself when the bot is not mentioned |
| `IndexJs.ReplyText` | index.js:82 | the sent text is never empty: a non-empty string reply is sent as it is, and a missing, null or empty one becomes the fallback |
| `IndexJs.Apology` | index.js:88 | the apology is a non-empty text distinct from the fallback reply |
| `IndexJs.Delivery` | index.js:63-90 | the request block sends one message, or two when sending the reply throws, all to the message's channel; after a successful request the first is the selected reply, and after any failure the last one is the apology |
| `IndexJs.BotMessageIgnored` | index.js:44 | a bot-authored message produces no call at all: no lookup, typing, request or send |
| `IndexJs.LookupFailureIsSilent` | index.js:46 | a rejected channel lookup ends the invocation after the lookup, with no typing, request or message |
| `IndexJs.ActsIff` | index.js:47-52 | a user's message reaches typing and the request iff the channel is a DM, the bot id is among the mention ids, or the referenced message's author is the bot; otherwise only the lookup happens |
| `IndexJs.AbsentMentionsAreEmpty` | index.js:48 | an absent mention list behaves exactly like an empty one |
| `IndexJs.ForwardedContent` | index.js:54-56 | the request's one message carries the stripped and trimmed content when the bot is mentioned, and the original content, untrimmed, otherwise |
| `IndexJs.LeadingMentionForwarded` | index.js:55 | content that opens with any user's mention token, `<@id>` or `<@!id>`, is forwarded as the rest, trimmed, even when that token is not the bot's |
| `IndexJs.TypingFailureIgnored` | index.js:59-61 | the typing indicator's outcome does not change the calls made; the request follows a failed typing call |
| `IndexJs.RequestAttributed` | index.js:64-78 | the request names model `shapesinc/<shape>`, holds exactly one user-role message, and its id headers read back as the author id and the channel id |
| `IndexJs.ReplySelection` | index.js:82 | after a successful request exactly one message is sent: the provider's text when it is a non-empty string, the thinking-face fallback when it is missing, null or empty; the sent text is never empty |
| `IndexJs.FailureApology` | index.js:84-89 | when the request, the parse or the reply's send throws, the last call is the apology worded for a DM or for a server channel; when the send throws, the selected reply was attempted just before it |
| `Relay.RequestShape` | index.js:64-78 | the built request carries the bearer key, the shape's model name, the content as its single user message, and decimal id headers that parse back to the author's and channel's ids |
| `Relay.BuildRequest` | index.js:64-78 | the request is a JSON POST to the completion endpoint, its single message is the user's content, and both id headers consist of decimal digits only |
| `JsText.SkipWhiteSpec` | index.js:55 | the forward scan passes only white space and stops at the first non-white character |
| `JsText.SkipWhiteBackSpec` | index.js:55 | the backward scan passes only white space and stops after the last non-white character |
| `JsText.Trim` | index.js:55 | `trim` never lengthens its input and its result neither starts nor ends with white space |
| `JsText.TrimSpec` | index.js:55 | `trim` returns the slice of the input between leading and trailing white space, and that slice neither starts nor ends with white space |
| `JsText.TrimKeepsTrimmed` | index.js:55 | a string without white space at either end is unchanged by `trim` |
| `JsText.TrimIdempotent` | index.js:55 | trimming twice gives the same result as trimming once |
| `JsText.DecimalString` | index.js:71-72 | an id renders as a non-empty string of ASCII digits with no leading zero, except for the id 0 |
| `JsText.ParseDecimalString` | index.js:71-72 | reading a rendered id back yields the id |
| `JsText.DecimalStringInjective` | index.js:71-72 | distinct ids never produce the same header value |
| `Mention.DigitRunEndSpec` | index.js:55 | the `\d+` scan takes a maximal run of ASCII digits |
| `Mention.MatchAt` | index.js:55 | a match at a position ends within the content and is at least four characters long |
| `Mention.FindFrom` | index.js:55 | a found match starts at or after the search position and spans at least four characters within the content |
| `Mention.ReplaceFirst` | index.js:55 | `replace` changes the content exactly when the expression matches; the removed slice is then a whole token (at least four characters) and everything around it is kept |
| `Mention.StripMention` | index.js:55 | the forwarded text is never longer than the content, is shorter by at least a token when one is present, and has no white space at either end |
| `Mention.MatchAtSound` | index.js:55 | whatever the matcher finds at a position is a `<@`, optional `!`, digits, `>` token |
| `Mention.MatchAtComplete` | index.js:55 | every token in the content is found at its start position and with its exact end |
| `Mention.FindFromSpec` | index.js:55 | the search returns the leftmost match, with no match starting earlier, or reports that no position starts one |
| `Mention.StripRemovesLeftmostToken` | index.js:55 | given the leftmost token `s[i..j]`, `replace` yields `s[..i] + s[j..]`, so all later tokens stay verbatim, and the forwarded text is that remainder trimmed |
| `Mention.StripWithoutToken` | index.js:55 | content with no token anywhere is only trimmed |
| `Mention.StripLeadingMention` | index.js:55 | content that opens with any mention token, `<@id>` or `<@!id>`, becomes the rest, trimmed |
| `IndexTs.Bot.constructor` | index.ts:15-19 | the bot is created with the configured credentials and id 0, the value passed as `botId` |
| `IndexTs.Bot.Ready` | index.ts:22-25 | the ready event sets the id used by the mention and reply checks to the logged-in user's id |
| `IndexTs.Bot.MessageCreate` | index.ts:28-77 | the step-by-step handler makes exactly the calls `Trace` gives for the current bot id, message and call outcomes |
| `IndexTs.Trace` | index.ts:28-77 | a bot's message makes no call; every other invocation starts with the channel lookup, makes at most five calls, and goes past the lookup only with a mention list present, then showing typing, posting the forwarded content as the one user message and sending one or two messages (the fourth call and the last are sends) |
| `IndexTs.Acts` | index.ts:33-39 | every DM and every reply to the bot qualifies; in a server channel a message that replies to nobody qualifies exactly when it mentions the bot |
| `IndexTs.ReplyText` | index.ts:67 | any string reply is sent as it is and a missing or null one becomes "No response received."; the sent text is empty exactly when the reply is the empty string |
| `IndexTs.Delivery` | index.ts:51-75 | the request block sends one message, or two when sending the reply throws, all to the message's channel; after a successful request the first is the selected reply, and after any failure the last one is the fixed apology |
| `IndexTs.BotMessageIgnored` | index.ts:29 | a bot-authored message produces no call at all |
| `IndexTs.EarlyThrowIsSilent` | index.ts:31-34 | a rejected channel lookup, or an absent mention list (`mentions.some` throws), ends the invocation after the lookup, and nothing is sent |
| `IndexTs.ActsIff` | index.ts:33-39 | with a mention list, the handler reaches typing and the request iff the channel is a DM, the bot is mentioned, or a referenced message exists and is the bot's; otherwise only the lookup happens |
| `IndexTs.ForwardedContent` | index.ts:40-42 | the request carries the content with its leftmost mention token removed and trimmed when the bot is mentioned, and verbatim otherwise |
| `IndexTs.TypingFailureIgnored` | index.ts:44-49 | the typing indicator's outcome does not change the calls made |
| `IndexTs.RequestAttributed` | index.ts:51-64 | the request names model `shapesinc/<shape>`, holds one user-role message, and its id headers read back as the author id and the channel id |
| `IndexTs.ReplySelection` | index.ts:66-69 | after a successful request exactly one message is sent: the provider's string whenever it is one, the empty string included, and "No response received." only for a missing or null field |
| `IndexTs.FailureApology` | index.ts:69-74 | when anything in the request block throws, the last call is the one fixed apology, in a DM or not; when the reply's send throws, the selected reply was attempted just before it |
| `Variants.SameGate` | index.ts:33-39 | with a mention list present, the two handlers act on exactly the same messages |
| `Variants.SameTraceOnNonEmptyReply` | index.ts:39-69 | with a mention list and a non-empty reply string that is sent, both handlers make identical calls |
| `Variants.EmptyReplyDiffers` | index.ts:67 | for an empty reply string, index.js sends its fallback while index.ts sends the empty string |
| `Variants.AbsentMentionsDiffer` | index.ts:34 | for a DM whose message has no mention list, index.js goes on to the request while index.ts stops after the lookup |
| `Variants.ApologyWording` | index.ts:73 | the index.js apology differs between DM and server, and neither wording equals the fixed index.ts apology |

## Left out

- Bot construction options, gateway intents and `startBot` (index.js:24-31,94; index.ts:15-19,80) are Discordeno plumbing. Only the bot id matters to the handler, and the model keeps only that.
- Loading the environment and the missing-variable exit or throw (index.js:10-21; index.ts:5-12) are process start-up. The API key and shape name are the `Config` given to the bot.
- `fetch`, `response.json()`, `getChannel`, `sendTyping` and `sendMessage` are foreign calls. They appear only as outcomes: a lookup that resolves or rejects, a typing call that resolves or fails, and a request/parse step that throws or yields a reply field. A send of the reply resolves or throws. The trace records each call as attempted. A failure of the apology's own send is an unhandled rejection; it adds no call and is not modelled separately.
- The JSON body is reduced to its `choices[0].message.content` field: absent, null, or a string. A body that is `null` itself makes `data.choices` throw, and that case is folded into the request-block failure. A reply field holding a number, boolean, object or array is not modelled.
- Several `messageCreate` invocations can interleave, since the handlers are async. The model covers one invocation at a time.
- `console.log` and `console.error` are not modelled.
- Only the single regular expression `<@!?(\d+)>` is modelled, with a hand-written matcher. No general regular-expression engine is included.
- The unused `ensureArray` import (index.js:8) is not modelled.
