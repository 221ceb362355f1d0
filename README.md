# Revolt Motors voice assistant: a verified model of its core

This project models the core of a voice chatbot for Revolt Motors electric
motorcycles in Dafny. The chatbot is a Node.js server that talks to a browser
client over socket events and to Google's Gemini models over HTTP. It covers:

- **Topic router and session table** (`server.js`). `detectTopic` is an
  ordered, case-insensitive keyword scan. `generateSmallTalkResponse` picks
  one of three greetings. The socket handlers (`start_conversation`,
  `audio_input`, `interrupt`, `end_conversation`, `disconnect`,
  `tone_preference`) update the `activeConversations` map and emit events.
  Modules `Topics` and `Server`; the server is the class
  `Server.ConversationServer`, with the map as a `map` field and every
  emitted event appended to a `sent` sequence.
- **Gemini client** (`gemini-live-api.js`). `sendMessage` contains a
  line-buffering decoder for the server-sent-events stream. It handles a
  subset of section 9.2 "Server-sent events" of the WHATWG HTML Living
  Standard: LF line ends only, and only the exact prefix `data: `.
  - `EventStream.LineDecoder.Feed` is that decoder, a class with a `buffer`
    field. It is proved against the pure specification
    `FeedStep`/`FeedAll`.
  - `Prompts` composes the prompt and the generation parameters.
  - `Gemini.GeminiClient` holds the `model` and `conversationId` fields. It
    provides `createConversation`, `sendMessage`, `setModel` and
    `getModelInfo`. `handleInterruption` and `getLastTopic` are pure
    functions of the module.
- **Voice selection** (`public/app.js`, `findBestVoice`). A scoring loop runs
  over the English voices, followed by a three-step fallback. Module
  `Voices`. The method `FindBestVoice` keeps the source's nested loops and
  is proved equal to the function `SelectVoice`; the lemmas characterise
  `SelectVoice`.

Modelling choices:

- Network calls, the clock and randomness are inputs:
  - whether the connectivity probe succeeded;
  - the chunks the event stream delivered and whether it ended or failed;
  - the shape of the interruption reply;
  - `Date.now()` as a string;
  - the greeting index drawn by `Math.random`.
- `JSON.parse` followed by the `candidates[0].content.parts[0].text` lookup
  is the uninterpreted function `extract: string -> Option<string>`. It is
  held as a constant of the client.

Where the evident intent and the code disagree, the model follows the code:

- `start_conversation` replaces any existing entry for the socket and drops
  its tone. It does not first check whether a session exists.
- `tone_preference` stores any value, unchecked, although the evident
  intent is to ignore unknown tones. A stored unknown tone then behaves as
  "concise", because only the exact string "detailed" selects the detailed
  style (`Server.UnknownToneIsConcise`).
- A stream that fails after some fragments were forwarded still produces
  one `error` event after them. The promise returned by `sendMessage`
  rejects, and the `audio_input` handler catches it, although the evident
  intent is to emit nothing further.
- The interruption prompt and its fallback always name "Revolt Motors
  vehicles", because `getLastTopic` returns that constant. The session's
  `lastTopic` is never read there.
- When the interruption reply has a first candidate without `text`,
  `interruption_handled` carries no message. That is the `None` case of
  `Gemini.HandleInterruption`.

## Model

| member | source | states |
|---|---|---|
| Text.Lower | server.js:32 | same length; each upper-case ASCII letter becomes its lower-case letter (code + 32), every other character is kept |
| Text.Contains | server.js:52 | a contained key is no longer than the text, and a prefix is contained |
| Text.LowerIdempotent | server.js:32 | lower-casing an already lower-cased message changes nothing, so `detectTopic` sees the same text for `m` and `m.toLowerCase()` |
| Topics.FirstKeyword | server.js:51-55 | the index found is the first entry of the keyword table that occurs in the message; None exactly when no keyword occurs |
| Topics.DetectTopic | server.js:31-58 | "general inquiry" exactly when no keyword occurs in the lower-cased message; otherwise the label of the first keyword, in table order, that occurs; always one of the 13 fixed labels |
| Topics.DetectTopicFirstWins | server.js:33-55 | whenever keyword `i` is the first that occurs, the result is its label |
| Topics.DetectTopicIgnoresCase | server.js:32 | messages equal after lower-casing get the same topic, and `detectTopic(m) == detectTopic(lower(m))` |
| Topics.Rv400BeatsPrice | server.js:33-55 | a message mentioning "rv400" is routed to "RV400 features" whatever else it mentions, e.g. a price |
| Topics.PriceBeatsGreeting | server.js:33-55 | a message mentioning "price" but neither model name is "pricing", even if it also says "hi" |
| Topics.GreetingMeansNoProductKeyword | server.js:33-55 | a message routed to "greeting" contains none of the twelve product keywords and at least one greeting keyword |
| Topics.PlaceholderIsNotSmallTalk | server.js:111-127 | the fixed utterance "Tell me about RV400 features" is routed to "RV400 features", so the greeting branch of `audio_input` is never taken |
| Topics.SmallTalkResponse | server.js:61-68 | the reply is one of the three fixed greetings |
| EventStream.Lines | gemini-live-api.js:112-113 | the complete lines of the buffered text contain no LF |
| EventStream.Rest | gemini-live-api.js:112-113 | the kept tail contains no LF and is no longer than the text |
| EventStream.IsDone | gemini-live-api.js:116-119 | a line is the end marker exactly when it is `data: [DONE]` |
| EventStream.FeedStep | gemini-live-api.js:110-139 | after a chunk the buffer has no LF, earlier fragments are kept as a prefix, and every new fragment carries the call's id and non-empty text |
| EventStream.FeedAll | gemini-live-api.js:107-139 | after any chunks the buffer has no LF, and every fragment carries the call's id and non-empty text |
| EventStream.SplitLines | gemini-live-api.js:112 | `split('\n')` always yields at least one piece |
| EventStream.SplitJoinRoundTrip | gemini-live-api.js:112-113 | splitting on LF undoes joining with LF, for pieces free of LF |
| EventStream.LinesCover | gemini-live-api.js:111-113 | the kept tail has no LF, and the text is its complete lines, each followed by LF, then the tail |
| EventStream.LinesAppend | gemini-live-api.js:110-113 | the complete lines of `s + t` are those of `s` followed by those of the tail of `s` extended with `t` |
| EventStream.RestAppend | gemini-live-api.js:110-113 | the tail of `s + t` is the tail of (tail of `s`) + `t` |
| EventStream.LineFragments | gemini-live-api.js:116-133 | a line yields at most one fragment, and yields one exactly when it starts with `data: ` and its payload (the line after 6 characters) has non-empty text; the fragment carries that text and the call's conversation id |
| EventStream.DecodeLines | gemini-live-api.js:115-138 | every fragment carries the call's conversation id and non-empty text; at most one fragment per line |
| EventStream.DecodeLinesAppend | gemini-live-api.js:115-138 | fragments are reported in line order: decoding `a + b` is decoding `a` then `b` when `a` has no [DONE] line |
| EventStream.SilentLineIsTransparent | gemini-live-api.js:122-136 | a line that yields nothing (not `data: `, unparsable, no text path, empty text) does not change what the other lines report |
| EventStream.ChunkingIrrelevant | gemini-live-api.js:107-139 | without a [DONE] line, the reported fragments are those of the complete lines of the concatenated chunks, and the buffer is its unterminated tail, however the text was split into chunks |
| EventStream.SameTextSameFragments | gemini-live-api.js:107-139 | two chunkings of the same text without [DONE] report the same fragments |
| EventStream.BufferIsTail | gemini-live-api.js:110-113 | after any sequence of chunks the buffer is the unterminated tail of their concatenation |
| EventStream.UnterminatedLineNotReported | gemini-live-api.js:110-143 | a last chunk without LF reports nothing and is only appended to the buffer; since `end` does not flush, it is never reported |
| EventStream.DoneAndDataLines | gemini-live-api.js:116-133 | a `data: [DONE]` line is recognised as the end marker, and a `data: ` line with text yields exactly its fragment |
| EventStream.DoneEndsLines | gemini-live-api.js:115-120 | whatever follows a `data: [DONE]` line is ignored: decoding `a`, the marker, then `b` reports what `a` alone reports, when `a` has no marker |
| EventStream.DoneEndsChunk | gemini-live-api.js:110-120 | when a chunk's complete lines contain the marker, the chunk reports only the fragments of the lines before the first marker |
| EventStream.DoneDropsRestOfChunk | gemini-live-api.js:118-120 | example: a data line after `data: [DONE]` in the same chunk is not reported |
| EventStream.DoneSparesNextChunk | gemini-live-api.js:110-120 | the same data line in the next chunk is reported: [DONE] ends only the current chunk's loop |
| EventStream.LineDecoder.constructor | gemini-live-api.js:107-108 | the decoder starts with an empty buffer and nothing reported |
| EventStream.LineDecoder.Feed | gemini-live-api.js:110-139 | after a chunk the buffer has no LF and old buffer + chunk is the processed lines, each followed by LF, plus the new buffer; the new state is `FeedStep` of the old one |
| Prompts.LanguageHint | gemini-live-api.js:56-57 | the Hindi hint exactly when the message has a character in U+0900..U+097F, the English hint otherwise |
| Prompts.ToneInstructions | gemini-live-api.js:60-62 | the detailed instructions exactly for the tone "detailed", the concise ones for any other value |
| Prompts.MaxTokens | gemini-live-api.js:64 | 200 exactly for "detailed", 120 for every other value |
| Prompts.ComposePrompt | gemini-live-api.js:66-96 | the prompt opens with the persona, the language hint, the scope rules and the tone instructions, and ends with "User:\n" followed by the message; the parameters are 0.7 / 40 / 0.9 and the tone's token ceiling |
| Prompts.PromptHintsHindiExactly | gemini-live-api.js:56-80 | the composed prompt carries the Hindi hint exactly when the message contains a Devanagari character |
| Prompts.OtherTonesAreConcise | gemini-live-api.js:60-64 | every tone other than "detailed" composes the same request as "concise" |
| Gemini.StreamRequestShape | gemini-live-api.js:82-105 | the request `sendMessage` posts is streaming, for the current model, ends with "User:\n" and the message, and is capped by the tone's ceiling |
| Gemini.GetLastTopic | gemini-live-api.js:192-212 | the topic is "Revolt Motors vehicles" for every conversation |
| Gemini.OrRevoltMotors | gemini-live-api.js:157 | the topic, or "Revolt Motors" when it is empty: never empty, and a non-empty topic is kept |
| Gemini.InterruptionRequest | gemini-live-api.js:155-179 | the interruption request is non-streaming, for the current model, capped at 80 tokens, and its prompt names "Revolt Motors vehicles" |
| Gemini.HandleInterruption | gemini-live-api.js:152-190 | the answer is the candidate's text when there is a candidate, the offer to continue about "Revolt Motors vehicles" when there is none, and "Got it—…" when the call or reading the candidate fails; outside the candidate case it is a non-empty string |
| Gemini.InterruptionIgnoresConversation | gemini-live-api.js:155 | the interruption request and answer are the same for every conversation id |
| Gemini.GeminiClient.constructor | gemini-live-api.js:4-9 | a new client uses "gemini-1.5-flash" and has no conversation |
| Gemini.GeminiClient.CreateConversation | gemini-live-api.js:11-51 | posts the fixed probe; on success the id is the clock reading and is stored; on failure nothing changes and no id is returned |
| Gemini.GeminiClient.SendMessage | gemini-live-api.js:53-150 | posts the composed prompt for the current model; reports exactly `FeedAll` of the delivered chunks, each fragment tagged with the call's id; fails when the POST or the stream fails |
| Gemini.GeminiClient.SetModel | gemini-live-api.js:214-230 | switches exactly when the name is one of the four models, otherwise returns "Invalid model" and keeps the model; the model stays one of the four |
| Gemini.GeminiClient.GetModelInfo | gemini-live-api.js:232-242 | reports the current model and the four names, the current model being among them |
| Server.EffectiveTone | server.js:130 | a missing or empty tone reads as "concise"; any other stored tone is used as it is |
| Server.StreamEmissions | server.js:131-133 | one `ai_response_stream` per fragment, in order, each to the same socket and carrying that fragment |
| Server.ReplyEmissions | server.js:129-138 | a streamed reply sends exactly `FeedAll` of the delivered chunks, in order, one `ai_response_stream` each, to the same socket, then one `error` exactly when the stream failed; a failed POST sends only the `error` |
| Server.ConversationServer.constructor | server.js:27-28 | the server starts with no conversations and nothing emitted |
| Server.ConversationServer.StartConversation | server.js:74-98 | on success the socket's entry is replaced by (new id, "greeting", 0, no tone) and one `conversation_started` with a greeting is sent; on failure the map is unchanged and one `error` is sent |
| Server.ConversationServer.HandleUtterance | server.js:100-139 | without an entry: one `error`, nothing else changes; with one: topic and count+1 are recorded first and only on that socket, then a greeting gets one small-talk fragment and anything else is sent to Gemini in the session's tone, with the reply emissions |
| Server.ConversationServer.Answer | server.js:118-134 | small talk for a greeting, otherwise the streaming request in the session's tone and its reply emissions |
| Server.ConversationServer.AudioInput | server.js:100-139 | with the fixed utterance, an existing entry is always recorded under "RV400 features" and answered by Gemini |
| Server.ConversationServer.Interrupt | server.js:141-163 | without an entry: one `error`; with one: exactly one `interruption_handled` carrying the interruption answer for its conversation; the map is unchanged |
| Server.ConversationServer.EndConversation | server.js:165-177 | removes the entry (if any) and always sends `conversation_ended` |
| Server.ConversationServer.Disconnect | server.js:179-184 | removes the entry (if any) and sends nothing |
| Server.ConversationServer.TonePreference | server.js:186-198 | stores the given tone, unchecked, only on an existing entry; sends nothing |
| Server.RestartForgetsTone | server.js:81-85 | after "detailed" the cap is 200 tokens; after a new `start_conversation` the tone is gone and the cap is 120 |
| Server.UnknownToneIsConcise | server.js:186-198 | any tone other than "detailed", the empty one included, is stored as given and produces the same request as "concise" |
| Voices.ScoreOf | public/app.js:76-81 | the score is at least the priority of every matching pattern and is 0 or the priority of one of them: the maximum, 0 when none matches |
| Voices.FindIndex | public/app.js:91-97 | `find` returns the first voice satisfying the test, or nothing when none does |
| Voices.ScoringPass | public/app.js:70-87 | a kept voice is listed, English and kept with its own score; the kept score is -1 exactly when no voice is kept |
| Voices.ScoringPassEmpty | public/app.js:70-87 | the scoring loop keeps no voice exactly when there is no English voice |
| Voices.ScoringPassWinner | public/app.js:70-87 | with an English voice, the loop keeps the first English voice with the highest score; non-English voices and later ties never replace it |
| Voices.WinnerUnique | public/app.js:83-86 | the first-wins rule singles out one winner |
| Voices.PremiumScoresHigh | public/app.js:54-57 | an English voice whose name mentions google, microsoft, samantha or alex scores at least 7 |
| Voices.PremiumFallbackNeverMatches | public/app.js:90-96 | when the fallback runs, its search for a premium English voice finds nothing |
| Voices.GoodVoiceKept | public/app.js:90-100 | a winner scoring 5 or more is returned |
| Voices.LowScoresTakeFirstEnglish | public/app.js:90-97 | when every English voice scores below 5, the first English voice is returned, whatever the ranking |
| Voices.NoEnglishTakesFirst | public/app.js:97 | without English voices the first voice is returned; an empty list returns none |
| Voices.Fallback | public/app.js:90-97 | returns a listed voice, and returns one exactly when the list is not empty |
| Voices.SelectVoice | public/app.js:50-101 | the chosen voice is listed, and there is one exactly when the list is not empty |
| Voices.FindBestVoice | public/app.js:50-101 | the nested loops and the fallback return `SelectVoice(voices)` |

## Left out

- HTTP requests through axios, and the Express, CORS and socket.io wiring: network I/O. Their outcomes are inputs.
- The `/health`, `/api/status` and `/api/switch-model` routes, the error middleware and the shutdown handlers: plumbing around the core. `setModel` and `getModelInfo` themselves are modelled.
- `JSON.parse` and the response-object path: a foreign call. The uninterpreted `extract` stands for them.
- A truthy `text` that is not a string, in a stream payload or in the interruption reply: the source forwards it as content; the model has strings only and treats it as no text.
- Decoding of stream bytes into text (`chunk.toString()`): chunks are taken as strings. A multi-byte character split across chunks is not modelled.
- `Date.now()` and `Math.random`: taken as parameters.
- Text: `toLowerCase` and the `i` regex flag are modelled for ASCII letters only; other Unicode case mappings are not.
- Overlapping asynchronous handlers on one socket: concurrency. While `sendMessage` is awaited, another event could change the entry. Each handler is modelled as one atomic step.
- The `tone_preference` payload is modelled as an optional string. A payload that is not an object, or a tone that is not a string, is not modelled.
- Temperature and top-p: kept as real constants and never computed with.
- The catch branches of `interrupt` and `end_conversation`: `handleInterruption` never throws and deleting from a map cannot fail, so those `error` events cannot occur and are not modelled.
- The keyword table inside `getLastTopic`: it is never read.
- `sendMessage`'s default tone argument: the server always passes a tone.
- Everything in `public/app.js` besides `findBestVoice`, including `addNaturalPauses`: DOM, audio and speech-synthesis code.
- The body of the probe's reply in `createConversation`: the source ignores it.
