/**
  The socket handlers of the server: the table of active conversations,
  keyed by socket id, and every event emitted to a socket, in order. Each
  handler is one method; the Gemini client is shared by all sockets.
 */
module Server {
  import opened Wrappers
  import opened Topics
  import opened EventStream
  import opened Prompts
  import opened Gemini

  type SocketId = string

  /** One entry of `activeConversations`; `tone` is absent until a tone preference arrives. */
  datatype Conversation = Conversation(conversationId: string, lastTopic: string, messageCount: nat, tone: Option<string>)

  /** The events the server emits. */
  datatype Event =
    | ConversationStarted(conversationId: string, message: string)
    | AiResponseStream(fragment: Fragment)
    | InterruptionHandled(answer: Option<string>, conversationId: string)
    | ConversationEnded
    | Error(message: string)

  /** One `socket.emit`. */
  datatype Emission = Emission(socket: SocketId, event: Event)

  const StartFailed := "Failed to start conversation. Please try again."
  const NoConversation := "No active conversation found."
  const VoiceInputFailed := "Error processing your voice input."
  const ConciseTone := "concise"

  /** `conversation.tone || 'concise'`: a missing or empty tone reads as concise; any other value passes through unchecked. */
  function EffectiveTone(tone: Option<string>): (t: string)
    ensures tone.Some? && tone.value != "" ==> t == tone.value
    ensures tone.None? || tone.value == "" ==> t == ConciseTone
    ensures t != ""
  {
    if tone.Some? && tone.value != "" then tone.value else ConciseTone
  }

  /** Each fragment forwarded to `socket` as an `ai_response_stream` event, in order. */
  function StreamEmissions(socket: SocketId, fragments: seq<Fragment>): (r: seq<Emission>)
    ensures |r| == |fragments|
    ensures forall i :: 0 <= i < |r| ==> r[i].socket == socket && r[i].event == AiResponseStream(fragments[i])
  {
    seq(|fragments|, i requires 0 <= i < |fragments| => Emission(socket, AiResponseStream(fragments[i])))
  }

  /**
    What `socket` receives for a generated reply: every fragment the stream
    decoded, then one error when the POST or the stream failed.
   */
  function ReplyEmissions(socket: SocketId, upstream: StreamUpstream, extract: Extractor, conversationId: string): (r: seq<Emission>)
    ensures forall i :: 0 <= i < |r| ==> r[i].socket == socket
    ensures forall i :: 0 <= i < |r| - 1 ==> r[i].event.AiResponseStream?
    ensures (upstream.PostFailed? || upstream.streamFailed) <==> (|r| > 0 && r[|r| - 1].event == Error(VoiceInputFailed))
    ensures upstream.PostFailed? ==> r == [Emission(socket, Error(VoiceInputFailed))]
    ensures upstream.Streamed? ==>
      var fragments := FeedAll(upstream.chunks, extract, conversationId).emitted;
      |r| == |fragments| + (if upstream.streamFailed then 1 else 0) &&
      r[..|fragments|] == StreamEmissions(socket, fragments)
    ensures forall i :: 0 <= i < |r| && r[i].event.AiResponseStream? ==>
      r[i].event.fragment.conversationId == conversationId && r[i].event.fragment.content != ""
  {
    match upstream
    case PostFailed => [Emission(socket, Error(VoiceInputFailed))]
    case Streamed(chunks, failed) =>
      var fragments := FeedAll(chunks, extract, conversationId).emitted;
      StreamEmissions(socket, fragments) + (if failed then [Emission(socket, Error(VoiceInputFailed))] else [])
  }

  class ConversationServer {
    /** `activeConversations`. */
    var conversations: map<SocketId, Conversation>
    /** Every event emitted so far, to whichever socket. */
    var sent: seq<Emission>
    /** The Gemini client all sockets share. */
    const gemini: GeminiClient

    ghost predicate Valid()
      reads this, gemini
    {
      gemini.Valid() &&
      forall s :: s in conversations ==> conversations[s].lastTopic in TopicOutcomes
    }

    constructor (gemini: GeminiClient)
      requires gemini.Valid()
      ensures Valid()
      ensures conversations == map[] && sent == [] && this.gemini == gemini
    {
      conversations := map[];
      sent := [];
      this.gemini := gemini;
    }

    /**
      `start_conversation`: when the client hands out an id, the socket gets a
      fresh entry (replacing any earlier one, tone included) and a small-talk
      welcome; otherwise the socket gets an error and the table is unchanged.
     */
    method StartConversation(socket: SocketId, probeOk: bool, now: string, pick: GreetingIndex)
      requires Valid()
      modifies this, gemini`conversationId
      ensures Valid() && gemini.model == old(gemini.model)
      ensures probeOk ==>
        conversations == old(conversations)[socket := Conversation(now, Greeting, 0, None)] &&
        sent == old(sent) + [Emission(socket, ConversationStarted(now, SmallTalkResponse(pick)))] &&
        gemini.conversationId == Some(now)
      ensures !probeOk ==>
        conversations == old(conversations) &&
        sent == old(sent) + [Emission(socket, Error(StartFailed))] &&
        gemini.conversationId == old(gemini.conversationId)
    {
      var _, id := gemini.CreateConversation(probeOk, now);
      if id.None? {
        sent := sent + [Emission(socket, Error(StartFailed))];
        return;
      }
      conversations := conversations[socket := Conversation(id.value, Greeting, 0, None)];
      sent := sent + [Emission(socket, ConversationStarted(id.value, SmallTalkResponse(pick)))];
    }

    /**
      The body of the `audio_input` handler for an utterance: without an entry
      the socket gets an error; otherwise the detected topic and the message
      count are recorded first, then a greeting gets a small-talk reply and
      anything else is sent to Gemini in the conversation's tone, whose
      fragments are forwarded, followed by an error if the call fails.
     */
    method HandleUtterance(socket: SocketId, userMessage: string, pick: GreetingIndex, upstream: StreamUpstream)
      returns (request: Option<GenerationRequest>)
      requires Valid()
      modifies this
      ensures Valid()
      ensures socket !in old(conversations) ==>
        conversations == old(conversations) && request == None &&
        sent == old(sent) + [Emission(socket, Error(NoConversation))]
      ensures socket in old(conversations) ==>
        var c := old(conversations)[socket];
        var topic := DetectTopic(userMessage);
        conversations == old(conversations)[socket := c.(lastTopic := topic, messageCount := c.messageCount + 1)] &&
        (topic == Greeting ==>
          request == None &&
          sent == old(sent) + [Emission(socket, AiResponseStream(TextFragment(SmallTalkResponse(pick), c.conversationId)))]) &&
        (topic != Greeting ==>
          request == Some(StreamRequest(gemini.model, userMessage, EffectiveTone(c.tone))) &&
          sent == old(sent) + ReplyEmissions(socket, upstream, gemini.extract, c.conversationId))
    {
      if socket !in conversations {
        sent := sent + [Emission(socket, Error(NoConversation))];
        return None;
      }
      var conversation := conversations[socket];
      var topic := DetectTopic(userMessage);
      conversation := conversation.(lastTopic := topic, messageCount := conversation.messageCount + 1);
      conversations := conversations[socket := conversation];
      request := Answer(socket, conversation, userMessage, topic, pick, upstream);
    }

    /** The reply part of `audio_input` once the topic is recorded: small talk for a greeting, Gemini otherwise. */
    method Answer(socket: SocketId, conversation: Conversation, userMessage: string, topic: string,
                  pick: GreetingIndex, upstream: StreamUpstream)
      returns (request: Option<GenerationRequest>)
      modifies this`sent
      ensures topic == Greeting ==>
        request == None &&
        sent == old(sent) + [Emission(socket, AiResponseStream(TextFragment(SmallTalkResponse(pick), conversation.conversationId)))]
      ensures topic != Greeting ==>
        request == Some(StreamRequest(gemini.model, userMessage, EffectiveTone(conversation.tone))) &&
        sent == old(sent) + ReplyEmissions(socket, upstream, gemini.extract, conversation.conversationId)
    {
      if topic == Greeting {
        sent := sent + [Emission(socket, AiResponseStream(TextFragment(SmallTalkResponse(pick), conversation.conversationId)))];
        return None;
      }
      var tone := EffectiveTone(conversation.tone);
      var posted, fragments, ok := gemini.SendMessage(userMessage, conversation.conversationId, tone, upstream);
      var failure := if ok then [] else [Emission(socket, Error(VoiceInputFailed))];
      var reply := StreamEmissions(socket, fragments) + failure;
      assert reply == ReplyEmissions(socket, upstream, gemini.extract, conversation.conversationId);
      sent := sent + reply;
      request := Some(posted);
    }

    /**
      `audio_input`: the payload is ignored and the fixed utterance is used,
      so an active conversation is always recorded under "RV400 features" and
      always answered by Gemini, never by small talk.
     */
    method AudioInput(socket: SocketId, pick: GreetingIndex, upstream: StreamUpstream)
      returns (request: Option<GenerationRequest>)
      requires Valid()
      modifies this
      ensures Valid()
      ensures socket !in old(conversations) ==>
        conversations == old(conversations) && request == None &&
        sent == old(sent) + [Emission(socket, Error(NoConversation))]
      ensures socket in old(conversations) ==>
        var c := old(conversations)[socket];
        conversations == old(conversations)[socket := c.(lastTopic := "RV400 features", messageCount := c.messageCount + 1)] &&
        request == Some(StreamRequest(gemini.model, PlaceholderUtterance, EffectiveTone(c.tone))) &&
        sent == old(sent) + ReplyEmissions(socket, upstream, gemini.extract, c.conversationId)
    {
      PlaceholderIsNotSmallTalk();
      request := HandleUtterance(socket, PlaceholderUtterance, pick, upstream);
    }

    /**
      `interrupt`: without an entry the socket gets an error; otherwise it gets
      the interruption answer for its conversation. The table is unchanged.
     */
    method Interrupt(socket: SocketId, reply: InterruptReply) returns (request: Option<GenerationRequest>)
      requires Valid()
      modifies this`sent
      ensures Valid()
      ensures socket !in conversations ==>
        request == None && sent == old(sent) + [Emission(socket, Error(NoConversation))]
      ensures socket in conversations ==>
        var id := conversations[socket].conversationId;
        request == Some(InterruptionRequest(gemini.model, id)) &&
        sent == old(sent) + [Emission(socket, InterruptionHandled(HandleInterruption(id, reply), id))]
    {
      if socket !in conversations {
        sent := sent + [Emission(socket, Error(NoConversation))];
        return None;
      }
      var id := conversations[socket].conversationId;
      request := Some(InterruptionRequest(gemini.model, id));
      sent := sent + [Emission(socket, InterruptionHandled(HandleInterruption(id, reply), id))];
    }

    /** `end_conversation`: drops the entry, if any, and always confirms. */
    method EndConversation(socket: SocketId)
      requires Valid()
      modifies this
      ensures Valid()
      ensures conversations == old(conversations) - {socket}
      ensures sent == old(sent) + [Emission(socket, ConversationEnded)]
    {
      conversations := conversations - {socket};
      sent := sent + [Emission(socket, ConversationEnded)];
    }

    /** `disconnect`: drops the entry, if any, silently. */
    method Disconnect(socket: SocketId)
      requires Valid()
      modifies this`conversations
      ensures Valid()
      ensures conversations == old(conversations) - {socket}
    {
      conversations := conversations - {socket};
    }

    /** `tone_preference`: stores the given tone, unvalidated, on an existing entry; nothing is emitted. */
    method TonePreference(socket: SocketId, tone: Option<string>)
      requires Valid()
      modifies this`conversations
      ensures Valid()
      ensures socket in old(conversations) ==>
        conversations == old(conversations)[socket := old(conversations)[socket].(tone := tone)]
      ensures socket !in old(conversations) ==> conversations == old(conversations)
    {
      if socket in conversations {
        conversations := conversations[socket := conversations[socket].(tone := tone)];
      }
    }
  }

  /**
    A tone preference does not survive a restart: after "detailed" the reply
    is capped at 200 tokens, and after `start_conversation` again the
    next one falls back to the concise cap of 120.
   */
  method RestartForgetsTone(extract: Extractor, socket: SocketId, upstream: StreamUpstream)
    returns (before: int, after: int)
    ensures before == 200 && after == 120
  {
    var client := new GeminiClient(extract);
    var server := new ConversationServer(client);
    server.StartConversation(socket, true, "1", 0);
    server.TonePreference(socket, Some(Detailed));
    var first := server.AudioInput(socket, 0, upstream);
    before := first.value.config.maxOutputTokens;
    server.StartConversation(socket, true, "2", 1);
    var second := server.AudioInput(socket, 0, upstream);
    after := second.value.config.maxOutputTokens;
  }

  /**
    The tone is not validated: an unknown tone is stored and read back as
    itself, and it composes the same request as "concise".
   */
  method UnknownToneIsConcise(extract: Extractor, socket: SocketId, tone: string, upstream: StreamUpstream)
    returns (stored: Option<string>, request: Option<GenerationRequest>)
    requires tone != Detailed
    ensures stored == Some(tone)
    ensures request == Some(StreamRequest(DefaultModel, PlaceholderUtterance, ConciseTone))
  {
    var client := new GeminiClient(extract);
    var server := new ConversationServer(client);
    server.StartConversation(socket, true, "1", 0);
    server.TonePreference(socket, Some(tone));
    stored := server.conversations[socket].tone;
    request := server.AudioInput(socket, 0, upstream);
    OtherTonesAreConcise(PlaceholderUtterance, tone);
  }
}
