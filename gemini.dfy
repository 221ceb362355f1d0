/**
  The Gemini client (`GeminiLiveAPI`): the current model, the conversation
  id, the streaming `sendMessage` and the one-shot interruption reply. The
  HTTP calls are replaced by what they returned: whether the probe request
  succeeded, the chunks of the event stream and how it ended, and the shape
  of the interruption reply.
 */
module Gemini {
  import opened Wrappers
  import opened Text
  import opened EventStream
  import opened Prompts

  /** The model names `setModel` accepts and `getModelInfo` lists, in that order. */
  const AvailableModels: seq<string> := ["gemini-2.0-flash-exp", "gemini-2.0-flash", "gemini-1.5-flash", "gemini-1.5-pro"]
  const DefaultModel := "gemini-1.5-flash"
  const InvalidModelError := "Invalid model"

  /** One request to the generation endpoint: the model in its URL, whether it streams, the prompt and the parameters. */
  datatype GenerationRequest = GenerationRequest(model: string, streaming: bool, prompt: string, config: GenerationConfig)

  /** What the streaming call produced: the POST itself failed, or a stream delivered `chunks` and then ended (`end`) or failed (`error`). */
  datatype StreamUpstream = PostFailed | Streamed(chunks: seq<string>, streamFailed: bool)

  /**
    What the interruption call produced: the POST failed; the reply had no
    first candidate; it had one without `content.parts[0]` (reading it
    throws); or it had one whose `text` is `text` (None when absent). The
    source returns any `text` value as it is; one that is not a string has no
    counterpart here.
   */
  datatype InterruptReply = PostRejected | NoCandidate | BrokenCandidate | CandidateText(text: Option<string>)

  datatype SwitchResult = Switched(model: string) | Rejected(error: string)

  datatype ModelInfo = ModelInfo(currentModel: string, availableModels: seq<string>)

  /** The connection probe `createConversation` posts before it hands out an id. */
  const ProbeText := "Hello, start a conversation about Revolt Motors"
  const ProbeConfig := GenerationConfig(0.8, 40, 0.95, 200)

  /** The streaming request `sendMessage` posts for `message` in `tone`. */
  function StreamRequest(model: string, message: string, tone: string): GenerationRequest
  {
    var p := ComposePrompt(message, tone);
    GenerationRequest(model, true, p.text, p.config)
  }

  /** What `sendMessage` posts: a streaming call to the current model, ending with the user turn, capped by the tone's ceiling. */
  lemma StreamRequestShape(model: string, message: string, tone: string)
    ensures var r := StreamRequest(model, message, tone);
      r.model == model && r.streaming &&
      EndsWith(r.prompt, UserLabel + message) &&
      r.config.maxOutputTokens == MaxTokens(tone)
  {
  }

  const DefaultTopic := "Revolt Motors vehicles"

  /** `getLastTopic`: the same topic for every conversation; its keyword table is never consulted. */
  function GetLastTopic(conversationId: string): (topic: string)
    ensures topic == DefaultTopic && topic != ""
  {
    DefaultTopic
  }

  /** `topic || 'Revolt Motors'`. */
  function OrRevoltMotors(topic: string): (named: string)
    ensures named != ""
    ensures topic == "" ==> named == "Revolt Motors"
    ensures topic != "" ==> named == topic
  {
    if topic == "" then "Revolt Motors" else topic
  }

  const InterruptedOpening := "You were interrupted while talking about "
  const InterruptedClosing := ". Quickly summarize where you stopped and ask how to continue. Keep it to 1-2 sentences max."
  const InterruptionConfig := GenerationConfig(0.7, 40, 0.9, 80)

  /**
    The non-streaming request `handleInterruption` posts: it always names the
    default topic, whatever the conversation, and caps the reply at 80 tokens.
   */
  function InterruptionRequest(model: string, conversationId: string): (r: GenerationRequest)
    ensures r.prompt == InterruptedOpening + DefaultTopic + InterruptedClosing
    ensures !r.streaming && r.model == model && r.config.maxOutputTokens == 80
  {
    GenerationRequest(model, false, InterruptedOpening + OrRevoltMotors(GetLastTopic(conversationId)) + InterruptedClosing, InterruptionConfig)
  }

  const ContinueOpening := "No problem—do you want me to continue about "
  const ContinueClosing := " or focus on something else?"
  const RecoveryReply := "Got it—what would you like to know about Revolt Motors?"

  /**
    `handleInterruption`'s answer: the candidate's text as it is (possibly
    absent), the offer to continue about the default topic when there is no
    candidate, and the fixed recovery line when the call or the reading of
    the candidate fails. It never fails itself.
   */
  function HandleInterruption(conversationId: string, reply: InterruptReply): (message: Option<string>)
    ensures reply.CandidateText? ==> message == reply.text
    ensures reply.NoCandidate? ==> message == Some(ContinueOpening + DefaultTopic + ContinueClosing)
    ensures reply.PostRejected? || reply.BrokenCandidate? ==> message == Some(RecoveryReply)
    ensures !reply.CandidateText? ==> message.Some? && message.value != ""
  {
    match reply
    case CandidateText(text) => text
    case NoCandidate => Some(ContinueOpening + OrRevoltMotors(GetLastTopic(conversationId)) + ContinueClosing)
    case _ => Some(RecoveryReply)
  }

  /** The interruption answer depends only on the reply, never on which conversation was interrupted. */
  lemma InterruptionIgnoresConversation(a: string, b: string, model: string, reply: InterruptReply)
    ensures InterruptionRequest(model, a) == InterruptionRequest(model, b)
    ensures HandleInterruption(a, reply) == HandleInterruption(b, reply)
  {
  }

  class GeminiClient {
    /** The model named in every request URL. */
    var model: string
    /** The id of the last conversation created, if any. */
    var conversationId: Option<string>
    /** `JSON.parse` of one event payload followed by `candidates[0].content.parts[0].text`. */
    const extract: Extractor

    ghost predicate Valid()
      reads this
    {
      model in AvailableModels
    }

    constructor (extract: Extractor)
      ensures Valid()
      ensures model == DefaultModel && conversationId == None && this.extract == extract
    {
      model := DefaultModel;
      conversationId := None;
      this.extract := extract;
    }

    /**
      `createConversation`: posts the probe; when it succeeds the id is the
      clock reading `now` as a string, otherwise nothing changes and the call
      fails.
     */
    method CreateConversation(probeOk: bool, now: string) returns (probe: GenerationRequest, id: Option<string>)
      modifies this`conversationId
      ensures probe == GenerationRequest(model, false, ProbeText, ProbeConfig)
      ensures probeOk ==> id == Some(now) && conversationId == id
      ensures !probeOk ==> id == None && conversationId == old(conversationId)
    {
      probe := GenerationRequest(model, false, ProbeText, ProbeConfig);
      if probeOk {
        conversationId := Some(now);
        id := conversationId;
      } else {
        id := None;
      }
    }

    /**
      `sendMessage`: posts the composed prompt, then decodes the stream one
      `data` event at a time and reports every text fragment, tagged with
      `callConversationId`. It succeeds when the stream ends and fails when
      the POST or the stream fails; fragments reported before a stream
      failure stay reported.
     */
    method SendMessage(message: string, callConversationId: string, tone: string, upstream: StreamUpstream)
      returns (request: GenerationRequest, fragments: seq<Fragment>, ok: bool)
      ensures request == StreamRequest(model, message, tone)
      ensures upstream.PostFailed? ==> fragments == [] && !ok
      ensures upstream.Streamed? ==>
        fragments == FeedAll(upstream.chunks, extract, callConversationId).emitted && ok == !upstream.streamFailed
      ensures forall i :: 0 <= i < |fragments| ==>
        fragments[i].conversationId == callConversationId && fragments[i].content != ""
    {
      request := StreamRequest(model, message, tone);
      if upstream.PostFailed? {
        return request, [], false;
      }
      var chunks := upstream.chunks;
      var decoder := new LineDecoder(callConversationId, extract);
      var i := 0;
      while i < |chunks|
        invariant 0 <= i <= |chunks|
        invariant DecoderState(decoder.buffer, decoder.emitted) == FeedAll(chunks[..i], extract, callConversationId)
      {
        decoder.Feed(chunks[i]);
        assert chunks[..i + 1][..i] == chunks[..i];
        i := i + 1;
      }
      assert chunks[..|chunks|] == chunks;
      fragments := decoder.emitted;
      ok := !upstream.streamFailed;
    }

    /** `setModel`: switches to a listed model and rejects any other name, leaving the model unchanged. */
    method SetModel(name: string) returns (result: SwitchResult)
      requires Valid()
      modifies this`model
      ensures Valid()
      ensures name in AvailableModels ==> result == Switched(name) && model == name
      ensures name !in AvailableModels ==> result == Rejected(InvalidModelError) && model == old(model)
    {
      if name in AvailableModels {
        model := name;
        result := Switched(model);
      } else {
        result := Rejected(InvalidModelError);
      }
    }

    /** `getModelInfo`: the current model, always one of the listed models. */
    function GetModelInfo(): (info: ModelInfo)
      reads this
      requires Valid()
      ensures info.currentModel == model && info.availableModels == AvailableModels
      ensures info.currentModel in info.availableModels
    {
      ModelInfo(model, AvailableModels)
    }
  }
}
