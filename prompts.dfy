/**
  Prompt and generation-config composition of `GeminiLiveAPI.sendMessage`:
  a Devanagari test picks the language hint, the tone picks the style
  instructions and the output-token ceiling, and the user message closes the
  prompt.
 */
module Prompts {
  import opened Text

  /** The `generationConfig` object; the two real numbers are passed through unchanged. */
  datatype GenerationConfig = GenerationConfig(temperature: real, topK: int, topP: real, maxOutputTokens: int)

  /** A composed prompt with its generation parameters. */
  datatype Prompt = Prompt(text: string, config: GenerationConfig)

  /** A character of the Devanagari block, U+0900 to U+097F (`/[ऀ-ॿ]/`). */
  predicate IsDevanagari(c: char)
  {
    '\U{0900}' <= c <= '\U{097F}'
  }

  predicate HasDevanagari(message: string)
  {
    exists i :: 0 <= i < |message| && IsDevanagari(message[i])
  }

  const RespondIn := "Respond in "
  const HindiHint := RespondIn + "Hindi" + " if the user's message is in Hindi, otherwise English."
  const EnglishHint := RespondIn + "English."

  /** The language hint: Hindi exactly when the message holds a Devanagari character. */
  function LanguageHint(message: string): (hint: string)
    ensures hint == HindiHint <==> HasDevanagari(message)
    ensures hint == EnglishHint <==> !HasDevanagari(message)
  {
    if HasDevanagari(message) then HindiHint else EnglishHint
  }

  const Detailed := "detailed"
  const DetailedStyle := "Provide comprehensive but focused information. Include 2-3 key points and a relevant follow-up question."
  const ConciseStyle := "Keep responses very concise (1-2 sentences max). Focus on the most essential information only."

  /** The style instructions: the detailed block only for the exact tone "detailed", the concise block for any other value. */
  function ToneInstructions(tone: string): (style: string)
    ensures style == DetailedStyle <==> tone == Detailed
    ensures style == ConciseStyle <==> tone != Detailed
  {
    if tone == Detailed then DetailedStyle else ConciseStyle
  }

  /** `maxOutputTokens`: 200 exactly for "detailed", 120 for every other value. */
  function MaxTokens(tone: string): (limit: int)
    ensures limit == 200 <==> tone == Detailed
    ensures limit == 120 <==> tone != Detailed
  {
    if tone == Detailed then 200 else 120
  }

  /** The persona text before the language hint. */
  const PersonaOpening := "You are Rev, Revolt Motors' assistant. Be warm, humble, and conversational. Use short, friendly sentences and everyday words. When it helps, ask a brief follow-up to clarify needs. "

  /** The scope restriction and fixed style rules between the language hint and the tone instructions. */
  const PersonaRules := " Stay strictly on Revolt Motors vehicles, features, pricing, service, availability, warranty, and company info; if asked anything else, politely say you can only help with Revolt Motors topics and suggest a relevant alternative. If interrupted, quickly summarize where you stopped and ask how to continue.\n\nTone: friendly, concise, humble.\nRole: Revolt Motors-only.\nFollow-ups: 1 short question max when needed.\nPrioritize the 1-2 most helpful facts first. Avoid long lists. Offer a relevant next step.\nResponse Style: "

  /** The fixed system block between the tone instructions and the user turn. */
  const SystemBlock := "\n\nSystem:\nTone: friendly, concise, humble.\nRole: Revolt Motors-only.\nFollow-ups: 1 short question max when needed.\n\n"

  /** The label that opens the user turn. */
  const UserLabel := "User:\n"

  /**
    The prompt and parameters `sendMessage` posts: persona, language hint,
    rules, tone instructions, the system block, then "User:" and the message
    itself.
   */
  function ComposePrompt(message: string, tone: string): (p: Prompt)
    ensures StartsWith(p.text, PersonaOpening + LanguageHint(message) + PersonaRules + ToneInstructions(tone))
    ensures EndsWith(p.text, UserLabel + message)
    ensures p.config == GenerationConfig(0.7, 40, 0.9, MaxTokens(tone))
  {
    var head := PersonaOpening + LanguageHint(message) + PersonaRules + ToneInstructions(tone);
    StartsWithAppend(head, SystemBlock, UserLabel + message);
    EndsWithAppend(head + SystemBlock, UserLabel + message);
    Prompt((head + SystemBlock) + (UserLabel + message), GenerationConfig(0.7, 40, 0.9, MaxTokens(tone)))
  }

  /** The prompt opens with the Hindi hint exactly when the message holds a Devanagari character. */
  lemma {:induction false} PromptHintsHindiExactly(message: string, tone: string)
    ensures StartsWith(ComposePrompt(message, tone).text, PersonaOpening + HindiHint) <==> HasDevanagari(message)
  {
    var text := ComposePrompt(message, tone).text;
    var hint := LanguageHint(message);
    StartsWithShorter(text, PersonaOpening + hint + PersonaRules, ToneInstructions(tone));
    StartsWithShorter(text, PersonaOpening + hint, PersonaRules);
    var n := |PersonaOpening|;
    assert (PersonaOpening + HindiHint)[n + 11] == HindiHint[11] == 'H';
    assert (PersonaOpening + EnglishHint)[n + 11] == EnglishHint[11] == 'E';
    if !HasDevanagari(message) && StartsWith(text, PersonaOpening + HindiHint) {
      PrefixesAgree(text, PersonaOpening + HindiHint, PersonaOpening + EnglishHint, n + 11);
    }
  }

  /** Every tone other than "detailed" (a typo, an empty string, anything) composes the same prompt as "concise". */
  lemma OtherTonesAreConcise(message: string, tone: string)
    requires tone != Detailed
    ensures ComposePrompt(message, tone) == ComposePrompt(message, "concise")
  {
  }
}
