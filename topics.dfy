/**
  The topic router of the conversation server (server.js): `detectTopic`, an
  ordered keyword scan over the lower-cased utterance, and
  `generateSmallTalkResponse`, a pick from three fixed greetings.
 */
module Topics {
  import opened Wrappers
  import opened Text

  const Greeting := "greeting"
  const GeneralInquiry := "general inquiry"

  /** Keyword to topic label, in declaration order; the first keyword found wins. */
  const TopicKeywords: seq<(string, string)> := [
    ("rv400", "RV400 features"),
    ("rv300", "RV300 features"),
    ("price", "pricing"),
    ("cost", "pricing"),
    ("range", "battery range"),
    ("battery", "battery and charging"),
    ("charging", "charging"),
    ("service", "service and maintenance"),
    ("warranty", "warranty"),
    ("test ride", "test ride availability"),
    ("availability", "availability"),
    ("dealer", "dealer locations"),
    ("hi", Greeting),
    ("hello", Greeting),
    ("how are you", Greeting)
  ]

  /** Every label `DetectTopic` can return. */
  const TopicOutcomes: set<string> := {
    "RV400 features", "RV300 features", "pricing", "battery range",
    "battery and charging", "charging", "service and maintenance", "warranty",
    "test ride availability", "availability", "dealer locations", Greeting,
    GeneralInquiry
  }

  /** The utterance the server uses in place of speech recognition. */
  const PlaceholderUtterance := "Tell me about RV400 features"

  /** Keyword `i` occurs in `message` and no earlier keyword does. */
  predicate IsFirstKeyword(message: string, i: int)
  {
    && 0 <= i < |TopicKeywords|
    && Contains(message, TopicKeywords[i].0)
    && forall j :: 0 <= j < i ==> !Contains(message, TopicKeywords[j].0)
  }

  /** No keyword occurs in `message`. */
  predicate NoKeyword(message: string)
  {
    forall j :: 0 <= j < |TopicKeywords| ==> !Contains(message, TopicKeywords[j].0)
  }

  /** The loop over `Object.entries(topicKeywords)` with its early return: the index of the first keyword that occurs. */
  function FirstKeyword(message: string, table: seq<(string, string)>): (r: Option<nat>)
    ensures r.Some? ==> r.value < |table| && Contains(message, table[r.value].0)
    ensures r.Some? ==> forall j :: 0 <= j < r.value ==> !Contains(message, table[j].0)
    ensures r.None? ==> forall j :: 0 <= j < |table| ==> !Contains(message, table[j].0)
  {
    if |table| == 0 then None
    else if Contains(message, table[0].0) then Some(0)
    else match FirstKeyword(message, table[1..])
      case None => None
      case Some(i) => Some(i + 1)
  }

  /** `detectTopic`: the label of the first keyword occurring in the lower-cased message, else "general inquiry". */
  function DetectTopic(userMessage: string): (topic: string)
    ensures topic == GeneralInquiry <==> NoKeyword(Lower(userMessage))
    ensures topic != GeneralInquiry ==>
      exists i :: IsFirstKeyword(Lower(userMessage), i) && topic == TopicKeywords[i].1
    ensures topic in TopicOutcomes
  {
    var message := Lower(userMessage);
    match FirstKeyword(message, TopicKeywords)
    case Some(i) =>
      assert TopicKeywords[i] in TopicKeywords;
      TopicKeywords[i].1
    case None => GeneralInquiry
  }

  /** The label is determined by the first keyword occurring, whatever else occurs later. */
  lemma DetectTopicFirstWins(userMessage: string, i: int)
    requires IsFirstKeyword(Lower(userMessage), i)
    ensures DetectTopic(userMessage) == TopicKeywords[i].1
  {
    var message := Lower(userMessage);
    if DetectTopic(userMessage) != GeneralInquiry {
      var k :| IsFirstKeyword(message, k) && DetectTopic(userMessage) == TopicKeywords[k].1;
      assert !(k < i) && !(i < k);
    }
  }

  /** Messages that agree after lower-casing get the same topic; in particular the topic ignores case. */
  lemma DetectTopicIgnoresCase(m1: string, m2: string)
    requires Lower(m1) == Lower(m2)
    ensures DetectTopic(m1) == DetectTopic(m2)
    ensures DetectTopic(m1) == DetectTopic(Lower(m1))
  {
    LowerIdempotent(m1);
  }

  /** "rv400" is declared before "price": a message mentioning both is about RV400 features. */
  lemma Rv400BeatsPrice(userMessage: string)
    requires Contains(Lower(userMessage), "rv400")
    ensures DetectTopic(userMessage) == "RV400 features"
  {
    DetectTopicFirstWins(userMessage, 0);
  }

  /** "price" is declared before "hi": a message with both (and no RV model) is about pricing. */
  lemma PriceBeatsGreeting(userMessage: string)
    requires Contains(Lower(userMessage), "price")
    requires !Contains(Lower(userMessage), "rv400") && !Contains(Lower(userMessage), "rv300")
    ensures DetectTopic(userMessage) == "pricing"
  {
    DetectTopicFirstWins(userMessage, 2);
  }

  /** The greeting label is only chosen when no product keyword occurs before the greeting words. */
  lemma GreetingMeansNoProductKeyword(userMessage: string)
    requires DetectTopic(userMessage) == Greeting
    ensures forall j :: 0 <= j < 12 ==> !Contains(Lower(userMessage), TopicKeywords[j].0)
    ensures exists j :: 12 <= j < 15 && Contains(Lower(userMessage), TopicKeywords[j].0)
  {
    var i :| IsFirstKeyword(Lower(userMessage), i) && Greeting == TopicKeywords[i].1;
    assert 12 <= i;
  }

  /** The fixed utterance of the server is classified as "RV400 features", so its small-talk branch is never taken. */
  lemma PlaceholderIsNotSmallTalk()
    ensures DetectTopic(PlaceholderUtterance) == "RV400 features"
    ensures DetectTopic(PlaceholderUtterance) != Greeting
  {
    var message := Lower(PlaceholderUtterance);
    assert message[14..19] == "rv400";
    assert StartsWith(message[14..], "rv400");
    Rv400BeatsPrice(PlaceholderUtterance);
  }

  // ---------------------------------------------------------------- small talk

  /** The three greetings `generateSmallTalkResponse` chooses from. */
  const SmallTalkReplies: seq<string> := [
    "Hi! I'm Rev. Are you interested in RV400 features, price, or test ride availability?",
    "Hello! I'm here to help with Revolt Motors. What would you like to know about our electric motorcycles?",
    "Hey there! I'm Rev from Revolt Motors. Should we talk about RV400 specs, pricing, or something else?"
  ]

  /** `Math.floor(Math.random() * 3)`: an index into the three greetings. */
  type GreetingIndex = i: int | 0 <= i < 3

  /** `generateSmallTalkResponse`, with the random pick as a parameter. */
  function SmallTalkResponse(pick: GreetingIndex): (reply: string)
    ensures reply in SmallTalkReplies
  {
    SmallTalkReplies[pick]
  }
}
