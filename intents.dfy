/** The intents a chat message is classified into, and how an intent turns a
    query into a context through its extractor. */
module Intents {
  import opened Wrappers
  import opened DialogContext
  import opened EntityExtractors

  /** The parts of a chat message the bot reads. */
  datatype Message = Message(chatId: UserId, text: string)

  datatype IntentKind = Greeting | Ending | WeatherReport

  /** An intent of some kind, optionally owning an extractor. */
  datatype Intent = Intent(kind: IntentKind, entityExtractor: Option<EntityExtractor>)

  /** The greeting patterns, before `to_separate_word_regex` is applied. */
  const HelloExps: seq<string> := [
    "прив(а|(ет?))?", "здравствуй(те)?",
    "hello", "greet(ings)?", "hi",
    "добрый день", "доброе утро", "добрый вечер"
  ]

  /** The farewell patterns, before `to_separate_word_regex` is applied. */
  const ByeExps: seq<string> := ["пока", "bye", "good ?bye", "до ?свидания", "ciao"]

  /** `matches_any(text, patterns)`, including the pattern construction,
      left uninterpreted: it is a parameter of every acceptance test. */
  type Matcher = (string, seq<string>) -> bool

  /** `accept` of each intent kind. */
  function Accept(intent: Intent, message: Message, matchesAny: Matcher): (r: bool)
    ensures intent.kind == WeatherReport ==> r
  {
    match intent.kind
    case Greeting => matchesAny(message.text, HelloExps)
    case Ending => matchesAny(message.text, ByeExps)
    case WeatherReport => true
  }

  /** The weather intent accepts every message, whatever the matcher. */
  lemma WeatherReportAcceptsAll(intent: Intent, message: Message, matchesAny: Matcher)
    requires intent.kind == WeatherReport
    ensures Accept(intent, message, matchesAny)
  {
  }

  /** Greeting and farewell acceptance is exactly a match of the message text
      against their fixed pattern lists. */
  lemma AcceptIsPatternMatch(intent: Intent, message: Message, matchesAny: Matcher)
    ensures intent.kind == Greeting ==> (Accept(intent, message, matchesAny) <==> matchesAny(message.text, HelloExps))
    ensures intent.kind == Ending ==> (Accept(intent, message, matchesAny) <==> matchesAny(message.text, ByeExps))
  {
  }

  /** Acceptance reads only the text of a message, and not its extractor. */
  lemma AcceptReadsOnlyText(i1: Intent, i2: Intent, m1: Message, m2: Message, matchesAny: Matcher)
    requires i1.kind == i2.kind && m1.text == m2.text
    ensures Accept(i1, m1, matchesAny) == Accept(i2, m2, matchesAny)
  {
  }

  /** `to_context`: `None` when the intent has no extractor, and otherwise
      whatever its extractor's `get_context` returns for the query and the
      context it is handed. */
  method ToContext(intent: Intent, query: string, currentContext: WeatherReportContext)
    returns (r: Option<WeatherReportContext>)
    modifies currentContext
    ensures intent.entityExtractor.None? ==> r == None && unchanged(currentContext)
    ensures intent.entityExtractor.Some? ==> r == Some(currentContext)
    ensures intent.entityExtractor.Some? ==>
      currentContext.Value() == Extract(intent.entityExtractor.value, query, old(currentContext.Value()))
  {
    if intent.entityExtractor.None? {
      return None;
    }
    var c := GetContext(intent.entityExtractor.value, query, currentContext);
    r := Some(c);
  }
}
