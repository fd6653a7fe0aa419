/** The bot's configuration and one turn of the weather conversation: merge
    the extracted context into the user's stored one, answer, and clear the
    entry when the answer ends the request. */
module WeatherBot {
  import opened Wrappers
  import opened DialogContext
  import opened EntityExtractors
  import opened Intents

  /** The weather extractor: both Natasha extractors, then both handcrafted. */
  const WeatherPipeline := Sequential([NatashaDate, NatashaLocation, HandcraftedDate, HandcraftedLocation])

  const GreetingIntent := Intent(Greeting, None)
  const EndingIntent := Intent(Ending, None)
  const WeatherReportIntent := Intent(WeatherReport, Some(WeatherPipeline))

  /** Neither the greeting nor the farewell intent owns an extractor, and the
      weather intent owns the four-step extractor, in that order. */
  lemma IntentConfiguration()
    ensures GreetingIntent.entityExtractor.None? && EndingIntent.entityExtractor.None?
    ensures WeatherReportIntent.entityExtractor == Some(Sequential([NatashaDate, NatashaLocation, HandcraftedDate, HandcraftedLocation]))
  {
  }

  /** On an incomplete context all four extractors run (it cannot become
      complete earlier: the date is `None` after the first step and the city
      after the second), and the result depends only on the query: the
      handcrafted location rule and the fixed handcrafted date. */
  lemma WeatherPipelineOnIncomplete(query: string, s: Slots)
    requires !IsComplete(s)
    ensures Steps(WeatherPipeline.extractors, query, s) == 4
    ensures Extract(WeatherPipeline, query, s) ==
      Slots(HandcraftedLocationOf(query).0, HandcraftedLocationOf(query).1, Some(HandcraftedDateValue))
  {
  }

  /** A complete context passes through the weather extractor unchanged. */
  lemma WeatherPipelineOnComplete(query: string, s: Slots)
    requires IsComplete(s)
    ensures Extract(WeatherPipeline, query, s) == s
  {
  }

  /** Whatever it starts from, the weather extractor's result has a date. */
  lemma WeatherPipelineSetsDate(query: string, s: Slots)
    ensures Extract(WeatherPipeline, query, s).date.Some?
  {
    if !IsComplete(s) {
      WeatherPipelineOnIncomplete(query, s);
    }
  }

  /** One weather turn on slot values: the reply, and what stays stored for
      the user. A stored context is never complete after a turn: it is either
      cleared or still waiting for a slot. */
  function Turn(prior: Slots, extracted: Slots): (r: (Reply, Slots))
    ensures !IsComplete(r.1)
    ensures r.0 == GetResponse(Merge(prior, extracted)).1
    ensures IsComplete(Merge(prior, extracted)) ==> r.1 == EmptySlots
    ensures !IsComplete(Merge(prior, extracted)) ==> r.1 == Merge(prior, extracted)
  {
    var merged := Merge(prior, extracted);
    var (shouldClear, response) := GetResponse(merged);
    (response, if shouldClear then EmptySlots else merged)
  }

  /** `weather_report_handler` with the messaging left out: merges the
      extracted context into the chat's stored context, computes the
      response, and resets the entry when the response is terminal. Only the
      entry of `chatId` changes. */
  method WeatherReportHandler(storage: DialogContextStorage, chatId: UserId, newContext: WeatherReportContext)
    returns (reply: Reply)
    requires storage.Valid()
    modifies storage, storage.userContext.Values
    ensures storage.Valid()
    ensures storage.userContext.Keys == old(storage.userContext.Keys) + {chatId}
    ensures forall v :: v in old(storage.userContext) && v != chatId ==> storage.userContext[v] == old(storage.userContext[v])
    ensures reply == Turn(Prior(old(storage.Contents()), chatId), old(newContext.Value())).0
    ensures (!IsComplete(Merge(Prior(old(storage.Contents()), chatId), old(newContext.Value()))) &&
             chatId in old(storage.userContext))
      ==> storage.userContext[chatId] == old(storage.userContext[chatId])
    ensures (IsComplete(Merge(Prior(old(storage.Contents()), chatId), old(newContext.Value()))) ||
             chatId !in old(storage.userContext))
      ==> fresh(storage.userContext[chatId])
    ensures storage.Contents() ==
      old(storage.Contents())[chatId := Turn(Prior(old(storage.Contents()), chatId), old(newContext.Value())).1]
  {
    var got := storage.GetContext(chatId, Some(Weather(newContext)));
    var currentContext := got.value;
    assert currentContext.Value() == storage.Contents()[chatId];
    var (shouldClearContext, response) := GetResponse(currentContext.Value());
    if shouldClearContext {
      storage.ClearContext(chatId);
    }
    reply := response;
  }

  /** With the weather extractor's output merged in, a turn never asks for
      the date: the merged context always has one. */
  lemma TurnNeverAsksForDate(prior: Slots, query: string, initial: Slots)
    ensures Turn(prior, Extract(WeatherPipeline, query, initial)).0 != Text(AskDate)
  {
    WeatherPipelineSetsDate(query, initial);
  }

  /** What stays stored after such a turn never has a city. */
  lemma TurnStoresNoCity(prior: Slots, query: string, initial: Slots)
    ensures Turn(prior, Extract(WeatherPipeline, query, initial)).1.cityName.None?
  {
    WeatherPipelineSetsDate(query, initial);
  }

  /** From a stored context with no city and an incomplete starting context,
      a turn either asks for the city or fetches the weather for a known city:
      the unknown-location reply cannot occur. */
  lemma TurnReplyFromNoCity(prior: Slots, query: string, initial: Slots)
    requires prior.cityName.None? && !IsComplete(initial)
    ensures var reply := Turn(prior, Extract(WeatherPipeline, query, initial)).0;
      reply == Text(AskCity) || (reply.Fetch? && reply.cityName in AvailableCities)
  {
    WeatherPipelineOnIncomplete(query, initial);
  }
}
