# Weather bot slot-filling core, modelled in Dafny

This project models the dialogue state of a small Telegram weather bot that
answers in Russian. A `WeatherReportContext` holds three optional string
slots: `city_name`, `state_code` and `date`. `update` merges a newer context
into it in place with Python `or` semantics. `is_complete` requires a city
and a date. `get_response` derives the next step from the slots: ask for the
city, ask for the date, report an unknown location, or fetch the weather.

A `DialogContextStorage` keeps one context object per chat. It creates an
empty one on first access, merges into it in place, and resets it on clear.
The extractors overwrite slots of the context they are handed. The
sequential extractor runs a list of them and stops as soon as the context
is complete. One weather turn merges the extracted context into the chat's
stored one, answers, and clears the entry when the answer is terminal.
Besides the dialogue state, the model covers the plural suffix of "градус"
chosen by the response formatter.

Modules (one per core source file, plus `Wrappers`):

- `Wrappers` (`wrappers.dfy`): `Option` stands for Python's `None`, and
  `Result` for a raised exception.
- `DialogContext` (`dialog_context.dfy`): the `Slots` value, Python
  truthiness and `or`, `Merge`, `IsComplete` and `GetResponse`. Two classes,
  `WeatherReportContext` and `DialogContextStorage`, change their fields in
  place.
- `EntityExtractors` (`entity_extractor.dfy`): the extractor family as a
  datatype. `Extract` and `Pipeline` specify it, `RunAll` is a reference
  definition with no completeness check, and the recursive method
  `GetContext` mutates the context object.
- `Intents` (`intents.dfy`): `Accept`, taking the matcher as a parameter,
  and `ToContext`.
- `WeatherBot` (`weather_bot.dfy`): the configured intents and extractor
  order, `Turn` on slot values, and the stateful `WeatherReportHandler`.
- `ResponseFormatters` (`response_formatters.dfy`): `GetEnding` and the
  corrected `DegreeEnding`.

Facts about the code that the model keeps:

- The date is an arbitrary string, and nothing checks a date range.
- Extractors overwrite their slots unconditionally, whatever the context
  already holds.
- Merging keeps a slot only when it is truthy. A slot holding `""` is
  replaced, even by `None`, while `is_complete` counts `""` as present. So
  completion is not monotone in general (`EmptyCityIsLostOnMerge`). It is
  monotone for contexts with no empty slot (`MergeKeepsTruthyCompletion`),
  and the extractors never write one (`ExtractKeepsNoEmptySlot`).
- The handcrafted location extractor tests for the substrings
  "Санкт-Петербург" and "Москв", case-sensitively, and Saint Petersburg wins
  when both occur.
- The Natasha extractors do not inspect the query. `NatashaDate` sets the
  date to `None`, and `NatashaLocation` sets the city to `None` and the state
  code to "RU".
- The handcrafted date is the fixed string written at
  src/entity_extractor.py:30. Its first two letters are the Latin `c` and
  `e`; the model keeps them.

Consequences proved about the configured order (NatashaDate,
NatashaLocation, HandcraftedDate, HandcraftedLocation):

- On an incomplete context, all four extractors run and the result depends
  only on the query. A complete context passes through unchanged.
- The merged context of a turn always has a date, so a turn never asks for
  the date.
- A turn never leaves a city stored.

## Model

| member | source | states |
|---|---|---|
| `DialogContext.Truthy` | src/dialog_context.py:69-71 | Python truthiness of an optional string: `None` and `""` are false, every other string is true; characterised with `Or` by `MergeFillsOnlyAbsent` |
| `DialogContext.Or` | src/dialog_context.py:69-71 | Python's `a or b`: the result is one of the two operands, and it is `a` whenever `a` is truthy |
| `DialogContext.Merge` | src/dialog_context.py:69-71 | every slot of the merge comes from the receiver or from the new context, and a slot truthy in either is truthy in the result; the full per-slot rule is `MergeFillsOnlyAbsent` |
| `DialogContext.IsComplete` | src/dialog_context.py:75-77 | a city and a date are present, `""` included; its properties are `CompletionIgnoresStateCode`, `MergeKeepsTruthyCompletion` and `EmptyCityIsLostOnMerge` |
| `DialogContext.GetResponse` | src/dialog_context.py:41-59 | the first component is true exactly when the context is complete; no city gives the city prompt; a city and no date give the date prompt; a complete context with a city outside `AVAILABLE_CITIES` gives the unknown-location text; otherwise the outcome is a fetch keyed by the city and the state code |
| `DialogContext.EmptyAsksForCity` | src/dialog_context.py:31-43 | a freshly constructed context, with every slot `None`, is answered with the non-terminal city prompt |
| `DialogContext.MergeFillsOnlyAbsent` | src/dialog_context.py:69-71 | after `update`, each truthy slot keeps its value, and any other slot (`None` or `""`) takes the new context's value, whatever that is |
| `DialogContext.MergeIdempotent` | src/dialog_context.py:69-71 | updating twice with the same context gives the same slots as updating once |
| `DialogContext.MergeSelf` | src/dialog_context.py:69-73 | updating a context with itself leaves its slots unchanged |
| `DialogContext.MergeKeepsTruthyCompletion` | src/dialog_context.py:69-77 | a complete context whose city and date are non-empty stays complete with the same city and date under any update |
| `DialogContext.EmptyCityIsLostOnMerge` | src/dialog_context.py:69-77 | a context with city `""` and a date is complete, yet updating it with an empty context removes the city and makes it incomplete |
| `DialogContext.CompletionIgnoresStateCode` | src/dialog_context.py:75-77 | completeness does not depend on the state code |
| `DialogContext.WeatherReportContext.constructor` | src/dialog_context.py:31-39 | the new context holds exactly the three given slots |
| `DialogContext.WeatherReportContext.Update` | src/dialog_context.py:65-73 | an argument of another kind gives a `TypeError` and leaves the receiver unchanged; otherwise the receiver's slots become the merge of its old slots with the argument's, the receiver itself is returned, and an argument that is a different object is not modified |
| `DialogContext.DialogContextStorage.constructor` | src/dialog_context.py:82-84 | the table starts with no entries |
| `DialogContext.DialogContextStorage.GetContext` | src/dialog_context.py:86-89 | the user gets an entry holding a fresh empty context if they had none; their stored object is returned, or the argument is merged into it in place, or a `TypeError` is returned for an argument of another kind (the entry is still created); other users keep their objects and slots; no entry is removed |
| `DialogContext.DialogContextStorage.ClearContext` | src/dialog_context.py:91-92 | the user's entry becomes a fresh empty context, other entries keep their objects and slots, and no entry is removed |
| `EntityExtractors.Contains` | src/entity_extractor.py:61-65 | Python's `sub in s`: the empty string occurs in every string, and no string occurs in a shorter one |
| `EntityExtractors.IsSpb` | src/entity_extractor.py:61-62 | the query contains "Санкт-Петербург"; used by `HandcraftedLocationOf` |
| `EntityExtractors.IsMoscow` | src/entity_extractor.py:64-65 | the query contains "Москв"; used by `HandcraftedLocationOf` |
| `EntityExtractors.HandcraftedLocationOf` | src/entity_extractor.py:47-65 | a city is found exactly when one of the two markers occurs; city and state code are set together, the city is then one of `AVAILABLE_CITIES` and the state code "RU" |
| `EntityExtractors.Extract` | src/entity_extractor.py:21-65 | the date extractors keep the city and state code and the location extractors keep the date; the handcrafted date extractor always sets a date, the Natasha date extractor always removes it, and the Natasha location extractor always removes the city |
| `EntityExtractors.Pipeline` | src/entity_extractor.py:73-79 | the sequential extractor; characterised against the reference `RunAll` by `PipelineRunsUntilComplete`, `PipelineEarlyExit` and `PipelineRunsAllWhileIncomplete` |
| `EntityExtractors.Steps` | src/entity_extractor.py:73-79 | the sequential extractor invokes at most as many extractors as its list holds |
| `EntityExtractors.PipelineRunsUntilComplete` | src/entity_extractor.py:73-79 | the sequential extractor's result is a prefix of its list run in order, each extractor on the previous one's result; the context was incomplete before every step of that prefix, and the extractor stopped early only on a complete context |
| `EntityExtractors.PipelineEarlyExit` | src/entity_extractor.py:74-76 | a context complete on entry is returned unchanged and no extractor runs |
| `EntityExtractors.PipelineRunsAllWhileIncomplete` | src/entity_extractor.py:74-78 | when the context stays incomplete before every step, every extractor runs, in list order |
| `EntityExtractors.NatashaDateClearsDate` | src/entity_extractor.py:21-24 | the Natasha date extractor sets the date to `None` whatever the query and the prior date, and keeps the other slots |
| `EntityExtractors.HandcraftedDateSetsLiteral` | src/entity_extractor.py:29-32 | the handcrafted date extractor sets the date to the fixed literal whatever the query, and keeps the other slots |
| `EntityExtractors.NatashaLocationClearsCity` | src/entity_extractor.py:37-42 | the Natasha location extractor sets the city to `None` and the state code to "RU" unconditionally, and keeps the date |
| `EntityExtractors.HandcraftedLocationRule` | src/entity_extractor.py:47-59 | the Saint Petersburg marker gives (Saint Petersburg, RU); otherwise the Moscow marker gives (Moscow, RU); otherwise (`None`, `None`), overwriting prior values; the date is kept |
| `EntityExtractors.SpbWinsOverMoscow` | src/entity_extractor.py:50-55 | every query holding both markers yields (Saint Petersburg, RU) |
| `EntityExtractors.BothMarkersCanOccur` | src/entity_extractor.py:50-55 | a concrete query holds both markers, and yields Saint Petersburg |
| `EntityExtractors.LocationMatchIsCaseSensitive` | src/entity_extractor.py:61-65 | "Москва" yields Moscow while the lower-case "москва" yields no city |
| `EntityExtractors.ExtractKeepsNoEmptySlot` | src/entity_extractor.py:21-65 | no extractor writes an empty string into a slot |
| `EntityExtractors.PipelineKeepsNoEmptySlot` | src/entity_extractor.py:73-79 | neither does the sequential extractor |
| `EntityExtractors.GetContext` | src/entity_extractor.py:21-79 | each extractor changes the context it is handed in place, as `Extract` specifies, and returns that same object |
| `Intents.Accept` | src/intents.py:34-52 | the weather intent accepts every message; the other kinds are characterised by `AcceptIsPatternMatch` |
| `Intents.WeatherReportAcceptsAll` | src/intents.py:49-52 | the weather intent accepts every message |
| `Intents.AcceptIsPatternMatch` | src/intents.py:23-46 | the greeting and farewell intents accept exactly when the matcher matches the message text against their fixed pattern lists |
| `Intents.AcceptReadsOnlyText` | src/intents.py:34-52 | two messages with the same text are accepted alike, whatever their other fields and whatever extractor the intent owns |
| `Intents.ToContext` | src/intents.py:16-20 | with no extractor, the result is `None` and the context is untouched; otherwise the result is the extractor's `get_context` on the query and the given context |
| `WeatherBot.IntentConfiguration` | src/weather_bot.py:19-28 | the greeting and farewell intents own no extractor; the weather intent owns the sequential extractor NatashaDate, NatashaLocation, HandcraftedDate, HandcraftedLocation |
| `WeatherBot.WeatherPipelineOnIncomplete` | src/weather_bot.py:21-28 | on an incomplete context the configured extractor runs all four steps, and its result has the handcrafted location of the query and the fixed handcrafted date, whatever the prior slots |
| `WeatherBot.WeatherPipelineOnComplete` | src/weather_bot.py:21-28 | the configured extractor returns a complete context unchanged |
| `WeatherBot.WeatherPipelineSetsDate` | src/weather_bot.py:21-28 | the configured extractor's result always has a date |
| `WeatherBot.Turn` | src/weather_bot.py:54-60 | the reply is `get_response` of the stored slots merged with the extracted ones; the entry is reset to empty exactly when that context is complete (terminal) and keeps the merged slots otherwise, so no complete context stays stored |
| `WeatherBot.WeatherReportHandler` | src/weather_bot.py:53-60 | the extracted context is merged into the chat's stored context, the reply is computed from the merged context, and the entry is reset when the reply is terminal; on a non-terminal reply an existing entry keeps its object, on a terminal reply or a first access the entry holds a fresh object; only the entry of the chat id changes |
| `WeatherBot.TurnNeverAsksForDate` | src/weather_bot.py:54-60 | when the extracted context comes from the configured extractor, a turn never replies with the date prompt |
| `WeatherBot.TurnStoresNoCity` | src/weather_bot.py:54-60 | after such a turn the stored context has no city |
| `WeatherBot.TurnReplyFromNoCity` | src/weather_bot.py:54-60 | from a stored context with no city and an extraction started on an incomplete context, the reply is the city prompt or a fetch for a known city, never the unknown-location text |
| `ResponseFormatters.GetEnding` | src/response_formaters.py:33-40 | the suffix is always "", "а" or "ов" |
| `ResponseFormatters.GetEndingByLastDigit` | src/response_formaters.py:35-40 | last digit 1 gives "" and nothing else does; last digit 2, 3 or 4 gives "а" and nothing else does; every other last digit gives "ов" |
| `ResponseFormatters.GetEndingPeriodic` | src/response_formaters.py:35 | adding 10 to the integer does not change the suffix |
| `ResponseFormatters.GetEndingExamples` | src/response_formaters.py:35-40 | 1 and 21 give ""; 2 and 34 give "а"; 0 and 5 give "ов" (teens and negative numbers are in the two lemmas below) |
| `ResponseFormatters.GetEndingMisdeclinesTeens` | src/response_formaters.py:35-39 | as written, 11 gets "" and 12 gets "а", where the Russian rule gives "ов" |
| `ResponseFormatters.GetEndingMisdeclinesNegatives` | src/response_formaters.py:35 | as written, -1 gets "ов" (Russian: ""), -2 gets "ов" (Russian: "а") and -8 gets "а" (Russian: "ов") |
| `ResponseFormatters.DegreeEnding` | src/response_formaters.py:33-40 | the corrected suffix is always "", "а" or "ов" |
| `ResponseFormatters.DegreeEndingIgnoresSign` | src/response_formaters.py:35 | the corrected suffix of a number and of its negation agree |
| `ResponseFormatters.DegreeEndingTeens` | src/response_formaters.py:35-39 | the corrected suffix of a number ending in 11 to 14 is "ов" |
| `ResponseFormatters.DegreeEndingAgreesOnNonNegative` | src/response_formaters.py:35-40 | away from the teens, the corrected suffix agrees with `get_ending` on non-negative numbers |

## Findings

| source | as written | input that shows it | evidently intended | confidence | as-written member | corrected member |
|---|---|---|---|---|---|---|
| src/response_formaters.py:35-39 | the suffix is chosen from the last digit alone | 11 gives "градус" and 12 gives "градуса" | numbers ending in 11 to 14 take "градусов" | high; not executed | `ResponseFormatters.GetEndingMisdeclinesTeens` | `ResponseFormatters.DegreeEndingTeens` |
| src/response_formaters.py:35 | Python's `%` maps a negative integer to the remainder of its floor division | -1 gives "градусов" and -8 gives "градуса" | a negative temperature takes the suffix of its absolute value ("-1 градус", "-8 градусов") | high; not executed | `ResponseFormatters.GetEndingMisdeclinesNegatives` | `ResponseFormatters.DegreeEndingIgnoresSign` |

## Left out

- The weather request in `get_response` (src/dialog_context.py:51-59) and the API key (src/utils.py:6) are left out. That branch is the abstract outcome `Fetch(city, state code)`. How the `q` parameter is formatted, including how `None` would print, is not modelled.
- The `json_to_user_answer` stub (src/dialog_context.py:61-63) has no body and is left out.
- The abstract `DialogContext` base class has one concrete kind. Any other object handed to `update` is the single value `Foreign`.
- The storage's empty-context factory is fixed to the `WeatherReportContext` constructor, the only factory the bot passes (src/weather_bot.py:17).
- The Telegram transport is left out (src/weather_bot.py:15, 31-68 and src/main.py:17-18). This covers handler registration and the order in which the library tries handlers, `send_message`, polling, the `/help` and `/start` commands and the catch-all unknown-intent handler.
- The configuration at src/weather_bot.py:22-27 passes extractor classes, not instances. `WeatherPipeline` holds the four extractors themselves.
- The handler at src/weather_bot.py:55 calls the extractor object with one argument, although the sequential extractor defines no such call. `WeatherReportHandler` takes the extracted context as an input instead, and the lemmas about turns quantify over the context the extraction starts from.
- `matches_any` and `to_separate_word_regex` are not part of this model. They are imported at src/intents.py:3 but not defined in src/utils.py. The matcher is the uninterpreted parameter `Matcher`, applied to the raw pattern lists.
- `from_json` and `try_get_json` (src/response_formaters.py:13-31) parse a foreign JSON payload with float fields, so they are left out. `GetEnding` takes the integer `int(num)` as input, so the float truncation is left out too.
- src/follow_ups.py picks a random follow-up, so it is left out. File reading and `json.load` in src/main.py and src/utils.py are left out.
- Concurrent messages from several users are not modelled. Each turn runs to completion on its own.
