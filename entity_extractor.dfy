/** The extractors that fill a `WeatherReportContext` from a query, and the
    sequential extractor that runs a list of them until the context is
    complete. Every extractor overwrites the slots it is responsible for and
    hands back the very object it was given. */
module EntityExtractors {
  import opened Wrappers
  import opened DialogContext

  const SaintPetersburg := "Saint Petersburg"
  const Moscow := "Moscow"
  const RU := "RU"

  /** The date every handcrafted extraction writes. Its first two letters are
      the Latin `c` and `e`; the remaining five are Cyrillic. */
  const HandcraftedDateValue := "\U{63}\U{65}годня"

  const SpbMarker := "Санкт-Петербург"
  const MoscowMarker := "Москв"

  /** The extractor family; `Sequential` holds an ordered list of extractors. */
  datatype EntityExtractor =
    | NatashaDate
    | HandcraftedDate
    | NatashaLocation
    | HandcraftedLocation
    | Sequential(extractors: seq<EntityExtractor>)

  /** `sub` occurs in `s` starting at index `i`. */
  predicate OccursAt(s: string, sub: string, i: int) {
    0 <= i && i + |sub| <= |s| && s[i..i + |sub|] == sub
  }

  /** Python's `sub in s` on strings: a case-sensitive substring test. */
  predicate Contains(s: string, sub: string)
    ensures sub == [] ==> Contains(s, sub)
    ensures |sub| > |s| ==> !Contains(s, sub)
  {
    assert sub == [] ==> OccursAt(s, sub, 0);
    exists i | 0 <= i <= |s| - |sub| :: OccursAt(s, sub, i)
  }

  predicate IsSpb(query: string) {
    Contains(query, SpbMarker)
  }

  predicate IsMoscow(query: string) {
    Contains(query, MoscowMarker)
  }

  /** The city and state code the handcrafted location extractor writes. */
  function HandcraftedLocationOf(query: string): (r: (Option<string>, Option<string>))
    ensures r.0.Some? <==> r.1.Some?
    ensures r.0.Some? ==> r.0.value in AvailableCities && r.1 == Some(RU)
    ensures r.0.Some? <==> IsSpb(query) || IsMoscow(query)
  {
    if IsSpb(query) then (Some(SaintPetersburg), Some(RU))
    else if IsMoscow(query) then (Some(Moscow), Some(RU))
    else (None, None)
  }

  /** The slots an extractor leaves in the context it is handed. */
  function Extract(e: EntityExtractor, query: string, s: Slots): (r: Slots)
    ensures e.NatashaDate? || e.HandcraftedDate? ==> r.cityName == s.cityName && r.stateCode == s.stateCode
    ensures e.NatashaLocation? || e.HandcraftedLocation? ==> r.date == s.date
    ensures e.HandcraftedDate? ==> r.date.Some?
    ensures e.NatashaDate? ==> r.date.None?
    ensures e.NatashaLocation? ==> r.cityName.None?
    decreases e
  {
    match e
    case NatashaDate => s.(date := None)
    case HandcraftedDate => s.(date := Some(HandcraftedDateValue))
    case NatashaLocation => s.(cityName := None, stateCode := Some(RU))
    case HandcraftedLocation =>
      var (city, code) := HandcraftedLocationOf(query);
      s.(cityName := city, stateCode := code)
    case Sequential(es) => Pipeline(es, query, s)
  }

  /** The sequential extractor: before each extractor, stop if the context
      is complete; otherwise run it on the context the previous one returned. */
  function Pipeline(es: seq<EntityExtractor>, query: string, s: Slots): Slots
    decreases es
  {
    if es == [] || IsComplete(s) then s
    else Pipeline(es[1..], query, Extract(es[0], query, s))
  }

  /** How many extractors the sequential extractor invokes. */
  function Steps(es: seq<EntityExtractor>, query: string, s: Slots): (k: nat)
    ensures k <= |es|
    decreases es
  {
    if es == [] || IsComplete(s) then 0
    else 1 + Steps(es[1..], query, Extract(es[0], query, s))
  }

  /** Reference definition: every extractor of the list run in order, with no
      completeness check. */
  function RunAll(es: seq<EntityExtractor>, query: string, s: Slots): Slots
    decreases es
  {
    if es == [] then s else RunAll(es[1..], query, Extract(es[0], query, s))
  }

  /** The sequential extractor runs exactly the longest prefix of its list
      before whose every step the context was incomplete: its result is that
      prefix run unconditionally, and it stopped early only on a complete
      context. */
  lemma {:induction false} PipelineRunsUntilComplete(es: seq<EntityExtractor>, query: string, s: Slots)
    ensures Pipeline(es, query, s) == RunAll(es[..Steps(es, query, s)], query, s)
    ensures forall j :: 0 <= j < Steps(es, query, s) ==> !IsComplete(RunAll(es[..j], query, s))
    ensures Steps(es, query, s) < |es| ==> IsComplete(Pipeline(es, query, s))
    decreases es
  {
    if es == [] || IsComplete(s) {
      assert es[..0] == [];
    } else {
      var s' := Extract(es[0], query, s);
      PipelineRunsUntilComplete(es[1..], query, s');
      var k' := Steps(es[1..], query, s');
      assert es[..k' + 1][1..] == es[1..][..k'];
      forall j | 0 <= j < k' + 1
        ensures !IsComplete(RunAll(es[..j], query, s))
      {
        if j > 0 {
          assert es[..j][1..] == es[1..][..j - 1];
        } else {
          assert es[..j] == [];
        }
      }
    }
  }

  /** A context complete on entry comes back unchanged and no extractor runs. */
  lemma PipelineEarlyExit(es: seq<EntityExtractor>, query: string, s: Slots)
    requires IsComplete(s)
    ensures Pipeline(es, query, s) == s && Steps(es, query, s) == 0
  {
  }

  /** On a context that stays incomplete, every extractor runs, in order. */
  lemma {:induction false} PipelineRunsAllWhileIncomplete(es: seq<EntityExtractor>, query: string, s: Slots)
    requires forall j :: 0 <= j < |es| ==> !IsComplete(RunAll(es[..j], query, s))
    ensures Steps(es, query, s) == |es|
    ensures Pipeline(es, query, s) == RunAll(es, query, s)
  {
    PipelineRunsUntilComplete(es, query, s);
    assert es[..|es|] == es;
  }

  lemma NatashaDateClearsDate(query: string, s: Slots)
    ensures Extract(NatashaDate, query, s) == Slots(s.cityName, s.stateCode, None)
  {
  }

  lemma HandcraftedDateSetsLiteral(query: string, s: Slots)
    ensures Extract(HandcraftedDate, query, s) == Slots(s.cityName, s.stateCode, Some(HandcraftedDateValue))
  {
  }

  lemma NatashaLocationClearsCity(query: string, s: Slots)
    ensures Extract(NatashaLocation, query, s) == Slots(None, Some(RU), s.date)
  {
  }

  /** The handcrafted location rule: Saint Petersburg when its marker occurs,
      else Moscow when its marker occurs, else no city and no state code,
      overwriting whatever was there. */
  lemma HandcraftedLocationRule(query: string, s: Slots)
    ensures IsSpb(query) ==> Extract(HandcraftedLocation, query, s) == Slots(Some(SaintPetersburg), Some(RU), s.date)
    ensures !IsSpb(query) && IsMoscow(query) ==> Extract(HandcraftedLocation, query, s) == Slots(Some(Moscow), Some(RU), s.date)
    ensures !IsSpb(query) && !IsMoscow(query) ==> Extract(HandcraftedLocation, query, s) == Slots(None, None, s.date)
  {
  }

  /** Saint Petersburg wins when both markers occur. */
  lemma SpbWinsOverMoscow(query: string)
    requires IsSpb(query) && IsMoscow(query)
    ensures HandcraftedLocationOf(query) == (Some(SaintPetersburg), Some(RU))
  {
  }

  /** Both markers can occur in one query, which then yields Saint Petersburg. */
  lemma BothMarkersCanOccur()
    ensures IsSpb("Москва или Санкт-Петербург") && IsMoscow("Москва или Санкт-Петербург")
    ensures HandcraftedLocationOf("Москва или Санкт-Петербург") == (Some(SaintPetersburg), Some(RU))
  {
    var q := "Москва или Санкт-Петербург";
    assert OccursAt(q, MoscowMarker, 0);
    assert OccursAt(q, SpbMarker, 11);
  }

  /** The match is case-sensitive: a lower-case city name is not recognised. */
  lemma LocationMatchIsCaseSensitive()
    ensures HandcraftedLocationOf("Москва") == (Some(Moscow), Some(RU))
    ensures HandcraftedLocationOf("москва") == (None, None)
  {
    assert OccursAt("Москва", MoscowMarker, 0);
    var q := "москва";
    forall i | 0 <= i <= |q| - |MoscowMarker|
      ensures !OccursAt(q, MoscowMarker, i)
    {
      assert q[i..i + |MoscowMarker|][0] != MoscowMarker[0];
    }
  }

  /** No slot holds the empty string. */
  predicate NoEmptySlot(s: Slots) {
    s.cityName != Some("") && s.stateCode != Some("") && s.date != Some("")
  }

  /** Extractors never write an empty string. */
  lemma {:induction false} ExtractKeepsNoEmptySlot(e: EntityExtractor, query: string, s: Slots)
    requires NoEmptySlot(s)
    ensures NoEmptySlot(Extract(e, query, s))
    decreases e
  {
    match e
    case Sequential(es) => PipelineKeepsNoEmptySlot(es, query, s);
    case _ =>
  }

  lemma {:induction false} PipelineKeepsNoEmptySlot(es: seq<EntityExtractor>, query: string, s: Slots)
    requires NoEmptySlot(s)
    ensures NoEmptySlot(Pipeline(es, query, s))
    decreases es
  {
    if es != [] && !IsComplete(s) {
      ExtractKeepsNoEmptySlot(es[0], query, s);
      PipelineKeepsNoEmptySlot(es[1..], query, Extract(es[0], query, s));
    }
  }

  /** `get_context` of each extractor, run on the context object in place;
      the result is the object it was handed. */
  method GetContext(e: EntityExtractor, query: string, currentContext: WeatherReportContext)
    returns (r: WeatherReportContext)
    modifies currentContext
    ensures r == currentContext
    ensures currentContext.Value() == Extract(e, query, old(currentContext.Value()))
    decreases e
  {
    r := currentContext;
    match e
    case NatashaDate =>
      currentContext.date := None;
    case HandcraftedDate =>
      currentContext.date := Some(HandcraftedDateValue);
    case NatashaLocation =>
      currentContext.cityName := None;
      currentContext.stateCode := Some(RU);
    case HandcraftedLocation =>
      var cityName: Option<string> := None;
      var stateCode: Option<string> := None;
      if IsSpb(query) {
        cityName, stateCode := Some(SaintPetersburg), Some(RU);
      } else if IsMoscow(query) {
        cityName, stateCode := Some(Moscow), Some(RU);
      }
      currentContext.cityName := cityName;
      currentContext.stateCode := stateCode;
    case Sequential(es) =>
      var ctx := currentContext;
      for i := 0 to |es|
        invariant ctx == currentContext
        invariant Pipeline(es[i..], query, ctx.Value()) == Pipeline(es, query, old(currentContext.Value()))
      {
        if IsComplete(ctx.Value()) {
          break;
        }
        ctx := GetContext(es[i], query, ctx);
      }
  }
}
