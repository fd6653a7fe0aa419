/** The slot-filling state of one pending weather request
    (`WeatherReportContext`) and the per-user table that holds it
    (`DialogContextStorage`). */
module DialogContext {
  import opened Wrappers

  type UserId = int

  /** The value held by a `WeatherReportContext`: three optional string slots. */
  datatype Slots = Slots(cityName: Option<string>, stateCode: Option<string>, date: Option<string>)

  /** What a freshly constructed context holds: every slot `None`. */
  const EmptySlots := Slots(None, None, None)

  const AvailableCities: seq<string> := ["Saint Petersburg", "Moscow"]

  const AskCity := "Уточните, пожалуйста, город"
  const AskDate := "Уточните, пожалуйста, дату желаемого прогноза"
  const UnknownLocation := "Погода в данном месте мне неизвестна"

  /** The second component of `get_response`: either a fixed text, or the
      outcome of the weather request for a city and a state code. */
  datatype Reply = Text(text: string) | Fetch(cityName: string, stateCode: Option<string>)

  /** The error raised by `update` for an argument of another kind. */
  datatype TypeError = TypeError(message: string)

  const SameTypeOnly := "Can update only with the context of the same type"

  /** Python truthiness of an optional string: `None` and `""` are false. */
  predicate Truthy(x: Option<string>) {
    x.Some? && x.value != ""
  }

  /** Python's `a or b` on optional strings. */
  function Or(a: Option<string>, b: Option<string>): (r: Option<string>)
    ensures r == a || r == b
    ensures Truthy(a) ==> r == a
  {
    if Truthy(a) then a else b
  }

  /** The value `update` leaves in the receiver: each slot keeps its own value
      when truthy and otherwise takes the new context's value. */
  function Merge(s: Slots, d: Slots): (r: Slots)
    ensures r.cityName == s.cityName || r.cityName == d.cityName
    ensures r.stateCode == s.stateCode || r.stateCode == d.stateCode
    ensures r.date == s.date || r.date == d.date
    ensures Truthy(s.cityName) || Truthy(d.cityName) ==> Truthy(r.cityName)
    ensures Truthy(s.stateCode) || Truthy(d.stateCode) ==> Truthy(r.stateCode)
    ensures Truthy(s.date) || Truthy(d.date) ==> Truthy(r.date)
  {
    Slots(Or(s.cityName, d.cityName), Or(s.stateCode, d.stateCode), Or(s.date, d.date))
  }

  /** `is_complete`: a city and a date are present (`""` counts as present). */
  predicate IsComplete(s: Slots) {
    s.cityName.Some? && s.date.Some?
  }

  /** `get_response`, with the weather request left as the abstract outcome
      `Fetch`. The first component says whether the request cycle ends. */
  function GetResponse(s: Slots): (r: (bool, Reply))
    ensures r.0 <==> IsComplete(s)
    ensures s.cityName.None? ==> r.1 == Text(AskCity)
    ensures r.1 == Text(AskDate) <==> s.cityName.Some? && s.date.None?
    ensures r.1.Fetch? <==> IsComplete(s) && s.cityName.value in AvailableCities
    ensures r.1.Fetch? ==> r.1 == Fetch(s.cityName.value, s.stateCode)
    ensures r.1 == Text(UnknownLocation) <==> IsComplete(s) && s.cityName.value !in AvailableCities
  {
    if s.cityName.None? then (false, Text(AskCity))
    else if s.date.None? then (false, Text(AskDate))
    else if s.cityName.value !in AvailableCities then (true, Text(UnknownLocation))
    else (true, Fetch(s.cityName.value, s.stateCode))
  }

  /** A slot that is truthy is never changed by a merge; any other slot takes
      the new context's value, whatever it is. */
  lemma MergeFillsOnlyAbsent(s: Slots, d: Slots)
    ensures Truthy(s.cityName) ==> Merge(s, d).cityName == s.cityName
    ensures Truthy(s.stateCode) ==> Merge(s, d).stateCode == s.stateCode
    ensures Truthy(s.date) ==> Merge(s, d).date == s.date
    ensures !Truthy(s.cityName) ==> Merge(s, d).cityName == d.cityName
    ensures !Truthy(s.stateCode) ==> Merge(s, d).stateCode == d.stateCode
    ensures !Truthy(s.date) ==> Merge(s, d).date == d.date
  {
  }

  /** Applying the same new context twice leaves what applying it once does. */
  lemma MergeIdempotent(s: Slots, d: Slots)
    ensures Merge(Merge(s, d), d) == Merge(s, d)
  {
  }

  /** Merging a context into itself changes nothing (`ctx.update(ctx)`). */
  lemma MergeSelf(s: Slots)
    ensures Merge(s, s) == s
  {
  }

  /** A complete context whose city and date are non-empty stays complete,
      with the same city and date, whatever is merged into it. */
  lemma MergeKeepsTruthyCompletion(s: Slots, d: Slots)
    requires IsComplete(s) && Truthy(s.cityName) && Truthy(s.date)
    ensures IsComplete(Merge(s, d))
    ensures Merge(s, d).cityName == s.cityName && Merge(s, d).date == s.date
  {
  }

  /** Completion is not kept in general: `is_complete` counts an empty city
      as present while `update` treats it as absent, so merging an empty
      context into one with city `""` makes it incomplete again. */
  lemma EmptyCityIsLostOnMerge()
    ensures IsComplete(Slots(Some(""), None, Some("x")))
    ensures Merge(Slots(Some(""), None, Some("x")), EmptySlots) == Slots(None, None, Some("x"))
    ensures !IsComplete(Merge(Slots(Some(""), None, Some("x")), EmptySlots))
  {
  }

  /** The state code plays no role in completion. */
  lemma CompletionIgnoresStateCode(s: Slots, code: Option<string>)
    ensures IsComplete(s.(stateCode := code)) == IsComplete(s)
  {
  }

  /** A fresh context asks for the city first. */
  lemma EmptyAsksForCity()
    ensures GetResponse(EmptySlots) == (false, Text(AskCity))
  {
  }

  /** One pending weather request; `update` merges into it in place. */
  class WeatherReportContext {
    var cityName: Option<string>
    var stateCode: Option<string>
    var date: Option<string>

    function Value(): Slots
      reads this
    {
      Slots(cityName, stateCode, date)
    }

    constructor (cityName: Option<string>, stateCode: Option<string>, date: Option<string>)
      ensures Value() == Slots(cityName, stateCode, date)
    {
      this.cityName := cityName;
      this.stateCode := stateCode;
      this.date := date;
    }

    /** `update`: fails with a `TypeError` and leaves the receiver unchanged
        for an argument of another kind; otherwise merges the argument's slots
        into the receiver and returns the receiver itself. The argument is
        only read. */
    method Update(newContext: DialogContextRef) returns (r: Result<WeatherReportContext, TypeError>)
      modifies this
      ensures newContext.Foreign? ==> r == Failure(TypeError(SameTypeOnly)) && unchanged(this)
      ensures newContext.Weather? ==> r == Success(this)
      ensures newContext.Weather? ==> Value() == Merge(old(Value()), old(newContext.ctx.Value()))
      ensures newContext.Weather? && newContext.ctx != this ==> unchanged(newContext.ctx)
    {
      if newContext.Foreign? {
        return Failure(TypeError(SameTypeOnly));
      }
      var other := newContext.ctx;
      cityName := Or(cityName, other.cityName);
      stateCode := Or(stateCode, other.stateCode);
      date := Or(date, other.date);
      r := Success(this);
    }
  }

  /** An argument handed to `update`: a weather context, or any object of
      another kind. */
  datatype DialogContextRef = Weather(ctx: WeatherReportContext) | Foreign

  /** The slots a user starts from: the stored ones, or an empty context. */
  function Prior(contents: map<UserId, Slots>, userId: UserId): Slots {
    if userId in contents then contents[userId] else EmptySlots
  }

  /** The per-user table of contexts. Its empty-context factory is the
      `WeatherReportContext` constructor with no arguments. */
  class DialogContextStorage {
    var userContext: map<UserId, WeatherReportContext>

    /** Distinct users never share a context object. */
    ghost predicate Valid()
      reads this
    {
      forall u, v :: u in userContext && v in userContext && u != v ==> userContext[u] != userContext[v]
    }

    /** The slots stored for every user seen so far. */
    ghost function Contents(): map<UserId, Slots>
      reads this, userContext.Values
    {
      map u | u in userContext :: userContext[u].Value()
    }

    constructor ()
      ensures Valid() && userContext == map[] && Contents() == map[]
    {
      userContext := map[];
    }

    /** `get_context`: creates and stores an empty context on a user's first
        access; then returns the stored object, or merges `newContext` into
        it in place. The entry is created even when the merge fails. Other
        users' entries keep their objects and their slots. */
    method GetContext(userId: UserId, newContext: Option<DialogContextRef>)
      returns (r: Result<WeatherReportContext, TypeError>)
      requires Valid()
      modifies this, userContext.Values
      ensures Valid()
      ensures userContext.Keys == old(userContext.Keys) + {userId}
      ensures userId in old(userContext) ==> userContext[userId] == old(userContext[userId])
      ensures userId !in old(userContext) ==> fresh(userContext[userId])
      ensures forall v :: v in old(userContext) && v != userId ==> userContext[v] == old(userContext[v])
      ensures newContext.None? ==> r == Success(userContext[userId])
      ensures newContext == Some(Foreign) ==> r == Failure(TypeError(SameTypeOnly))
      ensures newContext.Some? && newContext.value.Weather? ==> r == Success(userContext[userId])
      ensures Contents() == old(Contents())[userId :=
        if newContext.Some? && newContext.value.Weather?
        then Merge(Prior(old(Contents()), userId), old(newContext.value.ctx.Value()))
        else Prior(old(Contents()), userId)]
    {
      if userId !in userContext {
        var empty := new WeatherReportContext(None, None, None);
        userContext := userContext[userId := empty];
      }
      var c := userContext[userId];
      assert c.Value() == Prior(old(Contents()), userId);
      if newContext.None? {
        r := Success(c);
      } else {
        r := c.Update(newContext.value);
      }
      forall v | v in userContext && v != userId
        ensures userContext[v].Value() == old(userContext[v].Value())
      {
        assert userContext[v] != c;
      }
      assert Contents().Keys == old(Contents()).Keys + {userId};
    }

    /** `clear_context`: the user's entry becomes a fresh empty context; the
        object stored before is left as it was, and no entry is removed. */
    method ClearContext(userId: UserId)
      requires Valid()
      modifies this
      ensures Valid()
      ensures userContext.Keys == old(userContext.Keys) + {userId}
      ensures fresh(userContext[userId])
      ensures forall v :: v in old(userContext) && v != userId ==> userContext[v] == old(userContext[v])
      ensures Contents() == old(Contents())[userId := EmptySlots]
    {
      var empty := new WeatherReportContext(None, None, None);
      userContext := userContext[userId := empty];
    }
  }
}
