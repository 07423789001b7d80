/**
 * `ActivityRepositoryImpl`: each lookup returns a cold flow that, when
 * collected, executes one HTTP call and then emits the body once, throws,
 * or never resumes. The HTTP service is a parameter of the repository; what
 * one collection does is described by the requests it executes and by the
 * outcome its collector observes.
 */
module Repository {

  import opened Wrappers
  import opened Weather
  import Decimal

  /** The `appid` every request carries (an empty placeholder in this code base). */
  const ApiKey: string := ""

  /** The two endpoints of the weather service. */
  datatype Request =
    | CurrentWeatherData(latitude: string, longitude: string, appid: string)
    | CityWeatherData(city: string, appid: string)

  /** A Retrofit response: `isSuccessful`, `code()`, `message()` and a nullable `body()`. */
  datatype Response = Response(isSuccessful: bool, code: int, message: string, body: Option<WeatherData>)

  datatype Throwable = Throwable(message: string)

  /** What `execute()` gives: an exception thrown by the call, or a response. */
  datatype Exchange =
    | Threw(error: Throwable)
    | Answered(response: Response)

  /**
   * What a collector of the flow observes: one emission followed by normal
   * completion, an exception, or a suspension that is never resumed.
   */
  datatype Outcome =
    | Emitted(data: WeatherData)
    | Failed(error: Throwable)
    | Suspended

  /** One collection of a repository flow. */
  datatype Collection = Collection(requests: seq<Request>, outcome: Outcome)

  /** The text of the exception thrown for an unsuccessful response: `"${code()}: ${message()}"`. */
  function FailureText(code: int, message: string): string
  {
    Decimal.IntToString(code) + ": " + message
  }

  /** The response rule inside `suspendCoroutine`. */
  function Handle(e: Exchange): (o: Outcome)
    ensures o.Emitted? <==> e.Answered? && e.response.isSuccessful && e.response.body.Some?
    ensures o.Emitted? ==> o.data == e.response.body.value
    ensures o.Suspended? <==> e.Answered? && e.response.isSuccessful && e.response.body.None?
    ensures e.Threw? ==> o == Failed(e.error)
    ensures e.Answered? && !e.response.isSuccessful ==>
              o == Failed(Throwable(FailureText(e.response.code, e.response.message)))
    ensures e.Answered? && !e.response.isSuccessful ==>
              o.Failed? && ParseFailureText(o.error.message) == Some((e.response.code, e.response.message))
  {
    match e
    case Threw(t) => Failed(t)
    case Answered(r) =>
      if r.isSuccessful then
        match r.body
        case Some(d) => Emitted(d)
        case None => Suspended
      else
        FailureTextRoundTrip(r.code, r.message);
        Failed(Throwable(FailureText(r.code, r.message)))
  }

  /**
   * The repository over the service interface `getApiInterface()` gives; when
   * that is null, the safe calls `?.` skip the request altogether. Every
   * collection makes a fresh `execute()` call, so the service answers a
   * request according to the number of the collection as well: the same
   * request may be answered differently when it is made again.
   */
  datatype ActivityRepositoryImpl = ActivityRepositoryImpl(apiInterface: Option<(nat, Request) -> Exchange>)
  {
    /** Collecting the flow for a coordinate pair, as collection number `call`. */
    function GetCurrentLocationWeather(call: nat, latitude: string, longitude: string): (c: Collection)
      ensures apiInterface.Some? ==>
                && c.requests == [CurrentWeatherData(latitude, longitude, ApiKey)]
                && c.outcome == Handle(apiInterface.value(call, c.requests[0]))
      ensures apiInterface.None? ==> c.requests == [] && c.outcome == Suspended
    {
      match apiInterface
      case None => Collection([], Suspended)
      case Some(api) =>
        var request := CurrentWeatherData(latitude, longitude, ApiKey);
        Collection([request], Handle(api(call, request)))
    }

    /** Collecting the flow for a city name, as collection number `call`. */
    function GetCityWeather(call: nat, city: string): (c: Collection)
      ensures apiInterface.Some? ==>
                && c.requests == [CityWeatherData(city, ApiKey)]
                && c.outcome == Handle(apiInterface.value(call, c.requests[0]))
      ensures apiInterface.None? ==> c.requests == [] && c.outcome == Suspended
    {
      match apiInterface
      case None => Collection([], Suspended)
      case Some(api) =>
        var request := CityWeatherData(city, ApiKey);
        Collection([request], Handle(api(call, request)))
    }
  }

  /** Both lookups treat the service's answer the same way. */
  lemma SameHandling(repository: ActivityRepositoryImpl, call: nat, latitude: string, longitude: string, city: string)
    requires repository.apiInterface.Some? ==>
               repository.apiInterface.value(call, CurrentWeatherData(latitude, longitude, ApiKey))
               == repository.apiInterface.value(call, CityWeatherData(city, ApiKey))
    ensures repository.GetCurrentLocationWeather(call, latitude, longitude).outcome
            == repository.GetCityWeather(call, city).outcome
  {
  }

  /**
   * Nothing is cached between collections: a service that first throws and
   * then answers makes a failed city lookup succeed when it is repeated.
   */
  lemma RetryCanSucceed(city: string, data: WeatherData)
    ensures exists repository: ActivityRepositoryImpl ::
              && repository.GetCityWeather(0, city).outcome.Failed?
              && repository.GetCityWeather(1, city).outcome == Emitted(data)
  {
    var answers := (call: nat, request: Request) =>
      if call == 0 then Threw(Throwable("timeout"))
      else Answered(Response(true, 200, "OK", Some(data)));
    var repository := ActivityRepositoryImpl(Some(answers));
    assert repository.GetCityWeather(0, city).outcome == Failed(Throwable("timeout"));
    assert repository.GetCityWeather(1, city).outcome == Emitted(data);
  }

  /** Index of the first ':' in s, or |s| if there is none. */
  function FirstColon(s: string): (i: nat)
    ensures i <= |s|
    ensures i < |s| ==> s[i] == ':'
    ensures forall j | 0 <= j < i :: s[j] != ':'
  {
    if |s| == 0 || s[0] == ':' then 0 else 1 + FirstColon(s[1..])
  }

  /** Splits a failure text back into the status code and the status message. */
  function ParseFailureText(s: string): Option<(int, string)>
  {
    var i := FirstColon(s);
    if i + 2 <= |s| && s[i + 1] == ' ' then
      match Decimal.ParseInt(s[..i])
      case None => None
      case Some(code) => Some((code, s[i + 2..]))
    else
      None
  }

  /** The failure text keeps both the status code and the status message. */
  lemma FailureTextRoundTrip(code: int, message: string)
    ensures ParseFailureText(FailureText(code, message)) == Some((code, message))
  {
    var digits := Decimal.IntToString(code);
    var s := FailureText(code, message);
    assert s[..|digits|] == digits && s[|digits|] == ':' && s[|digits| + 1] == ' ';
    assert s[|digits| + 2..] == message;
    assert FirstColon(s) == |digits|;
    Decimal.ParseIntToString(code);
  }
}
