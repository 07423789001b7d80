# WeatherCompose core, modelled in Dafny

WeatherCompose is an Android client that fetches the current weather for the
device's location or for a city name from the OpenWeather API and shows it.
This project models the parts of it that carry logic:

- **Condition-code classification** (`view_settings.dfy`, module `ViewSettings`):
  `setBackground` and `setIcon` are Kotlin `when` expressions over integer
  ranges. `When` models a `when` faithfully (first matching arm, else the
  default) over the source's own arm tables; both functions are proved to
  factor through one partition `CategoryOf`, the partition is proved disjoint,
  and disjointness is proved to make the order of the arms irrelevant.
- **The UI state** (`presentation.dfy`, module `Presentation`): the four-variant
  `BaseState` sealed class.
- **The repository's response rule** (`repository.dfy`, module `Repository`,
  with `decimal.dfy` for Kotlin's `Int.toString()`): one collection of a
  repository flow executes exactly one request when the API interface exists
  (none when it is null, and then never resumes), and then emits the body
  once, fails with the text `"<code>: <message>"`, passes a transport
  exception on unchanged, or never resumes (a successful response without a body).
- **The view model** (`view_model.dfy`, module `ViewModel`): a class with the
  mutable `state` field (`_state`), a ghost `trace` of every value written
  and a ghost list of the requests' outcomes, tied together by `Valid`.
  Each request writes values in the order Kotlin's `onStart`, `collect`,
  `onCompletion` and `catch` operators fix.
- **The weather screen** (`weather_screen.dfy`, module `WeatherScreen`): the `SearchView`
  state `(query, active, cities)` as a class whose handlers are proved against
  a pure step function. It also covers Kotlin's `String.trim()` and the screen
  header drawn from `weather[0]`.

The weather service is a parameter of the repository: an optional function
(null when `getApiInterface()` gives no interface) from a call number and a
request to what executing the call gives (`Repository.Exchange`). The view
model numbers its collections, so every request is a fresh call that the
service may answer differently from an earlier one. The weather the screen
shows is a parameter of the location click, since the screen is recomposed
with every new success while the search bar keeps its state. Clocks,
location, permissions and rendering are outside the model.

The code fixes these details, which differ from a plain idle / loading / result design:

- The initial state is `Working`; there is no separate `Idle` variant.
- A successful request writes `Loading, Success(d), Working`. The result
  comes BEFORE the `Working` marker, so the state a successful request
  settles on is `Working`, not `Success`.
- A failed request writes `Loading, Working, Error("Cannot get weather")`.
- A successful response with a null body does not fail. The coroutine is
  never resumed, so the state stays `Loading`.

## Model

| member | source | states |
|---|---|---|
| `ViewSettings.When` | app/src/main/java/com/crazycats/weathercompose/screens/WeatherScreenViewSettings.kt:20-37 | Kotlin `when` over ranges: the default when no arm holds the code, otherwise the value of the first arm that holds it |
| `ViewSettings.WhenOrderIrrelevant` | app/src/main/java/com/crazycats/weathercompose/screens/WeatherScreenViewSettings.kt:20-37 | for pairwise disjoint arms, any rearrangement of the arms gives the same value for every code |
| `ViewSettings.SetBackground` | app/src/main/java/com/crazycats/weathercompose/screens/WeatherScreenViewSettings.kt:19-38 | `setBackground`'s arm table gives exactly the brush of the code's category |
| `ViewSettings.SetIcon` | app/src/main/java/com/crazycats/weathercompose/screens/WeatherScreenViewSettings.kt:40-59 | `setIcon`'s arm table gives exactly the icon of the code's category |
| `ViewSettings.CategoryRanges` | app/src/main/java/com/crazycats/weathercompose/screens/WeatherScreenViewSettings.kt:19-38 | 200..232 Thunderstorm, 300..321 Drizzle, 500..531 Rain, 600..622 Snow, 701..781 Atmosphere, 800 Clear, 801..804 Clouds, each as an if-and-only-if, and Unknown exactly outside all seven |
| `ViewSettings.TablesDisjoint` | app/src/main/java/com/crazycats/weathercompose/screens/WeatherScreenViewSettings.kt:20-37 | the seven ranges are pairwise disjoint in the category, background and icon tables, so (by `WhenOrderIrrelevant`) the order of the arms of `setBackground` and `setIcon` does not matter |
| `ViewSettings.BoundaryCodes` | app/src/main/java/com/crazycats/weathercompose/screens/WeatherScreenViewSettings.kt:22-36 | 199, 233, 299, 322, 700, 782, 805 are Unknown; 200 and 232 Thunderstorm, 800 Clear, 801 and 804 Clouds |
| `ViewSettings.ClearAndCloudsCodes` | app/src/main/java/com/crazycats/weathercompose/screens/WeatherScreenViewSettings.kt:32-34 | the Clear brush is given to code 800 only; the Clouds brush to exactly 801, 802, 803, 804 |
| `ViewSettings.GapsAreUnknown` | app/src/main/java/com/crazycats/weathercompose/screens/WeatherScreenViewSettings.kt:36-57 | negative codes and codes between the ranges get the unknown brush and the unknown icon |
| `ViewSettings.SameIconIffSameBackground` | app/src/main/java/com/crazycats/weathercompose/screens/WeatherScreenViewSettings.kt:19-59 | two codes get the same icon if and only if they get the same background |
| `Presentation.Variant` | app/src/main/java/com/crazycats/weathercompose/activity/presentation/BaseState.kt:8-13 | every state is exactly one of the four variants `Working`, `Loading`, `Success`, `Error` |
| `Presentation.VariantPayloads` | app/src/main/java/com/crazycats/weathercompose/activity/presentation/BaseState.kt:9-12 | `Working` and `Loading` carry nothing; `Success` and `Error` each carry exactly one field, a `WeatherData` and a message |
| `Repository.Handle` | app/src/main/java/com/crazycats/weathercompose/activity/domain/ActivityRepositoryImpl.kt:17-25 | emits exactly when the response is successful with a body, and emits that body; never resumes on a successful response without a body; passes a thrown exception on unchanged; an unsuccessful response fails with exactly the text `"<code>: <message>"`, from which its status code and message read back |
| `Repository.ActivityRepositoryImpl.GetCurrentLocationWeather` | app/src/main/java/com/crazycats/weathercompose/activity/domain/ActivityRepositoryImpl.kt:15-27 | with an API interface, one collection executes exactly one coordinates request carrying the API key, and its outcome is the response rule applied to the service's answer to that request at that call; without one, no request is made and the flow never resumes |
| `Repository.ActivityRepositoryImpl.GetCityWeather` | app/src/main/java/com/crazycats/weathercompose/activity/domain/ActivityRepositoryImpl.kt:29-40 | with an API interface, one collection executes exactly one city request carrying the API key, under the same response rule; without one, no request and no resumption |
| `Repository.SameHandling` | app/src/main/java/com/crazycats/weathercompose/activity/domain/ActivityRepositoryImpl.kt:15-40 | the two lookups give the same outcome whenever the service answers them the same way at the same call, or there is no service |
| `Repository.RetryCanSucceed` | app/src/main/java/com/crazycats/weathercompose/activity/domain/ActivityRepositoryImpl.kt:31-38 | every collection makes a fresh `execute()` call, so a city lookup that failed can succeed when it is made again |
| `Decimal.NatToString` | app/src/main/java/com/crazycats/weathercompose/activity/domain/ActivityRepositoryImpl.kt:23 | the decimal rendering of a status code's magnitude is non-empty, all digits, and has no leading zero except for 0 itself |
| `Repository.FailureTextRoundTrip` | app/src/main/java/com/crazycats/weathercompose/activity/domain/ActivityRepositoryImpl.kt:23 | the text `"${code()}: ${message()}"` parses back to the status code and the status message |
| `Decimal.ParseIntToString` | app/src/main/java/com/crazycats/weathercompose/activity/domain/ActivityRepositoryImpl.kt:23 | the decimal rendering of the status code reads back as the same integer, negative codes included |
| `ViewModel.Settled` | app/src/main/java/com/crazycats/weathercompose/activity/MainActivityViewModel.kt:26-32 | a request settles on `Working` exactly when the repository emitted, on `Loading` exactly when it never resumed, on `Error` exactly when it failed, and never on `Success` |
| `ViewModel.WritesShape` | app/src/main/java/com/crazycats/weathercompose/activity/MainActivityViewModel.kt:26-32 | each request writes `Loading` first and never again; emitted: `Loading, Success(d), Working`; failed: `Loading, Working, Error("Cannot get weather")`; suspended: `Loading`; at most one `Success`, carrying the emitted data |
| `ViewModel.MainActivityViewModel.constructor` | app/src/main/java/com/crazycats/weathercompose/activity/MainActivityViewModel.kt:15-17 | the state starts at `Working`, nothing has been written, no request has run (the call counter is 0), and the view model is `Valid` |
| `ViewModel.MainActivityViewModel.UpdateState` | app/src/main/java/com/crazycats/weathercompose/activity/MainActivityViewModel.kt:20-22 | the new state is what the update function makes of the old one, and it is appended to the trace |
| `ViewModel.MainActivityViewModel.Collect` | app/src/main/java/com/crazycats/weathercompose/activity/MainActivityViewModel.kt:26-32 | the operator chain appends exactly the writes of the outcome to the trace, leaves the settled state, records the outcome as one more call, and keeps `Valid` |
| `ViewModel.MainActivityViewModel.GetCurrentLocationWeather` | app/src/main/java/com/crazycats/weathercompose/activity/MainActivityViewModel.kt:24-34 | the trace grows by the writes for the repository's coordinates outcome, the state is its settled value, the call counter grows by one, and `Valid` is kept |
| `ViewModel.MainActivityViewModel.GetCityWeather` | app/src/main/java/com/crazycats/weathercompose/activity/MainActivityViewModel.kt:36-46 | the same for the city outcome, so both entry points write identical sequences for identical outcomes |
| `ViewModel.ReplayFacts` | app/src/main/java/com/crazycats/weathercompose/activity/MainActivityViewModel.kt:17-46 | after a series of requests the state is the last one's settled value; every `Error` written says "Cannot get weather"; every `Success` written carries data that some request emitted |
| `ViewModel.StateIsLastWrite` | app/src/main/java/com/crazycats/weathercompose/activity/MainActivityViewModel.kt:17-46 | for a view model driven through its two requests, the state is the last value written to it (`Working` when none was), every `Error` in its trace says "Cannot get weather", and every `Success` in it carries data one of its requests emitted |
| `WeatherScreen.TrimTrimmed` | app/src/main/java/com/crazycats/weathercompose/screens/WeatherScreen.kt:81 | what `trim` returns has no whitespace at either end |
| `WeatherScreen.TrimSlice` | app/src/main/java/com/crazycats/weathercompose/screens/WeatherScreen.kt:81 | `trim` returns a contiguous slice of its input, and everything cut off is whitespace |
| `WeatherScreen.TrimFixedPoints` | app/src/main/java/com/crazycats/weathercompose/screens/WeatherScreen.kt:130 | a string is its own trim if and only if it has no whitespace at either end |
| `WeatherScreen.TrimIdempotent` | app/src/main/java/com/crazycats/weathercompose/screens/WeatherScreen.kt:130 | trimming twice is trimming once |
| `WeatherScreen.StepFacts` | app/src/main/java/com/crazycats/weathercompose/screens/WeatherScreen.kt:79-134 | query change sets only `query`; search appends `trim(t)`, sends `trim(t)`, collapses, keeps `query`; clear empties a non-empty query or else collapses; location click sends the location callback, sets `query` to the shown name and appends it untrimmed; history click sends and shows `trim(e)` and leaves `cities` alone |
| `WeatherScreen.StepHistory` | app/src/main/java/com/crazycats/weathercompose/screens/WeatherScreen.kt:75-134 | one event keeps every history entry in place and appends at most one; every city sent to the activity is trimmed |
| `WeatherScreen.RunKeepsHistory` | app/src/main/java/com/crazycats/weathercompose/screens/WeatherScreen.kt:73-134 | over any series of events the history never shrinks, keeps its earlier entries as a prefix, grows by at most one per event, and only trimmed city names reach the activity |
| `WeatherScreen.ScreenHeader` | app/src/main/java/com/crazycats/weathercompose/screens/WeatherScreen.kt:56 | the screen needs a non-empty condition list; background and icon then show the category of `weather[0]`, with `weather[0].main` as caption |
| `WeatherScreen.SearchView.constructor` | app/src/main/java/com/crazycats/weathercompose/screens/WeatherScreen.kt:73-75 | `query` is empty, `active` false, `cities` is Moscow, London, Kotelnich, no callback fired |
| `WeatherScreen.SearchView.OnQueryChange` | app/src/main/java/com/crazycats/weathercompose/screens/WeatherScreen.kt:79 | the state becomes the query-change step of the old one |
| `WeatherScreen.SearchView.OnActiveChange` | app/src/main/java/com/crazycats/weathercompose/screens/WeatherScreen.kt:86 | the state becomes the active-change step of the old one |
| `WeatherScreen.SearchView.OnSearch` | app/src/main/java/com/crazycats/weathercompose/screens/WeatherScreen.kt:80-84 | the state and the callbacks become the search step of the old ones |
| `WeatherScreen.SearchView.OnClearClick` | app/src/main/java/com/crazycats/weathercompose/screens/WeatherScreen.kt:96-103 | only while active; the state becomes the clear step of the old one |
| `WeatherScreen.SearchView.OnLocationClick` | app/src/main/java/com/crazycats/weathercompose/screens/WeatherScreen.kt:111-116 | on the screen showing a given weather, the state and the callbacks become the location step of the old ones for that weather |
| `WeatherScreen.SearchView.OnHistoryClick` | app/src/main/java/com/crazycats/weathercompose/screens/WeatherScreen.kt:126-134 | only for an entry of the expanded list; the state and the callbacks become the history step of the old ones |

## Left out

- Kelvin to Celsius conversions (`convertKelvinToCelsius` and its two siblings): they are `Double` arithmetic rounded through `BigDecimal`, which is floating-point behaviour.
- `sunTime` and the date shown on the screen: they depend on the locale and the time zone.
- Layout, colours and the concrete brushes and drawables. Brushes and icons are kept as one abstract constant each.
- The activity: permission dialogs, the fused location provider, toasts and `setContent`. Callers are assumed to start a coordinates lookup only once a location is known, as the activity's `location != null` guard does.
- The Retrofit singleton and its lazy construction, Gson decoding and the endpoint declarations. The service is a parameter, and decode failures are one of the exceptions it may raise. The nullable `getApiInterface()` is an `Option` of that parameter.
- `WeatherData` keeps only the city name and the condition entries. The other fields are only displayed.
- Coroutine dispatch (`flowOn`, `viewModelScope.launch`), `StateFlow`'s conflation of equal values, `collectLatest` delivery and overlapping requests. Each request is modelled as running to its end before the next one starts, so the last-writer-wins hazard between concurrent requests is not captured.
- Presentation.VariantPayloads: `Success` and `Error` are plain (not data) classes, so Kotlin compares two of them by identity; the model compares them by value. Only `StateFlow`'s conflation of equal values would tell the difference, and that is left out below.
- ViewModel.MainActivityViewModel.UpdateState: `MutableStateFlow.update` retries a compare-and-set under contention. Without concurrency this is a plain assignment. Kotlin's `updateState` is private; the Dafny method is callable from outside, and only its uses inside `Collect` keep `Valid`.
- WeatherScreen.SearchView.OnHistoryClick: the history rows are the content of the expanded bar, so the handler requires `active`. This is how the Material 3 search bar shows its content; the library is not part of this model.
- Kotlin `Int` is 32-bit. Condition and status codes are unbounded integers here: the code only compares them and formats them, and no operation can overflow.
