/**
 * The weather screen: the header it draws from the first condition entry,
 * and the `SearchView` search bar with its `query`, `active` and `cities`
 * state and the handlers that change them. City names go through Kotlin's
 * `String.trim()`.
 */
module WeatherScreen {

  import opened Weather
  import ViewSettings

  /**
   * Kotlin's `Char.isWhitespace()` on the JVM: `Character.isWhitespace` or
   * `Character.isSpaceChar`, i.e. the ASCII controls U+0009 to U+000D and
   * U+001C to U+001F, the space separators, and the line and paragraph separators.
   */
  predicate IsWhitespace(c: char)
  {
    var n := c as int;
    || 0x0009 <= n <= 0x000D
    || 0x001C <= n <= 0x0020
    || n == 0x00A0 || n == 0x1680
    || 0x2000 <= n <= 0x200A
    || n == 0x2028 || n == 0x2029 || n == 0x202F || n == 0x205F || n == 0x3000
  }

  /** s without its leading whitespace. */
  function TrimStart(s: string): (r: string)
    ensures |r| <= |s| && r == s[|s| - |r|..]
    ensures forall k | 0 <= k < |s| - |r| :: IsWhitespace(s[k])
    ensures r == [] || !IsWhitespace(r[0])
  {
    if |s| > 0 && IsWhitespace(s[0]) then TrimStart(s[1..]) else s
  }

  /** s without its trailing whitespace. */
  function TrimEnd(s: string): (r: string)
    ensures |r| <= |s| && r == s[..|r|]
    ensures forall k | |r| <= k < |s| :: IsWhitespace(s[k])
    ensures r == [] || !IsWhitespace(r[|r| - 1])
  {
    if |s| > 0 && IsWhitespace(s[|s| - 1]) then TrimEnd(s[..|s| - 1]) else s
  }

  /** `String.trim()`. */
  function Trim(s: string): string
  {
    TrimEnd(TrimStart(s))
  }

  /** No whitespace at either end. */
  predicate Trimmed(s: string)
  {
    s == [] || (!IsWhitespace(s[0]) && !IsWhitespace(s[|s| - 1]))
  }

  /** `trim` leaves no whitespace at either end. */
  lemma TrimTrimmed(s: string)
    ensures Trimmed(Trim(s))
  {
    var t := TrimStart(s);
    var r := TrimEnd(t);
    if r != [] {
      assert r[0] == t[0];
    }
  }

  /** `trim` keeps a contiguous slice of its input and cuts off only whitespace. */
  lemma TrimSlice(s: string)
    ensures var i := |s| - |TrimStart(s)|;
      && i + |Trim(s)| <= |s|
      && Trim(s) == s[i..i + |Trim(s)|]
      && (forall k | 0 <= k < i :: IsWhitespace(s[k]))
      && (forall k | i + |Trim(s)| <= k < |s| :: IsWhitespace(s[k]))
  {
    var t := TrimStart(s);
    var r := TrimEnd(t);
    var i := |s| - |t|;
    assert t == s[i..];
    assert r == t[..|r|];
    forall k | i + |r| <= k < |s|
      ensures IsWhitespace(s[k])
    {
      assert s[k] == t[k - i];
    }
    assert r == s[i..i + |r|];
  }

  /** A string is its own trim exactly when it has no whitespace at either end. */
  lemma TrimFixedPoints(s: string)
    ensures Trim(s) == s <==> Trimmed(s)
  {
    TrimTrimmed(s);
  }

  /** Trimming twice is trimming once. */
  lemma TrimIdempotent(s: string)
    ensures Trim(Trim(s)) == Trim(s)
  {
    TrimTrimmed(s);
    TrimFixedPoints(Trim(s));
  }

  /** The search bar's state. */
  datatype SearchState = SearchState(query: string, active: bool, cities: seq<string>)

  /** `mutableStateOf("")`, `mutableStateOf(false)`, `mutableStateListOf("Moscow", "London", "Kotelnich")`. */
  const InitialCities: seq<string> := ["Moscow", "London", "Kotelnich"]
  const Initial: SearchState := SearchState("", false, InitialCities)

  /**
   * What the user can do to the search bar. The screen is recomposed with the
   * weather of every new success while the remembered bar state survives, so a
   * click on the location icon carries the weather shown at that moment.
   */
  datatype Event =
    | QueryChange(text: string)
    | ActiveChange(expanded: bool)
    | Search(text: string)
    | ClearClick
    | LocationClick(shown: WeatherData)
    | HistoryClick(index: nat)

  /** The screen's callbacks into the activity. */
  datatype Callback = CitySync(city: string) | LocationSync

  /**
   * Whether the event can reach the search bar: the clear icon is composed
   * only while the bar is active, and the history rows, one per entry of
   * `cities`, are the content of the expanded bar.
   */
  predicate Enabled(s: SearchState, e: Event)
  {
    match e
    case ClearClick => s.active
    case HistoryClick(i) => s.active && i < |s.cities|
    case _ => true
  }

  /** The new state and the callbacks fired, for one event. */
  function Step(s: SearchState, e: Event): (SearchState, seq<Callback>)
    requires Enabled(s, e)
  {
    match e
    case QueryChange(text) => (s.(query := text), [])
    case ActiveChange(expanded) => (s.(active := expanded), [])
    case Search(text) =>
      (s.(cities := s.cities + [Trim(text)], active := false), [CitySync(Trim(text))])
    case ClearClick =>
      if |s.query| > 0 then (s.(query := ""), []) else (s.(active := false), [])
    case LocationClick(weather) =>
      (SearchState(weather.name, false, s.cities + [weather.name]), [LocationSync])
    case HistoryClick(i) =>
      var city := Trim(s.cities[i]);
      (s.(query := city, active := false), [CitySync(city)])
  }

  /** What each handler leaves in the state and which callbacks it fires. */
  lemma StepFacts(s: SearchState, e: Event)
    requires Enabled(s, e)
    ensures var (t, calls) := Step(s, e);
      && (e.QueryChange? ==> t == s.(query := e.text) && calls == [])
      && (e.Search? ==> t.cities == s.cities + [Trim(e.text)] && !t.active && t.query == s.query
                        && calls == [CitySync(Trim(e.text))])
      && (e.ClearClick? && |s.query| > 0 ==> t == s.(query := "") && t.active)
      && (e.ClearClick? && |s.query| == 0 ==> t == s.(active := false))
      && (e.LocationClick? ==> t == SearchState(e.shown.name, false, s.cities + [e.shown.name])
                               && calls == [LocationSync])
      && (e.HistoryClick? ==> t == s.(query := Trim(s.cities[e.index]), active := false)
                              && calls == [CitySync(Trim(s.cities[e.index]))])
  {
  }

  /** One event appends at most one entry to the history and fires only trimmed cities. */
  lemma StepHistory(s: SearchState, e: Event)
    requires Enabled(s, e)
    ensures |s.cities| <= |Step(s, e).0.cities| <= |s.cities| + 1
    ensures Step(s, e).0.cities[..|s.cities|] == s.cities
    ensures forall k | 0 <= k < |Step(s, e).1| ::
              Step(s, e).1[k].CitySync? ==> Trimmed(Step(s, e).1[k].city)
  {
    match e
    case Search(text) => TrimTrimmed(text);
    case HistoryClick(i) => TrimTrimmed(s.cities[i]);
    case LocationClick(weather) =>
      assert (s.cities + [weather.name])[..|s.cities|] == s.cities;
    case _ =>
  }

  /** Whether every event of a series can reach the bar when it arrives. */
  predicate Feasible(s: SearchState, events: seq<Event>)
    decreases |events|
  {
    |events| == 0 ||
    (Enabled(s, events[0]) && Feasible(Step(s, events[0]).0, events[1..]))
  }

  /** The state after a series of events and all callbacks they fired, in order. */
  function Run(s: SearchState, events: seq<Event>): (SearchState, seq<Callback>)
    requires Feasible(s, events)
    decreases |events|
  {
    if |events| == 0 then (s, [])
    else
      var (t, calls) := Step(s, events[0]);
      var (u, more) := Run(t, events[1..]);
      (u, calls + more)
  }

  /**
   * Over any series of events the history only grows at its end, so the
   * entries present at the start stay where they are; every city handed to
   * the activity is already trimmed.
   */
  lemma {:induction false} RunKeepsHistory(s: SearchState, events: seq<Event>)
    requires Feasible(s, events)
    decreases |events|
    ensures var (u, calls) := Run(s, events);
      && |s.cities| <= |u.cities| <= |s.cities| + |events|
      && u.cities[..|s.cities|] == s.cities
      && (forall k | 0 <= k < |calls| :: calls[k].CitySync? ==> Trimmed(calls[k].city))
  {
    if |events| > 0 {
      var (t, calls) := Step(s, events[0]);
      StepHistory(s, events[0]);
      RunKeepsHistory(t, events[1..]);
      var (u, more) := Run(t, events[1..]);
      assert u.cities[..|s.cities|] == u.cities[..|t.cities|][..|s.cities|];
      forall k | 0 <= k < |calls + more| && (calls + more)[k].CitySync?
        ensures Trimmed((calls + more)[k].city)
      {
        if k >= |calls| {
          assert (calls + more)[k] == more[k - |calls|];
        }
      }
    }
  }

  /** The header the screen draws from its first condition entry. */
  datatype Header = Header(background: ViewSettings.Brush, icon: ViewSettings.Drawable, caption: string)

  /**
   * `WeatherScreen`, `CurrentWeather` and `DescriptionWeather` index
   * `weather[0]`, so the screen needs at least one condition entry; the
   * background and the icon then always show the same category.
   */
  function ScreenHeader(weather: WeatherData): (h: Header)
    requires |weather.weather| > 0
    ensures var c := ViewSettings.CategoryOf(weather.weather[0].id);
      h.background == ViewSettings.BackgroundOf(c) && h.icon == ViewSettings.IconOf(c)
    ensures h.caption == weather.weather[0].main
  {
    var condition := weather.weather[0];
    Header(ViewSettings.SetBackground(condition.id), ViewSettings.SetIcon(condition.id), condition.main)
  }

  /** `SearchView`'s remembered state and its event handlers. */
  class SearchView {
    var query: string
    var active: bool
    var cities: seq<string>
    /** Calls made to `onClickCitySync` and `onClickLocationSync`, oldest first. */
    ghost var callbacks: seq<Callback>

    function State(): SearchState
      reads this
    {
      SearchState(query, active, cities)
    }

    constructor()
      ensures State() == Initial && callbacks == []
    {
      query := "";
      active := false;
      cities := InitialCities;
      callbacks := [];
    }

    /** `onQueryChange = { query = it }`. */
    method OnQueryChange(text: string)
      modifies this`query
      ensures State() == Step(old(State()), QueryChange(text)).0
    {
      query := text;
    }

    /** `onActiveChange = { active = it }`. */
    method OnActiveChange(expanded: bool)
      modifies this`active
      ensures State() == Step(old(State()), ActiveChange(expanded)).0
    {
      active := expanded;
    }

    /** `onSearch`: records the trimmed text, asks for that city and collapses the bar. */
    method OnSearch(text: string)
      modifies this`cities, this`active, this`callbacks
      ensures State() == Step(old(State()), Search(text)).0
      ensures callbacks == old(callbacks) + Step(old(State()), Search(text)).1
    {
      cities := cities + [Trim(text)];
      callbacks := callbacks + [CitySync(Trim(text))];
      active := false;
    }

    /** The clear icon: empties a non-empty query, otherwise collapses the bar. */
    method OnClearClick()
      requires active
      modifies this`query, this`active
      ensures State() == Step(old(State()), ClearClick).0
    {
      if |query| > 0 {
        query := "";
      } else {
        active := false;
      }
    }

    /** The location icon on the screen showing `weather`: asks for the device's location and records the shown city's name. */
    method OnLocationClick(weather: WeatherData)
      modifies this`query, this`cities, this`active, this`callbacks
      ensures State() == Step(old(State()), LocationClick(weather)).0
      ensures callbacks == old(callbacks) + Step(old(State()), LocationClick(weather)).1
    {
      callbacks := callbacks + [LocationSync];
      query := weather.name;
      cities := cities + [query];
      active := false;
    }

    /** A history row: asks for the trimmed entry and shows it in the query. */
    method OnHistoryClick(index: nat)
      requires active && index < |cities|
      modifies this`query, this`active, this`callbacks
      ensures State() == Step(old(State()), HistoryClick(index)).0
      ensures callbacks == old(callbacks) + Step(old(State()), HistoryClick(index)).1
    {
      var city := Trim(cities[index]);
      callbacks := callbacks + [CitySync(city)];
      query := city;
      active := false;
    }
  }
}
