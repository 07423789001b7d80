/**
 * `MainActivityViewModel`: one mutable `_state` field, starting at
 * `Working`, that every request overwrites through `updateState` from the
 * callbacks of the repository flow. Kotlin's flow operators fix the order
 * of the writes: `onStart` runs before the upstream, `collect` runs during
 * the emission, `onCompletion` runs once the upstream has finished (normally
 * or with an exception) and only then does `catch` see the exception.
 * A ghost `trace` records every value written, oldest first.
 */
module ViewModel {

  import opened Weather
  import opened Presentation
  import opened Repository

  /** The message the view model stores whenever a request fails. */
  const CannotGetWeather: string := "Cannot get weather"

  /** The values one request writes into `_state`, in order, for each repository outcome. */
  function Writes(o: Outcome): (w: seq<BaseState>)
  {
    match o
    case Emitted(d) => [Loading, Success(d), Working]
    case Failed(_) => [Loading, Working, Error(CannotGetWeather)]
    case Suspended => [Loading]
  }

  /** The value `_state` keeps once a request has written everything it will write. */
  function Settled(o: Outcome): (s: BaseState)
    ensures s == Working <==> o.Emitted?
    ensures s == Loading <==> o.Suspended?
    ensures s.Error? <==> o.Failed?
    ensures !s.Success?
  {
    Writes(o)[|Writes(o)| - 1]
  }

  /** What one request writes, whatever the outcome. */
  lemma WritesShape(o: Outcome)
    ensures |Writes(o)| > 0 && Writes(o)[0] == Loading
    ensures forall i | 0 < i < |Writes(o)| :: Writes(o)[i] != Loading
    ensures o.Emitted? ==> Writes(o) == [Loading, Success(o.data), Working]
    ensures o.Failed? ==> Writes(o) == [Loading, Working, Error(CannotGetWeather)]
    ensures o.Suspended? ==> Writes(o) == [Loading]
    ensures forall i | 0 <= i < |Writes(o)| :: Writes(o)[i].Error? ==> Writes(o)[i].message == CannotGetWeather
    ensures forall i | 0 <= i < |Writes(o)| :: Writes(o)[i].Success? ==> o == Emitted(Writes(o)[i].weatherData)
    ensures forall i, j | 0 <= i < |Writes(o)| && 0 <= j < |Writes(o)| ::
              Writes(o)[i].Success? && Writes(o)[j].Success? ==> i == j
  {
  }

  /**
   * The view model. Besides the state and the ghost `trace` of written
   * values, a ghost `outcomes` records the outcome of every request
   * collected so far; `Valid` ties the three together. `calls` numbers the
   * collections, so each request reaches the service as a fresh call.
   */
  class MainActivityViewModel {
    const activityRepository: ActivityRepositoryImpl
    var state: BaseState
    var calls: nat
    ghost var trace: seq<BaseState>
    ghost var outcomes: seq<Outcome>

    /** The trace is the replay of the requests, and the state their last write. */
    ghost predicate Valid()
      reads this
    {
      && calls == |outcomes|
      && trace == Replay(outcomes)
      && state == (if |outcomes| == 0 then Working else Settled(outcomes[|outcomes| - 1]))
    }

    constructor(activityRepository: ActivityRepositoryImpl)
      ensures this.activityRepository == activityRepository
      ensures state == Working && calls == 0 && trace == [] && outcomes == []
      ensures Valid()
    {
      this.activityRepository := activityRepository;
      state := Working;
      calls := 0;
      trace := [];
      outcomes := [];
    }

    /**
     * `updateState`: replaces the state by what `onUpdate` makes of the old
     * one. It is a private helper in the view model, called only from the
     * operator chain in `Collect`; called on its own it does not keep `Valid`.
     */
    method UpdateState(onUpdate: BaseState -> BaseState)
      modifies this`state, this`trace
      ensures state == onUpdate(old(state))
      ensures trace == old(trace) + [state]
    {
      state := onUpdate(state);
      trace := trace + [state];
    }

    /**
     * The chain `onStart { Loading }`, `onCompletion { Working }`,
     * `catch { Error("Cannot get weather") }`, `collect { Success(data) }`
     * applied to one collected flow, which counts as one more call.
     */
    method Collect(outcome: Outcome)
      requires Valid()
      modifies this`state, this`calls, this`trace, this`outcomes
      ensures trace == old(trace) + Writes(outcome)
      ensures state == Settled(outcome)
      ensures calls == old(calls) + 1
      ensures outcomes == old(outcomes) + [outcome]
      ensures Valid()
    {
      UpdateState(_ => Loading);
      match outcome {
        case Emitted(data) =>
          UpdateState(_ => Success(data));
          UpdateState(_ => Working);
        case Failed(_) =>
          UpdateState(_ => Working);
          UpdateState(_ => Error(CannotGetWeather));
        case Suspended =>
      }
      assert (outcomes + [outcome])[..|outcomes|] == outcomes;
      outcomes := outcomes + [outcome];
      calls := calls + 1;
    }

    /** `getCurrentLocationWeather(latitude, longitude)`. */
    method GetCurrentLocationWeather(latitude: string, longitude: string)
      requires Valid()
      modifies this`state, this`calls, this`trace, this`outcomes
      ensures trace == old(trace) + Writes(activityRepository.GetCurrentLocationWeather(old(calls), latitude, longitude).outcome)
      ensures state == Settled(activityRepository.GetCurrentLocationWeather(old(calls), latitude, longitude).outcome)
      ensures outcomes == old(outcomes) + [activityRepository.GetCurrentLocationWeather(old(calls), latitude, longitude).outcome]
      ensures calls == old(calls) + 1
      ensures Valid()
    {
      var flow := activityRepository.GetCurrentLocationWeather(calls, latitude, longitude);
      Collect(flow.outcome);
    }

    /** `getCityWeather(city)`. */
    method GetCityWeather(city: string)
      requires Valid()
      modifies this`state, this`calls, this`trace, this`outcomes
      ensures trace == old(trace) + Writes(activityRepository.GetCityWeather(old(calls), city).outcome)
      ensures state == Settled(activityRepository.GetCityWeather(old(calls), city).outcome)
      ensures outcomes == old(outcomes) + [activityRepository.GetCityWeather(old(calls), city).outcome]
      ensures calls == old(calls) + 1
      ensures Valid()
    {
      var flow := activityRepository.GetCityWeather(calls, city);
      Collect(flow.outcome);
    }
  }

  /** The writes of a series of requests, each run to its end before the next starts. */
  function Replay(outcomes: seq<Outcome>): seq<BaseState>
  {
    if |outcomes| == 0 then [] else Replay(outcomes[..|outcomes| - 1]) + Writes(outcomes[|outcomes| - 1])
  }

  /**
   * After a series of requests the state is what the last one settled on
   * (the initial `Working` when there was none); every error written carries
   * the fixed message and every success carries data one of the requests emitted.
   */
  lemma {:induction false} ReplayFacts(outcomes: seq<Outcome>)
    ensures |outcomes| == 0 <==> |Replay(outcomes)| == 0
    ensures |outcomes| > 0 ==> Replay(outcomes)[|Replay(outcomes)| - 1] == Settled(outcomes[|outcomes| - 1])
    ensures forall i | 0 <= i < |Replay(outcomes)| ::
              Replay(outcomes)[i].Error? ==> Replay(outcomes)[i].message == CannotGetWeather
    ensures forall i | 0 <= i < |Replay(outcomes)| ::
              Replay(outcomes)[i].Success? ==> Emitted(Replay(outcomes)[i].weatherData) in outcomes
  {
    if |outcomes| > 0 {
      var front := outcomes[..|outcomes| - 1];
      var o := outcomes[|outcomes| - 1];
      ReplayFacts(front);
      WritesShape(o);
      var r := Replay(outcomes);
      assert r == Replay(front) + Writes(o);
      forall i | 0 <= i < |r| && r[i].Success?
        ensures Emitted(r[i].weatherData) in outcomes
      {
        if i < |Replay(front)| {
          assert r[i] == Replay(front)[i];
          var k :| 0 <= k < |front| && front[k] == Emitted(r[i].weatherData);
          assert outcomes[k] == front[k];
        } else {
          assert r[i] == Writes(o)[i - |Replay(front)|];
        }
      }
      forall i | 0 <= i < |r| && r[i].Error?
        ensures r[i].message == CannotGetWeather
      {
        if i < |Replay(front)| {
          assert r[i] == Replay(front)[i];
        } else {
          assert r[i] == Writes(o)[i - |Replay(front)|];
        }
      }
    }
  }

  /**
   * For a view model driven only through its two requests, the state is the
   * last value written (the initial `Working` when nothing was), every error
   * written carries the fixed message and every success carries data one of
   * the requests emitted.
   */
  lemma StateIsLastWrite(vm: MainActivityViewModel)
    requires vm.Valid()
    ensures vm.trace == [] ==> vm.state == Working
    ensures vm.trace != [] ==> vm.state == vm.trace[|vm.trace| - 1]
    ensures forall i | 0 <= i < |vm.trace| :: vm.trace[i].Error? ==> vm.trace[i].message == CannotGetWeather
    ensures forall i | 0 <= i < |vm.trace| :: vm.trace[i].Success? ==> Emitted(vm.trace[i].weatherData) in vm.outcomes
  {
    ReplayFacts(vm.outcomes);
  }
}
