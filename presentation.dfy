/** The UI state published by the view model: a sealed hierarchy of four variants. */
module Presentation {

  import opened Weather

  datatype BaseState =
    | Working
    | Loading
    | Success(weatherData: WeatherData)
    | Error(message: string)

  /** Which of the four variants a state is, numbered in declaration order. */
  function Variant(s: BaseState): (k: nat)
    ensures k < 4
    ensures k == 0 <==> s.Working?
    ensures k == 1 <==> s.Loading?
    ensures k == 2 <==> s.Success?
    ensures k == 3 <==> s.Error?
  {
    match s
    case Working => 0
    case Loading => 1
    case Success(_) => 2
    case Error(_) => 3
  }

  /**
   * `Working` and `Loading` carry no payload, so each is a single value;
   * `Success` and `Error` carry exactly one field each. In this model two of
   * them are equal exactly when their fields are; in Kotlin they are plain
   * classes, compared by identity, so this holds of the model only.
   */
  lemma VariantPayloads(s: BaseState, t: BaseState)
    ensures s.Working? && t.Working? ==> s == t
    ensures s.Loading? && t.Loading? ==> s == t
    ensures s.Success? && t.Success? ==> (s == t <==> s.weatherData == t.weatherData)
    ensures s.Error? && t.Error? ==> (s == t <==> s.message == t.message)
  {
  }
}
