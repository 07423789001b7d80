/**
 * The parsed API response. Only the parts the modelled core looks at are
 * kept: the city name and the list of condition entries. The numeric
 * metrics (temperatures, pressure, wind, sunrise and sunset) are only
 * displayed and are not part of this model.
 */
module Weather {

  /** One entry of the response's `weather` array: a condition code and its short label. */
  datatype Condition = Condition(id: int, main: string)

  datatype WeatherData = WeatherData(name: string, weather: seq<Condition>)
}
