/**
 * The records the app receives from the weather API (models/WeatherResponse.kt
 * and its parts), restricted to the fields the app reads, and the HTTP status
 * rules that both MainActivity and WeatherUploadWorker apply to a response.
 */
module Models {

  const LongMin: int := -0x8000_0000_0000_0000
  const LongMax: int := 0x7FFF_FFFF_FFFF_FFFF

  /** Kotlin's 64-bit `Long`. */
  type Long = x: int | LongMin <= x <= LongMax

  /** Two's-complement wrap-around of an integer into the `Long` range. */
  function ToLong(x: int): (r: Long)
    ensures LongMin <= x <= LongMax ==> r == x
    ensures (r - x) % 0x1_0000_0000_0000_0000 == 0
  {
    (x - LongMin) % 0x1_0000_0000_0000_0000 + LongMin
  }

  /**
   * The text Kotlin's `toString()` gives for a floating-point or integer field
   * the app only displays; no arithmetic is done on these values.
   */
  type NumberText = string

  datatype Weather = Weather(main: string, description: string, icon: string)

  datatype MainMetrics = MainMetrics(temp: NumberText, tempMin: NumberText, tempMax: NumberText, humidity: NumberText)

  datatype Wind = Wind(speed: NumberText, deg: int)

  /** Country code and sunrise/sunset in epoch seconds. */
  datatype Sys = Sys(country: string, sunrise: Long, sunset: Long)

  datatype WeatherResponse = WeatherResponse(
    weather: seq<Weather>,
    main: MainMetrics,
    wind: Wind,
    sys: Sys,
    name: string)

  /** A device position; the coordinates are passed along, never computed on. */
  datatype Location = Location(latitude: real, longitude: real)

  /** The query sent to the weather API; the API key is part of the app's configuration. */
  datatype WeatherRequest = WeatherRequest(location: Location, units: string)

  /** Retrofit's `Response.isSuccessful`: a 2xx status. */
  predicate IsSuccessful(code: int) {
    200 <= code < 300
  }

  /** How a response that is not successful is logged. */
  datatype StatusClass = BadRequest | NotFound | GenericError(code: int)

  function ClassifyStatus(code: int): (r: StatusClass)
    requires !IsSuccessful(code)
    ensures r == BadRequest <==> code == 400
    ensures r == NotFound <==> code == 404
    ensures r.GenericError? <==> code != 400 && code != 404
    ensures r.GenericError? ==> r.code == code
  {
    if code == 400 then BadRequest
    else if code == 404 then NotFound
    else GenericError(code)
  }

  /** What a Retrofit call delivers to its callback: `onResponse` or `onFailure`. */
  datatype CallOutcome =
    | Responded(code: int, body: WeatherResponse)
    | TransportFailed(message: string)
}
