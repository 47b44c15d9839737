/** The current-conditions panel: one reading of the service and the name of the place. */
module Current {

  import WeatherCodes

  /** The instantaneous fields the panel shows; `isDay` is the service's 0/1 flag. */
  datatype Reading = Reading(
    temperature: real,
    apparentTemperature: real,
    humidity: int,
    isDay: int,
    precipitation: real,
    weatherCode: int,
    cloudCover: int,
    pressure: real,
    windSpeed: real,
    windGusts: real)

  datatype Card = Card(locationName: string, icon: string, description: string, reading: Reading)

  /**
   * The panel for a reading: it names the place it was asked for and shows
   * the glyph of the code under the reading's day flag (JavaScript truthiness
   * of the 0/1 value); so it shows the moon only for a clear or mainly clear
   * night, and the unknown glyph exactly when it shows the unknown description.
   */
  function Render(r: Reading, locationName: string): (c: Card)
    ensures c.locationName == locationName && c.reading == r
    ensures c.icon == WeatherCodes.Icon(r.weatherCode, r.isDay != 0)
    ensures c.icon == WeatherCodes.Moon <==> r.isDay == 0 && (r.weatherCode == 0 || r.weatherCode == 1)
    ensures c.icon == WeatherCodes.UnknownIcon <==> c.description == WeatherCodes.UnknownDescription
    ensures c.description == WeatherCodes.Description(r.weatherCode)
  {
    Card(locationName,
         WeatherCodes.Icon(r.weatherCode, r.isDay != 0),
         WeatherCodes.Description(r.weatherCode),
         r)
  }
}
