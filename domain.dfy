/**
 * The value records that the dashboard's views pass to each other.
 * Every record is an immutable value; numbers the source holds as JavaScript
 * numbers are exact reals here (the logic only compares them with decimal
 * literals and divides them by constants).
 */
module Domain {

  /** The source's `T | null`. */
  datatype Option<+T> = None | Some(value: T)

  /** A geographic position with the address text shown for it. */
  datatype Location = Location(latitude: real, longitude: real, address: string)

  /** One day of the weather forecast. */
  datatype ForecastDay = ForecastDay(date: string, temp: real, condition: string)

  /** A weather snapshot: current readings and a short forecast. */
  datatype WeatherData = WeatherData(
    temperature: real,
    humidity: real,
    windSpeed: real,
    windDirection: string,
    forecast: seq<ForecastDay>)

  /** A soil sample: its type and the five measured parameters. */
  datatype SoilData = SoilData(
    soilType: string,
    ph: real,
    organicContent: real,
    nitrogen: real,
    phosphorus: real,
    potassium: real)

  /** One crop recommendation with its suitability score and advice texts. */
  datatype CropRecommendation = CropRecommendation(
    name: string,
    nameHindi: string,
    suitability: real,
    plantingTime: string,
    harvestTime: string,
    irrigation: string,
    fertilizer: string,
    pestControl: string)

  /**
   * The selected interface language. The selector offers eight codes
   * (hi, en, te, ta, bn, gu, mr, pa); only Hindi and English have label
   * tables, and the six others behave alike in the modelled logic, so they
   * are one value, `Other`.
   */
  datatype Language = Hi | En | Other
}
