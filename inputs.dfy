/** The readings and the user profile the health-risk engine consumes.

    A reading is the dictionary a collaborator hands to the engine (weather
    from the weather service, air quality and noise from the two mock
    providers); the profile is the user's stored document, in which every
    key may be missing. */
module Inputs {

  /** A profile value that may be absent: `user.get(key)` yields `None` for a missing key. */
  datatype Option<+T> = None | Some(value: T)

  /** One weather reading (`ciudad`, `pais`, `temp`, `sensacion`, `humedad`, `descripcion`).
      The temperature is a float in degrees Celsius; humidity a percentage. */
  datatype Weather = Weather(
    city: string,
    country: string,
    temp: real,
    feelsLike: real,
    humidity: int,
    description: string)

  /** One air-quality reading (`pm25`, `pm10`, `aqi`, `categoria`). */
  datatype AirQuality = AirQuality(pm25: int, pm10: int, aqi: int, category: string)

  /** One noise reading (`ruido_db`, `fuente_probable`), in decibels. */
  datatype Noise = Noise(db: real, likelySource: string)

  /** The only flag value that switches a profile rule on. */
  const Yes: string := "Si"
  /** The only activity level that the rules react to. */
  const HighActivity: string := "Alto"
  /** The two outdoor-exposure answers that add points. */
  const MoreThanFourHours: string := "Más de 4h"
  const TwoToFourHours: string := "2-4h"
  /** The three transport modes that have advice of their own. */
  const Walking: string := "Caminata"
  const Bicycle: string := "Bicicleta"
  const PublicTransport: string := "Transporte público"

  /** The profile keys the engine reads. Each string-valued key is `None`
      when the stored document lacks it; `age` is `int(edad or 0)`, so 0
      when the key is missing or empty. */
  datatype Profile = Profile(
    age: int,                          // edad
    asthma: Option<string>,            // asma
    allergies: Option<string>,         // alergias
    hypertension: Option<string>,      // hipertension
    diabetes: Option<string>,          // diabetes
    respiratory: Option<string>,       // respiratorio
    activity: Option<string>,          // actividad
    outdoorHours: Option<string>,      // aire_libre
    heatSensitive: Option<string>,     // sensible_calor
    coldSensitive: Option<string>,     // sensible_frio
    noiseSensitive: Option<string>,    // sensibilidad_ruido
    transport: Option<string>)         // transporte

  /** A document with none of the keys above. */
  const EmptyProfile: Profile :=
    Profile(0, None, None, None, None, None, None, None, None, None, None, None)

  /** A flag is on exactly when its stored value is the literal "Si". */
  predicate On(v: Option<string>) {
    v == Some(Yes)
  }

  /** Asthma or another respiratory condition: the trigger of the respiratory rules. */
  predicate Respiratory(u: Profile) {
    On(u.asthma) || On(u.respiratory)
  }

  predicate HighlyActive(u: Profile) {
    u.activity == Some(HighActivity)
  }

  /** Everything one evaluation looks at. */
  datatype Snapshot = Snapshot(weather: Weather, air: AirQuality, noise: Noise, user: Profile)

  /** The fixed air-quality reading the air provider returns for every city: the city is ignored. */
  function AirQualityMock(city: string): (a: AirQuality)
    ensures a.aqi == 80 && a.pm25 == 35 && a.pm10 == 60 && a.category == "Moderada"
  {
    AirQuality(35, 60, 80, "Moderada")
  }

  /** The fixed noise reading the noise provider returns for every city: the city is ignored. */
  function NoiseMock(city: string): (n: Noise)
    ensures n.db == 65.0 && n.likelySource == "Tráfico vehicular"
  {
    Noise(65.0, "Tráfico vehicular")
  }
}
