# Health-risk engine of Vital Routes, in Dafny

Vital Routes shows a logged-in user how risky it is to go outdoors in a city
today. The dashboard takes three readings:

- weather, from a weather service;
- air quality and noise, from two fixed providers.

It combines them with the user's stored health and activity profile in two steps:

- `calcular_riesgo_salud` adds up points from independent threshold rules. The
  rules cover temperature and the heat and cold sensitivities, humidity, AQI
  and respiratory conditions and allergies, noise and noise sensitivity,
  hypertension, diabetes, age, a high activity level, and time spent outdoors.
  The score is classified as "Bajo"/verde (0–5), "Medio"/amarillo (6–12) or
  "Alto"/rojo (13 and up).
- `generar_recomendaciones` turns the verdict into a list of Spanish messages
  plus a suggested time window. The list is one base message chosen by the
  level, followed by every addition whose condition holds, in a fixed order.

Modules:

- `Inputs`: readings, profile, the two fixed providers.
- `RiskScoring`: the rules, their sum, the classification and the imperative
  scoring method, split by section of the source.
- `RiskProperties`: range, monotonicity, which profile values matter, worked
  snapshots.
- `Recommendations`: messages, conditions, the list as a specification
  function and the imperative generator.
- `RecommendationProperties`: base message, exact membership, order, length,
  uniqueness of the list.
- `Dashboard`: the request that strips the city, calls both steps in turn and
  builds the page.

How the source's code is modelled:

- Each function that mutates a local accumulator or list is a `method`. It
  performs the same `if` statements in the same order. Its `ensures` ties the
  result to a specification function: `Score`, the sum of `Points` over
  `RuleOrder`, or `Render(Plan(level, s))`. The properties are proved about
  those functions.
- Profile values are `Option<string>`, where `None` is a missing key. A rule
  switches on only when the value is exactly `"Si"`, as `user.get(k) == "Si"` does.
- Level and colour are kept as strings, so the generator's `else` branches
  (any level other than "Bajo"/"Medio", and any level other than "Alto"/"Medio")
  are modelled as written.
- Temperature and decibels are `real`; humidity, AQI and age are `int`.

## Model

| member | source | states |
|---|---|---|
| Inputs.AirQualityMock | services.py:48-49 | Returns the fixed reading (PM2.5 35, PM10 60, AQI 80, "Moderada") whatever the city |
| Inputs.NoiseMock | services.py:52-53 | Returns the fixed reading (65 dB, "Tráfico vehicular") whatever the city |
| RiskScoring.CalculateHealthRisk | services.py:59-172 | The verdict is `Assess` of the snapshot: its score is the sum of all rule points, it lies in 0..39, and its level is "Bajo" iff score ≤ 5, "Medio" iff 6 ≤ score ≤ 12, "Alto" iff score ≥ 13 |
| RiskScoring.AddTemperaturePoints | services.py:70-79 | Adds exactly the points of the temperature band and of the heat and cold sensitivities |
| RiskScoring.AddHumidityPoints | services.py:84-85 | Adds exactly the humidity rule's point (humidity above 80) |
| RiskScoring.AddAirQualityPoints | services.py:90-107 | Adds exactly the points of the AQI band, both respiratory amplifiers and the allergy rule |
| RiskScoring.AddNoisePoints | services.py:112-120 | Adds exactly the points of the noise band and of noise sensitivity |
| RiskScoring.AddHealthPoints | services.py:125-136 | Adds exactly the points of hypertension, diabetes and the age band |
| RiskScoring.AddActivityPoints | services.py:141-147 | Adds exactly the points of the two high-activity rules |
| RiskScoring.AddExposurePoints | services.py:152-157 | Adds exactly the points of the outdoor-exposure answer |
| RiskScoring.Points | services.py:70-157 | No rule awards more than its weight (3,2,2,1,5,3,5,2,3,2,2,1,3,2,3,2) |
| RiskScoring.Classify | services.py:162-170 | Each of the three bands is chosen exactly on its score range; the colour always goes with its level |
| RiskScoring.ScoreIsRuleSum | services.py:60-157 | The score equals the sum of the sixteen rule contributions, each with its own threshold condition |
| RiskScoring.ScoreBounds | services.py:60-157 | Every score is between 0 and 39 |
| RiskProperties.AqiMonotone | services.py:90-147 | Raising the AQI never lowers the score |
| RiskProperties.NoiseMonotone | services.py:112-120 | Raising the noise level never lowers the score |
| RiskProperties.HeatMonotone | services.py:70-147 | From 10 °C upwards, a hotter reading never lowers the score |
| RiskProperties.ColdMonotone | services.py:70-147 | From 28 °C downwards, a colder reading never lowers the score |
| RiskProperties.OnlyRecognisedValuesScore | services.py:75-157 | The score is unchanged when every flag other than "Si", every activity other than "Alto", every exposure answer other than the two scored ones and the transport mode are dropped |
| RiskProperties.EmptyProfileMildDay | services.py:59-172 | With no profile keys and readings inside every threshold, the verdict is score 0, "Bajo", "verde" |
| RiskProperties.AssessBands | services.py:162-172 | The verdict's level and colour are one of the three pairs and follow the score bands |
| RiskProperties.MaxScoreReached | services.py:59-172 | The bound 39 is reached by a concrete snapshot, which is rated "Alto" |
| RiskProperties.HotPollutedNoisyDayIsHigh | services.py:59-172 | 35 °C, 85 %, AQI 160, 85 dB, a respiratory condition and age 70 score 23: "Alto", "rojo" |
| RiskProperties.WarmDayHeatSensitive | services.py:70-205 | At exactly 30 °C a heat-sensitive user on a clean, quiet day scores 4: "Bajo", "verde", and the advice is the favourable message alone, with no sun or heat-window message |
| Recommendations.GenerateRecommendations | services.py:178-256 | The messages are the texts of `Plan(level, snapshot)` in order, and the window is the level's window |
| Recommendations.AppendClimateAdvice | services.py:197-205 | Appends exactly the texts of the heat and cold section |
| Recommendations.AppendAirAdvice | services.py:210-217 | Appends exactly the texts of the air-quality section |
| Recommendations.AppendNoiseAdvice | services.py:222-226 | Appends exactly the texts of the noise section |
| Recommendations.AppendMobilityAdvice | services.py:231-244 | Appends exactly the texts of the activity and transport section |
| Recommendations.SuggestedWindow | services.py:249-254 | The 11:00–17:00 warning iff the level is "Alto", the before-10/after-18 advice iff "Medio", "any time" for every other level |
| RecommendationProperties.PlanStartsWithBase | services.py:187-192 | The list is never empty; its first message is the favourable one iff the level is "Bajo", the moderate one iff "Medio", the high-risk one for every other level |
| RecommendationProperties.ClimateAdviceMembers | services.py:197-205 | The heat and cold section holds a message iff its condition holds |
| RecommendationProperties.AirAdviceMembers | services.py:210-217 | The air-quality section holds a message iff its condition holds |
| RecommendationProperties.NoiseAdviceMembers | services.py:222-226 | The noise section holds a message iff its condition holds |
| RecommendationProperties.MobilityAdviceMembers | services.py:231-244 | The activity and transport section holds a message iff its condition holds |
| RecommendationProperties.PlanHoldsExactlyTheGuarded | services.py:197-244 | Every addition is in the list iff its condition holds |
| RecommendationProperties.PlanAdditionsAfterBase | services.py:187-244 | Only the first message is a base message |
| RecommendationProperties.PlanInGeneratorOrder | services.py:187-244 | The list is strictly increasing in the generator's order: no message repeats and none is out of place |
| RecommendationProperties.PlanLength | services.py:187-244 | The list has at most ten messages |
| RecommendationProperties.PlanLengthReached | services.py:187-244 | Ten messages are reached by a concrete snapshot |
| RecommendationProperties.HeatWarningFollowsSunAdvice | services.py:197-200 | The heat-window warning appears only above 30 °C, as the third message, right after the sun advice |
| RecommendationProperties.ColdWarningFollowsWarmAdvice | services.py:202-205 | The short-outings warning appears only below 10 °C, as the third message, right after the dress-warm advice |
| RecommendationProperties.NoiseSensitiveAdviceIgnoresDecibels | services.py:225-226 | The avoid-avenues message is given iff the user is noise-sensitive, whatever the noise level |
| RecommendationProperties.PlanIsTheOnlyOrderedGuardedList | services.py:178-244 | Any list with the level's base message first, exactly the guarded additions after it, and the generator's order, is the generator's list |
| RecommendationProperties.DecodeText | services.py:188-244 | Every message's text reads back as that message |
| RecommendationProperties.TextInjective | services.py:188-244 | Distinct messages have distinct texts, so membership, order and uniqueness of the messages hold for the shown strings too |
| Dashboard.StripLeft | routes/dashboard_routes.py:31 | The result is a suffix of the input, everything dropped is whitespace, and it starts with a non-space |
| Dashboard.StripRight | routes/dashboard_routes.py:31 | The result is a prefix of the input, everything dropped is whitespace, and it ends with a non-space |
| Dashboard.StripIsTheTrimmedSlice | routes/dashboard_routes.py:31 | The stripped city is a slice of the field with only whitespace before and after it |
| Dashboard.StripEndsWithNonSpaces | routes/dashboard_routes.py:31 | A non-empty stripped city starts and ends with a non-space |
| Dashboard.StripEmptyIffBlank | routes/dashboard_routes.py:31-34 | The stripped city is empty, and so the "Ingresa una ciudad." error is shown, iff the field is all whitespace |
| Dashboard.HandleDashboard | routes/dashboard_routes.py:21-57 | A post with a blank city gives "Ingresa una ciudad."; a failed weather lookup gives "No se pudo obtener el clima."; otherwise the page holds the verdict and the advice computed from the same readings; a plain visit shows neither |
| Dashboard.AdviceFollowsScoreBands | routes/dashboard_routes.py:43-47 | In the composed pipeline the base message and the window follow the same score bands as the level: ≤ 5, 6–12, ≥ 13 |
| Dashboard.FixedProvidersScore | routes/dashboard_routes.py:40-43 | With the fixed readings (AQI 80, 65 dB) the AQI and noise bands each add 1 point, so every score is at least 2 |
| Dashboard.FixedProvidersAirAdvice | routes/dashboard_routes.py:40-47 | With AQI 80, no advice needing an AQI above 80 is ever given, and the allergy warning is given iff the user has allergies |
| Dashboard.FixedProvidersNoiseAdvice | routes/dashboard_routes.py:40-47 | With 65 dB, no advice needing more than 70 dB is ever given |

## Left out

- The weather service (`obtener_clima`, services.py:18-42) makes an HTTP call. It is the `lookup` parameter of `Dashboard.HandleDashboard`, and any answer it gives is accepted.
- The age parse `int(user.get("edad", 0) or 0)` is not modelled. The model receives the parsed integer. A stored value that `int()` rejects raises an error in the source, and the model does not have that error.
- The dashboard's database read of the user, its session and login checks, the template rendering and the profile-update route are not modelled; the user document is taken to exist.
- Profile keys the engine never reads are not modelled: `sexo` and `sensibilidad_contaminacion`.
- The code has a single, profile-aware set of rules: the dashboard always passes the stored user document, and there is no separate policy for a missing profile. Only that set of rules is modelled.
- At exactly 30 °C the code (`temp > 30`, services.py:197) gives no heat messages: a heat-sensitive user on a clean, quiet day scores 2 + 2 = 4, "Bajo", and gets the favourable message alone. `RiskProperties.WarmDayHeatSensitive` states this.
- Floating-point rounding of the temperature is not modelled: readings are exact reals.
