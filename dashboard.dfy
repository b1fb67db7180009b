/** The dashboard request: a submitted city is trimmed, the weather service is
    asked about it, the two fixed providers supply air quality and noise, and
    the risk engine and the advice generator run one after the other on the
    same readings and the logged-in user's profile. */
module Dashboard {
  import opened Inputs
  import opened RiskScoring
  import opened Recommendations
  import opened RecommendationProperties

  const NoCity: string := "Ingresa una ciudad."
  const NoWeather: string := "No se pudo obtener el clima."

  /** The characters Python's `str.strip()` removes: those `str.isspace()` accepts. */
  predicate IsSpace(c: char) {
    c == ' ' || ('\t' <= c <= '\r') || ('\U{1C}' <= c <= '\U{1F}')
    || c == '\U{85}' || c == '\U{A0}' || c == '\U{1680}'
    || ('\U{2000}' <= c <= '\U{200A}') || c == '\U{2028}' || c == '\U{2029}'
    || c == '\U{202F}' || c == '\U{205F}' || c == '\U{3000}'
  }

  /** Drops the leading whitespace. */
  function StripLeft(s: string): (r: string)
    ensures |r| <= |s| && r == s[|s| - |r|..]
    ensures forall i :: 0 <= i < |s| - |r| ==> IsSpace(s[i])
    ensures r != [] ==> !IsSpace(r[0])
  {
    if s != [] && IsSpace(s[0]) then StripLeft(s[1..]) else s
  }

  /** Drops the trailing whitespace. */
  function StripRight(s: string): (r: string)
    ensures |r| <= |s| && r == s[..|r|]
    ensures forall i :: |r| <= i < |s| ==> IsSpace(s[i])
    ensures r != [] ==> !IsSpace(r[|r| - 1])
  {
    if s != [] && IsSpace(s[|s| - 1]) then StripRight(s[..|s| - 1]) else s
  }

  /** `str.strip()`: the text between the leading and the trailing whitespace. */
  function Strip(s: string): string {
    StripRight(StripLeft(s))
  }

  /** The stripped text is the slice `s[i..j]` with only whitespace before `i`
      and from `j` on. */
  lemma StripIsTheTrimmedSlice(s: string) returns (i: nat, j: nat)
    ensures i <= j <= |s| && Strip(s) == s[i..j]
    ensures forall k :: 0 <= k < i ==> IsSpace(s[k])
    ensures forall k :: j <= k < |s| ==> IsSpace(s[k])
  {
    var left := StripLeft(s);
    i := |s| - |left|;
    j := i + |StripRight(left)|;
    forall k | j <= k < |s|
      ensures IsSpace(s[k])
    {
      assert s[k] == left[k - i];
    }
  }

  /** The stripped text starts and ends with a non-space. */
  lemma StripEndsWithNonSpaces(s: string)
    ensures Strip(s) != [] ==> !IsSpace(Strip(s)[0]) && !IsSpace(Strip(s)[|Strip(s)| - 1])
  {
    var left := StripLeft(s);
    if Strip(s) != [] {
      assert Strip(s)[0] == left[0];
    }
  }

  /** The stripped text is empty exactly when the input is all whitespace. */
  lemma StripEmptyIffBlank(s: string)
    ensures Strip(s) == [] <==> forall k :: 0 <= k < |s| ==> IsSpace(s[k])
  {
    var left := StripLeft(s);
    if Strip(s) != [] {
      assert left[0] == Strip(s)[0];
      assert s[|s| - |left|] == left[0];
    }
  }

  /** What the page shows after a successful evaluation (the `resultado` dictionary). */
  datatype Evaluation = Evaluation(
    city: string,
    weather: Weather,
    air: AirQuality,
    noise: Noise,
    risk: Verdict,
    recommendations: seq<string>,
    window: string)

  /** What the dashboard template receives: the evaluation, the verdict and the error message. */
  datatype Page = Page(result: Option<Evaluation>, risk: Option<Verdict>, error: Option<string>)

  /** The page for a request. `submitted` tells a form post from a plain visit,
      `cityField` is the form's `ciudad` field (absent reads as empty), and
      `lookup` is the weather service. */
  function Expected(submitted: bool, cityField: Option<string>, lookup: string -> Option<Weather>, user: Profile): Page {
    var city := Strip(if cityField.Some? then cityField.value else "");
    if !submitted then Page(None, None, None)
    else if city == [] then Page(None, None, Some(NoCity))
    else if lookup(city).None? then Page(None, None, Some(NoWeather))
    else
      var weather := lookup(city).value;
      var s := Snapshot(weather, AirQualityMock(city), NoiseMock(city), user);
      var risk := Assess(s);
      Page(Some(Evaluation(weather.city, weather, s.air, s.noise, risk,
                           Render(Plan(risk.level, s)), SuggestedWindow(risk.level))),
           Some(risk), None)
  }

  /** Handles one dashboard request for the logged-in user. */
  method HandleDashboard(submitted: bool, cityField: Option<string>, lookup: string -> Option<Weather>, user: Profile)
    returns (page: Page)
    ensures page == Expected(submitted, cityField, lookup, user)
    ensures page.error == Some(NoCity) <==>
      submitted && Strip(if cityField.Some? then cityField.value else "") == []
    ensures page.error == Some(NoWeather) <==>
      submitted && Strip(if cityField.Some? then cityField.value else "") != []
      && lookup(Strip(if cityField.Some? then cityField.value else "")).None?
    ensures page.result.Some? <==> submitted && page.error.None?
    ensures page.result.Some? ==> page.risk == Some(page.result.value.risk)
  {
    page := Page(None, None, None);
    if submitted {
      var city := Strip(if cityField.Some? then cityField.value else "");
      if city == [] {
        page := Page(None, None, Some(NoCity));
      } else {
        var weather := lookup(city);
        if weather.None? {
          page := Page(None, None, Some(NoWeather));
        } else {
          var air := AirQualityMock(city);
          var noise := NoiseMock(city);
          var risk := CalculateHealthRisk(weather.value, air, noise, user);
          var recommendations, window := GenerateRecommendations(risk, weather.value, air, noise, user);
          page := Page(Some(Evaluation(weather.value.city, weather.value, air, noise, risk, recommendations, window)),
                       Some(risk), None);
        }
      }
    }
  }

  /** The advice agrees with the verdict it is generated from: the base message
      and the window follow the same three score bands as the level. */
  lemma AdviceFollowsScoreBands(s: Snapshot)
    ensures Plan(Assess(s).level, s)[0] == Favorable <==> Score(s) <= 5
    ensures Plan(Assess(s).level, s)[0] == Moderate <==> 6 <= Score(s) <= 12
    ensures Plan(Assess(s).level, s)[0] == HighRisk <==> 13 <= Score(s)
    ensures SuggestedWindow(Assess(s).level) == WindowAny <==> Score(s) <= 5
    ensures SuggestedWindow(Assess(s).level) == WindowMedium <==> 6 <= Score(s) <= 12
    ensures SuggestedWindow(Assess(s).level) == WindowHigh <==> 13 <= Score(s)
  {
  }

  /** With the fixed providers (AQI 80, 65 dB) the AQI band and the noise band
      each add one point, so the score is never below 2. */
  lemma FixedProvidersScore(city: string, weather: Weather, user: Profile)
    ensures var s := Snapshot(weather, AirQualityMock(city), NoiseMock(city), user);
      Points(AqiBand, s) == 1 && Points(NoiseBand, s) == 1 && Score(s) >= 2
  {
    ScoreIsRuleSum(Snapshot(weather, AirQualityMock(city), NoiseMock(city), user));
  }

  /** With the fixed providers (AQI 80) no advice that needs an AQI above 80
      is ever given, whatever the level, and the allergy warning (AQI above 70)
      is given exactly to users with allergies. */
  lemma FixedProvidersAirAdvice(level: string, city: string, weather: Weather, user: Profile)
    ensures var p := Plan(level, Snapshot(weather, AirQualityMock(city), NoiseMock(city), user));
      AvoidExercise !in p && WearMask !in p && DontWalk !in p && MaskOnTransit !in p
      && (AllergyWarning in p <==> On(user.allergies))
  {
    var s := Snapshot(weather, AirQualityMock(city), NoiseMock(city), user);
    assert AvoidExercise !in Plan(level, s) by { PlanHoldsExactlyTheGuarded(level, s, AvoidExercise); }
    assert WearMask !in Plan(level, s) by { PlanHoldsExactlyTheGuarded(level, s, WearMask); }
    assert DontWalk !in Plan(level, s) by { PlanHoldsExactlyTheGuarded(level, s, DontWalk); }
    assert MaskOnTransit !in Plan(level, s) by { PlanHoldsExactlyTheGuarded(level, s, MaskOnTransit); }
    assert AllergyWarning in Plan(level, s) <==> On(user.allergies) by {
      PlanHoldsExactlyTheGuarded(level, s, AllergyWarning);
    }
  }

  /** With the fixed providers (65 dB) no advice that needs more than 70 dB is
      ever given, whatever the level. */
  lemma FixedProvidersNoiseAdvice(level: string, city: string, weather: Weather, user: Profile)
    ensures var p := Plan(level, Snapshot(weather, AirQualityMock(city), NoiseMock(city), user));
      QuietRoutes !in p && QuieterBikeways !in p
  {
    var s := Snapshot(weather, AirQualityMock(city), NoiseMock(city), user);
    assert QuietRoutes !in Plan(level, s) by { PlanHoldsExactlyTheGuarded(level, s, QuietRoutes); }
    assert QuieterBikeways !in Plan(level, s) by { PlanHoldsExactlyTheGuarded(level, s, QuieterBikeways); }
  }
}
