/** The personalised risk score: independent threshold rules, each awarding a
    fixed non-negative number of points, summed into a score that is then
    classified into a level ("Bajo", "Medio", "Alto") and a colour. */
module RiskScoring {
  import opened Inputs

  /** The threshold rules, one per `score += …` site, named by what they test. */
  datatype Rule =
    | TempBand            // below 5 or above 32: 3; below 10 or above 28: 2
    | HeatSensitivity     // heat-sensitive and above 28: 2
    | ColdSensitivity     // cold-sensitive and below 10: 2
    | HumidityBand        // humidity above 80: 1
    | AqiBand             // AQI up to 50: 0; up to 100: 1; up to 150: 3; above: 5
    | RespiratoryOver80   // asthma or respiratory condition and AQI above 80: 3
    | RespiratoryOver120  // asthma or respiratory condition and AQI above 120: 5
    | AllergyOver70       // allergies and AQI above 70: 2
    | NoiseBand           // above 80 dB: 3; above 70: 2; above 60: 1
    | NoiseSensitivity    // noise-sensitive and above 60 dB: 2
    | Hypertension        // 2
    | Diabetes            // 1
    | AgeBand             // 65 or older: 3; 50 or older: 1
    | ActivityTemperature // high activity and above 28 or below 10: 2
    | ActivityAqi         // high activity and AQI above 100: 3
    | OutdoorExposure     // more than 4 hours outdoors: 2; 2 to 4 hours: 1

  /** The rules of each section of the engine, in the order it applies them. */
  const TemperatureRules: seq<Rule> := [TempBand, HeatSensitivity, ColdSensitivity]
  const HumidityRules: seq<Rule> := [HumidityBand]
  const AirRules: seq<Rule> := [AqiBand, RespiratoryOver80, RespiratoryOver120, AllergyOver70]
  const NoiseRules: seq<Rule> := [NoiseBand, NoiseSensitivity]
  const HealthRules: seq<Rule> := [Hypertension, Diabetes, AgeBand]
  const ActivityRules: seq<Rule> := [ActivityTemperature, ActivityAqi]
  const ExposureRules: seq<Rule> := [OutdoorExposure]

  /** Every rule, in the order the score accumulates them. */
  const RuleOrder: seq<Rule> :=
    TemperatureRules + HumidityRules + AirRules + NoiseRules + HealthRules + ActivityRules + ExposureRules

  /** The most points a rule can award. */
  function Weight(r: Rule): nat {
    match r
    case TempBand => 3
    case HeatSensitivity => 2
    case ColdSensitivity => 2
    case HumidityBand => 1
    case AqiBand => 5
    case RespiratoryOver80 => 3
    case RespiratoryOver120 => 5
    case AllergyOver70 => 2
    case NoiseBand => 3
    case NoiseSensitivity => 2
    case Hypertension => 2
    case Diabetes => 1
    case AgeBand => 3
    case ActivityTemperature => 2
    case ActivityAqi => 3
    case OutdoorExposure => 2
  }

  /** The points one rule awards for one snapshot. */
  function Points(r: Rule, s: Snapshot): (p: nat)
    ensures p <= Weight(r)
  {
    var temp := s.weather.temp;
    var aqi := s.air.aqi;
    var db := s.noise.db;
    var u := s.user;
    match r
    case TempBand =>
      if temp < 5.0 || temp > 32.0 then 3 else if temp < 10.0 || temp > 28.0 then 2 else 0
    case HeatSensitivity => if On(u.heatSensitive) && temp > 28.0 then 2 else 0
    case ColdSensitivity => if On(u.coldSensitive) && temp < 10.0 then 2 else 0
    case HumidityBand => if s.weather.humidity > 80 then 1 else 0
    case AqiBand => if aqi <= 50 then 0 else if aqi <= 100 then 1 else if aqi <= 150 then 3 else 5
    case RespiratoryOver80 => if Respiratory(u) && aqi > 80 then 3 else 0
    case RespiratoryOver120 => if Respiratory(u) && aqi > 120 then 5 else 0
    case AllergyOver70 => if On(u.allergies) && aqi > 70 then 2 else 0
    case NoiseBand => if db > 80.0 then 3 else if db > 70.0 then 2 else if db > 60.0 then 1 else 0
    case NoiseSensitivity => if On(u.noiseSensitive) && db > 60.0 then 2 else 0
    case Hypertension => if On(u.hypertension) then 2 else 0
    case Diabetes => if On(u.diabetes) then 1 else 0
    case AgeBand => if u.age >= 65 then 3 else if u.age >= 50 then 1 else 0
    case ActivityTemperature => if HighlyActive(u) && (temp > 28.0 || temp < 10.0) then 2 else 0
    case ActivityAqi => if HighlyActive(u) && aqi > 100 then 3 else 0
    case OutdoorExposure =>
      if u.outdoorHours == Some(MoreThanFourHours) then 2
      else if u.outdoorHours == Some(TwoToFourHours) then 1
      else 0
  }

  /** The points a list of rules awards together. */
  function Total(rules: seq<Rule>, s: Snapshot): nat {
    if rules == [] then 0 else Total(rules[..|rules| - 1], s) + Points(rules[|rules| - 1], s)
  }

  /** The risk score: the sum of every rule's points. */
  function Score(s: Snapshot): nat {
    Total(RuleOrder, s)
  }

  /** The highest score any snapshot reaches. */
  const MaxScore: nat := 39

  const LevelLow: string := "Bajo"
  const LevelMedium: string := "Medio"
  const LevelHigh: string := "Alto"
  const Green: string := "verde"
  const Yellow: string := "amarillo"
  const Red: string := "rojo"

  /** The level and colour of a score: three contiguous bands. */
  function Classify(score: int): (band: (string, string))
    ensures band == (LevelLow, Green) <==> score <= 5
    ensures band == (LevelMedium, Yellow) <==> 6 <= score <= 12
    ensures band == (LevelHigh, Red) <==> 13 <= score
  {
    if score <= 5 then (LevelLow, Green)
    else if score <= 12 then (LevelMedium, Yellow)
    else (LevelHigh, Red)
  }

  /** The result dictionary: `score`, `nivel`, `color`. */
  datatype Verdict = Verdict(score: int, level: string, color: string)

  /** The verdict the engine gives for a snapshot. */
  function Assess(s: Snapshot): Verdict {
    var band := Classify(Score(s));
    Verdict(Score(s), band.0, band.1)
  }

  /** Accumulates the score section by section, then classifies it. */
  method CalculateHealthRisk(weather: Weather, air: AirQuality, noise: Noise, user: Profile)
    returns (risk: Verdict)
    ensures risk == Assess(Snapshot(weather, air, noise, user))
    ensures 0 <= risk.score <= MaxScore
    ensures risk.level == LevelLow <==> risk.score <= 5
    ensures risk.level == LevelMedium <==> 6 <= risk.score <= 12
    ensures risk.level == LevelHigh <==> 13 <= risk.score
  {
    var s := Snapshot(weather, air, noise, user);
    var score := 0;
    score := AddTemperaturePoints(score, s);
    score := AddHumidityPoints(score, s);
    score := AddAirQualityPoints(score, s);
    score := AddNoisePoints(score, s);
    score := AddHealthPoints(score, s);
    score := AddActivityPoints(score, s);
    score := AddExposurePoints(score, s);
    ScoreBySection(s);
    ScoreBounds(s);

    var level, color;
    if score <= 5 {
      level, color := LevelLow, Green;
    } else if score <= 12 {
      level, color := LevelMedium, Yellow;
    } else {
      level, color := LevelHigh, Red;
    }
    risk := Verdict(score, level, color);
  }

  /** Section 1: temperature bands and the two temperature sensitivities. */
  method AddTemperaturePoints(score: int, s: Snapshot) returns (updated: int)
    ensures updated == score + Total(TemperatureRules, s)
  {
    ShortTotal(TemperatureRules, s);
    var temp := s.weather.temp;
    var user := s.user;
    updated := score;
    if temp < 5.0 || temp > 32.0 {
      updated := updated + 3;
    } else if temp < 10.0 || temp > 28.0 {
      updated := updated + 2;
    }
    if On(user.heatSensitive) && temp > 28.0 {
      updated := updated + 2;
    }
    if On(user.coldSensitive) && temp < 10.0 {
      updated := updated + 2;
    }
  }

  /** Section 2: humidity. */
  method AddHumidityPoints(score: int, s: Snapshot) returns (updated: int)
    ensures updated == score + Total(HumidityRules, s)
  {
    ShortTotal(HumidityRules, s);
    updated := score;
    if s.weather.humidity > 80 {
      updated := updated + 1;
    }
  }

  /** Section 3: the AQI band and the conditions poor air aggravates. */
  method AddAirQualityPoints(score: int, s: Snapshot) returns (updated: int)
    ensures updated == score + Total(AirRules, s)
  {
    ShortTotal(AirRules, s);
    var aqi := s.air.aqi;
    var user := s.user;
    updated := score;
    if aqi <= 50 {
      updated := updated + 0;
    } else if aqi <= 100 {
      updated := updated + 1;
    } else if aqi <= 150 {
      updated := updated + 3;
    } else {
      updated := updated + 5;
    }
    if On(user.asthma) || On(user.respiratory) {
      if aqi > 80 {
        updated := updated + 3;
      }
      if aqi > 120 {
        updated := updated + 5;
      }
    }
    if On(user.allergies) && aqi > 70 {
      updated := updated + 2;
    }
  }

  /** Section 4: noise bands and noise sensitivity. */
  method AddNoisePoints(score: int, s: Snapshot) returns (updated: int)
    ensures updated == score + Total(NoiseRules, s)
  {
    ShortTotal(NoiseRules, s);
    var db := s.noise.db;
    updated := score;
    if db > 80.0 {
      updated := updated + 3;
    } else if db > 70.0 {
      updated := updated + 2;
    } else if db > 60.0 {
      updated := updated + 1;
    }
    if On(s.user.noiseSensitive) && db > 60.0 {
      updated := updated + 2;
    }
  }

  /** Section 5: hypertension, diabetes and age. */
  method AddHealthPoints(score: int, s: Snapshot) returns (updated: int)
    ensures updated == score + Total(HealthRules, s)
  {
    ShortTotal(HealthRules, s);
    var user := s.user;
    updated := score;
    if On(user.hypertension) {
      updated := updated + 2;
    }
    if On(user.diabetes) {
      updated := updated + 1;
    }
    var age := user.age;
    if age >= 65 {
      updated := updated + 3;
    } else if age >= 50 {
      updated := updated + 1;
    }
  }

  /** Section 6: high physical activity in extreme temperatures or poor air. */
  method AddActivityPoints(score: int, s: Snapshot) returns (updated: int)
    ensures updated == score + Total(ActivityRules, s)
  {
    ShortTotal(ActivityRules, s);
    var temp := s.weather.temp;
    var activity := s.user.activity;
    updated := score;
    if activity == Some(HighActivity) && (temp > 28.0 || temp < 10.0) {
      updated := updated + 2;
    }
    if activity == Some(HighActivity) && s.air.aqi > 100 {
      updated := updated + 3;
    }
  }

  /** Section 7: hours spent outdoors. */
  method AddExposurePoints(score: int, s: Snapshot) returns (updated: int)
    ensures updated == score + Total(ExposureRules, s)
  {
    ShortTotal(ExposureRules, s);
    var outdoors := s.user.outdoorHours;
    updated := score;
    if outdoors == Some(MoreThanFourHours) {
      updated := updated + 2;
    } else if outdoors == Some(TwoToFourHours) {
      updated := updated + 1;
    }
  }

  /** A prefix one rule longer awards that rule's points on top. */
  lemma TotalExtend(rules: seq<Rule>, k: nat, s: Snapshot)
    requires 0 < k <= |rules|
    ensures Total(rules[..k], s) == Total(rules[..k - 1], s) + Points(rules[k - 1], s)
  {
    assert rules[..k][..k - 1] == rules[..k - 1];
  }

  /** The points of a list of at most four rules, spelled out rule by rule. */
  lemma ShortTotal(rules: seq<Rule>, s: Snapshot)
    requires |rules| <= 4
    ensures Total(rules, s) ==
      (if |rules| > 0 then Points(rules[0], s) else 0)
      + (if |rules| > 1 then Points(rules[1], s) else 0)
      + (if |rules| > 2 then Points(rules[2], s) else 0)
      + (if |rules| > 3 then Points(rules[3], s) else 0)
  {
    for k := 1 to |rules| + 1
      invariant Total(rules[..k - 1], s) ==
        (if k > 1 then Points(rules[0], s) else 0)
        + (if k > 2 then Points(rules[1], s) else 0)
        + (if k > 3 then Points(rules[2], s) else 0)
        + (if k > 4 then Points(rules[3], s) else 0)
    {
      TotalExtend(rules, k, s);
    }
    assert rules[..|rules|] == rules;
  }

  /** The points of two lists of rules placed one after the other add up. */
  lemma {:induction false} TotalAppend(a: seq<Rule>, b: seq<Rule>, s: Snapshot)
    ensures Total(a + b, s) == Total(a, s) + Total(b, s)
  {
    if b == [] {
      assert a + b == a;
    } else {
      var n := |b| - 1;
      assert (a + b)[..|a + b| - 1] == a + b[..n];
      TotalAppend(a, b[..n], s);
    }
  }

  /** The score is the sum of the seven sections' points. */
  lemma ScoreBySection(s: Snapshot)
    ensures Score(s) ==
      Total(TemperatureRules, s) + Total(HumidityRules, s) + Total(AirRules, s)
      + Total(NoiseRules, s) + Total(HealthRules, s) + Total(ActivityRules, s)
      + Total(ExposureRules, s)
  {
    var r1 := TemperatureRules + HumidityRules;
    var r2 := r1 + AirRules;
    var r3 := r2 + NoiseRules;
    var r4 := r3 + HealthRules;
    var r5 := r4 + ActivityRules;
    TotalAppend(TemperatureRules, HumidityRules, s);
    TotalAppend(r1, AirRules, s);
    TotalAppend(r2, NoiseRules, s);
    TotalAppend(r3, HealthRules, s);
    TotalAppend(r4, ActivityRules, s);
    TotalAppend(r5, ExposureRules, s);
  }

  /** The score is the sum of the sixteen rules' points. */
  lemma ScoreIsRuleSum(s: Snapshot)
    ensures Score(s) ==
      Points(TempBand, s) + Points(HeatSensitivity, s) + Points(ColdSensitivity, s)
      + Points(HumidityBand, s)
      + Points(AqiBand, s) + Points(RespiratoryOver80, s) + Points(RespiratoryOver120, s)
      + Points(AllergyOver70, s)
      + Points(NoiseBand, s) + Points(NoiseSensitivity, s)
      + Points(Hypertension, s) + Points(Diabetes, s) + Points(AgeBand, s)
      + Points(ActivityTemperature, s) + Points(ActivityAqi, s)
      + Points(OutdoorExposure, s)
  {
    ScoreBySection(s);
    ShortTotal(TemperatureRules, s);
    ShortTotal(HumidityRules, s);
    ShortTotal(AirRules, s);
    ShortTotal(NoiseRules, s);
    ShortTotal(HealthRules, s);
    ShortTotal(ActivityRules, s);
    ShortTotal(ExposureRules, s);
  }

  /** Every rule awards at least nothing, and the heat- and cold-sensitivity
      rules never both fire, so no snapshot scores above 39. */
  lemma ScoreBounds(s: Snapshot)
    ensures 0 <= Score(s) <= MaxScore
  {
    ScoreIsRuleSum(s);
  }
}
