/** What the risk score promises: its range, the bands it falls into, how it
    moves as a reading worsens, and which profile values it ignores. */
module RiskProperties {
  import opened Inputs
  import opened RiskScoring
  import opened Recommendations

  /** If every rule awards at most as much for `s1` as for `s2`, so does any list of rules. */
  lemma {:induction false} TotalMonotone(rules: seq<Rule>, s1: Snapshot, s2: Snapshot)
    requires forall r :: Points(r, s1) <= Points(r, s2)
    ensures Total(rules, s1) <= Total(rules, s2)
  {
    if rules != [] {
      TotalMonotone(rules[..|rules| - 1], s1, s2);
    }
  }

  /** If every rule awards the same for both snapshots, so does the score. */
  lemma SameScore(s1: Snapshot, s2: Snapshot)
    requires forall r :: Points(r, s1) == Points(r, s2)
    ensures Score(s1) == Score(s2)
  {
    TotalMonotone(RuleOrder, s1, s2);
    TotalMonotone(RuleOrder, s2, s1);
  }

  /** The snapshot with its AQI replaced. */
  function WithAqi(s: Snapshot, aqi: int): Snapshot {
    s.(air := s.air.(aqi := aqi))
  }

  /** The snapshot with its noise level replaced. */
  function WithNoise(s: Snapshot, db: real): Snapshot {
    s.(noise := s.noise.(db := db))
  }

  /** The snapshot with its temperature replaced. */
  function WithTemp(s: Snapshot, temp: real): Snapshot {
    s.(weather := s.weather.(temp := temp))
  }

  /** Worse air never lowers the score: the AQI band, both respiratory
      amplifiers, the allergy rule and the high-activity rule all only grow
      with the AQI. */
  lemma AqiMonotone(s: Snapshot, aqi: int)
    requires s.air.aqi <= aqi
    ensures Score(s) <= Score(WithAqi(s, aqi))
  {
    TotalMonotone(RuleOrder, s, WithAqi(s, aqi));
  }

  /** More noise never lowers the score. */
  lemma NoiseMonotone(s: Snapshot, db: real)
    requires s.noise.db <= db
    ensures Score(s) <= Score(WithNoise(s, db))
  {
    TotalMonotone(RuleOrder, s, WithNoise(s, db));
  }

  /** From 10 degrees upwards, a hotter day never lowers the score. */
  lemma HeatMonotone(s: Snapshot, temp: real)
    requires 10.0 <= s.weather.temp <= temp
    ensures Score(s) <= Score(WithTemp(s, temp))
  {
    TotalMonotone(RuleOrder, s, WithTemp(s, temp));
  }

  /** From 28 degrees downwards, a colder day never lowers the score. */
  lemma ColdMonotone(s: Snapshot, temp: real)
    requires temp <= s.weather.temp <= 28.0
    ensures Score(s) <= Score(WithTemp(s, temp))
  {
    TotalMonotone(RuleOrder, s, WithTemp(s, temp));
  }

  /** A flag value kept only when it is exactly "Si". */
  function OnlyYes(v: Option<string>): (w: Option<string>)
    ensures On(w) == On(v) && (w == None || w == Some(Yes))
  {
    if On(v) then Some(Yes) else None
  }

  /** The profile reduced to what the score can see: flags other than "Si",
      an activity other than "Alto", an outdoor-exposure answer other than the
      two that add points, and the transport mode are all dropped. */
  function ScoredPart(u: Profile): Profile {
    Profile(
      u.age,
      OnlyYes(u.asthma), OnlyYes(u.allergies), OnlyYes(u.hypertension),
      OnlyYes(u.diabetes), OnlyYes(u.respiratory),
      if HighlyActive(u) then Some(HighActivity) else None,
      if u.outdoorHours == Some(MoreThanFourHours) || u.outdoorHours == Some(TwoToFourHours)
      then u.outdoorHours else None,
      OnlyYes(u.heatSensitive), OnlyYes(u.coldSensitive), OnlyYes(u.noiseSensitive),
      None)
  }

  /** A flag whose value is anything but "Si" (or a missing key) contributes
      nothing, and neither do unrecognised activity or exposure answers nor the
      transport mode. */
  lemma OnlyRecognisedValuesScore(s: Snapshot)
    ensures Score(s) == Score(s.(user := ScoredPart(s.user)))
  {
    forall r {
      ScoredPartPoints(r, s);
    }
    SameScore(s, s.(user := ScoredPart(s.user)));
  }

  /** No rule tells a profile from its scored part. */
  lemma ScoredPartPoints(r: Rule, s: Snapshot)
    ensures Points(r, s) == Points(r, s.(user := ScoredPart(s.user)))
  {
  }

  /** The ranges of a mild day: no reading crosses any threshold. */
  predicate MildDay(s: Snapshot) {
    10.0 <= s.weather.temp <= 28.0 && s.weather.humidity <= 80
    && s.air.aqi <= 50 && s.noise.db <= 60.0
  }

  /** With an empty profile, a mild day scores 0 and is rated low and green. */
  lemma EmptyProfileMildDay(s: Snapshot)
    requires s.user == EmptyProfile && MildDay(s)
    ensures Score(s) == 0
    ensures Assess(s) == Verdict(0, LevelLow, Green)
  {
    ScoreIsRuleSum(s);
  }

  /** The verdict's level and colour always form one of the three bands. */
  lemma AssessBands(s: Snapshot)
    ensures Assess(s).score == Score(s)
    ensures Assess(s).level == LevelLow <==> Score(s) <= 5
    ensures Assess(s).level == LevelMedium <==> 6 <= Score(s) <= 12
    ensures Assess(s).level == LevelHigh <==> 13 <= Score(s)
    ensures (Assess(s).level, Assess(s).color) in {(LevelLow, Green), (LevelMedium, Yellow), (LevelHigh, Red)}
  {
  }

  /** A snapshot that triggers every rule at its heaviest. */
  const WorstDay: Snapshot := Snapshot(
    Weather("", "", 33.0, 33.0, 81, ""),
    AirQuality(0, 0, 151, ""),
    Noise(81.0, ""),
    Profile(65, Some(Yes), Some(Yes), Some(Yes), Some(Yes), Some(Yes),
            Some(HighActivity), Some(MoreThanFourHours),
            Some(Yes), Some(Yes), Some(Yes), None))

  /** The bound of 39 is reached. */
  lemma MaxScoreReached()
    ensures Score(WorstDay) == MaxScore
    ensures Assess(WorstDay).level == LevelHigh
  {
    ScoreIsRuleSum(WorstDay);
  }

  /** 35 degrees, 85% humidity, AQI 160, 85 dB, a respiratory condition and age 70. */
  const HotPollutedNoisyDay: Snapshot := Snapshot(
    Weather("", "", 35.0, 35.0, 85, ""), AirQuality(0, 0, 160, ""), Noise(85.0, ""),
    EmptyProfile.(age := 70, respiratory := Some(Yes)))

  /** That day scores 3 + 1 + 5 + 3 + 5 + 3 + 3 = 23 points: high and red. */
  lemma HotPollutedNoisyDayIsHigh()
    ensures Assess(HotPollutedNoisyDay) == Verdict(23, LevelHigh, Red)
  {
    ScoreIsRuleSum(HotPollutedNoisyDay);
  }

  /** 30 degrees with a heat-sensitive profile, clean air and quiet streets:
      the temperature band and the heat sensitivity give 2 + 2 = 4, low, and
      the advice is the favourable message alone, with no heat messages. */
  lemma WarmDayHeatSensitive(s: Snapshot)
    requires s.weather.temp == 30.0 && s.weather.humidity <= 80
    requires s.air.aqi <= 50 && s.noise.db <= 60.0
    requires s.user == EmptyProfile.(heatSensitive := Some(Yes))
    ensures Assess(s) == Verdict(4, LevelLow, Green)
    ensures Plan(Assess(s).level, s) == [Favorable]
  {
    ScoreIsRuleSum(s);
  }
}
