/** What the advice list promises: it starts with the level's base message,
    holds each addition exactly when that addition's condition holds, keeps the
    generator's fixed order, and has at most ten messages. */
module RecommendationProperties {
  import opened Inputs
  import opened RiskScoring
  import opened Recommendations

  /** Strictly increasing in the generator's order: nothing repeats and nothing is out of place. */
  predicate InGeneratorOrder(p: seq<Advice>) {
    forall i, j :: 0 <= i < j < |p| ==> Rank(p[i]) < Rank(p[j])
  }

  /** The list is never empty and starts with the base message of the level;
      any level other than low or medium gets the high-risk message. */
  lemma PlanStartsWithBase(level: string, s: Snapshot)
    ensures |Plan(level, s)| >= 1 && Plan(level, s)[0] == Base(level)
    ensures Plan(level, s)[0] == Favorable <==> level == LevelLow
    ensures Plan(level, s)[0] == Moderate <==> level == LevelMedium
    ensures Plan(level, s)[0] == HighRisk <==> level != LevelLow && level != LevelMedium
  {
  }

  /** The heat-and-cold section holds exactly the guarded messages ranked 1 to 4. */
  lemma ClimateAdviceMembers(s: Snapshot, a: Advice)
    ensures a in ClimateAdvice(s) <==> 1 <= Rank(a) <= 4 && Guard(a, s)
  {
  }

  /** The air-quality section holds exactly the guarded messages ranked 5 to 7. */
  lemma AirAdviceMembers(s: Snapshot, a: Advice)
    ensures a in AirAdvice(s) <==> 5 <= Rank(a) <= 7 && Guard(a, s)
  {
  }

  /** The noise section holds exactly the guarded messages ranked 8 and 9. */
  lemma NoiseAdviceMembers(s: Snapshot, a: Advice)
    ensures a in NoiseAdvice(s) <==> 8 <= Rank(a) <= 9 && Guard(a, s)
  {
  }

  /** The activity-and-transport section holds exactly the guarded messages ranked 10 to 13. */
  lemma MobilityAdviceMembers(s: Snapshot, a: Advice)
    ensures a in MobilityAdvice(s) <==> 10 <= Rank(a) <= 13 && Guard(a, s)
  {
  }

  /** Every message after the first is an addition whose condition holds, and
      every addition whose condition holds is in the list. */
  lemma PlanHoldsExactlyTheGuarded(level: string, s: Snapshot, a: Advice)
    requires Rank(a) > 0
    ensures a in Plan(level, s) <==> Guard(a, s)
  {
    ClimateAdviceMembers(s, a);
    AirAdviceMembers(s, a);
    NoiseAdviceMembers(s, a);
    MobilityAdviceMembers(s, a);
    assert a in Plan(level, s) <==>
      a == Base(level) || a in ClimateAdvice(s) || a in AirAdvice(s) || a in NoiseAdvice(s) || a in MobilityAdvice(s);
  }

  /** Only the first message is a base message. */
  lemma PlanAdditionsAfterBase(level: string, s: Snapshot)
    ensures forall i :: 1 <= i < |Plan(level, s)| ==> Rank(Plan(level, s)[i]) > 0
  {
    PlanStartsWithBase(level, s);
    PlanInGeneratorOrder(level, s);
  }

  /** A list made of an increasing part followed by another increasing part whose every rank is higher. */
  lemma OrderedConcat(p: seq<Advice>, q: seq<Advice>)
    requires InGeneratorOrder(p) && InGeneratorOrder(q)
    requires forall i, j :: 0 <= i < |p| && 0 <= j < |q| ==> Rank(p[i]) < Rank(q[j])
    ensures InGeneratorOrder(p + q)
  {
  }

  /** Each section is in the generator's order and stays within its band of ranks. */
  lemma ClimateAdviceOrdered(s: Snapshot)
    ensures InGeneratorOrder(ClimateAdvice(s))
    ensures forall i :: 0 <= i < |ClimateAdvice(s)| ==> 1 <= Rank(ClimateAdvice(s)[i]) <= 4
  {
  }

  lemma AirAdviceOrdered(s: Snapshot)
    ensures InGeneratorOrder(AirAdvice(s))
    ensures forall i :: 0 <= i < |AirAdvice(s)| ==> 5 <= Rank(AirAdvice(s)[i]) <= 7
  {
  }

  lemma NoiseAdviceOrdered(s: Snapshot)
    ensures InGeneratorOrder(NoiseAdvice(s))
    ensures forall i :: 0 <= i < |NoiseAdvice(s)| ==> 8 <= Rank(NoiseAdvice(s)[i]) <= 9
  {
  }

  lemma MobilityAdviceOrdered(s: Snapshot)
    ensures InGeneratorOrder(MobilityAdvice(s))
    ensures forall i :: 0 <= i < |MobilityAdvice(s)| ==> 10 <= Rank(MobilityAdvice(s)[i]) <= 13
  {
  }

  /** The list keeps the generator's fixed order: no message repeats and each
      one comes after every message considered before it. */
  lemma PlanInGeneratorOrder(level: string, s: Snapshot)
    ensures InGeneratorOrder(Plan(level, s))
  {
    ClimateAdviceOrdered(s);
    AirAdviceOrdered(s);
    NoiseAdviceOrdered(s);
    MobilityAdviceOrdered(s);
    BandsInOrder(Base(level), ClimateAdvice(s), AirAdvice(s), NoiseAdvice(s), MobilityAdvice(s));
  }

  /** A base message followed by four increasing parts, each inside its own
      band of ranks, is in the generator's order. */
  lemma BandsInOrder(b: Advice, climate: seq<Advice>, air: seq<Advice>, noise: seq<Advice>, mobility: seq<Advice>)
    requires Rank(b) == 0
    requires InGeneratorOrder(climate) && forall i :: 0 <= i < |climate| ==> 1 <= Rank(climate[i]) <= 4
    requires InGeneratorOrder(air) && forall i :: 0 <= i < |air| ==> 5 <= Rank(air[i]) <= 7
    requires InGeneratorOrder(noise) && forall i :: 0 <= i < |noise| ==> 8 <= Rank(noise[i]) <= 9
    requires InGeneratorOrder(mobility) && forall i :: 0 <= i < |mobility| ==> 10 <= Rank(mobility[i]) <= 13
    ensures InGeneratorOrder([b] + climate + air + noise + mobility)
  {
    var p1 := [b] + climate;
    var p2 := p1 + air;
    var p3 := p2 + noise;
    OrderedConcat([b], climate);
    OrderedConcat(p1, air);
    OrderedConcat(p2, noise);
    OrderedConcat(p3, mobility);
  }

  /** At most ten messages: the base, a hot or a cold pair (never both), three
      about the air, two about noise, the indoor-exercise advice and one about
      transport (the transport modes exclude each other). */
  lemma PlanLength(level: string, s: Snapshot)
    ensures |Plan(level, s)| <= 10
  {
    assert |ClimateAdvice(s)| <= 2;
    assert |AirAdvice(s)| <= 3;
    assert |NoiseAdvice(s)| <= 2;
    assert |MobilityAdvice(s)| <= 2;
  }

  /** A snapshot for which every one of those ten messages is given. */
  const BusiestDay: Snapshot := Snapshot(
    Weather("", "", 31.0, 31.0, 50, ""),
    AirQuality(0, 0, 121, ""),
    Noise(71.0, ""),
    EmptyProfile.(asthma := Some(Yes), allergies := Some(Yes), heatSensitive := Some(Yes),
                  noiseSensitive := Some(Yes), activity := Some(HighActivity),
                  transport := Some(Walking)))

  /** The bound of ten is reached. */
  lemma PlanLengthReached(level: string)
    ensures |Plan(level, BusiestDay)| == 10
  {
  }

  /** The heat-sensitivity warning is given only above 30 degrees, and then
      right after the sun and hydration message, which directly follows the base. */
  lemma HeatWarningFollowsSunAdvice(level: string, s: Snapshot)
    requires HeatWindow in Plan(level, s)
    ensures s.weather.temp > 30.0
    ensures Plan(level, s)[1] == AvoidSun && Plan(level, s)[2] == HeatWindow
  {
    PlanHoldsExactlyTheGuarded(level, s, HeatWindow);
  }

  /** The cold-sensitivity warning is given only below 10 degrees, and then
      right after the dress-warm message, which directly follows the base. */
  lemma ColdWarningFollowsWarmAdvice(level: string, s: Snapshot)
    requires ShortOutings in Plan(level, s)
    ensures s.weather.temp < 10.0
    ensures Plan(level, s)[1] == DressWarm && Plan(level, s)[2] == ShortOutings
  {
    PlanHoldsExactlyTheGuarded(level, s, ShortOutings);
  }

  /** The noise-sensitivity advice depends on the flag alone, whatever the noise level. */
  lemma NoiseSensitiveAdviceIgnoresDecibels(level: string, s: Snapshot, db: real)
    ensures AvoidAvenues in Plan(level, s) <==> On(s.user.noiseSensitive)
    ensures AvoidAvenues in Plan(level, s) <==> AvoidAvenues in Plan(level, s.(noise := s.noise.(db := db)))
  {
    PlanHoldsExactlyTheGuarded(level, s, AvoidAvenues);
    PlanHoldsExactlyTheGuarded(level, s.(noise := s.noise.(db := db)), AvoidAvenues);
  }

  /** The only message a text of this length and next-to-last character can
      be: the length alone tells all messages apart except three of 48
      characters, whose next-to-last letters differ. */
  function Candidate(n: nat, beforeLast: char): Advice {
    if n == 48 then (if beforeLast == 'e' then AvoidSun else if beforeLast == 'n' then DontWalk else ShortOutings)
    else if n == 24 then DressWarm
    else if n == 31 then QuieterBikeways
    else if n == 32 then ExerciseIndoors
    else if n == 35 then AllergyWarning
    else if n == 40 then MaskOnTransit
    else if n == 44 then QuietRoutes
    else if n == 46 then Moderate
    else if n == 47 then AvoidAvenues
    else if n == 50 then HighRisk
    else if n == 56 then HeatWindow
    else if n == 58 then Favorable
    else if n == 59 then WearMask
    else AvoidExercise
  }

  /** Reads a shown text back as its message, if it is one. */
  function Decode(t: string): (r: Option<Advice>)
    ensures r.Some? ==> Text(r.value) == t
  {
    var a := Candidate(|t|, if |t| >= 2 then t[|t| - 2] else ' ');
    if Text(a) == t then Some(a) else None
  }

  /** Every message's text reads back as that message. */
  lemma DecodeText(a: Advice)
    ensures Decode(Text(a)) == Some(a)
  {
    if Rank(a) == 0 {
      DecodeBaseText(a);
    } else if Rank(a) <= 4 {
      DecodeClimateText(a);
    } else if Rank(a) <= 7 {
      DecodeAirText(a);
    } else if Rank(a) <= 9 {
      DecodeNoiseText(a);
    } else {
      DecodeMobilityText(a);
    }
  }

  lemma DecodeBaseText(a: Advice)
    requires Rank(a) == 0
    ensures Decode(Text(a)) == Some(a)
  {
    match a
    case Favorable => assert |Text(Favorable)| == 58;
    case Moderate => assert |Text(Moderate)| == 46;
    case HighRisk => assert |Text(HighRisk)| == 50;
  }

  lemma DecodeClimateText(a: Advice)
    requires 1 <= Rank(a) <= 4
    ensures Decode(Text(a)) == Some(a)
  {
    match a
    case AvoidSun => assert |Text(AvoidSun)| == 48 && Text(AvoidSun)[46] == 'e';
    case HeatWindow => assert |Text(HeatWindow)| == 56;
    case DressWarm => assert |Text(DressWarm)| == 24;
    case ShortOutings => assert |Text(ShortOutings)| == 48 && Text(ShortOutings)[46] == 's';
  }

  lemma DecodeAirText(a: Advice)
    requires 5 <= Rank(a) <= 7
    ensures Decode(Text(a)) == Some(a)
  {
    match a
    case AvoidExercise => assert |Text(AvoidExercise)| == 61;
    case WearMask => assert |Text(WearMask)| == 59;
    case AllergyWarning => assert |Text(AllergyWarning)| == 35;
  }

  lemma DecodeNoiseText(a: Advice)
    requires 8 <= Rank(a) <= 9
    ensures Decode(Text(a)) == Some(a)
  {
    match a
    case QuietRoutes => assert |Text(QuietRoutes)| == 44;
    case AvoidAvenues => assert |Text(AvoidAvenues)| == 47;
  }

  lemma DecodeMobilityText(a: Advice)
    requires 10 <= Rank(a) <= 13
    ensures Decode(Text(a)) == Some(a)
  {
    match a
    case ExerciseIndoors => assert |Text(ExerciseIndoors)| == 32;
    case DontWalk => assert |Text(DontWalk)| == 48 && Text(DontWalk)[46] == 'n';
    case QuieterBikeways => assert |Text(QuieterBikeways)| == 31;
    case MaskOnTransit => assert |Text(MaskOnTransit)| == 40;
  }

  /** Distinct messages have distinct texts, so every fact about the list of
      messages carries over to the list of strings the page shows. */
  lemma TextInjective(a: Advice, b: Advice)
    ensures Text(a) == Text(b) ==> a == b
  {
    DecodeText(a);
    DecodeText(b);
  }

  /** In a list in the generator's order the first message has the lowest
      rank, and no other message shares it. */
  lemma FirstIsLowest(p: seq<Advice>, a: Advice)
    requires InGeneratorOrder(p) && a in p
    ensures Rank(p[0]) <= Rank(a)
    ensures Rank(a) == Rank(p[0]) ==> a == p[0]
  {
  }

  /** A non-empty list holds its first message. */
  lemma FirstIsMember(p: seq<Advice>)
    ensures p != [] ==> p[0] in p
  {
  }

  /** Two lists in the generator's order with the same messages are the same list. */
  lemma {:induction false} OrderedListsWithSameMessagesAgree(p: seq<Advice>, q: seq<Advice>)
    requires InGeneratorOrder(p) && InGeneratorOrder(q)
    requires forall a :: a in p <==> a in q
    ensures p == q
  {
    if p != [] && q != [] {
      FirstIsLowest(q, p[0]);
      FirstIsLowest(p, q[0]);
      forall a
        ensures a in p[1..] <==> a in q[1..]
      {
        if a in p {
          FirstIsLowest(p, a);
        }
        if a in q {
          FirstIsLowest(q, a);
        }
        assert a in p <==> a == p[0] || a in p[1..];
        assert a in q <==> a == q[0] || a in q[1..];
      }
      OrderedListsWithSameMessagesAgree(p[1..], q[1..]);
      assert p == [p[0]] + p[1..];
      assert q == [q[0]] + q[1..];
    } else if p != [] {
      FirstIsMember(p);
      assert false;
    } else if q != [] {
      FirstIsMember(q);
      assert false;
    }
  }

  /** The advice list is fully determined by three facts: it starts with the
      level's base message, its other messages are exactly the additions whose
      conditions hold, and it keeps the generator's order. */
  lemma PlanIsTheOnlyOrderedGuardedList(level: string, s: Snapshot, p: seq<Advice>)
    requires |p| >= 1 && p[0] == Base(level)
    requires forall i :: 1 <= i < |p| ==> Rank(p[i]) > 0
    requires forall a :: Rank(a) > 0 ==> (a in p <==> Guard(a, s))
    requires InGeneratorOrder(p)
    ensures p == Plan(level, s)
  {
    var plan := Plan(level, s);
    PlanStartsWithBase(level, s);
    PlanAdditionsAfterBase(level, s);
    PlanInGeneratorOrder(level, s);
    forall a
      ensures a in p <==> a in plan
    {
      if Rank(a) > 0 {
        PlanHoldsExactlyTheGuarded(level, s, a);
      } else {
        assert a in p <==> a == p[0];
        assert a in plan <==> a == plan[0];
      }
    }
    OrderedListsWithSameMessagesAgree(p, plan);
  }
}
