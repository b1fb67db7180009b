/** The advice shown with a verdict: one base message chosen by the risk
    level, then the additions whose conditions hold, in a fixed order, and a
    suggested time window chosen by the level alone. */
module Recommendations {
  import opened Inputs
  import opened RiskScoring

  /** Every message the generator can produce. The first three are the base
      messages, one per level; the rest are the additions, in the order the
      generator considers them. */
  datatype Advice =
    | Favorable        // low risk
    | Moderate         // medium risk
    | HighRisk         // high (or any other) risk
    | AvoidSun         // above 30 degrees
    | HeatWindow       // above 30 degrees and heat-sensitive
    | DressWarm        // below 10 degrees
    | ShortOutings     // below 10 degrees and cold-sensitive
    | AvoidExercise    // AQI above 100
    | WearMask         // asthma or respiratory condition and AQI above 80
    | AllergyWarning   // allergies and AQI above 70
    | QuietRoutes      // above 70 dB
    | AvoidAvenues     // noise-sensitive
    | ExerciseIndoors  // high activity and above 28 degrees or AQI above 100
    | DontWalk         // walking and AQI above 120
    | QuieterBikeways  // cycling and above 70 dB
    | MaskOnTransit    // public transport and AQI above 120

  /** The text of each message. */
  function Text(a: Advice): string {
    match a
    case Favorable => "Las condiciones son buenas para actividades al aire libre."
    case Moderate => "Evita esfuerzos intensos y mantente hidratado."
    case HighRisk => "El riesgo es alto. Limita tu tiempo al aire libre."
    case AvoidSun => "Evita el sol directo y toma agua frecuentemente."
    case HeatWindow => "Eres sensible al calor: evita salir entre 12:00 y 16:00."
    case DressWarm => "Abrigarte bien si sales."
    case ShortOutings => "Tu sensibilidad al frío requiere salidas cortas."
    case AvoidExercise => "Evita ejercicios intensos al aire libre por la contaminación."
    case WearMask => "Usa cubrebocas al salir debido a tu condición respiratoria."
    case AllergyWarning => "El aire puede agravar tus alergias."
    case QuietRoutes => "El ruido es alto. Prefiere rutas tranquilas."
    case AvoidAvenues => "Eres sensible al ruido: evita avenidas grandes."
    case ExerciseIndoors => "Haz ejercicio en interiores hoy."
    case DontWalk => "No es recomendable caminar por la contaminación."
    case QuieterBikeways => "Busca ciclovías menos ruidosas."
    case MaskOnTransit => "Usa cubrebocas en el transporte público."
  }

  /** The position of a message in the generator's fixed order: every base
      message comes first, then the additions in the order they are considered. */
  function Rank(a: Advice): nat {
    match a
    case Favorable => 0
    case Moderate => 0
    case HighRisk => 0
    case AvoidSun => 1
    case HeatWindow => 2
    case DressWarm => 3
    case ShortOutings => 4
    case AvoidExercise => 5
    case WearMask => 6
    case AllergyWarning => 7
    case QuietRoutes => 8
    case AvoidAvenues => 9
    case ExerciseIndoors => 10
    case DontWalk => 11
    case QuieterBikeways => 12
    case MaskOnTransit => 13
  }

  /** The condition under which each addition is given. */
  predicate Guard(a: Advice, s: Snapshot) {
    var temp := s.weather.temp;
    var aqi := s.air.aqi;
    var db := s.noise.db;
    var u := s.user;
    match a
    case Favorable => false
    case Moderate => false
    case HighRisk => false
    case AvoidSun => temp > 30.0
    case HeatWindow => temp > 30.0 && On(u.heatSensitive)
    case DressWarm => temp < 10.0
    case ShortOutings => temp < 10.0 && On(u.coldSensitive)
    case AvoidExercise => aqi > 100
    case WearMask => Respiratory(u) && aqi > 80
    case AllergyWarning => On(u.allergies) && aqi > 70
    case QuietRoutes => db > 70.0
    case AvoidAvenues => On(u.noiseSensitive)
    case ExerciseIndoors => HighlyActive(u) && (temp > 28.0 || aqi > 100)
    case DontWalk => u.transport == Some(Walking) && aqi > 120
    case QuieterBikeways => u.transport == Some(Bicycle) && db > 70.0
    case MaskOnTransit => u.transport == Some(PublicTransport) && aqi > 120
  }

  /** The base message of a level; any level other than low or medium is treated as high. */
  function Base(level: string): Advice {
    if level == LevelLow then Favorable
    else if level == LevelMedium then Moderate
    else HighRisk
  }

  /** Section 2: heat and cold. */
  function ClimateAdvice(s: Snapshot): seq<Advice> {
    (if s.weather.temp > 30.0 then [AvoidSun] + (if On(s.user.heatSensitive) then [HeatWindow] else []) else [])
    + (if s.weather.temp < 10.0 then [DressWarm] + (if On(s.user.coldSensitive) then [ShortOutings] else []) else [])
  }

  /** Section 3: air quality. */
  function AirAdvice(s: Snapshot): seq<Advice> {
    (if s.air.aqi > 100 then [AvoidExercise] else [])
    + (if Respiratory(s.user) && s.air.aqi > 80 then [WearMask] else [])
    + (if On(s.user.allergies) && s.air.aqi > 70 then [AllergyWarning] else [])
  }

  /** Section 4: noise. */
  function NoiseAdvice(s: Snapshot): seq<Advice> {
    (if s.noise.db > 70.0 then [QuietRoutes] else [])
    + (if On(s.user.noiseSensitive) then [AvoidAvenues] else [])
  }

  /** Section 5: physical activity and transport. */
  function MobilityAdvice(s: Snapshot): seq<Advice> {
    var u := s.user;
    (if HighlyActive(u) && (s.weather.temp > 28.0 || s.air.aqi > 100) then [ExerciseIndoors] else [])
    + (if u.transport == Some(Walking) && s.air.aqi > 120 then [DontWalk] else [])
    + (if u.transport == Some(Bicycle) && s.noise.db > 70.0 then [QuieterBikeways] else [])
    + (if u.transport == Some(PublicTransport) && s.air.aqi > 120 then [MaskOnTransit] else [])
  }

  /** The messages for a verdict's level and a snapshot, in the order they are shown. */
  function Plan(level: string, s: Snapshot): seq<Advice> {
    [Base(level)] + ClimateAdvice(s) + AirAdvice(s) + NoiseAdvice(s) + MobilityAdvice(s)
  }

  /** The texts of a list of messages. */
  function Render(p: seq<Advice>): seq<string> {
    seq(|p|, i requires 0 <= i < |p| => Text(p[i]))
  }

  const WindowHigh: string := "Evita salir entre 11:00 y 17:00."
  const WindowMedium: string := "Mejor salir antes de las 10:00 o después de las 18:00."
  const WindowAny: string := "Puedes salir a cualquier hora."

  /** The suggested time window: a three-way lookup on the level alone. */
  function SuggestedWindow(level: string): (w: string)
    ensures w == WindowHigh <==> level == LevelHigh
    ensures w == WindowMedium <==> level == LevelMedium
    ensures w == WindowAny <==> level != LevelHigh && level != LevelMedium
  {
    if level == LevelHigh then WindowHigh
    else if level == LevelMedium then WindowMedium
    else WindowAny
  }

  /** Builds the message list by appending, section by section, then picks the window. */
  method GenerateRecommendations(risk: Verdict, weather: Weather, air: AirQuality, noise: Noise, user: Profile)
    returns (recommendations: seq<string>, window: string)
    ensures recommendations == Render(Plan(risk.level, Snapshot(weather, air, noise, user)))
    ensures window == SuggestedWindow(risk.level)
  {
    var s := Snapshot(weather, air, noise, user);
    recommendations := [];

    // base message by level
    if risk.level == LevelLow {
      recommendations := recommendations + [Text(Favorable)];
    } else if risk.level == LevelMedium {
      recommendations := recommendations + [Text(Moderate)];
    } else {
      recommendations := recommendations + [Text(HighRisk)];
    }
    assert recommendations == Render([Base(risk.level)]);

    recommendations := AppendClimateAdvice(recommendations, s);
    recommendations := AppendAirAdvice(recommendations, s);
    recommendations := AppendNoiseAdvice(recommendations, s);
    recommendations := AppendMobilityAdvice(recommendations, s);
    PlanRender(risk.level, s);

    if risk.level == LevelHigh {
      window := WindowHigh;
    } else if risk.level == LevelMedium {
      window := WindowMedium;
    } else {
      window := WindowAny;
    }
  }

  /** Section 2 of the generator: heat and cold. */
  method AppendClimateAdvice(messages: seq<string>, s: Snapshot) returns (updated: seq<string>)
    ensures updated == messages + Render(ClimateAdvice(s))
  {
    var temp := s.weather.temp;
    updated := messages;
    if temp > 30.0 {
      updated := updated + [Text(AvoidSun)];
      if On(s.user.heatSensitive) {
        updated := updated + [Text(HeatWindow)];
      }
    }
    if temp < 10.0 {
      updated := updated + [Text(DressWarm)];
      if On(s.user.coldSensitive) {
        updated := updated + [Text(ShortOutings)];
      }
    }
  }

  /** Section 3 of the generator: air quality. */
  method AppendAirAdvice(messages: seq<string>, s: Snapshot) returns (updated: seq<string>)
    ensures updated == messages + Render(AirAdvice(s))
  {
    var aqi := s.air.aqi;
    var user := s.user;
    updated := messages;
    if aqi > 100 {
      updated := updated + [Text(AvoidExercise)];
    }
    if (On(user.asthma) || On(user.respiratory)) && aqi > 80 {
      updated := updated + [Text(WearMask)];
    }
    if On(user.allergies) && aqi > 70 {
      updated := updated + [Text(AllergyWarning)];
    }
  }

  /** Section 4 of the generator: noise. */
  method AppendNoiseAdvice(messages: seq<string>, s: Snapshot) returns (updated: seq<string>)
    ensures updated == messages + Render(NoiseAdvice(s))
  {
    updated := messages;
    if s.noise.db > 70.0 {
      updated := updated + [Text(QuietRoutes)];
    }
    if On(s.user.noiseSensitive) {
      updated := updated + [Text(AvoidAvenues)];
    }
  }

  /** Section 5 of the generator: physical activity and transport. */
  method AppendMobilityAdvice(messages: seq<string>, s: Snapshot) returns (updated: seq<string>)
    ensures updated == messages + Render(MobilityAdvice(s))
  {
    var temp := s.weather.temp;
    var aqi := s.air.aqi;
    var db := s.noise.db;
    var activity := s.user.activity;
    var transport := s.user.transport;
    updated := messages;
    if activity == Some(HighActivity) && (temp > 28.0 || aqi > 100) {
      updated := updated + [Text(ExerciseIndoors)];
    }
    if transport == Some(Walking) && aqi > 120 {
      updated := updated + [Text(DontWalk)];
    }
    if transport == Some(Bicycle) && db > 70.0 {
      updated := updated + [Text(QuieterBikeways)];
    }
    if transport == Some(PublicTransport) && aqi > 120 {
      updated := updated + [Text(MaskOnTransit)];
    }
  }

  /** Rendering distributes over concatenation. */
  lemma RenderAppend(a: seq<Advice>, b: seq<Advice>)
    ensures Render(a + b) == Render(a) + Render(b)
  {
  }

  /** The rendered plan is the rendered base message followed by the rendered sections. */
  lemma PlanRender(level: string, s: Snapshot)
    ensures Render(Plan(level, s)) ==
      Render([Base(level)]) + Render(ClimateAdvice(s)) + Render(AirAdvice(s))
      + Render(NoiseAdvice(s)) + Render(MobilityAdvice(s))
  {
    var p1 := [Base(level)] + ClimateAdvice(s);
    var p2 := p1 + AirAdvice(s);
    var p3 := p2 + NoiseAdvice(s);
    RenderAppend([Base(level)], ClimateAdvice(s));
    RenderAppend(p1, AirAdvice(s));
    RenderAppend(p2, NoiseAdvice(s));
    RenderAppend(p3, MobilityAdvice(s));
  }
}
