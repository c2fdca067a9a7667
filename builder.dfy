/**
 * The partial-update builder of pilot_builder.c: a heap record with one
 * presence flag per field group, filled in by setters before apply_pilot
 * serialises it.
 */
module Builder {
  import opened Cwiz

  /** The builder's twelve fields as a value. */
  datatype Pilot = Pilot(
    hasState: bool, state: bool,
    hasBrightness: bool, brightness: U8,
    hasRgb: bool, rgb: Rgb,
    hasTemp: bool, temp: U16,
    hasSceneId: bool, sceneId: U16,
    hasSpeed: bool, speed: U8)

  /** The calloc'ed builder: every flag false, every value zero. */
  const EmptyPilot := Pilot(false, false, false, 0, false, Rgb(0, 0, 0), false, 0, false, 0, false, 0)

  class PilotBuilder {
    var hasState: bool
    var state: bool
    var hasBrightness: bool
    var brightness: U8
    var hasRgb: bool
    var rgb: Rgb
    var hasTemp: bool
    var temp: U16
    var hasSceneId: bool
    var sceneId: U16
    var hasSpeed: bool
    var speed: U8

    /** wiz_pilot_builder_create (calloc never failing in the model). */
    constructor ()
      ensures Fields() == EmptyPilot
    {
      hasState, state := false, false;
      hasBrightness, brightness := false, 0;
      hasRgb, rgb := false, Rgb(0, 0, 0);
      hasTemp, temp := false, 0;
      hasSceneId, sceneId := false, 0;
      hasSpeed, speed := false, 0;
    }

    function Fields(): Pilot
      reads this
    {
      Pilot(hasState, state, hasBrightness, brightness, hasRgb, rgb,
            hasTemp, temp, hasSceneId, sceneId, hasSpeed, speed)
    }
  }

  // ------------------------------------------------- the setters on values

  function WithState(p: Pilot, state: bool): Pilot
  {
    p.(hasState := true, state := state)
  }

  function WithBrightness(p: Pilot, brightness: U8): Pilot
  {
    p.(hasBrightness := true, brightness := ClampBrightness(brightness))
  }

  function WithRgb(p: Pilot, r: U8, g: U8, b: U8): Pilot
  {
    p.(hasRgb := true, rgb := Rgb(r, g, b))
  }

  function WithTemperature(p: Pilot, temp: U16): Pilot
  {
    p.(hasTemp := true, temp := ClampTemp(temp))
  }

  function WithScene(p: Pilot, sceneId: U16): Pilot
  {
    p.(hasSceneId := true, sceneId := sceneId)
  }

  // ------------------------------------------------ the setters on the heap

  method SetState(builder: PilotBuilder?, state: bool)
    modifies builder
    ensures builder != null ==> builder.Fields() == WithState(old(builder.Fields()), state)
  {
    if builder == null {
      return;
    }
    builder.hasState := true;
    builder.state := state;
  }

  method SetBrightness(builder: PilotBuilder?, brightness: U8)
    modifies builder
    ensures builder != null ==> builder.Fields() == WithBrightness(old(builder.Fields()), brightness)
  {
    if builder == null {
      return;
    }
    var v := brightness;
    if v < BrightnessMin {
      v := BrightnessMin;
    }
    if v > BrightnessMax {
      v := BrightnessMax;
    }
    builder.hasBrightness := true;
    builder.brightness := v;
  }

  method SetRgb(builder: PilotBuilder?, r: U8, g: U8, b: U8)
    modifies builder
    ensures builder != null ==> builder.Fields() == WithRgb(old(builder.Fields()), r, g, b)
  {
    if builder == null {
      return;
    }
    builder.hasRgb := true;
    builder.rgb := Rgb(r, g, b);
  }

  method SetTemperature(builder: PilotBuilder?, temp: U16)
    modifies builder
    ensures builder != null ==> builder.Fields() == WithTemperature(old(builder.Fields()), temp)
  {
    if builder == null {
      return;
    }
    var v := temp;
    if v < TempMin {
      v := TempMin;
    }
    if v > TempMax {
      v := TempMax;
    }
    builder.hasTemp := true;
    builder.temp := v;
  }

  method SetScene(builder: PilotBuilder?, sceneId: U16)
    modifies builder
    ensures builder != null ==> builder.Fields() == WithScene(old(builder.Fields()), sceneId)
  {
    if builder == null {
      return;
    }
    builder.hasSceneId := true;
    builder.sceneId := sceneId;
  }

  // ------------------------------------------------------------ properties

  /** The fields other than the state pair are those of q. */
  predicate SameExceptState(p: Pilot, q: Pilot)
  {
    p.(hasState := q.hasState, state := q.state) == q
  }

  /** Each setter raises its own flag, stores its (clamped) value and keeps every other field. */
  lemma SettersOwnTheirFields(p: Pilot, s: bool, v: U8, r: U8, g: U8, b: U8, t: U16, id: U16)
    ensures WithState(p, s).hasState && WithState(p, s).state == s && SameExceptState(p, WithState(p, s))
    ensures var q := WithBrightness(p, v);
            q.hasBrightness && BrightnessMin <= q.brightness <= BrightnessMax &&
            q.(hasBrightness := p.hasBrightness, brightness := p.brightness) == p
    ensures var q := WithRgb(p, r, g, b);
            q.hasRgb && q.rgb == Rgb(r, g, b) && q.(hasRgb := p.hasRgb, rgb := p.rgb) == p
    ensures var q := WithTemperature(p, t);
            q.hasTemp && TempMin <= q.temp <= TempMax && q.(hasTemp := p.hasTemp, temp := p.temp) == p
    ensures var q := WithScene(p, id);
            q.hasSceneId && q.sceneId == id && q.(hasSceneId := p.hasSceneId, sceneId := p.sceneId) == p
  {
  }

  /** Calling a setter twice with the same argument is calling it once. */
  lemma SettersIdempotent(p: Pilot, s: bool, v: U8, r: U8, g: U8, b: U8, t: U16, id: U16)
    ensures WithState(WithState(p, s), s) == WithState(p, s)
    ensures WithBrightness(WithBrightness(p, v), v) == WithBrightness(p, v)
    ensures WithRgb(WithRgb(p, r, g, b), r, g, b) == WithRgb(p, r, g, b)
    ensures WithTemperature(WithTemperature(p, t), t) == WithTemperature(p, t)
    ensures WithScene(WithScene(p, id), id) == WithScene(p, id)
  {
    BrightnessTwice(p, v, v);
    TemperatureTwice(p, t, t);
  }

  /** A later call on the same field overwrites the earlier one. */
  lemma LastWriteWins(p: Pilot, s1: bool, s2: bool, v1: U8, v2: U8, c1: Rgb, c2: Rgb,
                      t1: U16, t2: U16, id1: U16, id2: U16)
    ensures WithState(WithState(p, s1), s2) == WithState(p, s2)
    ensures WithBrightness(WithBrightness(p, v1), v2) == WithBrightness(p, v2)
    ensures WithRgb(WithRgb(p, c1.r, c1.g, c1.b), c2.r, c2.g, c2.b) == WithRgb(p, c2.r, c2.g, c2.b)
    ensures WithTemperature(WithTemperature(p, t1), t2) == WithTemperature(p, t2)
    ensures WithScene(WithScene(p, id1), id2) == WithScene(p, id2)
  {
    BrightnessTwice(p, v1, v2);
    RgbTwice(p, c1, c2);
    TemperatureTwice(p, t1, t2);
  }

  lemma RgbTwice(p: Pilot, c1: Rgb, c2: Rgb)
    ensures WithRgb(WithRgb(p, c1.r, c1.g, c1.b), c2.r, c2.g, c2.b) == WithRgb(p, c2.r, c2.g, c2.b)
  {
  }

  lemma BrightnessTwice(p: Pilot, v1: U8, v2: U8)
    ensures WithBrightness(WithBrightness(p, v1), v2) == WithBrightness(p, v2)
  {
  }

  lemma TemperatureTwice(p: Pilot, t1: U16, t2: U16)
    ensures WithTemperature(WithTemperature(p, t1), t2) == WithTemperature(p, t2)
  {
  }

  /** Setters of different fields commute, since none touches another's fields. */
  lemma SettersCommute(p: Pilot, s: bool, v: U8, r: U8, g: U8, b: U8, t: U16, id: U16)
    ensures WithBrightness(WithState(p, s), v) == WithState(WithBrightness(p, v), s)
    ensures WithRgb(WithBrightness(p, v), r, g, b) == WithBrightness(WithRgb(p, r, g, b), v)
    ensures WithTemperature(WithRgb(p, r, g, b), t) == WithRgb(WithTemperature(p, t), r, g, b)
    ensures WithScene(WithTemperature(p, t), id) == WithTemperature(WithScene(p, id), t)
    ensures WithScene(WithState(p, s), id) == WithState(WithScene(p, id), s)
    ensures WithRgb(WithState(p, s), r, g, b) == WithState(WithRgb(p, r, g, b), s)
    ensures WithTemperature(WithState(p, s), t) == WithState(WithTemperature(p, t), s)
    ensures WithTemperature(WithBrightness(p, v), t) == WithBrightness(WithTemperature(p, t), v)
    ensures WithScene(WithBrightness(p, v), id) == WithBrightness(WithScene(p, id), v)
    ensures WithScene(WithRgb(p, r, g, b), id) == WithRgb(WithScene(p, id), r, g, b)
  {
    CommuteBrightness(p, s, v, r, g, b);
    CommuteTemperature(p, r, g, b, t, id);
    CommuteState(p, s, r, g, b, t);
    CommuteDistant(p, v, r, g, b, t, id);
  }

  lemma CommuteState(p: Pilot, s: bool, r: U8, g: U8, b: U8, t: U16)
    ensures WithRgb(WithState(p, s), r, g, b) == WithState(WithRgb(p, r, g, b), s)
    ensures WithTemperature(WithState(p, s), t) == WithState(WithTemperature(p, t), s)
  {
  }

  lemma CommuteDistant(p: Pilot, v: U8, r: U8, g: U8, b: U8, t: U16, id: U16)
    ensures WithTemperature(WithBrightness(p, v), t) == WithBrightness(WithTemperature(p, t), v)
    ensures WithScene(WithBrightness(p, v), id) == WithBrightness(WithScene(p, id), v)
    ensures WithScene(WithRgb(p, r, g, b), id) == WithRgb(WithScene(p, id), r, g, b)
  {
  }

  lemma CommuteBrightness(p: Pilot, s: bool, v: U8, r: U8, g: U8, b: U8)
    ensures WithBrightness(WithState(p, s), v) == WithState(WithBrightness(p, v), s)
    ensures WithRgb(WithBrightness(p, v), r, g, b) == WithBrightness(WithRgb(p, r, g, b), v)
  {
  }

  lemma CommuteTemperature(p: Pilot, r: U8, g: U8, b: U8, t: U16, id: U16)
    ensures WithTemperature(WithRgb(p, r, g, b), t) == WithRgb(WithTemperature(p, t), r, g, b)
    ensures WithScene(WithTemperature(p, t), id) == WithTemperature(WithScene(p, id), t)
  {
  }

  /** One call of the public builder API. */
  datatype Call =
    | CallState(s: bool)
    | CallBrightness(v: U8)
    | CallRgb(r: U8, g: U8, b: U8)
    | CallTemperature(t: U16)
    | CallScene(id: U16)

  function Perform(p: Pilot, c: Call): Pilot
  {
    match c
    case CallState(s) => WithState(p, s)
    case CallBrightness(v) => WithBrightness(p, v)
    case CallRgb(r, g, b) => WithRgb(p, r, g, b)
    case CallTemperature(t) => WithTemperature(p, t)
    case CallScene(id) => WithScene(p, id)
  }

  /** A fresh builder after the calls, in order. */
  function Built(calls: seq<Call>): Pilot
  {
    if calls == [] then EmptyPilot else Perform(Built(calls[..|calls| - 1]), calls[|calls| - 1])
  }

  /**
   * What the public API can produce: no speed (there is no speed setter),
   * brightness and temperature inside their ranges when present, and zero
   * values behind absent flags.
   */
  predicate ApiShaped(p: Pilot)
  {
    !p.hasSpeed && p.speed == 0 &&
    (p.hasBrightness ==> BrightnessMin <= p.brightness <= BrightnessMax) &&
    (p.hasTemp ==> TempMin <= p.temp <= TempMax) &&
    (!p.hasState ==> !p.state) && (!p.hasBrightness ==> p.brightness == 0) &&
    (!p.hasRgb ==> p.rgb == Rgb(0, 0, 0)) && (!p.hasTemp ==> p.temp == 0) &&
    (!p.hasSceneId ==> p.sceneId == 0)
  }

  /** Every builder reachable through the API is ApiShaped; in particular has_speed stays false. */
  lemma {:induction false} BuiltIsApiShaped(calls: seq<Call>)
    ensures ApiShaped(Built(calls))
    ensures !Built(calls).hasSpeed
  {
    if calls != [] {
      BuiltIsApiShaped(calls[..|calls| - 1]);
    }
  }

  /** The field group a call sets: 0 state, 1 brightness, 2 rgb, 3 temperature, 4 scene. */
  function GroupOf(c: Call): nat
  {
    match c
    case CallState(_) => 0
    case CallBrightness(_) => 1
    case CallRgb(_, _, _) => 2
    case CallTemperature(_) => 3
    case CallScene(_) => 4
  }

  /** The presence flag of field group g. */
  predicate Flag(p: Pilot, g: nat)
  {
    match g
    case 0 => p.hasState
    case 1 => p.hasBrightness
    case 2 => p.hasRgb
    case 3 => p.hasTemp
    case 4 => p.hasSceneId
    case _ => p.hasSpeed
  }

  /** A flag is raised exactly when some call set that field group. */
  lemma {:induction false} BuiltFlag(calls: seq<Call>, g: nat)
    ensures Flag(Built(calls), g) <==> exists i :: 0 <= i < |calls| && GroupOf(calls[i]) == g
  {
    if calls != [] {
      var init := calls[..|calls| - 1];
      var last := calls[|calls| - 1];
      BuiltFlag(init, g);
      if GroupOf(last) == g {
        assert GroupOf(calls[|calls| - 1]) == g;
      } else {
        assert Flag(Built(calls), g) == Flag(Built(init), g);
        forall i | 0 <= i < |init|
          ensures init[i] == calls[i]
        {
        }
      }
    }
  }
}
