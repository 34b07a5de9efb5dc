/**
 * The effect-slot data of `public/script.js`: the parameter schema of each
 * effect type (`effectDefinitions[...].params`) and the initial state of
 * the three insert slots (`fxSlots`).
 */
module Effects {
  import opened Wrappers

  /** The keys of `effectDefinitions`. */
  datatype EffectType = NoEffect | Reverb | Delay | Slicer

  /** One choice of a `buttons` parameter; `caption` is its `label`. */
  datatype RateOption = RateOption(value: real, caption: string)

  /** A parameter description: a slider (`type: 'range'`) or a row of
      buttons (`type: 'buttons'`), each with its initial `value`; `caption` is the `label`. */
  datatype ParamSpec =
    | Range(caption: string, min: real, max: real, step: real, value: real)
    | Buttons(caption: string, value: real, options: seq<RateOption>)

  const DelayRates: seq<RateOption> := [
    RateOption(0.5, "1/2"), RateOption(0.75, "1/2 3"), RateOption(1.0, "1/4"),
    RateOption(1.0 / 1.5, "1/4."), RateOption(1.5, "1/4 3"), RateOption(2.0, "1/8"),
    RateOption(2.0 / 1.5, "1/8."), RateOption(3.0, "1/8 3"), RateOption(4.0, "1/16")]

  const SlicerRates: seq<RateOption> := [
    RateOption(1.0, "1/4"), RateOption(1.5, "1/4 3"), RateOption(2.0, "1/8"),
    RateOption(2.0 / 1.5, "1/8."), RateOption(3.0, "1/8 3"), RateOption(4.0, "1/16"),
    RateOption(4.0 / 1.5, "1/16."), RateOption(6.0, "1/16 3"), RateOption(8.0, "1/32")]

  /** The `params` part of each effect definition. */
  function Schema(e: EffectType): map<string, ParamSpec> {
    match e
    case NoEffect => map[]
    case Reverb => map["mix" := Range("Mix", 0.0, 1.0, 0.01, 0.5)]
    case Delay => map[
      "mix" := Range("Mix", 0.0, 1.0, 0.01, 0.5),
      "feedback" := Range("Feedback", 0.0, 0.9, 0.01, 0.4),
      "time" := Range("Time", 0.01, 2.0, 0.01, 0.25),
      "rate" := Buttons("Rate", 4.0, DelayRates)]
    case Slicer => map[
      "depth" := Range("Depth", 0.0, 1.0, 0.01, 1.0),
      "rate" := Buttons("Rate", 4.0, SlicerRates)]
  }

  /** The maximum delay time the delay effect's node is created with. */
  const DelayLineMaxSeconds: real := 5.0

  /** A slot parameter value: a number, or a word such as `syncMode`'s
      `'bpm'`. */
  datatype ParamValue = Num(x: real) | Word(w: string)

  /** A sound-graph node handle; every slot starts without one. */
  type NodeHandle = nat

  /** One entry of `fxSlots`. */
  datatype FxSlot = FxSlot(id: string, name: string, node: Option<NodeHandle>, bypassNode: Option<NodeHandle>,
                           isActive: bool, effectType: EffectType, params: map<string, ParamValue>)

  /** `fxSlots` as the page starts with it. */
  const InitialFxSlots: seq<FxSlot> := [
    FxSlot("B", "FX B", None, None, false, Delay,
           map["mix" := Num(0.5), "time" := Num(0.25), "feedback" := Num(0.4), "syncMode" := Word("bpm"), "rate" := Num(4.0)]),
    FxSlot("C", "FX C", None, None, false, Reverb, map["mix" := Num(0.5)]),
    FxSlot("D", "FX D", None, None, false, NoEffect, map[])]

  /** A parameter description whose initial value is one it allows: within
      the slider's range with a positive step, or one of the buttons, all of
      which are positive. */
  predicate WellFormedSpec(p: ParamSpec) {
    match p
    case Range(_, min, max, step, value) => min <= value <= max && step > 0.0
    case Buttons(_, value, options) =>
      (exists i :: 0 <= i < |options| && options[i].value == value)
      && forall i :: 0 <= i < |options| ==> options[i].value > 0.0
  }

  /** The initial value of every parameter of a schema. */
  function Defaults(schema: map<string, ParamSpec>): map<string, ParamValue> {
    map k | k in schema :: Num(schema[k].value)
  }

  /** A slot whose parameters hold its type's schema default on every schema
      field; extra fields are allowed. */
  predicate MatchesSchema(slot: FxSlot) {
    var d := Defaults(Schema(slot.effectType));
    forall k :: k in d ==> k in slot.params && slot.params[k] == d[k]
  }

  /** Every parameter of every effect type starts at a value it allows. */
  lemma SchemasWellFormed(e: EffectType, k: string)
    requires k in Schema(e)
    ensures WellFormedSpec(Schema(e)[k])
  {
    var p := Schema(e)[k];
    if p.Buttons? {
      if e == Delay {
        assert DelayRates[8].value == 4.0;
      } else {
        assert SlicerRates[5].value == 4.0;
      }
    }
  }

  /** A slot value a parameter description allows: a number within the
      slider's range, or the value of one of the buttons. */
  predicate Allows(p: ParamSpec, v: ParamValue) {
    v.Num? &&
    match p
    case Range(_, min, max, _, _) => min <= v.x <= max
    case Buttons(_, _, options) => exists i :: 0 <= i < |options| && options[i].value == v.x
  }

  /** Every parameter of every initial slot holds a value its type's schema
      allows. */
  lemma InitialSlotsAllowed(i: int, k: string)
    requires 0 <= i < |InitialFxSlots| && k in Schema(InitialFxSlots[i].effectType)
    ensures k in InitialFxSlots[i].params
    ensures Allows(Schema(InitialFxSlots[i].effectType)[k], InitialFxSlots[i].params[k])
  {
    var e := InitialFxSlots[i].effectType;
    InitialSlotsMatchSchema();
    assert MatchesSchema(InitialFxSlots[i]);
    assert k in Defaults(Schema(e));
    SchemasWellFormed(e, k);
  }

  /** The delay's feedback stays below 1, so the echo dies away. */
  lemma FeedbackBelowUnity()
    ensures Schema(Delay)["feedback"].max < 1.0
  {
  }

  /** The delay line is longer than the longest delay time a slider allows. */
  lemma DelayLineHoldsLongestTime()
    ensures Schema(Delay)["time"].max < DelayLineMaxSeconds
  {
  }

  /** "none" has no parameters. */
  lemma NoEffectHasNoParams()
    ensures Schema(NoEffect) == map[]
  {
  }

  /** There are three slots, B, C and D in that order, all inactive and
      without nodes; their types are delay, reverb and none. */
  lemma InitialSlotsShape()
    ensures |InitialFxSlots| == 3
    ensures InitialFxSlots[0].id == "B" && InitialFxSlots[1].id == "C" && InitialFxSlots[2].id == "D"
    ensures forall i :: 0 <= i < 3 ==> !InitialFxSlots[i].isActive && InitialFxSlots[i].node.None? && InitialFxSlots[i].bypassNode.None?
    ensures InitialFxSlots[0].effectType == Delay && InitialFxSlots[1].effectType == Reverb && InitialFxSlots[2].effectType == NoEffect
  {
  }

  /** Every initial slot starts on its type's defaults; B carries one field
      more, `syncMode: 'bpm'`, C carries none, and D's parameters are empty. */
  lemma InitialSlotsMatchSchema()
    ensures forall i :: 0 <= i < |InitialFxSlots| ==> MatchesSchema(InitialFxSlots[i])
    ensures InitialFxSlots[0].params.Keys == Schema(Delay).Keys + {"syncMode"}
    ensures InitialFxSlots[0].params["syncMode"] == Word("bpm")
    ensures InitialFxSlots[1].params.Keys == Schema(Reverb).Keys
    ensures InitialFxSlots[2].params == map[]
  {
    assert MatchesSchema(InitialFxSlots[0]);
    assert MatchesSchema(InitialFxSlots[1]);
    assert MatchesSchema(InitialFxSlots[2]);
  }
}
