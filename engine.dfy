/**
 * The orchestration layer: a profile (`SoulState`) is built from an identity through
 * the numerology collaborators, and each reaction moves the state along the axis,
 * drafts a reply, passes it through the risk gate and records it in a bounded memory.
 *
 * The collaborators the engine calls but does not define (signature computation and
 * reduction, the digit-to-traits projection, the axis dynamics and the draft
 * composer) are passed in as functions.
 */
module Engine {
  import opened Wrappers
  import opened OrderedDict
  import PySlice
  import Numerology
  import Ontology
  import Ethics

  type Json = Ontology.Json

  /** `EngineConfig`, with its defaults in `DefaultConfig`. */
  datatype EngineConfig = EngineConfig(
    inversionEnabled: bool,
    axisDefault: int,
    memoryMaxTurns: int,
    tone: real,
    humor: real,
    complexity: real,
    ethicsEnabled: bool,
    ethicsThreshold: real)

  const DefaultConfig: EngineConfig := EngineConfig(true, 5, 12, 0.5, 0.2, 0.5, true, 0.65)

  // ---------------------------------------------------------------------------
  // Clamping and sliders
  // ---------------------------------------------------------------------------

  /** `_clamp_axis`: `max(1, min(9, x))`. */
  function ClampAxis(x: int): (r: int)
    ensures 1 <= r <= 9
    ensures 1 <= x <= 9 ==> r == x
    ensures x < 1 ==> r == 1
    ensures x > 9 ==> r == 9
  {
    var m := if 9 <= x then 9 else x;
    if 1 >= m then 1 else m
  }

  /**
   * `_clamp01` of a value that `float()` turns into `Some(x)`, or rejects (`None`):
   * a rejected value gives the neutral 0.5, a number is clamped to [0, 1].
   */
  function Clamp01(x: Option<real>): (r: real)
    ensures 0.0 <= r <= 1.0
    ensures x.None? ==> r == 0.5
    ensures x.Some? && 0.0 <= x.value <= 1.0 ==> r == x.value
    ensures x.Some? && x.value < 0.0 ==> r == 0.0
    ensures x.Some? && x.value > 1.0 ==> r == 1.0
  {
    match x
    case None => 0.5
    case Some(v) => Ethics.Clamp01(v)
  }

  /** The per-call slider overrides: absent, or a dict whose values `float()` accepts or rejects. */
  type Sliders = Option<Dict<Option<real>>>

  /**
   * `_pick_slider`: the clamped override when `sliders` is a non-empty dict holding
   * `key`, the clamped default otherwise.
   */
  function PickSlider(sliders: Sliders, key: string, default: real): (r: real)
    ensures 0.0 <= r <= 1.0
    ensures sliders.None? || sliders.value == [] || key !in Keys(sliders.value) ==> r == Clamp01(Some(default))
    ensures sliders.Some? && key in Keys(sliders.value) ==> r == Clamp01(Get(sliders.value, key).value)
  {
    if sliders.None? || sliders.value == [] || key !in Keys(sliders.value) then Clamp01(Some(default))
    else Clamp01(Get(sliders.value, key).value)
  }

  // ---------------------------------------------------------------------------
  // Memory
  // ---------------------------------------------------------------------------

  /** One remembered exchange, `{"stimulus": ..., "response": ...}`. */
  datatype Turn = Turn(stimulus: string, response: string)

  /** What `_push_memory` keeps: the whole list up to the cap, else `memory[-cap:]`. */
  function Trimmed(memory: seq<Turn>, cap: int): seq<Turn> {
    if |memory| > cap then PySlice.Suffix(memory, -cap) else memory
  }

  /** With a cap of at least one, the newest `min(cap, |memory|)` turns are kept, oldest first. */
  lemma TrimmedKeepsNewest(memory: seq<Turn>, cap: int)
    requires cap >= 1
    ensures var r := Trimmed(memory, cap);
      |r| == (if |memory| <= cap then |memory| else cap) && r == memory[|memory| - |r|..]
  {
  }

  /** `memory[-0:]` is the whole list: a cap of zero keeps everything. */
  lemma TrimmedZeroCapKeepsAll(memory: seq<Turn>)
    ensures Trimmed(memory, 0) == memory
  {
  }

  /** A negative cap `c` turns into `memory[-c:]`, which drops the `-c` oldest turns. */
  lemma TrimmedNegativeCapDropsOldest(memory: seq<Turn>, cap: int)
    requires cap < 0
    ensures Trimmed(memory, cap) == if -cap <= |memory| then memory[-cap..] else []
  {
  }

  /** After a push with a cap of zero or more, the new turn is the last one remembered. */
  lemma PushedTurnIsLast(memory: seq<Turn>, t: Turn, cap: int)
    requires cap >= 0
    ensures var r := Trimmed(memory + [t], cap);
      |r| >= 1 && r[|r| - 1] == t
  {
    var m := memory + [t];
    if cap >= 1 {
      TrimmedKeepsNewest(m, cap);
    }
  }

  // ---------------------------------------------------------------------------
  // State
  // ---------------------------------------------------------------------------

  /** The sliders a reaction used. */
  datatype SliderValues = SliderValues(tone: real, humor: real, complexity: real)

  /** The trace of one reaction. */
  datatype ReactTrace = ReactTrace(
    digitArchetype: Option<int>,
    axisBefore: Option<int>,
    axisAfter: int,
    mood: Option<int>,
    sliders: SliderValues,
    dynamics: Json)

  /**
   * `last_trace`, a dict whose keys are each present (`Some`) or absent (`None`):
   * the profile keys written when the state is built, and the keys each reaction
   * overwrites.
   */
  datatype Trace = Trace(
    signature: Option<Json>,
    reduced: Option<Json>,
    digitArchetype: Option<int>,
    inversionEnabled: Option<bool>,
    axisPosition: Option<int>,
    mood: Option<Option<int>>,
    reactTrace: Option<ReactTrace>)

  /** `SoulState`: the profile and the dynamics of one soul. */
  class SoulState {
    var traitVector: Dict<real>
    var digitArchetype: Option<int>
    var axisPosition: int
    var mood: Option<int>
    var memory: seq<Turn>
    var lastTrace: Trace

    constructor (traitVector: Dict<real>, digitArchetype: Option<int>, axisPosition: int, mood: Option<int>, memory: seq<Turn>, lastTrace: Trace)
      ensures this.traitVector == traitVector && this.digitArchetype == digitArchetype
      ensures this.axisPosition == axisPosition && this.mood == mood
      ensures this.memory == memory && this.lastTrace == lastTrace
    {
      this.traitVector := traitVector;
      this.digitArchetype := digitArchetype;
      this.axisPosition := axisPosition;
      this.mood := mood;
      this.memory := memory;
      this.lastTrace := lastTrace;
    }
  }

  // ---------------------------------------------------------------------------
  // Profile construction
  // ---------------------------------------------------------------------------

  /** Why a profile cannot be built. */
  datatype EngineError =
    | ReductionNotAnObject(reduced: Json)
    | MissingCoreDigit
    | NonIntegerCoreDigit(value: Json)
    | Inversion(error: Numerology.NumerologyError)

  /**
   * `reduced.get("core_digit")`, which must be present and not `None`; a reduction
   * that is not a dict has no `get` at all (Python's `AttributeError`).
   */
  function CoreDigit(reduced: Json): (r: Result<int, EngineError>)
    ensures r == Failure(ReductionNotAnObject(reduced)) <==> !reduced.JObject?
    ensures r == Failure(MissingCoreDigit) <==>
      reduced.JObject? && (Get(reduced.fields, "core_digit") == None || Get(reduced.fields, "core_digit") == Some(Ontology.JNull))
    ensures r.Success? <==> reduced.JObject? && Get(reduced.fields, "core_digit").Some? && Get(reduced.fields, "core_digit").value.JInt?
    ensures r.Success? ==> r.value == Get(reduced.fields, "core_digit").value.i
  {
    if !reduced.JObject? then Failure(ReductionNotAnObject(reduced))
    else match Get(reduced.fields, "core_digit")
      case None => Failure(MissingCoreDigit)
      case Some(v) =>
        if v.JNull? then Failure(MissingCoreDigit)
        else if v.JInt? then Success(v.i)
        else Failure(NonIntegerCoreDigit(v))
  }

  /** The archetype digit: the core digit, inverted when the configuration says so. */
  function Archetype(reduced: Json, inversionEnabled: bool): (r: Result<int, EngineError>)
    ensures CoreDigit(reduced).Failure? ==> r == Failure(CoreDigit(reduced).error)
    ensures CoreDigit(reduced).Success? && !inversionEnabled ==> r == Success(CoreDigit(reduced).value)
    ensures CoreDigit(reduced).Success? && inversionEnabled ==>
      var d := CoreDigit(reduced).value;
      (r.Success? <==> 0 <= d <= 9) &&
      (r.Success? ==> 0 <= r.value <= 9 && (d == 0 ==> r.value == 0) && (d != 0 ==> r.value == 10 - d)) &&
      (r.Failure? ==> r.error == Inversion(Numerology.InvertOutOfRange(d)))
  {
    match CoreDigit(reduced)
    case Failure(e) => Failure(e)
    case Success(d) =>
      if !inversionEnabled then Success(d)
      else match Numerology.InvertDigit(d)
        case Failure(e) => Failure(Inversion(e))
        case Success(v) => Success(v)
  }

  /** Inverting the archetype built with inversion gives back the archetype built without it. */
  lemma ArchetypeInversionRoundTrip(reduced: Json)
    requires Archetype(reduced, true).Success?
    ensures Numerology.InvertDigit(Archetype(reduced, true).value) == Success(Archetype(reduced, false).value)
  {
    Numerology.InvertDigitInvolution(CoreDigit(reduced).value);
  }

  /** The starting axis: the caller's value exactly as given, else the clamped default. */
  function InitialAxis(axisPosition: Option<int>, cfg: EngineConfig): (r: int)
    ensures axisPosition.Some? ==> r == axisPosition.value
    ensures axisPosition.None? ==> 1 <= r <= 9 && r == ClampAxis(cfg.axisDefault)
  {
    if axisPosition.Some? then axisPosition.value else ClampAxis(cfg.axisDefault)
  }

  // ---------------------------------------------------------------------------
  // Reaction
  // ---------------------------------------------------------------------------

  /** `update_dynamics(axis_position, trait_vector, stimulus, context)`: the next axis, mood and a trace. */
  type Dynamics = (int, Dict<real>, string, Json) -> (int, Option<int>, Json)

  /** The bounds `SoulState` documents: the axis in 1..9, the mood absent or in 2..8. */
  predicate InSoulRange(axis: int, mood: Option<int>) {
    1 <= axis <= 9 && (mood.None? || 2 <= mood.value <= 8)
  }

  /** Dynamics whose every answer keeps the documented bounds. */
  ghost predicate DynamicsInRange(dynamics: Dynamics) {
    forall axis, traits, stimulus, ctx ::
      InSoulRange(dynamics(axis, traits, stimulus, ctx).0, dynamics(axis, traits, stimulus, ctx).1)
  }

  /** `_compose_response_text(trait_vector, axis, mood, stimulus, tone, humor, complexity)`. */
  type Composer = (Dict<real>, int, Option<int>, string, real, real, real) -> string

  /** What `react` returns. */
  datatype Reaction = Reaction(text: string, axisPosition: int, mood: Option<int>, trace: ReactTrace, ethics: Ethics.EthicsInfo)

  /** The ethics info of a reaction with the gate switched off. */
  const DisabledInfo: Ethics.EthicsInfo := Ethics.EthicsInfo(false, None, Ethics.Pass, None)

  /** The reaction `react` computes from the state before the call. */
  function ReactionOf(
    cfg: EngineConfig, traits: Dict<real>, digit: Option<int>, axis: int, lastTrace: Trace,
    stimulus: string, sliders: Sliders, context: Option<Json>, dynamics: Dynamics, compose: Composer): Reaction
  {
    var ctx := context.GetOr(Ontology.JObject([]));
    var tone := PickSlider(sliders, "tone", cfg.tone);
    var humor := PickSlider(sliders, "humor", cfg.humor);
    var complexity := PickSlider(sliders, "complexity", cfg.complexity);
    var dyn := dynamics(axis, traits, stimulus, ctx);
    var draft := compose(traits, dyn.0, dyn.1, stimulus, tone, humor, complexity);
    var gated := if cfg.ethicsEnabled then Ethics.Mediate(draft, stimulus, traits, cfg.ethicsThreshold) else (draft, DisabledInfo);
    Reaction(gated.0, dyn.0, dyn.1,
      ReactTrace(digit, lastTrace.axisPosition, dyn.0, dyn.1, SliderValues(tone, humor, complexity), dyn.2),
      gated.1)
  }

  /** With dynamics that keep the bounds, so does every reaction, and hence the state `react` leaves. */
  lemma ReactionInRange(
    cfg: EngineConfig, traits: Dict<real>, digit: Option<int>, axis: int, lastTrace: Trace,
    stimulus: string, sliders: Sliders, context: Option<Json>, dynamics: Dynamics, compose: Composer)
    requires DynamicsInRange(dynamics)
    ensures var r := ReactionOf(cfg, traits, digit, axis, lastTrace, stimulus, sliders, context, dynamics, compose);
      InSoulRange(r.axisPosition, r.mood) && InSoulRange(r.trace.axisAfter, r.trace.mood)
  {
    var ctx := context.GetOr(Ontology.JObject([]));
    assert InSoulRange(dynamics(axis, traits, stimulus, ctx).0, dynamics(axis, traits, stimulus, ctx).1);
  }

  /** The `last_trace` after a reaction: the old one with the axis, the mood and the reaction's trace overwritten. */
  function NextTrace(lastTrace: Trace, r: Reaction): (t: Trace)
    ensures t.axisPosition == Some(r.axisPosition) && t.mood == Some(r.mood) && t.reactTrace == Some(r.trace)
    ensures t.signature == lastTrace.signature && t.reduced == lastTrace.reduced
    ensures t.digitArchetype == lastTrace.digitArchetype && t.inversionEnabled == lastTrace.inversionEnabled
  {
    lastTrace.(axisPosition := Some(r.axisPosition), mood := Some(r.mood), reactTrace := Some(r.trace))
  }

  /**
   * A reaction follows the dynamics, uses sliders in [0, 1], and gates the draft:
   * with ethics on, text and info are what mediation makes of the draft; with ethics
   * off, the draft is the text and the info says the gate is disabled.
   */
  lemma ReactionSpec(
    cfg: EngineConfig, traits: Dict<real>, digit: Option<int>, axis: int, lastTrace: Trace,
    stimulus: string, sliders: Sliders, context: Option<Json>, dynamics: Dynamics, compose: Composer)
    ensures var r := ReactionOf(cfg, traits, digit, axis, lastTrace, stimulus, sliders, context, dynamics, compose);
      var dyn := dynamics(axis, traits, stimulus, context.GetOr(Ontology.JObject([])));
      var s := r.trace.sliders;
      var draft := compose(traits, r.axisPosition, r.mood, stimulus, s.tone, s.humor, s.complexity);
      && r.axisPosition == dyn.0 && r.mood == dyn.1 && r.trace.dynamics == dyn.2
      && r.trace.axisAfter == r.axisPosition && r.trace.mood == r.mood
      && r.trace.digitArchetype == digit && r.trace.axisBefore == lastTrace.axisPosition
      && 0.0 <= s.tone <= 1.0 && 0.0 <= s.humor <= 1.0 && 0.0 <= s.complexity <= 1.0
      && (cfg.ethicsEnabled ==> (r.text, r.ethics) == Ethics.Mediate(draft, stimulus, traits, cfg.ethicsThreshold))
      && (!cfg.ethicsEnabled ==> r.text == draft && r.ethics == DisabledInfo)
  {
  }

  /** The axis a reaction reports as "before" is the axis the previous reaction moved to. */
  lemma AxisBeforeIsPreviousAfter(
    cfg: EngineConfig, traits: Dict<real>, digit: Option<int>, axis: int, lastTrace: Trace, r1: Reaction,
    stimulus: string, sliders: Sliders, context: Option<Json>, dynamics: Dynamics, compose: Composer)
    ensures ReactionOf(cfg, traits, digit, axis, NextTrace(lastTrace, r1), stimulus, sliders, context, dynamics, compose).trace.axisBefore
      == Some(r1.axisPosition)
  {
  }

  // ---------------------------------------------------------------------------
  // Engine
  // ---------------------------------------------------------------------------

  /** `ArtificialSoulEngine`: the configuration it was built with. */
  class ArtificialSoulEngine {
    const config: EngineConfig

    /** `config or EngineConfig()`. */
    constructor (config: Option<EngineConfig>)
      ensures this.config == config.GetOr(DefaultConfig)
    {
      this.config := config.GetOr(DefaultConfig);
    }

    /**
     * `build_state_from_identity`: signature, reduction, archetype digit (inverted when
     * configured), traits of that digit, and a fresh state with no mood, no memory and
     * the profile recorded in the trace.
     */
    method BuildStateFromIdentity(
      identity: Json, axisPosition: Option<int>,
      computeSignature: Json -> Json, reduceSignature: Json -> Json, digitToTraits: int -> Dict<real>)
      returns (r: Result<SoulState, EngineError>)
      ensures var reduced := reduceSignature(computeSignature(identity));
        var a := Archetype(reduced, config.inversionEnabled);
        && (r.Failure? <==> a.Failure?)
        && (r.Failure? ==> r.error == a.error)
        && (r.Success? ==>
              && fresh(r.value)
              && r.value.traitVector == digitToTraits(a.value)
              && r.value.digitArchetype == Some(a.value)
              && r.value.axisPosition == InitialAxis(axisPosition, config)
              && r.value.mood == None
              && r.value.memory == []
              && r.value.lastTrace == Trace(Some(computeSignature(identity)), Some(reduced), Some(a.value),
                   Some(config.inversionEnabled), None, None, None))
    {
      var signature := computeSignature(identity);
      var reduced := reduceSignature(signature);
      var core := CoreDigit(reduced);
      if core.Failure? {
        return Failure(core.error);
      }
      var digit := core.value;
      if config.inversionEnabled {
        var inv := Numerology.InvertDigit(digit);
        if inv.Failure? {
          return Failure(Inversion(inv.error));
        }
        digit := inv.value;
      }
      var traits := digitToTraits(digit);
      var axis := if axisPosition.Some? then axisPosition.value else ClampAxis(config.axisDefault);
      var trace := Trace(Some(signature), Some(reduced), Some(digit), Some(config.inversionEnabled), None, None, None);
      var state := new SoulState(traits, Some(digit), axis, None, [], trace);
      return Success(state);
    }

    /** `_push_memory`: remember one exchange and keep what the cap allows. */
    method PushMemory(state: SoulState, stimulus: string, response: string)
      modifies state
      ensures state.memory == Trimmed(old(state.memory) + [Turn(stimulus, response)], config.memoryMaxTurns)
      ensures state.traitVector == old(state.traitVector) && state.digitArchetype == old(state.digitArchetype)
      ensures state.axisPosition == old(state.axisPosition) && state.mood == old(state.mood)
      ensures state.lastTrace == old(state.lastTrace)
    {
      state.memory := state.memory + [Turn(stimulus, response)];
      if |state.memory| > config.memoryMaxTurns {
        state.memory := PySlice.Suffix(state.memory, -config.memoryMaxTurns);
      }
    }

    /**
     * `react`: pick the sliders, advance the dynamics, draft and gate the reply,
     * then commit the axis and mood, remember the exchange and extend the trace.
     */
    method React(state: SoulState, stimulus: string, sliders: Sliders, context: Option<Json>, dynamics: Dynamics, compose: Composer)
      returns (r: Reaction)
      modifies state
      ensures r == ReactionOf(config, old(state.traitVector), old(state.digitArchetype), old(state.axisPosition),
                              old(state.lastTrace), stimulus, sliders, context, dynamics, compose)
      ensures state.axisPosition == r.axisPosition && state.mood == r.mood
      ensures DynamicsInRange(dynamics) ==> InSoulRange(state.axisPosition, state.mood)
      ensures state.memory == Trimmed(old(state.memory) + [Turn(stimulus, r.text)], config.memoryMaxTurns)
      ensures state.lastTrace == NextTrace(old(state.lastTrace), r)
      ensures state.traitVector == old(state.traitVector) && state.digitArchetype == old(state.digitArchetype)
    {
      var ctx := context.GetOr(Ontology.JObject([]));
      var tone := PickSlider(sliders, "tone", config.tone);
      var humor := PickSlider(sliders, "humor", config.humor);
      var complexity := PickSlider(sliders, "complexity", config.complexity);

      var dyn := dynamics(state.axisPosition, state.traitVector, stimulus, ctx);
      var axisNext, moodNext, dynTrace := dyn.0, dyn.1, dyn.2;
      var draft := compose(state.traitVector, axisNext, moodNext, stimulus, tone, humor, complexity);

      var ethicsInfo := DisabledInfo;
      var finalText := draft;
      if config.ethicsEnabled {
        var gated := Ethics.Mediate(draft, stimulus, state.traitVector, config.ethicsThreshold);
        finalText, ethicsInfo := gated.0, gated.1;
      }

      state.axisPosition := axisNext;
      state.mood := moodNext;
      PushMemory(state, stimulus, finalText);

      var trace := ReactTrace(state.digitArchetype, state.lastTrace.axisPosition, axisNext, moodNext,
                              SliderValues(tone, humor, complexity), dynTrace);
      r := Reaction(finalText, axisNext, moodNext, trace, ethicsInfo);
      state.lastTrace := NextTrace(state.lastTrace, r);
    }
  }
}
