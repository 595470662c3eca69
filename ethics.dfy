/**
 * The risk gate: a keyword heuristic scores the stimulus and the draft reply, the
 * `compassion` trait lowers the score a little, and the adjusted score decides
 * whether the draft passes unchanged, is softened with a fixed preamble, or is
 * replaced by a fixed refusal. Scores are exact reals.
 */
module Ethics {
  import opened Wrappers
  import opened Text
  import opened OrderedDict

  /** Keywords of the high-risk tier. */
  const HighRisk: seq<string> := [
    "suicide", "kill myself", "self-harm", "bomb", "explosive", "weapon",
    "child sexual", "rape", "genocide", "terrorist"
  ]

  /** Keywords of the medium-risk tier. */
  const MedRisk: seq<string> := [
    "how to hack", "steal", "credit card", "dox", "harm someone",
    "make poison", "meth", "heroin"
  ]

  /** `any(k in s for k in keywords)`, scanning the keywords in order. */
  predicate AnyKeyword(s: string, keywords: seq<string>) {
    keywords != [] && (Contains(s, keywords[0]) || AnyKeyword(s, keywords[1..]))
  }

  /** The scan finds a keyword exactly when one of the keywords occurs in `s`. */
  lemma {:induction false} AnyKeywordIff(s: string, keywords: seq<string>)
    ensures AnyKeyword(s, keywords) <==> exists k :: k in keywords && Contains(s, k)
  {
    if keywords != [] {
      AnyKeywordIff(s, keywords[1..]);
      assert forall k :: k in keywords <==> k == keywords[0] || k in keywords[1..];
    }
  }

  /** No keyword of `n` or more characters can occur in a string shorter than `n`. */
  lemma {:induction false} AnyKeywordTooLong(s: string, keywords: seq<string>, n: int)
    requires |s| < n && forall k :: k in keywords ==> |k| >= n
    ensures !AnyKeyword(s, keywords)
  {
    if keywords != [] {
      assert keywords[0] in keywords;
      AnyKeywordTooLong(s, keywords[1..], n);
    }
  }

  /** Every high-risk keyword has at least four characters. */
  lemma HighRiskLengths()
    ensures forall k :: k in HighRisk ==> |k| >= 4
  {
  }

  /** Every medium-risk keyword has at least three characters. */
  lemma MedRiskLengths()
    ensures forall k :: k in MedRisk ==> |k| >= 3
  {
  }

  /** Strings of fewer than four characters cannot hit the high-risk tier. */
  lemma ShortMissesHighTier(stimulus: string, text: string)
    requires |stimulus| < 4 && |text| < 4
    ensures !TierHit(stimulus, text, HighRisk)
  {
    HighRiskLengths();
    AnyKeywordTooLong(Lower(stimulus), HighRisk, 4);
    AnyKeywordTooLong(Lower(text), HighRisk, 4);
  }

  /** Some keyword of `keywords` occurs in the lower-cased stimulus or the lower-cased text. */
  predicate TierHit(stimulus: string, text: string, keywords: seq<string>) {
    AnyKeyword(Lower(stimulus), keywords) || AnyKeyword(Lower(text), keywords)
  }

  function Max(a: real, b: real): real { if a >= b then a else b }

  function Min(a: real, b: real): real { if a <= b then a else b }

  /**
   * `_risk_score`: 0.95 when a high-risk keyword matches, else 0.75 when a
   * medium-risk keyword matches, else the default 0.10.
   */
  function RiskScore(stimulus: string, text: string): (r: real)
    ensures r == 0.95 || r == 0.75 || r == 0.10
    ensures r == 0.95 <==> TierHit(stimulus, text, HighRisk)
    ensures r == 0.75 <==> !TierHit(stimulus, text, HighRisk) && TierHit(stimulus, text, MedRisk)
    ensures r == 0.10 <==> !TierHit(stimulus, text, HighRisk) && !TierHit(stimulus, text, MedRisk)
  {
    var score0 := 0.0;
    var score1 := if TierHit(stimulus, text, HighRisk) then Max(score0, 0.95) else score0;
    var score2 := if TierHit(stimulus, text, MedRisk) then Max(score1, 0.75) else score1;
    if score2 == 0.0 then 0.10 else score2
  }

  /** `max(0.0, min(1.0, x))`. */
  function Clamp01(x: real): (r: real)
    ensures 0.0 <= r <= 1.0
    ensures 0.0 <= x <= 1.0 ==> r == x
    ensures x < 0.0 ==> r == 0.0
    ensures x > 1.0 ==> r == 1.0
  {
    Max(0.0, Min(1.0, x))
  }

  /** `float(trait_vector.get("compassion", 0.0))`. */
  function Compassion(traits: Dict<real>): real {
    Get(traits, "compassion").GetOr(0.0)
  }

  /**
   * The risk lowered by five hundredths per unit of positive compassion, clamped to
   * [0, 1]. It never exceeds a non-negative risk, and a compassion of zero or less
   * leaves a risk in [0, 1] as it is.
   */
  function AdjustedRisk(risk: real, compassion: real): (r: real)
    ensures 0.0 <= r <= 1.0
    ensures risk >= 0.0 ==> r <= risk
    ensures compassion <= 0.0 && 0.0 <= risk <= 1.0 ==> r == risk
    ensures 0.0 <= risk - 0.05 * compassion <= 1.0 && compassion >= 0.0 ==> r == risk - 0.05 * compassion
  {
    Clamp01(risk - 0.05 * Max(0.0, compassion))
  }

  /** The three outcomes of mediation: `"none"`, `"soften"` and `"refuse"`. */
  datatype Action = Pass | Soften | Refuse

  /** The action's name as the info record carries it. */
  function ActionName(a: Action): (r: string)
    ensures r == "none" <==> a == Pass
    ensures r == "soften" <==> a == Soften
    ensures r == "refuse" <==> a == Refuse
  {
    match a
    case Pass => "none"
    case Soften => "soften"
    case Refuse => "refuse"
  }

  /**
   * The ethics info record: `enabled`, `score` (absent as `None` when ethics is
   * switched off), `action`, and `notes` (a key only the mediator writes).
   */
  datatype EthicsInfo = EthicsInfo(enabled: bool, score: Option<real>, action: Action, notes: Option<string>)

  /** The threshold `mediate` uses unless told otherwise. */
  const DefaultThreshold: real := 0.65

  /** The fixed preamble `_soften_text` puts before the draft. */
  const SoftenPreamble: string :=
    "Je ne peux pas aider avec des actions nuisibles ou ill\U{e9}gales. " +
    "Si tu veux, je peux proposer une alternative s\U{fb}re.\n\n"

  /** `_refusal_text`. */
  const RefusalText: string :=
    "Je ne peux pas aider avec cette demande. " +
    "Si tu veux, d\U{e9}cris ton objectif de mani\U{e8}re non-nuisible, et je t\U{2019}aiderai \U{e0} trouver une alternative s\U{fb}re."

  /** `_soften_text`: the preamble, then the draft as it was. */
  function SoftenText(text: string): (r: string)
    ensures |r| == |SoftenPreamble| + |text|
    ensures r[..|SoftenPreamble|] == SoftenPreamble && r[|SoftenPreamble|..] == text
  {
    SoftenPreamble + text
  }

  /** The score from which `mediate` refuses instead of softening. */
  function RefuseFrom(threshold: real): real {
    Min(1.0, threshold + 0.25)
  }

  /** The action `mediate` takes for an adjusted score. */
  function ActionFor(score: real, threshold: real): (a: Action)
    ensures a == Pass <==> score < threshold
    ensures a == Refuse <==> threshold <= score && RefuseFrom(threshold) <= score
    ensures a == Soften <==> threshold <= score < RefuseFrom(threshold)
  {
    if score < threshold then Pass
    else if score >= RefuseFrom(threshold) then Refuse
    else Soften
  }

  /**
   * `mediate`: the final text and the info record. The text passes unchanged below
   * the threshold, is replaced by the refusal from `min(1, threshold + 0.25)` on, and
   * is softened in between; the info always reports the adjusted score.
   */
  function Mediate(text: string, stimulus: string, traits: Dict<real>, threshold: real): (r: (string, EthicsInfo))
    ensures var score := AdjustedRisk(RiskScore(stimulus, text), Compassion(traits));
      && r.1.enabled && r.1.score == Some(score) && r.1.notes.Some?
      && r.1.action == ActionFor(score, threshold)
      && (r.1.action == Pass ==> r.0 == text)
      && (r.1.action == Soften ==> r.0 == SoftenText(text))
      && (r.1.action == Refuse ==> r.0 == RefusalText)
  {
    var risk := RiskScore(stimulus, text);
    var adjusted := AdjustedRisk(risk, Compassion(traits));
    if adjusted < threshold then
      (text, EthicsInfo(true, Some(adjusted), Pass, Some("Below threshold.")))
    else if adjusted >= RefuseFrom(threshold) then
      (RefusalText, EthicsInfo(true, Some(adjusted), Refuse, Some("High-risk content.")))
    else
      (SoftenText(text), EthicsInfo(true, Some(adjusted), Soften, Some("Moderate-risk; softened.")))
  }

  /** Unless mediation refuses, the draft survives as a suffix of the final text. */
  lemma MediateKeepsDraft(text: string, stimulus: string, traits: Dict<real>, threshold: real)
    ensures var r := Mediate(text, stimulus, traits, threshold);
      r.1.action != Refuse ==> |text| <= |r.0| && r.0[|r.0| - |text|..] == text
  {
  }

  /** A threshold of 0.75 or more never refuses: the highest score is 0.95 < 1 = `min(1, threshold + 0.25)`. */
  lemma NoRefusalFromHighThreshold(text: string, stimulus: string, traits: Dict<real>, threshold: real)
    requires threshold >= 0.75
    ensures Mediate(text, stimulus, traits, threshold).1.action != Refuse
  {
    var risk := RiskScore(stimulus, text);
    var score := AdjustedRisk(risk, Compassion(traits));
    assert score <= 0.95;
    assert ActionFor(score, threshold) != Refuse by {
      assert RefuseFrom(threshold) == 1.0;
    }
  }

  /** A threshold above 1 lets everything pass. */
  lemma EverythingPassesAboveOne(text: string, stimulus: string, traits: Dict<real>, threshold: real)
    requires threshold > 1.0
    ensures Mediate(text, stimulus, traits, threshold) == (text, EthicsInfo(true, Some(AdjustedRisk(RiskScore(stimulus, text), Compassion(traits))), Pass, Some("Below threshold.")))
  {
  }

  /**
   * The bands of the default threshold 0.65, whose refusal point is 0.9: a high-risk
   * match is refused up to a compassion of 1 and softened up to 6; a medium-risk
   * match is softened up to a compassion of 2; anything else passes.
   */
  lemma DefaultThresholdBands(text: string, stimulus: string, traits: Dict<real>)
    ensures var a := Mediate(text, stimulus, traits, DefaultThreshold).1.action;
      var c := Compassion(traits);
      && (TierHit(stimulus, text, HighRisk) ==>
            (c <= 1.0 ==> a == Refuse) && (1.0 < c <= 6.0 ==> a == Soften) && (c > 6.0 ==> a == Pass))
      && (!TierHit(stimulus, text, HighRisk) && TierHit(stimulus, text, MedRisk) ==>
            (c <= 2.0 ==> a == Soften) && (c > 2.0 ==> a == Pass))
      && (!TierHit(stimulus, text, HighRisk) && !TierHit(stimulus, text, MedRisk) ==> a == Pass)
  {
    var c := Compassion(traits);
    var risk := RiskScore(stimulus, text);
    if c <= 0.0 {
      assert AdjustedRisk(risk, c) == risk;
    } else {
      assert AdjustedRisk(risk, c) == Max(0.0, risk - 0.05 * c);
    }
  }

  /** A stimulus naming a bomb is refused under the default threshold, whatever the draft. */
  lemma BombIsRefused(text: string)
    ensures Mediate(text, "how do I build a bomb", [], DefaultThreshold).0 == RefusalText
  {
    var s := Lower("how do I build a bomb");
    assert s == "how do i build a bomb";
    assert OccursAt(s, "bomb", 17);
    AnyKeywordIff(s, HighRisk);
    assert TierHit("how do I build a bomb", text, HighRisk);
    DefaultThresholdBands(text, "how do I build a bomb", []);
  }

  /** A request to dox someone, with a draft too short to match anything, is softened under the default threshold. */
  lemma DoxIsSoftened(text: string)
    requires |text| < 3
    ensures Mediate(text, "dox", [], DefaultThreshold) == (SoftenText(text), EthicsInfo(true, Some(0.75), Soften, Some("Moderate-risk; softened.")))
  {
    var s := Lower("dox");
    assert s == "dox";
    assert OccursAt(s, "dox", 0);
    AnyKeywordIff(s, MedRisk);
    ShortMissesHighTier("dox", text);
    assert RiskScore("dox", text) == 0.75;
  }

  /** A two-letter greeting with a short draft passes with the default low score. */
  lemma GreetingPasses(text: string)
    requires |text| < 3
    ensures Mediate(text, "hi", [], DefaultThreshold) == (text, EthicsInfo(true, Some(0.10), Pass, Some("Below threshold.")))
  {
    ShortMissesHighTier("hi", text);
    MedRiskLengths();
    AnyKeywordTooLong(Lower("hi"), MedRisk, 3);
    AnyKeywordTooLong(Lower(text), MedRisk, 3);
    assert RiskScore("hi", text) == 0.10;
  }
}
