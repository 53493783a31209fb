/** The per-tick dynamics of the Hirayama disease simulation, stated on values.

    `Sim` is the whole mutable state of one simulation object; every operation
    of the simulation is a function from the old state to the new one. The class
    in BrainModel is proved to follow these functions field for field. */
module Dynamics {

  /** The three disease stages, in the only order the simulation moves through them. */
  datatype Stage = PreSymptomatic | EarlyStage | LateStage

  /** Position of a stage in the progression order. */
  function Rank(st: Stage): nat
  {
    match st
    case PreSymptomatic => 0
    case EarlyStage => 1
    case LateStage => 2
  }

  /** The label the simulation stores for each stage. */
  function Label(st: Stage): (name: string)
    ensures st == PreSymptomatic <==> name == "Pre-symptomatic"
    ensures st == EarlyStage <==> name == "Early stage"
    ensures st == LateStage <==> name == "Late stage"
  {
    match st
    case PreSymptomatic => "Pre-symptomatic"
    case EarlyStage => "Early stage"
    case LateStage => "Late stage"
  }

  /** The fixed magnitudes of the two treatments. */
  datatype MedicationEffects = MedicationEffects(dopamineAgonist: real, neuroinflammatoryInhibitor: real)

  const MEDICATION := MedicationEffects(0.1, 0.05)

  /** Progression below this is pre-symptomatic. */
  const EARLY_THRESHOLD: real := 0.3
  /** Progression at or above this is late stage. */
  const LATE_THRESHOLD: real := 0.6

  /** Every mutable scalar of one simulation object. */
  datatype Sim = Sim(
    diseaseProgression: real,
    muscleWeakness: real,
    atrophy: real,
    dopamine: real,
    serotonin: real,
    cortisol: real,
    stress: real,
    exercise: real,
    sleep: real,
    geneticFactor: real,
    stage: Stage,
    neurofilamentLightChain: real,
    cognitiveDecline: real,
    motorSkillDecline: real)

  /** The state a fresh simulation starts in, given the genetic factor drawn for it. */
  function Initial(genetic: real): (s: Sim)
    ensures s.geneticFactor == genetic && s.stage == PreSymptomatic
    ensures s.diseaseProgression == s.muscleWeakness == s.atrophy == 0.0
    ensures s.neurofilamentLightChain == s.cognitiveDecline == s.motorSkillDecline == 0.0
    ensures s.dopamine == s.serotonin == s.cortisol == 0.5
    ensures s.stress == 0.0 && s.exercise == 0.5 && s.sleep == 0.7
    ensures 0.0 <= genetic ==> Consistent(s)
  {
    Sim(0.0, 0.0, 0.0,
        0.5, 0.5, 0.5,
        0.0, 0.5, 0.7,
        genetic, PreSymptomatic,
        0.0, 0.0, 0.0)
  }

  /** `max(0, min(1, x))`: the bound applied to every neurotransmitter level. */
  function Clamp(x: real): (r: real)
    ensures 0.0 <= r <= 1.0
    ensures 0.0 <= x <= 1.0 <==> r == x
    ensures x < 0.0 ==> r == 0.0
    ensures 1.0 < x ==> r == 1.0
  {
    if x < 0.0 then 0.0 else if 1.0 < x then 1.0 else x
  }

  ghost predicate LevelsInRange(s: Sim)
  {
    && 0.0 <= s.dopamine <= 1.0
    && 0.0 <= s.serotonin <= 1.0
    && 0.0 <= s.cortisol <= 1.0
  }

  /** Everything but the three neurotransmitter levels is the same in `a` and `b`. */
  ghost predicate SameButLevels(a: Sim, b: Sim)
  {
    a.(dopamine := b.dopamine, serotonin := b.serotonin, cortisol := b.cortisol) == b
  }

  /** Lifestyle-driven update of the three levels, each then clamped to [0,1]. */
  function UpdateLevels(s: Sim): (r: Sim)
    ensures LevelsInRange(r)
    ensures SameButLevels(s, r)
    ensures var d := s.dopamine + 0.01 * s.exercise - 0.01 * s.stress;
      && (0.0 <= d <= 1.0 ==> r.dopamine == d)
      && (d < 0.0 ==> r.dopamine == 0.0)
      && (1.0 < d ==> r.dopamine == 1.0)
    ensures var se := s.serotonin + 0.005 * s.sleep - 0.005 * s.stress;
      && (0.0 <= se <= 1.0 ==> r.serotonin == se)
      && (se < 0.0 ==> r.serotonin == 0.0)
      && (1.0 < se ==> r.serotonin == 1.0)
    ensures var c := s.cortisol + 0.02 * s.stress - 0.01 * s.exercise;
      && (0.0 <= c <= 1.0 ==> r.cortisol == c)
      && (c < 0.0 ==> r.cortisol == 0.0)
      && (1.0 < c ==> r.cortisol == 1.0)
  {
    var d := s.dopamine + (0.01 * s.exercise - 0.01 * s.stress);
    var se := s.serotonin + (0.005 * s.sleep - 0.005 * s.stress);
    var c := s.cortisol + (0.02 * s.stress - 0.01 * s.exercise);
    s.(dopamine := Clamp(d), serotonin := Clamp(se), cortisol := Clamp(c))
  }

  /** Medication raises dopamine and lowers cortisol by fixed amounts, both then clamped;
      serotonin and every other field are left alone. */
  function Medicate(s: Sim): (r: Sim)
    ensures 0.0 <= r.dopamine <= 1.0 && 0.0 <= r.cortisol <= 1.0
    ensures r.serotonin == s.serotonin
    ensures SameButLevels(s, r)
    ensures s.dopamine >= 0.9 ==> r.dopamine == 1.0
    ensures s.cortisol <= 0.05 ==> r.cortisol == 0.0
    ensures 0.0 <= s.dopamine <= 0.9 ==> r.dopamine == s.dopamine + 0.1
    ensures 0.05 <= s.cortisol <= 1.0 ==> r.cortisol == s.cortisol - 0.05
  {
    var d := s.dopamine + MEDICATION.dopamineAgonist;
    var c := s.cortisol - MEDICATION.neuroinflammatoryInhibitor;
    s.(dopamine := Clamp(d), cortisol := Clamp(c))
  }

  /** Stage classification by the two progression thresholds. */
  function Classify(progression: real): (st: Stage)
    ensures st == PreSymptomatic <==> progression < EARLY_THRESHOLD
    ensures st == EarlyStage <==> EARLY_THRESHOLD <= progression < LATE_THRESHOLD
    ensures st == LateStage <==> LATE_THRESHOLD <= progression
  {
    if progression < EARLY_THRESHOLD then PreSymptomatic
    else if progression < LATE_THRESHOLD then EarlyStage
    else LateStage
  }

  /** The stage is recomputed from progression alone; nothing else changes. */
  function Restage(s: Sim): (r: Sim)
    ensures r.stage == Classify(s.diseaseProgression)
    ensures r.(stage := s.stage) == s
  {
    s.(stage := Classify(s.diseaseProgression))
  }

  /** Progression increment per unit of genetic factor in each stage. */
  function Rate(st: Stage): (rate: real)
    ensures 0.005 <= rate <= 0.02
  {
    match st
    case PreSymptomatic => 0.005
    case EarlyStage => 0.01
    case LateStage => 0.02
  }

  /** One tick: levels, medication and stage in that order, then the six accumulators.
      The rate is chosen by the stage of the progression before this tick's increment;
      the declines use the levels after medication; the biomarker uses the progression
      after the increment. */
  function Step(s: Sim): (r: Sim)
    ensures LevelsInRange(r)
    ensures r.stage == Classify(s.diseaseProgression)
    ensures r.diseaseProgression == s.diseaseProgression + Rate(Classify(s.diseaseProgression)) * s.geneticFactor
    ensures r.neurofilamentLightChain == s.neurofilamentLightChain + 0.05 * r.diseaseProgression
    ensures r.cognitiveDecline == s.cognitiveDecline + 0.05 * (1.0 - r.dopamine)
    ensures r.motorSkillDecline == s.motorSkillDecline + 0.05 * (1.0 - r.serotonin)
    ensures r.muscleWeakness == s.muscleWeakness + 0.01 * r.cortisol
    ensures r.atrophy == s.atrophy + 0.02 * r.cortisol
    ensures r.dopamine == Medicate(UpdateLevels(s)).dopamine
    ensures r.serotonin == UpdateLevels(s).serotonin
    ensures r.cortisol == Medicate(UpdateLevels(s)).cortisol
    ensures r.stress == s.stress && r.exercise == s.exercise && r.sleep == s.sleep
    ensures r.geneticFactor == s.geneticFactor
  {
    var a := Restage(Medicate(UpdateLevels(s)));
    var p := a.diseaseProgression + Rate(a.stage) * a.geneticFactor;
    a.(diseaseProgression := p,
       cognitiveDecline := a.cognitiveDecline + 0.05 * (1.0 - a.dopamine),
       motorSkillDecline := a.motorSkillDecline + 0.05 * (1.0 - a.serotonin),
       muscleWeakness := a.muscleWeakness + 0.01 * a.cortisol,
       atrophy := a.atrophy + 0.02 * a.cortisol,
       neurofilamentLightChain := a.neurofilamentLightChain + p * 0.05)
  }

  /** The lifestyle inputs are stored verbatim; nothing else changes. */
  function Lifestyle(s: Sim, stress: real, exercise: real, sleep: real): (r: Sim)
    ensures r.stress == stress && r.exercise == exercise && r.sleep == sleep
    ensures r.(stress := s.stress, exercise := s.exercise, sleep := s.sleep) == s
  {
    s.(stress := stress, exercise := exercise, sleep := sleep)
  }

  /** Medication, then the fixed lifestyle preset (0.3, 0.7, 0.8). */
  function CombinedTreatment(s: Sim): (r: Sim)
    ensures r.stress == 0.3 && r.exercise == 0.7 && r.sleep == 0.8
    ensures r.dopamine == Medicate(s).dopamine && r.cortisol == Medicate(s).cortisol
    ensures r.serotonin == s.serotonin
    ensures r.(dopamine := s.dopamine, cortisol := s.cortisol,
               stress := s.stress, exercise := s.exercise, sleep := s.sleep) == s
  {
    Lifestyle(Medicate(s), 0.3, 0.7, 0.8)
  }

  /** The six quantities that only ever grow. */
  ghost predicate Grows(a: Sim, b: Sim)
  {
    && a.diseaseProgression <= b.diseaseProgression
    && a.cognitiveDecline <= b.cognitiveDecline
    && a.motorSkillDecline <= b.motorSkillDecline
    && a.muscleWeakness <= b.muscleWeakness
    && a.atrophy <= b.atrophy
    && a.neurofilamentLightChain <= b.neurofilamentLightChain
  }

  /** What every reachable state satisfies: levels in range, a non-negative genetic
      factor and progression, and a stored stage no later than the stage of the
      current progression (it is computed before each increment, so it may lag). */
  ghost predicate Consistent(s: Sim)
  {
    && LevelsInRange(s)
    && 0.0 <= s.geneticFactor
    && 0.0 <= s.diseaseProgression
    && Rank(s.stage) <= Rank(Classify(s.diseaseProgression))
  }

  // ---------------------------------------------------------------------------
  // Properties of the operations

  /** Two doses compound up to the bound: the same as one double dose. */
  lemma MedicateCompounds(s: Sim)
    requires LevelsInRange(s)
    ensures Medicate(Medicate(s)).dopamine == Clamp(s.dopamine + 0.2)
    ensures Medicate(Medicate(s)).cortisol == Clamp(s.cortisol - 0.1)
    ensures Medicate(Medicate(s)).serotonin == s.serotonin
  {
  }

  /** Classification is monotone in progression. */
  lemma ClassifyMonotone(p: real, q: real)
    requires p <= q
    ensures Rank(Classify(p)) <= Rank(Classify(q))
  {
  }

  /** One tick never decreases any accumulator, and the stage it stores never moves back. */
  lemma StepGrows(s: Sim)
    requires Consistent(s)
    ensures Grows(s, Step(s))
    ensures Rank(s.stage) <= Rank(Step(s).stage)
    ensures Consistent(Step(s))
  {
    var r := Step(s);
    var rate := Rate(Classify(s.diseaseProgression));
    assert 0.0 <= rate * s.geneticFactor by {
      assert 0.0 <= rate;
    }
    ClassifyMonotone(s.diseaseProgression, r.diseaseProgression);
  }

  /** With a positive genetic factor progression strictly increases each tick. */
  lemma StepAdvancesProgression(s: Sim)
    requires 0.0 < s.geneticFactor
    ensures Step(s).diseaseProgression >= s.diseaseProgression + 0.005 * s.geneticFactor
  {
    var rate := Rate(Classify(s.diseaseProgression));
    assert rate * s.geneticFactor >= 0.005 * s.geneticFactor by {
      assert (rate - 0.005) * s.geneticFactor >= 0.0;
    }
  }

  /** Medication, the lifestyle setters and the combined treatment keep a state consistent. */
  lemma InputsPreserveConsistency(s: Sim, stress: real, exercise: real, sleep: real)
    requires Consistent(s)
    ensures Consistent(Medicate(s))
    ensures Consistent(Lifestyle(s, stress, exercise, sleep))
    ensures Consistent(CombinedTreatment(s))
  {
  }

  /** What a tick adds to progression in each band of the progression it starts from:
      0.005, 0.01 or 0.02 times the genetic factor. */
  lemma StepProgressionByBand(s: Sim)
    ensures s.diseaseProgression < 0.3 ==>
      Step(s).diseaseProgression == s.diseaseProgression + 0.005 * s.geneticFactor
    ensures 0.3 <= s.diseaseProgression < 0.6 ==>
      Step(s).diseaseProgression == s.diseaseProgression + 0.01 * s.geneticFactor
    ensures 0.6 <= s.diseaseProgression ==>
      Step(s).diseaseProgression == s.diseaseProgression + 0.02 * s.geneticFactor
  {
  }

  /** The first tick from the defaults. */
  lemma FirstTickFromDefaults(genetic: real)
    ensures Step(Initial(genetic)).dopamine == 0.605
    ensures Step(Initial(genetic)).serotonin == 0.5035
    ensures Step(Initial(genetic)).cortisol == 0.445
    ensures Step(Initial(genetic)).stage == PreSymptomatic
    ensures Step(Initial(genetic)).diseaseProgression == 0.005 * genetic
    ensures Step(Initial(genetic)).cognitiveDecline == 0.01975
    ensures Step(Initial(genetic)).motorSkillDecline == 0.024825
    ensures Step(Initial(genetic)).neurofilamentLightChain == 0.00025 * genetic
  {
  }

  /** The stored stage is that of the progression before the increment, so right after
      a tick it can lag the stage of the current progression by one band. */
  lemma StageLagsOneTick()
    ensures Step(Initial(1.0).(diseaseProgression := 0.299)).stage == PreSymptomatic
    ensures Classify(Step(Initial(1.0).(diseaseProgression := 0.299)).diseaseProgression) == EarlyStage
  {
  }
}
