/** The simulation object: mutable fields updated in place by its methods. Each method
    is proved to take the object's state, read as a `Sim` value, exactly where the
    corresponding function of Dynamics or Run takes it, and to keep the consistency
    invariant. */
module BrainModel {
  import opened Dynamics
  import opened Run

  class HirayamaDiseaseSimulation {
    /** Number of iterations of a run. */
    const timeSteps: nat := TIME_STEPS

    var diseaseProgression: real
    var muscleWeakness: real
    var atrophy: real

    var dopamineLevel: real
    var serotoninLevel: real
    var cortisolLevel: real

    var stress: real
    var exercise: real
    var sleep: real

    var geneticFactor: real

    /** Both treatment magnitudes are always present. */
    const medicationEffects: MedicationEffects := MEDICATION

    var diseaseStage: Stage

    var neurofilamentLightChain: real

    var cognitiveDecline: real
    var motorSkillDecline: real

    /** The object's state as a value. */
    function State(): Sim
      reads this
    {
      Sim(diseaseProgression, muscleWeakness, atrophy,
          dopamineLevel, serotoninLevel, cortisolLevel,
          stress, exercise, sleep,
          geneticFactor, diseaseStage,
          neurofilamentLightChain, cognitiveDecline, motorSkillDecline)
    }

    ghost predicate Valid()
      reads this
    {
      Consistent(State())
    }

    /** A fresh simulation with the default levels and lifestyle; `genetic` is the value
        drawn uniformly from [0.8, 1.2]. */
    constructor (genetic: real)
      requires 0.8 <= genetic <= 1.2
      ensures State() == Initial(genetic)
      ensures Valid()
    {
      diseaseProgression := 0.0;
      muscleWeakness := 0.0;
      atrophy := 0.0;
      dopamineLevel := 0.5;
      serotoninLevel := 0.5;
      cortisolLevel := 0.5;
      stress := 0.0;
      exercise := 0.5;
      sleep := 0.7;
      geneticFactor := genetic;
      diseaseStage := PreSymptomatic;
      neurofilamentLightChain := 0.0;
      cognitiveDecline := 0.0;
      motorSkillDecline := 0.0;
    }

    method UpdateNeurotransmitterLevels()
      modifies this
      ensures State() == UpdateLevels(old(State()))
      ensures LevelsInRange(State())
      ensures old(Valid()) ==> Valid()
    {
      dopamineLevel := dopamineLevel + (0.01 * exercise - 0.01 * stress);
      serotoninLevel := serotoninLevel + (0.005 * sleep - 0.005 * stress);
      cortisolLevel := cortisolLevel + (0.02 * stress - 0.01 * exercise);

      dopamineLevel := Clamp(dopamineLevel);
      serotoninLevel := Clamp(serotoninLevel);
      cortisolLevel := Clamp(cortisolLevel);
    }

    method ApplyMedication()
      modifies this
      ensures State() == Medicate(old(State()))
      ensures serotoninLevel == old(serotoninLevel)
      ensures old(Valid()) ==> Valid()
    {
      dopamineLevel := dopamineLevel + medicationEffects.dopamineAgonist;
      cortisolLevel := cortisolLevel - medicationEffects.neuroinflammatoryInhibitor;

      dopamineLevel := Clamp(dopamineLevel);
      cortisolLevel := Clamp(cortisolLevel);
      if old(Valid()) {
        InputsPreserveConsistency(old(State()), stress, exercise, sleep);
      }
    }

    method UpdateDiseaseStage()
      modifies this
      ensures State() == Restage(old(State()))
      ensures old(Valid()) ==> Valid()
    {
      if diseaseProgression < EARLY_THRESHOLD {
        diseaseStage := PreSymptomatic;
      } else if diseaseProgression < LATE_THRESHOLD {
        diseaseStage := EarlyStage;
      } else {
        diseaseStage := LateStage;
      }
    }

    /** One tick of the simulation. */
    method SimulateProgression()
      modifies this
      ensures State() == Step(old(State()))
      ensures old(Valid()) ==> Valid() && Grows(old(State()), State())
      ensures old(Valid()) ==> Rank(old(diseaseStage)) <= Rank(diseaseStage)
    {
      ghost var before := State();
      UpdateNeurotransmitterLevels();
      ApplyMedication();
      UpdateDiseaseStage();

      if diseaseStage == PreSymptomatic {
        diseaseProgression := diseaseProgression + 0.005 * geneticFactor;
      } else if diseaseStage == EarlyStage {
        diseaseProgression := diseaseProgression + 0.01 * geneticFactor;
      } else {
        diseaseProgression := diseaseProgression + 0.02 * geneticFactor;
      }

      cognitiveDecline := cognitiveDecline + 0.05 * (1.0 - dopamineLevel);
      motorSkillDecline := motorSkillDecline + 0.05 * (1.0 - serotoninLevel);

      muscleWeakness := muscleWeakness + 0.01 * cortisolLevel;
      atrophy := atrophy + 0.02 * cortisolLevel;

      neurofilamentLightChain := neurofilamentLightChain + diseaseProgression * 0.05;

      assert State() == Step(before);
      if Consistent(before) {
        StepGrows(before);
      }
    }

    /** Runs `timeSteps` iterations and returns the snapshot recorded after each tick;
        iterations whose index is a multiple of 50 end with an extra dose. */
    method RunSimulation() returns (series: seq<Snapshot>)
      modifies this
      ensures series == RunSeries(old(State()), timeSteps)
      ensures State() == RunState(old(State()), timeSteps)
      ensures |series| == timeSteps
      ensures forall i :: 0 <= i < |series| ==> series[i].time == i
      ensures old(Valid()) ==> Valid()
      ensures old(Valid()) ==>
        forall i, j :: 0 <= i <= j < |series| ==> series[i].diseaseProgression <= series[j].diseaseProgression
    {
      ghost var s0 := State();
      series := [];
      for timeStep := 0 to timeSteps
        invariant series == RunSeries(s0, timeStep)
        invariant State() == RunState(s0, timeStep)
      {
        SimulateProgression();
        series := series + [Record(timeStep, State())];
        if timeStep % MEDICATION_INTERVAL == 0 {
          ApplyMedication();
        }
      }
      forall i | 0 <= i < |series|
        ensures series[i].time == i
      {
        RunSnapshot(s0, timeSteps, i);
      }
      if Consistent(s0) {
        RunNeverRegresses(s0, 0, timeSteps);
        forall i, j | 0 <= i <= j < |series|
          ensures series[i].diseaseProgression <= series[j].diseaseProgression
        {
          RunSeriesNonDecreasing(s0, timeSteps, i, j);
        }
      }
    }

    /** Stores the lifestyle inputs verbatim. */
    method EnvironmentalImpact(stress: real, exercise: real, sleep: real)
      modifies this
      ensures State() == Lifestyle(old(State()), stress, exercise, sleep)
      ensures old(Valid()) ==> Valid()
    {
      this.stress := stress;
      this.exercise := exercise;
      this.sleep := sleep;
      if old(Valid()) {
        InputsPreserveConsistency(old(State()), stress, exercise, sleep);
      }
    }

    /** Medication followed by the lifestyle preset (0.3, 0.7, 0.8). */
    method ApplyCombinedTreatment()
      modifies this
      ensures State() == CombinedTreatment(old(State()))
      ensures old(Valid()) ==> Valid()
    {
      ApplyMedication();
      EnvironmentalImpact(0.3, 0.7, 0.8);
    }

    /** Replaces the genetic factor by `genetic`, the value drawn uniformly from [0.9, 1.1]. */
    method IntroduceGeneticFactors(genetic: real)
      requires 0.9 <= genetic <= 1.1
      modifies this
      ensures State() == old(State()).(geneticFactor := genetic)
      ensures old(Valid()) ==> Valid()
    {
      geneticFactor := genetic;
    }
  }
}
