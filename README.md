# Hirayama disease simulation, verified model

A Dafny model of `HirayamaDiseaseSimulation` from Brain_Model.py. This class is a
deterministic, time-stepped state machine over scalar fields:

- three neurotransmitter levels (dopamine, serotonin, cortisol), nudged by lifestyle
  inputs (stress, exercise, sleep) and clamped to [0,1];
- a medication that raises dopamine by 0.1 and lowers cortisol by 0.05, again clamped;
- a disease stage classified from the disease progression by the thresholds 0.3 and 0.6;
- a tick that runs these three updates in order and then advances six accumulators:
  progression, cognitive and motor decline, muscle weakness, atrophy and the
  neurofilament light chain biomarker;
- a run of 500 ticks that records a snapshot after each tick and gives an extra dose
  of medication on every iteration index divisible by 50.

Layout:

- `dynamics.dfy`, module `Dynamics`: the state as a value (`Sim`) and every operation
  as a function from the old state to the new one. Also holds the tick's properties:
  bounds, frames, classification, monotone accumulators and the first tick from the
  defaults.
- `run.dfy`, module `Run`: the run loop as the state after k iterations and the
  series of snapshots recorded so far. The loop's inductive properties are proved
  once for any tick and dose satisfying stated hypotheses, then instantiated with
  the simulation's own tick and dose.
- `brain_model.dfy`, module `BrainModel`: the class itself, with mutable fields.
  Every method is proved to move the object's state exactly as the corresponding
  function does, and to keep the consistency invariant.

The consistency invariant (`Dynamics.Consistent`) has three parts:

- the levels lie in [0,1];
- genetic factor and progression are non-negative;
- the stored stage is no further along than the stage of the current progression.

The model follows the code in these places:

- The stage stored by a tick is classified from the progression *before* that tick's
  increment. Right after a tick it can therefore lag the stage of the current
  progression by one band (`Dynamics.StageLagsOneTick`).
- The number of iterations is the constant 500 set in the constructor. No path
  rejects a negative count, so none is modelled.
- `medication_effects` always holds both keys, so both of its membership tests
  always succeed. It is modelled as a record with two fields.
- The eight parallel lists of the run loop are one sequence of `Snapshot` records.
  The time points are the records' `time` fields.
- Stage labels are a three-value datatype. `Dynamics.Label` gives the exact strings.

## Model

| member | source | states |
|---|---|---|
| Dynamics.Label | Brain_Model.py:63-70 | each stage corresponds to exactly one of the strings "Pre-symptomatic", "Early stage", "Late stage" |
| Dynamics.Clamp | Brain_Model.py:48-50 | the result lies in [0,1], equals the input exactly when the input is in [0,1], and is 0 below and 1 above |
| Dynamics.UpdateLevels | Brain_Model.py:41-50 | each level, taken separately, becomes old level plus its lifestyle term when that sum is in [0,1], 0 when it is below and 1 when it is above; all three end in [0,1] and no other field changes |
| Dynamics.Medicate | Brain_Model.py:52-61 | dopamine and cortisol end in [0,1]; a level inside the bounds moves by +0.1 or -0.05; dopamine at or above 0.9 becomes 1 and cortisol at or below 0.05 becomes 0; serotonin and every other field are unchanged |
| Dynamics.MedicateCompounds | Brain_Model.py:52-61 | two doses on in-range levels equal one double dose clamped to [0,1], and serotonin stays put |
| Dynamics.Classify | Brain_Model.py:63-70 | below 0.3 gives the pre-symptomatic stage, [0.3,0.6) the early stage and 0.6 or more the late stage, each as an if-and-only-if |
| Dynamics.ClassifyMonotone | Brain_Model.py:65-70 | a larger progression never classifies to an earlier stage |
| Dynamics.Restage | Brain_Model.py:63-70 | the new stage is the classification of the current progression, and nothing else changes |
| Dynamics.Rate | Brain_Model.py:79-84 | the per-stage progression rate lies between 0.005 and 0.02 |
| Dynamics.StepProgressionByBand | Brain_Model.py:76-84 | a tick adds 0.005, 0.01 or 0.02 times the genetic factor to progression when the progression it starts from is below 0.3, in [0.3,0.6) or at least 0.6 |
| Dynamics.Step | Brain_Model.py:72-95 | one tick: levels are the medicated update and in [0,1]; the stage is classified from the pre-increment progression; progression grows by that stage's rate times the genetic factor; neurofilament grows by 0.05 times the new progression; cognitive and motor decline grow by 0.05 times one minus the new dopamine and serotonin; muscle weakness and atrophy grow by 0.01 and 0.02 times the new cortisol; lifestyle and genetic factor are unchanged |
| Dynamics.StepGrows | Brain_Model.py:74-95 | from a consistent state, one tick never decreases any of the six accumulators, never moves the stage back, and yields a consistent state |
| Dynamics.StepAdvancesProgression | Brain_Model.py:79-84 | with a positive genetic factor, one tick adds at least 0.005 times the genetic factor to progression |
| Dynamics.Lifestyle | Brain_Model.py:161-165 | stress, exercise and sleep are stored verbatim and nothing else changes |
| Dynamics.CombinedTreatment | Brain_Model.py:167-170 | medication followed by the lifestyle preset: dopamine and cortisol are the medicated values, stress 0.3, exercise 0.7, sleep 0.8, and every other field is unchanged |
| Dynamics.InputsPreserveConsistency | Brain_Model.py:52-170 | medication, the lifestyle setters and the combined treatment keep a consistent state consistent |
| Dynamics.Initial | Brain_Model.py:5-39 | the fourteen defaults: the supplied genetic factor, the pre-symptomatic stage, all six accumulators 0, all three levels 0.5, stress 0, exercise 0.5, sleep 0.7; the state is consistent whenever the genetic factor is non-negative |
| Dynamics.FirstTickFromDefaults | Brain_Model.py:13-20 | the first tick from the defaults gives dopamine 0.605, serotonin 0.5035, cortisol 0.445, stage pre-symptomatic, progression 0.005 times the genetic factor, cognitive decline 0.01975, motor decline 0.024825 and neurofilament 0.00025 times the genetic factor |
| Dynamics.StageLagsOneTick | Brain_Model.py:74-84 | a tick from progression 0.299 with genetic factor 1 stores the pre-symptomatic stage although its new progression classifies as early stage |
| Run.Record | Brain_Model.py:113-120 | a snapshot holds the time index and the seven recorded fields of the state |
| Run.Dose | Brain_Model.py:122-124 | the extra dose is medication exactly on indices divisible by 50 and the identity otherwise; it only touches dopamine and cortisol |
| Run.StateAfter | Brain_Model.py:109-124 | iteration k applies the tick and then the dose for index k-1 to the state after k-1 iterations; when neither touches the lifestyle inputs or the genetic factor, neither does the loop |
| Run.Series | Brain_Model.py:109-120 | k iterations record exactly k snapshots, the i-th stamped i |
| Run.RunState | Brain_Model.py:109-124 | the simulation's state after k iterations; the run never changes stress, exercise, sleep or the genetic factor |
| Run.RunSeries | Brain_Model.py:109-120 | the snapshots the simulation's run records in k iterations: exactly k of them, the i-th stamped i |
| Run.StepDoseKeepInputs | Brain_Model.py:72-124 | neither a tick nor the extra dose changes the lifestyle inputs or the genetic factor |
| Run.SeriesAt | Brain_Model.py:109-120 | snapshot i is stamped i and records the state right after tick i, before that iteration's dose |
| Run.StateAfterConsistent | Brain_Model.py:109-124 | a loop whose tick and dose keep states consistent keeps every reached state consistent |
| Run.NeverRegresses | Brain_Model.py:109-124 | along such a loop the accumulators never decrease and the stage never moves back |
| Run.GeneticFactorFixed | Brain_Model.py:109-124 | such a loop never changes the genetic factor |
| Run.ProgressesBy | Brain_Model.py:109-124 | when every tick adds at least delta to progression, a later iteration's progression exceeds an earlier one's by at least delta |
| Run.StepAdvancing | Brain_Model.py:72-95 | the simulation's tick keeps consistency, grows the accumulators, never moves the stage back and keeps the genetic factor |
| Run.DoseNeutral | Brain_Model.py:122-124 | the extra dose keeps consistency and leaves the accumulators, stage and genetic factor alone |
| Run.TickAddsAtLeast | Brain_Model.py:79-84 | with genetic factor g > 0, every tick from a consistent state adds at least 0.005 g to progression |
| Run.RunSnapshot | Brain_Model.py:109-120 | the run records n snapshots; snapshot i is stamped i and holds the progression after i+1 ticks |
| Run.RunNeverRegresses | Brain_Model.py:109-124 | across the run, states stay consistent, the accumulators never decrease and the stage only moves pre-symptomatic, early, late |
| Run.RunSeriesNonDecreasing | Brain_Model.py:109-124 | the recorded progression never decreases along the series |
| Run.RunProgressesStrictly | Brain_Model.py:109-124 | with a positive genetic factor, progression after a later iteration exceeds an earlier one by at least 0.005 times the genetic factor |
| Run.DefaultRunProgresses | Brain_Model.py:5-124 | a run from the defaults records 500 snapshots, and the last recorded progression exceeds the one recorded at index 50 |
| BrainModel.HirayamaDiseaseSimulation.constructor | Brain_Model.py:5-39 | the new object holds the default state with the supplied genetic factor, and is consistent |
| BrainModel.HirayamaDiseaseSimulation.UpdateNeurotransmitterLevels | Brain_Model.py:41-50 | the object moves to the lifestyle-updated state, with all three levels in [0,1], and consistency is kept |
| BrainModel.HirayamaDiseaseSimulation.ApplyMedication | Brain_Model.py:52-61 | the object moves to the medicated state, serotonin is unchanged, and consistency is kept |
| BrainModel.HirayamaDiseaseSimulation.UpdateDiseaseStage | Brain_Model.py:63-70 | the stage becomes the classification of the current progression, nothing else changes, and consistency is kept |
| BrainModel.HirayamaDiseaseSimulation.SimulateProgression | Brain_Model.py:72-95 | the object moves by one tick; from a consistent state it stays consistent, no accumulator decreases and the stage does not move back |
| BrainModel.HirayamaDiseaseSimulation.RunSimulation | Brain_Model.py:97-124 | the object ends in the state after 500 iterations; the returned series is the one they record, 500 snapshots stamped 0 to 499; from a consistent state the object stays consistent and the recorded progression never decreases |
| BrainModel.HirayamaDiseaseSimulation.EnvironmentalImpact | Brain_Model.py:161-165 | the three lifestyle fields take the given values, nothing else changes, and consistency is kept |
| BrainModel.HirayamaDiseaseSimulation.ApplyCombinedTreatment | Brain_Model.py:167-170 | the object moves to the combined-treatment state, and consistency is kept |
| BrainModel.HirayamaDiseaseSimulation.IntroduceGeneticFactors | Brain_Model.py:172-174 | only the genetic factor changes, to the supplied value in [0.9,1.1], and consistency is kept |

## Left out

- Plotting: `plot_results` (Brain_Model.py:129-155) and its call at the end of `run_simulation` are presentation only. The run returns the recorded series instead.
- The `__main__` driver (Brain_Model.py:187-200) is glue. Its call to `plot_results` passes scalars where lists are expected.
- Random draws: the genetic factors drawn at Brain_Model.py:23 and :174 are parameters, with preconditions for their ranges [0.8,1.2] and [0.9,1.1]. The module `random` is never imported, so as written those lines would fail.
- Floating point: all scalars are exact reals. IEEE-754 rounding is not modelled, so constants such as 0.605 hold exactly in the model.
- Structural defects of the file: the indentation breaks from :98 on, and :157-185 define the same methods twice with identical bodies. The intended methods are modelled once, as members of the class.
- The unused `numpy` import (Brain_Model.py:1).
- The time-step count is a constant (`Run.TIME_STEPS`, 500). The class never changes it, so no other count is modelled for the object.
