/** The run loop: a fixed number of iterations, each one tick followed by a recorded
    snapshot, with an extra dose of medication after the snapshot on every iteration
    index divisible by 50.

    The loop is stated over its two steps, the tick and the extra dose, so that its
    inductive properties are proved once from what each step guarantees; the
    simulation's own run is the instance with `Step` and `Dose`. */
module Run {
  import opened Dynamics

  /** Extra medication is applied on iteration indices divisible by this. */
  const MEDICATION_INTERVAL: nat := 50

  /** The number of iterations a simulation runs. */
  const TIME_STEPS: nat := 500

  /** The eight values recorded after each tick. */
  datatype Snapshot = Snapshot(
    time: nat,
    diseaseProgression: real,
    dopamine: real,
    serotonin: real,
    cortisol: real,
    cognitiveDecline: real,
    motorSkillDecline: real,
    neurofilament: real)

  function Record(time: nat, s: Sim): (snap: Snapshot)
    ensures snap.time == time && snap.diseaseProgression == s.diseaseProgression
    ensures snap.dopamine == s.dopamine && snap.serotonin == s.serotonin && snap.cortisol == s.cortisol
    ensures snap.cognitiveDecline == s.cognitiveDecline && snap.motorSkillDecline == s.motorSkillDecline
    ensures snap.neurofilament == s.neurofilamentLightChain
  {
    Snapshot(time, s.diseaseProgression, s.dopamine, s.serotonin, s.cortisol,
             s.cognitiveDecline, s.motorSkillDecline, s.neurofilamentLightChain)
  }

  /** The extra dose at the end of iteration t: medication when t is a multiple of 50,
      nothing otherwise. It touches only dopamine and cortisol. */
  function Dose(s: Sim, t: nat): (r: Sim)
    ensures t % MEDICATION_INTERVAL != 0 ==> r == s
    ensures t % MEDICATION_INTERVAL == 0 ==> r == Medicate(s)
    ensures SameButLevels(s, r) && r.serotonin == s.serotonin
  {
    if t % MEDICATION_INTERVAL == 0 then Medicate(s) else s
  }

  /** The state after the first k iterations of a loop with the given tick and dose. */
  function StateAfter(tick: Sim -> Sim, dose: (Sim, nat) -> Sim, s0: Sim, k: nat): (s: Sim)
    ensures KeepsInputs(tick, dose) ==> SameInputs(s0, s)
  {
    if k == 0 then s0 else dose(tick(StateAfter(tick, dose, s0, k - 1)), k - 1)
  }

  /** The snapshots recorded by the first k iterations: iteration t records the state
      right after its tick, before its dose. */
  function Series(tick: Sim -> Sim, dose: (Sim, nat) -> Sim, s0: Sim, k: nat): (series: seq<Snapshot>)
    ensures |series| == k
    ensures forall i :: 0 <= i < k ==> series[i].time == i
  {
    if k == 0 then []
    else Series(tick, dose, s0, k - 1) + [Record(k - 1, tick(StateAfter(tick, dose, s0, k - 1)))]
  }

  /** The state of the simulation after k iterations of its run loop; the loop never
      changes the lifestyle inputs or the genetic factor. */
  function RunState(s0: Sim, k: nat): (s: Sim)
    ensures SameInputs(s0, s)
  {
    StepDoseKeepInputs();
    StateAfter(Step, Dose, s0, k)
  }

  /** The snapshots the simulation's run loop records in its first k iterations, one
      per iteration, stamped with its index. */
  function RunSeries(s0: Sim, k: nat): (series: seq<Snapshot>)
    ensures |series| == k
    ensures forall i :: 0 <= i < k ==> series[i].time == i
  {
    Series(Step, Dose, s0, k)
  }

  // ---------------------------------------------------------------------------
  // The loop in general

  /** `a` and `b` have the same lifestyle inputs and genetic factor. */
  ghost predicate SameInputs(a: Sim, b: Sim)
  {
    a.stress == b.stress && a.exercise == b.exercise && a.sleep == b.sleep
    && a.geneticFactor == b.geneticFactor
  }

  /** A tick and a dose that never change the lifestyle inputs or the genetic factor. */
  ghost predicate KeepsInputs(tick: Sim -> Sim, dose: (Sim, nat) -> Sim)
  {
    && (forall s {:trigger tick(s)} :: SameInputs(s, tick(s)))
    && (forall s, t {:trigger dose(s, t)} :: SameInputs(s, dose(s, t)))
  }

  /** Snapshot i is the record, stamped i, of the state right after tick i. */
  lemma {:induction false} SeriesAt(tick: Sim -> Sim, dose: (Sim, nat) -> Sim, s0: Sim, n: nat, i: nat)
    requires i < n
    ensures Series(tick, dose, s0, n)[i] == Record(i, tick(StateAfter(tick, dose, s0, i)))
  {
    if i < n - 1 {
      SeriesAt(tick, dose, s0, n - 1, i);
      assert Series(tick, dose, s0, n)[i] == Series(tick, dose, s0, n - 1)[i];
    }
  }

  /** A tick that keeps states consistent, never lowers an accumulator and never moves
      the stage back. */
  ghost predicate Advancing(tick: Sim -> Sim)
  {
    forall s {:trigger tick(s)} :: Consistent(s) ==>
      && Consistent(tick(s))
      && Grows(s, tick(s))
      && Rank(s.stage) <= Rank(tick(s).stage)
      && tick(s).geneticFactor == s.geneticFactor
  }

  /** A dose that keeps states consistent and leaves the accumulators and stage alone. */
  ghost predicate Neutral(dose: (Sim, nat) -> Sim)
  {
    forall s, t {:trigger dose(s, t)} :: Consistent(s) ==>
      && Consistent(dose(s, t))
      && Grows(s, dose(s, t)) && Grows(dose(s, t), s)
      && dose(s, t).stage == s.stage
      && dose(s, t).geneticFactor == s.geneticFactor
  }

  /** A tick that adds at least `delta` to the progression of every consistent state
      with genetic factor g. */
  ghost predicate Progressing(tick: Sim -> Sim, g: real, delta: real)
  {
    forall s {:trigger tick(s)} :: Consistent(s) && s.geneticFactor == g ==>
      s.diseaseProgression + delta <= tick(s).diseaseProgression
  }

  /** Every state such a loop reaches from a consistent state is consistent. */
  lemma {:induction false} StateAfterConsistent(tick: Sim -> Sim, dose: (Sim, nat) -> Sim, s0: Sim, k: nat)
    requires Advancing(tick) && Neutral(dose)
    requires Consistent(s0)
    ensures Consistent(StateAfter(tick, dose, s0, k))
  {
    if k > 0 {
      StateAfterConsistent(tick, dose, s0, k - 1);
    }
  }

  /** Along such a loop the six accumulators never decrease and the stage only moves
      forward. */
  lemma {:induction false} NeverRegresses(tick: Sim -> Sim, dose: (Sim, nat) -> Sim, s0: Sim, i: nat, j: nat)
    requires Advancing(tick) && Neutral(dose)
    requires Consistent(s0)
    requires i <= j
    ensures Grows(StateAfter(tick, dose, s0, i), StateAfter(tick, dose, s0, j))
    ensures Rank(StateAfter(tick, dose, s0, i).stage) <= Rank(StateAfter(tick, dose, s0, j).stage)
  {
    if i < j {
      NeverRegresses(tick, dose, s0, i, j - 1);
      StateAfterConsistent(tick, dose, s0, j - 1);
    }
  }

  /** Such a loop never changes the genetic factor. */
  lemma {:induction false} GeneticFactorFixed(tick: Sim -> Sim, dose: (Sim, nat) -> Sim, s0: Sim, k: nat)
    requires Advancing(tick) && Neutral(dose)
    requires Consistent(s0)
    ensures StateAfter(tick, dose, s0, k).geneticFactor == s0.geneticFactor
  {
    if k > 0 {
      GeneticFactorFixed(tick, dose, s0, k - 1);
      StateAfterConsistent(tick, dose, s0, k - 1);
    }
  }

  /** When every tick from a consistent state with the starting genetic factor adds at
      least `delta` to progression, progression after a later iteration exceeds
      progression after an earlier one by at least `delta`. */
  lemma {:induction false} ProgressesBy(tick: Sim -> Sim, dose: (Sim, nat) -> Sim, s0: Sim, delta: real, i: nat, j: nat)
    requires Advancing(tick) && Neutral(dose) && Progressing(tick, s0.geneticFactor, delta)
    requires Consistent(s0)
    requires i < j
    ensures StateAfter(tick, dose, s0, i).diseaseProgression + delta
            <= StateAfter(tick, dose, s0, j).diseaseProgression
  {
    StateAfterConsistent(tick, dose, s0, j - 1);
    GeneticFactorFixed(tick, dose, s0, j - 1);
    if i < j - 1 {
      ProgressesBy(tick, dose, s0, delta, i, j - 1);
    }
  }

  // ---------------------------------------------------------------------------
  // The simulation's run

  /** The simulation's tick satisfies what the loop lemmas need of a tick. */
  lemma StepAdvancing()
    ensures Advancing(Step)
  {
    forall s | Consistent(s)
      ensures Consistent(Step(s)) && Grows(s, Step(s)) && Rank(s.stage) <= Rank(Step(s).stage)
    {
      StepGrows(s);
    }
  }

  /** Neither the simulation's tick nor its extra dose touches the lifestyle inputs or
      the genetic factor. */
  lemma StepDoseKeepInputs()
    ensures KeepsInputs(Step, Dose)
  {
  }

  /** The extra dose satisfies what the loop lemmas need of a dose. */
  lemma DoseNeutral()
    ensures Neutral(Dose)
  {
    forall s, t | Consistent(s)
      ensures Consistent(Dose(s, t))
    {
      InputsPreserveConsistency(s, 0.0, 0.0, 0.0);
    }
  }

  /** Under a fixed genetic factor g, every tick adds at least 0.005 * g to progression. */
  lemma TickAddsAtLeast(g: real)
    requires 0.0 < g
    ensures Progressing(Step, g, 0.005 * g)
  {
    forall s | Consistent(s) && s.geneticFactor == g
      ensures s.diseaseProgression + 0.005 * g <= Step(s).diseaseProgression
    {
      StepAdvancesProgression(s);
    }
  }

  /** The run records one snapshot per iteration, stamped with its index, holding the
      progression reached by that iteration's tick. */
  lemma RunSnapshot(s0: Sim, n: nat, i: nat)
    requires i < n
    ensures |RunSeries(s0, n)| == n
    ensures RunSeries(s0, n)[i].time == i
    ensures RunSeries(s0, n)[i].diseaseProgression == RunState(s0, i + 1).diseaseProgression
  {
    SeriesAt(Step, Dose, s0, n, i);
  }

  /** Across the simulation's run the six accumulators never decrease and the stored
      stage only moves Pre-symptomatic, Early stage, Late stage. */
  lemma RunNeverRegresses(s0: Sim, i: nat, j: nat)
    requires Consistent(s0)
    requires i <= j
    ensures Consistent(RunState(s0, j))
    ensures Grows(RunState(s0, i), RunState(s0, j))
    ensures Rank(RunState(s0, i).stage) <= Rank(RunState(s0, j).stage)
  {
    StepAdvancing();
    DoseNeutral();
    StateAfterConsistent(Step, Dose, s0, j);
    NeverRegresses(Step, Dose, s0, i, j);
  }

  /** The recorded progression never decreases along the series. */
  lemma RunSeriesNonDecreasing(s0: Sim, n: nat, i: nat, j: nat)
    requires Consistent(s0)
    requires i <= j < n
    ensures RunSeries(s0, n)[i].diseaseProgression <= RunSeries(s0, n)[j].diseaseProgression
  {
    RunSnapshot(s0, n, i);
    RunSnapshot(s0, n, j);
    RunNeverRegresses(s0, i + 1, j + 1);
  }

  /** A default run records TIME_STEPS snapshots, and the progression recorded last
      exceeds the one recorded at iteration 50. */
  lemma DefaultRunProgresses(genetic: real)
    requires 0.8 <= genetic <= 1.2
    ensures |RunSeries(Initial(genetic), TIME_STEPS)| == TIME_STEPS
    ensures RunSeries(Initial(genetic), TIME_STEPS)[50].diseaseProgression
            < RunSeries(Initial(genetic), TIME_STEPS)[TIME_STEPS - 1].diseaseProgression
  {
    var s0 := Initial(genetic);
    RunSnapshot(s0, TIME_STEPS, 50);
    RunSnapshot(s0, TIME_STEPS, TIME_STEPS - 1);
    RunProgressesStrictly(s0, 51, TIME_STEPS);
  }

  /** With a positive genetic factor g, progression after a later iteration of the run
      exceeds progression after an earlier one by at least 0.005 * g. */
  lemma RunProgressesStrictly(s0: Sim, i: nat, j: nat)
    requires Consistent(s0) && 0.0 < s0.geneticFactor
    requires i < j
    ensures RunState(s0, i).diseaseProgression + 0.005 * s0.geneticFactor
            <= RunState(s0, j).diseaseProgression
  {
    StepAdvancing();
    DoseNeutral();
    TickAddsAtLeast(s0.geneticFactor);
    ProgressesBy(Step, Dose, s0, 0.005 * s0.geneticFactor, i, j);
  }
}
