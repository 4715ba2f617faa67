/**
 * The measurement plan of a plan: one item per success signal of the goal
 * kit, reported at the budget tier's rhythm against the tier's target.
 */
module Measurement {
  import opened Knowledge

  datatype MeasurementItem = MeasurementItem(signal: string, cadence: string, notes: string, target: string)

  /** The reporting rhythm of each budget tier, from the daily pulse to the monthly report. */
  function CadenceMap(tier: Tier): (cadence: seq<string>)
    ensures |cadence| == 4
  {
    match tier
    case Lean => ["Daily pulse", "Weekly retro", "Bi-weekly insights", "Monthly roll-up"]
    case Steady => ["Daily pulse", "Weekly retro", "Weekly insights", "Monthly leadership drop"]
    case Aggressive => ["Twice daily pulse", "Weekly growth council", "Weekly insights", "Monthly exec report"]
  }

  /** The growth target of each budget tier. */
  function Target(tier: Tier): string
  {
    match tier
    case Aggressive => "Stretch +40% over baseline"
    case Steady => "Grow +25% over baseline"
    case Lean => "Grow +15% over baseline"
  }

  /**
   * `momentumPlays[index % momentumPlays.length]`: the plays taken in turn;
   * with no plays the index is not a number and the lookup is undefined.
   */
  function PlayFor(plays: seq<string>, index: nat): (play: string)
    ensures |plays| > 0 ==> play in plays && play == plays[index % |plays|]
    ensures |plays| == 0 ==> play == "undefined"
  {
    if |plays| == 0 then "undefined" else plays[index % |plays|]
  }

  /**
   * buildMeasurementPlan: one item per success signal, in order, with the
   * tier's cadence (the last one for every signal past the fourth), the
   * momentum plays in turn as notes, and the tier's target.
   */
  function MeasurementPlan(kit: GoalKit, tier: Tier): (items: seq<MeasurementItem>)
    ensures |items| == |kit.successSignals|
    ensures forall i :: 0 <= i < |items| ==> items[i].signal == kit.successSignals[i]
    ensures forall i :: 0 <= i < |items| && i < 4 ==> items[i].cadence == CadenceMap(tier)[i]
    ensures forall i :: 4 <= i < |items| ==> items[i].cadence == CadenceMap(tier)[3]
    ensures forall i :: 0 <= i < |items| ==> items[i].notes == PlayFor(kit.momentumPlays, i)
    ensures |kit.momentumPlays| > 0 ==> forall item :: item in items ==> item.notes in kit.momentumPlays
    ensures forall item :: item in items ==> item.target == Target(tier)
  {
    var cadence := CadenceMap(tier);
    seq(|kit.successSignals|, i requires 0 <= i < |kit.successSignals| =>
      MeasurementItem(
        kit.successSignals[i],
        cadence[if i < |cadence| - 1 then i else |cadence| - 1],
        PlayFor(kit.momentumPlays, i),
        Target(tier)))
  }

  /**
   * For a kit shaped like those of the goal library the plan has exactly
   * four items: each signal gets its own slot of the tier's cadence, and the
   * notes are the first four momentum plays, in order.
   */
  lemma ShapedMeasurement(kit: GoalKit, tier: Tier)
    requires KitShape(kit)
    ensures var items := MeasurementPlan(kit, tier);
            && |items| == 4
            && (forall i :: 0 <= i < 4 ==> items[i].cadence == CadenceMap(tier)[i])
            && (forall i :: 0 <= i < 4 ==> items[i].notes == kit.momentumPlays[i])
  {
    var items := MeasurementPlan(kit, tier);
    forall i | 0 <= i < 4
      ensures items[i].notes == kit.momentumPlays[i]
    {
      assert i % 5 == i;
    }
  }
}
