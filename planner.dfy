/**
 * The campaign plan and its generator: classify the audience and the
 * budget, look up the goal kit, build one blueprint per selected platform,
 * and derive every section of the plan from them.
 *
 * GeneratePlan does the lookups; Compose derives the sections from what the
 * lookups return. The laws of the plan are stated on Compose, for any
 * persona, kit, tier and blueprints.
 */
module Planner {
  import opened Knowledge
  import opened Selector
  import opened Narrative
  import opened PlatformBlueprints
  import opened Pillars
  import opened Sprints
  import opened Ideas
  import opened Moments
  import opened Measurement
  import opened Automation

  datatype CampaignPlan = CampaignPlan(
    persona: Persona,
    goalKit: GoalKit,
    budgetTier: Tier,
    tagline: string,
    positioning: string,
    storyline: string,
    contentPillars: seq<ContentPillar>,
    platformBlueprint: seq<PlatformBlueprint>,
    weeklySprints: seq<WeeklySprint>,
    contentIdeas: seq<ContentIdea>,
    campaignMoments: seq<CampaignMoment>,
    measurement: seq<MeasurementItem>,
    automationStack: seq<string>)

  /**
   * The sections of generatePlan, derived from the matched persona, the goal
   * kit, the budget tier and the blueprints: four pillars, one sprint per
   * week of the campaign, five ideas, three moments, one measurement item
   * per success signal, and an automation stack without repeats that holds
   * every tool of every blueprint under the platform's name. The finer laws
   * of each section are stated on the function that builds it.
   */
  function Compose(inputs: CampaignInputs, persona: Persona, kit: GoalKit, tier: Tier,
                   blueprints: seq<PlatformBlueprint>): (plan: CampaignPlan)
    ensures |plan.contentPillars| == 4 && |plan.contentIdeas| == 5 && |plan.campaignMoments| == 3
    ensures |plan.weeklySprints| == WeekCount(inputs.campaignLength)
    ensures |plan.measurement| == |kit.successSignals|
    ensures NoDuplicates(plan.automationStack)
    ensures forall p, tool :: p in blueprints && tool in p.automation ==>
              Qualify(p.displayName, tool) in plan.automationStack
  {
    AutomationStackLaws(blueprints, inputs.brandName);
    CampaignPlan(
      persona, kit, tier,
      Tagline(inputs, kit, persona),
      Positioning(inputs, persona),
      Storyline(kit, inputs.tone),
      ContentPillars(inputs, persona, kit),
      blueprints,
      WeeklySprints(inputs, kit, persona, blueprints),
      ContentIdeas(persona, kit, blueprints),
      CampaignMoments(inputs, kit, blueprints),
      MeasurementPlan(kit, tier),
      AutomationStack(blueprints, inputs.brandName))
  }

  /**
   * The blueprints of the selected platforms carry library labels: each is
   * colon-free with three distinct automations, and distinct platforms are
   * shown under distinct labels.
   */
  lemma BlueprintsWellLabelled(inputs: CampaignInputs, tier: Tier)
    requires NoDuplicates(inputs.selectedPlatforms)
    ensures forall p :: p in Blueprints(inputs, tier) ==> WellLabelled(p)
    ensures NoDuplicates(Labels(Blueprints(inputs, tier)))
  {
    var selected, bps := inputs.selectedPlatforms, Blueprints(inputs, tier);
    forall p | p in bps ensures WellLabelled(p) {
      var i :| 0 <= i < |bps| && bps[i] == p;
      assert ConfigShape(PlatformLibrary(selected[i]));
    }
    forall i, j | 0 <= i < j < |bps| ensures Labels(bps)[i] != Labels(bps)[j] {
      if DisplayName(selected[i]) == DisplayName(selected[j]) {
        DisplayNameInjective(selected[i], selected[j]);
      }
    }
  }

  /**
   * For inputs whose selection has no repeats, nothing is dropped from the
   * automation stack: the five stock entries, then three qualified entries
   * per selected platform.
   */
  lemma SelectedStackIsComplete(inputs: CampaignInputs, tier: Tier)
    requires NoDuplicates(inputs.selectedPlatforms)
    ensures var bps := Blueprints(inputs, tier);
            && AutomationStack(bps, inputs.brandName) == BaseTools(inputs.brandName) + PlatformTools(bps)
            && |AutomationStack(bps, inputs.brandName)| == 5 + 3 * |inputs.selectedPlatforms|
  {
    BlueprintsWellLabelled(inputs, tier);
    LibraryStackIsComplete(Blueprints(inputs, tier), inputs.brandName);
  }

  /**
   * generatePlan: the persona matched from the audience, the kit of the goal,
   * the tier of the budget and the blueprints of the selected platforms,
   * composed into a plan.
   */
  function GeneratePlan(inputs: CampaignInputs): CampaignPlan
  {
    var tier := BudgetTier(inputs.budget);
    Compose(inputs, MatchPersona(inputs.audience), GoalLibrary(inputs.goal), tier, Blueprints(inputs, tier))
  }
}
