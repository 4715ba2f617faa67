/**
 * The per-platform blueprints of a plan: the platform's configuration
 * specialised to the budget tier and the goal, with one seeded pro tip.
 */
module PlatformBlueprints {
  import opened Knowledge
  import opened Selector

  /** The text whose seed picks a platform's pro tip: brand, platform key and goal, dash-separated. */
  function BlueprintSeedText(inputs: CampaignInputs, key: PlatformKey): string
  {
    inputs.brandName + "-" + KeyName(key) + "-" + GoalName(inputs.goal)
  }

  /**
   * createPlatformBlueprint: the platform's configuration specialised to the
   * budget tier and the goal, with one pro tip picked by the seed of the
   * brand, key and goal. The pick never fails: every platform has three tips.
   */
  function CreatePlatformBlueprint(key: PlatformKey, inputs: CampaignInputs, tier: Tier): (bp: PlatformBlueprint)
    ensures var config := PlatformLibrary(key);
      && bp.key == key
      && bp.displayName == config.displayName
      && bp.accent == config.accent
      && bp.summary == config.summary
      && bp.cadence == config.cadences.For(tier)
      && bp.bestTimes == config.bestTimes
      && bp.heroAngle == config.heroHooks.For(inputs.goal)
      && bp.recommendedContent == config.recommendedContent
      && bp.automation == config.automation
      && bp.proTip in config.proTips
      && bp.proTip == config.proTips[(Seed(BlueprintSeedText(inputs, key)) + 11) % |config.proTips|]
  {
    var config := PlatformLibrary(key);
    var tip := Pick(config.proTips, Seed(BlueprintSeedText(inputs, key)) + 11);
    PlatformBlueprint(key, config.displayName, config.accent, config.summary, config.cadences.For(tier),
                      config.bestTimes, config.heroHooks.For(inputs.goal), config.recommendedContent,
                      config.automation, tip.value)
  }

  /** `inputs.selectedPlatforms.map(...)`: one blueprint per selected platform, in selection order. */
  function Blueprints(inputs: CampaignInputs, tier: Tier): (bps: seq<PlatformBlueprint>)
    ensures |bps| == |inputs.selectedPlatforms|
    ensures forall i :: 0 <= i < |bps| ==>
              bps[i].key == inputs.selectedPlatforms[i] && bps[i].displayName == DisplayName(inputs.selectedPlatforms[i])
    ensures forall i :: 0 <= i < |bps| ==> bps[i] == CreatePlatformBlueprint(inputs.selectedPlatforms[i], inputs, tier)
  {
    seq(|inputs.selectedPlatforms|, i requires 0 <= i < |inputs.selectedPlatforms| =>
      CreatePlatformBlueprint(inputs.selectedPlatforms[i], inputs, tier))
  }

  /** `platforms[i]?.label ?? fallback`. */
  function LabelAt(platforms: seq<PlatformBlueprint>, i: nat, fallback: string): (name: string)
    ensures i < |platforms| ==> name == platforms[i].displayName
    ensures i >= |platforms| ==> name == fallback
  {
    if i < |platforms| then platforms[i].displayName else fallback
  }
}
