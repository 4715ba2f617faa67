/**
 * The three campaign moments of a plan: a launch day on the lead platforms,
 * a takeover week and a proof summit.
 *
 * Fixed sentences are cut after their first words and marked with "…";
 * every interpolated value, fallback and title is written out in full.
 */
module Moments {
  import opened Text
  import opened Knowledge
  import opened PlatformBlueprints

  datatype CampaignMoment = CampaignMoment(title: string, description: string, activation: string, metric: string)

  // The fixed copy of the three moments; the launch day's texts and every
  // metric are filled in by CampaignMoments.
  const SignalLaunchDay := CampaignMoment("Signal Launch Day", "", "", "")
  const OperatorTakeoverWeek :=
    CampaignMoment("Operator Takeover Week", "Feature power users running the…", "Creator collabs, LinkedIn audio…", "")
  const ProofSummit :=
    CampaignMoment("Proof Summit", "Bundle outcomes into a downloadable…", "YouTube premiere + gated PDF…", "")
  const SynchronizedDrop := "Kick off with a synchronized drop across "
  const OwnedEmail := " and owned email announcing "
  const HeroVideo := " hero video + "
  const Amplification := " manifesto post + partner amplification."

  /**
   * createCampaignMoments: the launch day names the lead platform and the
   * brand and is measured by the kit's first success signal; the takeover
   * week and the summit are measured by its third and fourth.
   */
  function CampaignMoments(inputs: CampaignInputs, kit: GoalKit, platforms: seq<PlatformBlueprint>): (moments: seq<CampaignMoment>)
    ensures |moments| == 3
    ensures moments[0].title == SignalLaunchDay.title && moments[1].title == OperatorTakeoverWeek.title
    ensures moments[2].title == ProofSummit.title
    ensures moments[0].metric == ElementOr(kit.successSignals, 0, "Reach")
    ensures moments[1].metric == ElementOr(kit.successSignals, 2, "Share velocity")
    ensures moments[2].metric == ElementOr(kit.successSignals, 3, "Follower lift")
    ensures SynchronizedDrop + LabelAt(platforms, 0, "Instagram") + OwnedEmail + inputs.brandName <= moments[0].description
    ensures LabelAt(platforms, 0, "Instagram") + HeroVideo + LabelAt(platforms, 1, "LinkedIn") <= moments[0].activation
  {
    var hero := LabelAt(platforms, 0, "Instagram");
    var second := LabelAt(platforms, 1, "LinkedIn");
    [ SignalLaunchDay.(description := SynchronizedDrop + hero + OwnedEmail + inputs.brandName + "'s new narrative.",
                       activation := hero + HeroVideo + second + Amplification,
                       metric := ElementOr(kit.successSignals, 0, "Reach")),
      OperatorTakeoverWeek.(metric := ElementOr(kit.successSignals, 2, "Share velocity")),
      ProofSummit.(metric := ElementOr(kit.successSignals, 3, "Follower lift")) ]
  }
}
