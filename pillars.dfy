/**
 * The four content pillars of a plan. Each is a fixed template into which
 * the differentiation, the persona and the goal kit are written.
 *
 * Fixed sentences are cut after their first words and marked with "…";
 * every interpolated value, fallback, title and format is written out in full.
 */
module Pillars {
  import opened Text
  import opened Knowledge
  import opened Narrative

  datatype ContentPillar = ContentPillar(title: string, purpose: string, proof: string, formats: seq<string>)

  const PillarTitles: seq<string> := ["Signal Intelligence", "Operator Playbooks", "Proof Stack", "Community Co-Lab"]

  // The fixed copy of the four pillars; the texts that carry an input are
  // filled in by ContentPillars.
  const SignalIntelligence :=
    ContentPillar(PillarTitles[0], "Show new insight no-one else sees…\n", "",
                  ["Hero stat Reels", "LinkedIn document carousel", "Narrated YouTube short"])
  const OperatorPlaybooks :=
    ContentPillar(PillarTitles[1], "", "", ["Carousel checklist", "TikTok workflow demo", "Threaded how-to on X"])
  const ProofStack :=
    ContentPillar(PillarTitles[2], "", "", ["Mini case-study video", "Customer spotlight post", "Livestream roundtable"])
  const CommunityCoLab :=
    ContentPillar(PillarTitles[3], "Co-create with the audience to…", "",
                  ["Story labs", "Spaces conversation", "TikTok stitch challenge"])
  const DataDrops := " visualized through snackable data drops."
  const SwipeFrameworks := "Translate insight into action with frameworks "
  const StepByStep := " solved via step-by-step flow.\n"
  const Credibility := " into credibility that accelerates decisions."
  const CaseStudies := " packaged as narrative case studies and community testimonials."
  const Crowdsource := "Crowdsource signals via AMAs, polls, and duet challenges shaped by "

  /**
   * createContentPillars: the four pillars in order. The first proves the
   * differentiation, the second speaks to the persona by first name and
   * solves its first pain point, the third turns its first trigger into
   * credibility with the kit's first proof driver, and the fourth is shaped
   * by the kit's first momentum play.
   */
  function ContentPillars(inputs: CampaignInputs, persona: Persona, kit: GoalKit): (pillars: seq<ContentPillar>)
    ensures |pillars| == 4
    ensures forall i :: 0 <= i < 4 ==> pillars[i].title == PillarTitles[i] && |pillars[i].formats| == 3
    ensures inputs.differentiation <= pillars[0].proof
    ensures SwipeFrameworks + FirstName(persona) <= pillars[1].purpose
    ensures ElementOr(persona.painPoints, 0, "Need a proven playbook") <= pillars[1].proof
    ensures "Turn " + Lower(ElementOr(persona.triggers, 0, "Seeing proof in numbers")) <= pillars[2].purpose
    ensures ElementOr(kit.proofDrivers, 0, "Quantified success") <= pillars[2].proof
    ensures EndsWith(pillars[3].proof, ElementOr(kit.momentumPlays, 0, "undefined") + ".")
  {
    var primaryPain := ElementOr(persona.painPoints, 0, "Need a proven playbook");
    var trigger := ElementOr(persona.triggers, 0, "Seeing proof in numbers");
    var proof := ElementOr(kit.proofDrivers, 0, "Quantified success");
    var play := ElementOr(kit.momentumPlays, 0, "undefined");
    var shaped := Crowdsource + play + ".";
    assert shaped[|shaped| - |play + "."|..] == play + ".";
    [ SignalIntelligence.(proof := inputs.differentiation + DataDrops),
      OperatorPlaybooks.(purpose := SwipeFrameworks + FirstName(persona) + " can swipe instantly.",
                         proof := primaryPain + StepByStep),
      ProofStack.(purpose := "Turn " + Lower(trigger) + Credibility, proof := proof + CaseStudies),
      CommunityCoLab.(proof := shaped) ]
  }
}
