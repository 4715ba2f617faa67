/**
 * The five content ideas of a plan, spread over the first three selected
 * platforms, with stock platforms standing in when fewer are selected.
 *
 * Fixed sentences are cut after their first words and marked with "…";
 * every interpolated value, fallback, title and format is written out in full.
 */
module Ideas {
  import opened Text
  import opened Knowledge
  import opened PlatformBlueprints

  datatype ContentIdea = ContentIdea(
    title: string,
    platform: string,
    format: string,
    hook: string,
    beats: seq<string>,
    success: string)

  /** The success signals of the first four ideas fall back on these. */
  const FallbackSuccess: seq<string> := ["Reach lift", "High-intent traffic", "Share velocity", "Follower lift"]

  // The fixed copy of the five ideas; titles, platforms, hooks and beats that
  // carry an input are filled in by ContentIdeas.
  const HeroDrop :=
    ContentIdea("", "", "Short-form video", "",
                ["Scene 1: Visualize the tension…", "Scene 2: Show the dashboard snapshot…"], "")
  const AuthorityThread :=
    ContentIdea("", "", "Document carousel", "",
                ["Slide 1: Market tension headline", "Slides 2-4: Step-by-step framework",
                 "Slide 5: Call-to-action with…"], "")
  const CreatorCollaboration :=
    ContentIdea("Creator Collaboration", "", "Duet challenge", "Invite operators to share their…",
                ["Kickoff clip with energetic intro", "Feature top submissions in…", "Reward winners with…"], "")
  const ProofStackSpotlight :=
    ContentIdea("Proof Stack Spotlight", "", "Case-study mini doc", "",
                ["Cold open with customer quote", "Reveal metric before/after", "Close with next-step CTA"], "")
  const EvergreenPlaybookDrop :=
    ContentIdea("Evergreen Playbook Drop", "", "Newsletter + carousel", "Package the top lessons from…",
                ["Intro: campaign headline win", "Section: top-performing creative", "CTA: book the deep-dive…"],
                "Leads captured")
  const PovOpen := "Open with: “POV: "
  const DashboardCut := ".” Cut to dashboard receipts…"
  const CoreNarrative := "Frame the core narrative: “How we turned chaotic signals into a "
  const CustomerVoice := "Tell the story through the customer’s voice to highlight "

  /**
   * createContentIdeas: five ideas; the hero platform carries the first and
   * the fourth, the second platform the second and the fifth, the third
   * platform the third. The first four are measured by the kit's success
   * signals in order, the last by captured leads; the hero drop closes on the
   * kit's first call to action.
   */
  function ContentIdeas(persona: Persona, kit: GoalKit, platforms: seq<PlatformBlueprint>): (ideas: seq<ContentIdea>)
    ensures |ideas| == 5
    ensures var hero := LabelAt(platforms, 0, "Instagram");
            var second := LabelAt(platforms, 1, "LinkedIn");
            var third := LabelAt(platforms, 2, "TikTok");
            && ideas[0].platform == hero && ideas[1].platform == second && ideas[2].platform == third
            && ideas[3].platform == hero && ideas[4].platform == second
            && ideas[0].title == hero + " Hero Drop" && ideas[1].title == second + " Authority Thread"
    ensures forall i :: 0 <= i < 4 ==> ideas[i].success == ElementOr(kit.successSignals, i, FallbackSuccess[i])
    ensures ideas[4].success == "Leads captured"
    ensures forall idea :: idea in ideas ==> |idea.beats| == 3
    ensures ideas[0].beats[2] == "Scene 3: Close with " + ElementOr(kit.ctas, 0, "undefined")
    ensures PovOpen + Lower(ElementOr(persona.painPoints, 0, "Need a repeatable playbook")) <= ideas[0].hook
    ensures CoreNarrative + Lower(ElementOr(persona.triggers, 1, "Seeing peers winning")) <= ideas[1].hook
    ensures CustomerVoice + Lower(ElementOr(kit.proofDrivers, 0, "ROI stories")) <= ideas[3].hook
  {
    var hero := LabelAt(platforms, 0, "Instagram");
    var second := LabelAt(platforms, 1, "LinkedIn");
    var third := LabelAt(platforms, 2, "TikTok");
    var primaryPain := ElementOr(persona.painPoints, 0, "Need a repeatable playbook");
    var trigger := ElementOr(persona.triggers, 1, "Seeing peers winning");
    var proofDriver := ElementOr(kit.proofDrivers, 0, "ROI stories");
    var signals := kit.successSignals;
    [ HeroDrop.(title := hero + " Hero Drop", platform := hero,
                hook := PovOpen + Lower(primaryPain) + DashboardCut,
                beats := HeroDrop.beats + ["Scene 3: Close with " + ElementOr(kit.ctas, 0, "undefined")],
                success := ElementOr(signals, 0, FallbackSuccess[0])),
      AuthorityThread.(title := second + " Authority Thread", platform := second,
                       hook := CoreNarrative + Lower(trigger) + " engine.”",
                       success := ElementOr(signals, 1, FallbackSuccess[1])),
      CreatorCollaboration.(platform := third, success := ElementOr(signals, 2, FallbackSuccess[2])),
      ProofStackSpotlight.(platform := hero, hook := CustomerVoice + Lower(proofDriver) + ".",
                           success := ElementOr(signals, 3, FallbackSuccess[3])),
      EvergreenPlaybookDrop.(platform := second) ]
  }
}
