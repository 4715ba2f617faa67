/**
 * The weekly sprints of a plan: six sprint templates, the first five
 * following the stages of the goal's narrative arc, cycled over the weeks of
 * the campaign and renumbered.
 *
 * Fixed sentences of the templates are cut after their first words and
 * marked with "…"; every interpolated value, fallback theme and deliverable
 * is written out in full.
 */
module Sprints {
  import opened Text
  import opened Knowledge
  import opened Narrative
  import opened PlatformBlueprints

  datatype WeeklySprint = WeeklySprint(
    week: int,
    theme: string,
    focus: string,
    deliverables: seq<string>,
    optimization: string)

  /** The themes the first five templates fall back on when the arc is shorter than five stages. */
  const FallbackThemes: seq<string> :=
    ["Ignite attention", "Name the problem", "Introduce the win", "Invite participation", "Scale momentum"]

  // The fixed copy of the templates. The theme of the first five and the
  // texts that name the lead platforms or the persona are filled in by
  // SprintTemplates.
  const LaunchFocus := "Launch hero narrative and tease the category tension "
  const LaunchWeek :=
    WeeklySprint(1, "", "", ["Story poll heat check"], "Watch early retention and pin top…")
  const ProofWeek :=
    WeeklySprint(2, "", "Stack social proof and quantify…", ["TikTok stitch challenge kickoff"],
                 "Double down on hooks that…")
  const ProductWeek :=
    WeeklySprint(3, "", "Show product in action and hand…",
                 ["Creator collaboration segment", "Live demo highlight", "Thread with ROI receipts"],
                 "Trim friction in CTA flows…")
  const ParticipationWeek :=
    WeeklySprint(4, "", "Run an interactive build-with-us…",
                 ["Story AMA", "Community shout-out reel", "Poll-driven roadmap teaser"],
                 "Reward top contributors and…")
  const ScaleWeek :=
    WeeklySprint(5, "", "Spin up partnerships and…",
                 ["Co-marketing announcement", "YouTube roundtable recap", "Retargeting creative refresh"],
                 "Compare platform-level CPA and…")
  const SustainWeek :=
    WeeklySprint(6, "Sustain and optimize", "Package learnings into evergreen…",
                 ["Highlights montage", "LinkedIn carousel playbook", "Email round-up of best drops"],
                 "Ship post-campaign report and…")

  /**
   * The six sprint templates of createWeeklySprints: five follow the stages
   * of the narrative arc, the sixth sustains; the first two open with the
   * lead platforms.
   */
  function SprintTemplates(kit: GoalKit, persona: Persona, platforms: seq<PlatformBlueprint>): (t: seq<WeeklySprint>)
    ensures |t| == 6
    ensures forall i :: 0 <= i < 6 ==> t[i].week == i + 1
    ensures forall i :: 0 <= i < 5 ==> t[i].theme == ElementOr(kit.narrativeArc, i, FallbackThemes[i])
    ensures t[5].theme == SustainWeek.theme
    ensures forall i :: 0 <= i < 6 ==> |t[i].deliverables| == 3
    ensures LabelAt(platforms, 0, "Instagram") <= t[0].deliverables[0]
    ensures LabelAt(platforms, 1, "LinkedIn") <= t[0].deliverables[1]
    ensures LabelAt(platforms, 0, "Instagram") <= t[1].deliverables[0]
    ensures LabelAt(platforms, 1, "LinkedIn") <= t[1].deliverables[1]
    ensures LaunchFocus + FirstName(persona) <= t[0].focus
  {
    var arcs := kit.narrativeArc;
    var hero := LabelAt(platforms, 0, "Instagram");
    var second := LabelAt(platforms, 1, "LinkedIn");
    [ LaunchWeek.(theme := ElementOr(arcs, 0, FallbackThemes[0]),
                  focus := LaunchFocus + FirstName(persona) + " feels daily.",
                  deliverables := [hero + " hero drop", second + " POV post"] + LaunchWeek.deliverables),
      ProofWeek.(theme := ElementOr(arcs, 1, FallbackThemes[1]),
                 deliverables := [hero + " data carousel", second + " newsletter snippet"] + ProofWeek.deliverables),
      ProductWeek.(theme := ElementOr(arcs, 2, FallbackThemes[2])),
      ParticipationWeek.(theme := ElementOr(arcs, 3, FallbackThemes[3])),
      ScaleWeek.(theme := ElementOr(arcs, 4, FallbackThemes[4])),
      SustainWeek ]
  }

  /** `Array.from({ length: weeks })`: no entries for a negative length. */
  function WeekCount(weeks: int): (n: nat)
    ensures weeks >= 0 ==> n == weeks
    ensures weeks < 0 ==> n == 0
  {
    if weeks < 0 then 0 else weeks
  }

  /** Week `k + 1` reuses template `k mod |templates|`, renumbered. */
  function Cycle(templates: seq<WeeklySprint>, weeks: int): (sprints: seq<WeeklySprint>)
    requires |templates| > 0
    ensures |sprints| == WeekCount(weeks)
    ensures forall k :: 0 <= k < |sprints| ==> sprints[k] == templates[k % |templates|].(week := k + 1)
  {
    seq(WeekCount(weeks), k requires 0 <= k => templates[k % |templates|].(week := k + 1))
  }

  /** A longer campaign only appends weeks: the earlier weeks stay as they were. */
  lemma CyclePrefix(templates: seq<WeeklySprint>, shorter: nat, longer: nat)
    requires |templates| > 0
    requires shorter <= longer
    ensures Cycle(templates, shorter) == Cycle(templates, longer)[..shorter]
  {
  }

  /** createWeeklySprints: the sprint templates cycled over the campaign length. */
  function WeeklySprints(inputs: CampaignInputs, kit: GoalKit, persona: Persona,
                         platforms: seq<PlatformBlueprint>): (sprints: seq<WeeklySprint>)
    ensures |sprints| == WeekCount(inputs.campaignLength)
    ensures forall k :: 0 <= k < |sprints| ==> sprints[k].week == k + 1
    ensures forall k :: 0 <= k < |sprints| ==>
              sprints[k] == SprintTemplates(kit, persona, platforms)[k % 6].(week := k + 1)
  {
    Cycle(SprintTemplates(kit, persona, platforms), inputs.campaignLength)
  }

  /** Past the sixth week the content repeats; only the week number moves on. */
  lemma SprintsRepeat(inputs: CampaignInputs, kit: GoalKit, persona: Persona,
                      platforms: seq<PlatformBlueprint>, k: nat)
    requires k + 6 < WeekCount(inputs.campaignLength)
    ensures WeeklySprints(inputs, kit, persona, platforms)[k + 6] ==
            WeeklySprints(inputs, kit, persona, platforms)[k].(week := k + 7)
  {
    assert (k + 6) % 6 == k % 6;
  }
}
