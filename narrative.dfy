/**
 * The three one-line texts of a plan: the tagline, the positioning statement
 * and the storyline.
 */
module Narrative {
  import opened Text
  import opened Knowledge

  /** `persona.name.split(" ")[0]`: the persona's first name. */
  function FirstName(persona: Persona): (first: string)
    ensures first <= persona.name
    ensures ' ' !in first
    ensures |first| < |persona.name| ==> persona.name[|first|] == ' '
  {
    Before(persona.name, ' ')
  }

  /**
   * generateTagline: the brand, the first creative angle of the kit (or a
   * stock angle) without its final period, and the persona's first name.
   */
  function Tagline(inputs: CampaignInputs, kit: GoalKit, persona: Persona): (tagline: string)
    ensures var action := ElementOr(kit.creativeAngles, 0, "Tell a fresher story");
            EndsWith(action, ".") ==>
              tagline == inputs.brandName + ": " + action[..|action| - 1] + " so " + FirstName(persona) + " wins the scroll."
    ensures var action := ElementOr(kit.creativeAngles, 0, "Tell a fresher story");
            !EndsWith(action, ".") ==>
              tagline == inputs.brandName + ": " + action + " so " + FirstName(persona) + " wins the scroll."
  {
    var action := ElementOr(kit.creativeAngles, 0, "Tell a fresher story");
    var a := StripFinalPeriod(action);
    assert EndsWith(action, ".") ==> a == action[..|action| - 1] by {
      if EndsWith(action, ".") {
        assert action[|action| - 1..] == ".";
        assert action[|action| - 1] == '.';
      }
    }
    assert !EndsWith(action, ".") ==> a == action by {
      if a != action {
        assert a + "." == action;
        assert action[|action| - 1..] == ".";
      }
    }
    inputs.brandName + ": " + a + " so " + FirstName(persona) + " wins the scroll."
  }

  /**
   * `d` is `description.split(".")[0].toLowerCase()`: the lower-cased text
   * of the description up to its first period, or all of it.
   */
  ghost predicate LeadClause(d: string, description: string)
  {
    && |d| <= |description|
    && d == Lower(description[..|d|])
    && '.' !in description[..|d|]
    && (|d| == |description| || description[|d|] == '.')
  }

  /** The lead clause of a description is unique. */
  lemma LeadClauseUnique(d1: string, d2: string, description: string)
    requires LeadClause(d1, description) && LeadClause(d2, description)
    ensures d1 == d2
  {
  }

  /** buildPositioning: who it is for, what the brand delivers, and how. */
  function Positioning(inputs: CampaignInputs, persona: Persona): (text: string)
    ensures exists d :: LeadClause(d, persona.description) &&
                        text == "For " + d + ", " + inputs.brandName + " delivers " + inputs.offering +
                                " by " + inputs.differentiation + "."
  {
    var lead := Before(persona.description, '.');
    assert persona.description[..|lead|] == lead;
    assert LeadClause(Lower(lead), persona.description);
    "For " + Lower(lead) + ", " + inputs.brandName + " delivers " + inputs.offering +
    " by " + inputs.differentiation + "."
  }

  /**
   * generateStoryline: the lower-cased tone, then every stage of the kit's
   * narrative arc, lower-cased, in order, joined by arrows.
   */
  function Storyline(kit: GoalKit, tone: string): (text: string)
    ensures text == "We’ll move with a " + Lower(tone) + " cadence that walks the audience through " +
                    Join(LowerAll(kit.narrativeArc), " → ") + "."
  {
    LowerJoin(kit.narrativeArc, " → ");
    assert Lower(" → ") == " → ";
    "We’ll move with a " + Lower(tone) + " cadence that walks the audience through " +
    Lower(Join(kit.narrativeArc, " → ")) + "."
  }
}
