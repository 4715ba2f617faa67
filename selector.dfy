/**
 * The classifiers and the deterministic selector of the planner: the budget
 * tier, the first-match persona lookup, the position-weighted string seed and
 * the seeded pick from a list.
 */
module Selector {
  import opened Wrappers
  import opened Text
  import opened Knowledge

  // ---------------------------------------------------------------- budget tier

  /** getBudgetTier: two thresholds, and a value on a threshold goes to the higher tier. */
  function BudgetTier(budget: int): (tier: Tier)
    ensures tier == Aggressive <==> budget >= 75
    ensures tier == Steady <==> 45 <= budget < 75
    ensures tier == Lean <==> budget < 45
  {
    if budget >= 75 then Aggressive
    else if budget >= 45 then Steady
    else Lean
  }

  function TierRank(tier: Tier): nat
  {
    match tier
    case Lean => 0
    case Steady => 1
    case Aggressive => 2
  }

  /** A larger budget never lands in a lower tier. */
  lemma TierMonotone(a: int, b: int)
    requires a <= b
    ensures TierRank(BudgetTier(a)) <= TierRank(BudgetTier(b))
  {
  }

  // ---------------------------------------------------------- persona matching

  /**
   * `template.match.test(audience)`: the pattern is a case-insensitive
   * alternation of lower-case keywords, so it matches exactly when one of the
   * keywords occurs in the lower-cased audience text.
   */
  predicate Matches(template: PersonaTemplate, audience: string)
  {
    exists k :: k in template.keywords && Contains(Lower(audience), k)
  }

  /** `templates.find(...)`, as an index: the first template that matches, if any. */
  function FindTemplate(templates: seq<PersonaTemplate>, audience: string): (r: Option<nat>)
    ensures r.Some? ==> r.value < |templates| && Matches(templates[r.value], audience)
    ensures r.Some? ==> forall j :: 0 <= j < r.value ==> !Matches(templates[j], audience)
    ensures r.None? ==> forall j :: 0 <= j < |templates| ==> !Matches(templates[j], audience)
  {
    if templates == [] then None
    else if Matches(templates[0], audience) then Some(0)
    else
      match FindTemplate(templates[1..], audience)
      case None => None
      case Some(i) => Some(i + 1)
  }

  /** matchPersona: the persona of the first matching template, else the default persona. */
  function MatchPersona(audience: string): (p: Persona)
    ensures (forall j :: 0 <= j < |PersonaLibrary| ==> !Matches(PersonaLibrary[j], audience)) ==> p == DefaultPersona
    ensures forall i :: 0 <= i < |PersonaLibrary| && Matches(PersonaLibrary[i], audience) &&
                        (forall j :: 0 <= j < i ==> !Matches(PersonaLibrary[j], audience))
                        ==> p == PersonaLibrary[i].persona
    ensures p == DefaultPersona || exists i :: 0 <= i < |PersonaLibrary| && p == PersonaLibrary[i].persona
  {
    match FindTemplate(PersonaLibrary, audience)
    case Some(i) => PersonaLibrary[i].persona
    case None => DefaultPersona
  }

  // ------------------------------------------------------------------ the seed

  /**
   * `char.charCodeAt(0)` for a one-code-point string: the code point itself
   * inside the Basic Multilingual Plane, the leading surrogate above it.
   */
  function CharCode(c: char): (code: nat)
    ensures code < 0x1_0000
    ensures c as int < 0x1_0000 ==> code == c as int
  {
    if c as int < 0x1_0000 then c as int else 0xD800 + (c as int - 0x1_0000) / 0x400
  }

  /**
   * stringSeed: the left fold over the code points of `s` that adds each
   * character code times its 1-based position.
   */
  function Seed(s: string): (seed: int)
    ensures seed >= 0
    decreases |s|
  {
    if s == [] then 0 else Seed(s[..|s| - 1]) + CharCode(s[|s| - 1]) * |s|
  }

  /** The sum of `code(s[k]) * (k + 1)` over the positions `k` from `i` on. */
  ghost function WeightedSum(s: string, i: nat): int
    requires i <= |s|
    decreases |s| - i
  {
    if i == |s| then 0 else CharCode(s[i]) * (i + 1) + WeightedSum(s, i + 1)
  }

  lemma {:induction false} WeightedSumOfInit(s: string, i: nat)
    requires 0 < |s| && i < |s|
    ensures WeightedSum(s, i) == WeightedSum(s[..|s| - 1], i) + CharCode(s[|s| - 1]) * |s|
    decreases |s| - i
  {
    if i < |s| - 1 {
      WeightedSumOfInit(s, i + 1);
      assert s[..|s| - 1][i] == s[i];
    }
  }

  /** The seed is the position-weighted sum of the character codes. */
  lemma {:induction false} SeedIsWeightedSum(s: string)
    ensures Seed(s) == WeightedSum(s, 0)
    decreases |s|
  {
    if s != [] {
      SeedIsWeightedSum(s[..|s| - 1]);
      WeightedSumOfInit(s, 0);
    }
  }

  // ------------------------------------------------------------------ the pick

  datatype PickError = EmptyInput

  function Abs(n: int): nat
  {
    if n < 0 then -n else n
  }

  /** pickFromArray: the element at `|seed| mod |items|`; an empty list is an error. */
  function Pick<T>(items: seq<T>, seed: int): (r: Result<T, PickError>)
    ensures r.Failure? <==> items == []
    ensures r.Success? ==> r.value in items
    ensures r.Success? ==> r.value == items[Abs(seed) % |items|]
  {
    if items == [] then Failure(EmptyInput) else Success(items[Abs(seed) % |items|])
  }
}
