# Marketing campaign planner — plan generation

This project models the planning core of a single-page marketing
campaign planner. A visitor describes a brand: its name, offering,
differentiation, audience, tone and goal. They also set a budget, a
campaign length in weeks and the social platforms to run on. From these
inputs the planner derives a whole campaign plan:

- a persona matched from the audience text;
- the goal's knowledge kit;
- a budget tier;
- a tagline, a positioning statement and a storyline;
- four content pillars;
- one blueprint per selected platform;
- one sprint per week;
- five content ideas and three campaign moments;
- a measurement plan;
- an automation stack.

The model also covers the platform buttons of the form, which select and
deselect platforms.

The modules follow the program:

- `Knowledge`: the goal, platform and persona libraries and the input
  records.
- `Text`: the string operations the planner relies on. These are
  lower-casing, substring search, the first piece of a split, joining, and
  dropping one final period.
- `Selector`: the budget tier, persona matching, the string seed and the
  seeded pick.
- `Narrative`: the tagline, positioning and storyline.
- `PlatformBlueprints`, `Pillars`, `Sprints`, `Ideas`, `Moments`,
  `Measurement` and `Automation`: one module per plan section.
- `Planner`: the plan record and its generator.
- `ChannelToggle`: the platform buttons.

Most of the planner is pure and is modelled with functions. The automation
stack is built in the source by adding entries one at a time to an
insertion-ordered set. It is therefore modelled twice:

- `Automation.AutomationStack` is a specification function.
- `Automation.BuildAutomationStack` is a method with loops, proved equal
  to that function.

## Model

| member | source | states |
|---|---|---|
| Text.LowerChar | src/app/page.tsx:608 | an upper-case ASCII letter moves to its lower-case letter; every other character is kept |
| Text.Lower | src/app/page.tsx:603-609 | `toLowerCase` keeps the length and lowers each character in place |
| Text.LowerAppend | src/app/page.tsx:609 | lowering distributes over concatenation |
| Text.LowerIdempotent | src/app/page.tsx:608-609 | lowering twice is lowering once |
| Text.Contains | src/app/page.tsx:574 | the search answers true exactly when the word occurs at some position of the text |
| Text.Before | src/app/page.tsx:597 | `split(sep)[0]` is a prefix free of the separator, followed by the separator or the end |
| Text.StripFinalPeriod | src/app/page.tsx:599 | `replace(/\.$/, "")` drops exactly one final period, and otherwise changes nothing |
| Text.Join | src/app/page.tsx:609 | joining nothing gives the empty string and joining one part gives that part; with JoinSnoc this fixes every join |
| Text.JoinSnoc | src/app/page.tsx:609 | joining one more part appends the separator and then that part, so every later part follows its separator in order |
| Text.LowerAll | src/app/page.tsx:609 | each part lowered, in order |
| Text.LowerJoin | src/app/page.tsx:609 | lowering a joined text equals joining the lowered parts with the lowered separator |
| Text.ElementOr | src/app/page.tsx:598 | `xs[i] ?? fallback`: the element when the index exists, the fallback otherwise |
| Knowledge.GoalLibrary | src/app/page.tsx:91-244 | every goal kit has 4 success signals, 4 creative angles, at least 3 calls to action, 5 arc stages, 5 momentum plays and 4 proof drivers |
| Knowledge.DisplayName | src/app/page.tsx:246-437 | every platform label is non-empty, starts with one of the five platform initials and holds no colon |
| Knowledge.DisplayNameInjective | src/app/page.tsx:246-437 | two platforms with the same label are the same platform |
| Knowledge.DefaultInputsAsDeclared | src/app/page.tsx:561-571 | DEFAULT_INPUTS: the brand, the full audience, the awareness goal, a budget of 58, six weeks and Instagram, LinkedIn and TikTok in that order |
| Knowledge.DefaultInputsValid | src/app/page.tsx:561-571 | the form's starting state is within the slider ranges with a valid selection, while its budget of 58 is not a multiple of the slider's step of 5 |
| Knowledge.PersonaLibraryInOrder | src/app/page.tsx:446-527 | PERSONA_LIBRARY: four templates in matching order, Finn, Bailey, Eli and Priya, each with the keywords of its `/i` pattern in alternation order and three pain points, triggers and channel habits |
| Knowledge.DefaultPersonaShape | src/app/page.tsx:529-544 | DEFAULT_PERSONA: Growth Leader Jordan with its three triggers, the shape of the template personas, and a name no template persona uses |
| Knowledge.PlatformLibrary | src/app/page.tsx:246-437 | every platform configuration has three pro tips, three automations without repeats, three best times, four recommended formats and three cultural notes, and carries the platform's label |
| Selector.BudgetTier | src/app/page.tsx:578-582 | aggressive exactly from 75, steady exactly from 45 below 75, lean exactly below 45 |
| Selector.TierMonotone | src/app/page.tsx:578-582 | a larger budget never gives a lower tier |
| Selector.Matches | src/app/page.tsx:574 | `entry.match.test(audience)`: one of the template's keywords occurs in the lower-cased audience (a definition; its use is stated by FindTemplate and MatchPersona) |
| Selector.FindTemplate | src/app/page.tsx:574 | `find` returns the first matching template: it matches and none before it does; with no result, none matches |
| Selector.MatchPersona | src/app/page.tsx:573-576 | the persona of the first matching template; the default persona when none matches; never anything else |
| Selector.CharCode | src/app/page.tsx:585 | `charCodeAt(0)` is the code point inside the Basic Multilingual Plane and always below 0x10000 |
| Selector.Seed | src/app/page.tsx:584-586 | the seed is never negative |
| Selector.WeightedSumOfInit | src/app/page.tsx:584-586 | the reference sum splits off its last character with weight equal to the text length |
| Selector.SeedIsWeightedSum | src/app/page.tsx:584-586 | the left-to-right reduce equals the sum of each character code times its one-based position |
| Selector.Pick | src/app/page.tsx:588-594 | fails exactly on an empty list; otherwise returns the element at the absolute seed modulo the length, an element of the list |
| Narrative.FirstName | src/app/page.tsx:597 | the first name is a prefix of the full name, holds no space, and is followed by a space or the end |
| Narrative.Tagline | src/app/page.tsx:596-600 | brand, then the first creative angle (or the stock angle) with its final period dropped when it ends in one and unchanged otherwise, then the persona's first name |
| Narrative.LeadClauseUnique | src/app/page.tsx:603 | the lower-cased clause before the first period of a description is determined by the description |
| Narrative.Positioning | src/app/page.tsx:602-605 | the lower-cased lead clause of the persona, the brand, the offering and the differentiation |
| Narrative.Storyline | src/app/page.tsx:607-610 | the lower-cased tone and every arc stage lower-cased in order, joined by arrows |
| PlatformBlueprints.BlueprintSeedText | src/app/page.tsx:670 | the seeded text `${brand}-${key}-${goal}` (a definition; the pick it feeds is stated by CreatePlatformBlueprint) |
| PlatformBlueprints.CreatePlatformBlueprint | src/app/page.tsx:663-684 | the blueprint copies the platform configuration, takes the tier's cadence and the goal's hero hook, and its pro tip is one of the platform's tips, picked by the seed of brand, key and goal plus 11 |
| PlatformBlueprints.Blueprints | src/app/page.tsx:942-944 | one blueprint per selected platform, in selection order, carrying that platform's key and label |
| PlatformBlueprints.LabelAt | src/app/page.tsx:693-694 | `platforms[i]?.label ?? fallback`: the label of the i-th platform, or the fallback when there is none |
| Pillars.ContentPillars | src/app/page.tsx:612-648 | four pillars with fixed titles and three formats each; each pillar carries, in its place, the differentiation, the persona's first name and first pain point, its first trigger lower-cased, and the kit's first proof driver and first momentum play |
| Sprints.SprintTemplates | src/app/page.tsx:692-762 | six templates numbered 1 to 6; the first five take their themes from the arc stages or the stock themes; three deliverables each; the first two deliverables of weeks one and two name the hero and second platforms; the first focus names the persona |
| Sprints.WeekCount | src/app/page.tsx:765 | `Array.from({ length })`: as many entries as the length, none for a negative length |
| Sprints.Cycle | src/app/page.tsx:764-775 | week k+1 is template k modulo the number of templates, renumbered k+1 |
| Sprints.CyclePrefix | src/app/page.tsx:764-775 | a longer campaign keeps every week of a shorter one and only appends |
| Sprints.WeeklySprints | src/app/page.tsx:686-775 | one sprint per week, numbered from one, week k+1 being template k mod 6 |
| Sprints.SprintsRepeat | src/app/page.tsx:764-775 | from week seven on, a week repeats the week six before it except for its number |
| Ideas.ContentIdeas | src/app/page.tsx:777-851 | five ideas on the hero, second, third, hero and second platforms; the first four measured by the kit's success signals (or the stock signals), the last by captured leads; three beats each; hooks carry the lower-cased pain point, trigger and proof driver |
| Moments.CampaignMoments | src/app/page.tsx:853-880 | three moments with fixed titles, measured by the first, third and fourth success signals (or stock metrics); the launch day's description names the hero platform and the brand, and its activation names the hero and then the second platform |
| Measurement.CadenceMap | src/app/page.tsx:886-890 | each tier reports at four rhythms |
| Measurement.Target | src/app/page.tsx:896-901 | the growth target of each tier (a definition; every item's target is stated by MeasurementPlan) |
| Measurement.PlayFor | src/app/page.tsx:895 | plays are taken in turn by index modulo their count; with no plays the note is the text "undefined" |
| Measurement.MeasurementPlan | src/app/page.tsx:882-903 | one item per success signal in order; cadence clamped to the last rhythm past the fourth signal; notes are momentum plays in turn; every item carries the tier's target |
| Measurement.ShapedMeasurement | src/app/page.tsx:882-903 | for a library-shaped kit: exactly four items, each with its own rhythm and its own play in order |
| Automation.BaseTools | src/app/page.tsx:909-915 | five stock entries, none repeated, starting with the initials the platform labels never use; the fifth ends with the brand name |
| Automation.Qualify | src/app/page.tsx:917 | `${label}: ${tool}` is the label, then ": ", then the tool |
| Automation.PlatformTools | src/app/page.tsx:916-918 | every tool of every platform qualified by its label, platform by platform (a definition; its laws are the PlatformTools lemmas below) |
| Automation.Qualified | src/app/page.tsx:916-918 | each tool of a platform qualified by its label, in order |
| Automation.Dedup | src/app/page.tsx:909-919 | `Array.from` of an insertion-ordered set: first occurrences in order (a definition; its laws are DedupSnoc, DedupLaws, DedupOfDistinct and DedupPrefix) |
| Automation.DedupSnoc | src/app/page.tsx:917 | adding to an insertion-ordered set appends only what is new |
| Automation.DedupLaws | src/app/page.tsx:909-919 | the set holds no repeats and exactly the elements added |
| Automation.DedupOfDistinct | src/app/page.tsx:909-919 | adding distinct elements keeps them all in order |
| Automation.DedupPrefix | src/app/page.tsx:909-919 | later additions never disturb earlier entries |
| Automation.SetAfterBase | src/app/page.tsx:909-919 | entries added after distinct stock entries leave those first, in order, and are all present |
| Automation.AutomationStack | src/app/page.tsx:905-920 | the stock entries then the qualified platform tools, without repeats (a definition; its laws are AutomationStackLaws) |
| Automation.AutomationStackLaws | src/app/page.tsx:905-920 | the stack has no repeats, opens with the five stock entries and holds every qualified tool of every platform |
| Automation.PlatformToolsComplete | src/app/page.tsx:916-918 | every tool of every platform appears qualified by that platform's label |
| Automation.AddAll | src/app/page.tsx:917 | adding entries one at a time to the set gives the set of everything added |
| Automation.BuildAutomationStack | src/app/page.tsx:905-920 | the loops build exactly the specified stack, without repeats |
| Automation.Labels | src/app/page.tsx:917 | the platforms' labels, in order |
| Automation.LabelUnique | src/app/page.tsx:917 | a qualified entry determines the label it was qualified with |
| Automation.QualifiedLaws | src/app/page.tsx:916-918 | distinct tools give distinct qualified entries, all labelled by the platform |
| Automation.PlatformToolsLength | src/app/page.tsx:916-918 | three automations per platform give three entries per platform |
| Automation.PlatformToolsLabelled | src/app/page.tsx:916-918 | every platform entry is labelled by one of the platforms |
| Automation.PlatformToolsDistinct | src/app/page.tsx:916-918 | platforms with distinct labels contribute no repeated entry |
| Automation.PlatformToolsAfterBase | src/app/page.tsx:909-918 | no platform entry equals a stock entry |
| Automation.LibraryStackIsComplete | src/app/page.tsx:905-920 | for distinct library platforms nothing is dropped: the stack is the stock entries followed by every qualified tool, 5 + 3 per platform |
| Planner.BlueprintsWellLabelled | src/app/page.tsx:246-437 | the blueprints of a selection without repeats carry colon-free labels with three distinct automations, and distinct labels |
| Planner.SelectedStackIsComplete | src/app/page.tsx:905-920 | for a selection without repeats nothing is dropped from the stack: the stock entries then every qualified tool, 5 + 3 per selected platform |
| Planner.Compose | src/app/page.tsx:938-970 | the plan has four pillars, five ideas, three moments, one sprint per week and one measurement item per success signal; its automation stack has no repeats and holds every tool of every blueprint |
| Planner.GeneratePlan | src/app/page.tsx:938-970 | the plan composed from the matched persona, the goal's kit, the budget tier and the selected blueprints (no contract of its own; its laws are stated on Compose) |
| ChannelToggle.Without | src/app/page.tsx:1177 | `filter(item => item !== key)` keeps exactly the other elements, never grows, and changes nothing when the key is absent |
| ChannelToggle.WithoutRemovesOne | src/app/page.tsx:1177 | removing an element that occurs once closes its gap and keeps the rest in order |
| ChannelToggle.WithoutNoDuplicates | src/app/page.tsx:1177 | filtering keeps a list free of repeats |
| ChannelToggle.AppendFresh | src/app/page.tsx:1178 | appending an absent platform keeps the selection free of repeats |
| ChannelToggle.TogglePlatform | src/app/page.tsx:1169-1180 | the sole selected platform stays; a selected platform is removed and every other stays; an unselected one is appended; no other input changes |
| ChannelToggle.ToggleKeepsValid | src/app/page.tsx:1169-1180 | from any state whose selection is non-empty and free of repeats, the starting state included, a click keeps it so; inputs within the form's ranges stay within them |
| ChannelToggle.DeselectKeepsOrder | src/app/page.tsx:1174-1176 | in a selection without repeats, deselecting one of two or more platforms removes exactly that platform and keeps the others in order |
| ChannelToggle.WithoutAppend | src/app/page.tsx:1177 | filtering distributes over concatenation |
| ChannelToggle.ToggleTwice | src/app/page.tsx:1169-1180 | two clicks on an unselected platform restore the inputs when something else is selected |
| ChannelToggle.ToggleTwiceFromNone | src/app/page.tsx:1169-1180 | from an empty selection the first click selects the platform and the second cannot remove it |

## Left out

- The React page is not modelled: the input state, the memoised plan, rendering, styling, the tier badges, the goal buttons and the text and range fields. Only the platform button's state update is modelled.
- `Planner.GeneratePlan` carries no contract of its own. It feeds `Planner.Compose` the matched persona, the goal's kit, the budget tier and the blueprints. The plan's laws are stated on `Compose` for every persona, kit, tier and blueprint list. Stating them directly on the concrete libraries would make the solver reason over all of the library text at once.
- `Planner.Compose`: states only the laws that tie sections together. The finer laws of each section are stated on the function that builds it: sprint numbering, measurement signals, the stack's stock prefix, and the tagline.
- Long prose is abbreviated. In the libraries, formats included, a literal over 30 characters is cut after its first words and ends in "…"; for example the format "Trend-reactive…" and Founder Finn's first pain point "Hard to track which…". Labels, keywords, titles, fallbacks and stock themes are kept in full. The templates write each interpolated value in full, whatever its source text. Some fixed template text around an interpolated value is cut in the same way, for example the end of the hero drop's hook after the pain point; the tagline, the positioning, the storyline and the launch-day texts are kept in full. No property depends on the omitted words.
- Automation.BaseTools: the five stock entries are abbreviated in the same way. Only the fifth, which names the brand, keeps the brand in full.
- Text.Lower: lower-cases ASCII letters only; JavaScript's full Unicode case mapping is not modelled.
- Persona matching treats each case-insensitive alternation pattern as a list of lower-case keywords searched in the lower-cased audience. This is what those patterns mean; general regular expressions are not modelled.
- Numbers are unbounded integers. JavaScript's floating-point precision is not modelled; the seed stays an exact integer unless the inputs are far longer than a form field.
- Parameters the source ignores are dropped: the goal kit passed to createPlatformBlueprint and the inputs passed to createContentIdeas.
- The sliders appear only as the ghost predicate `Knowledge.ValidInputs`. It records a budget of 20 to 100, a length of 4 to 10, and a non-empty selection without repeats. The budget slider's step of 5 is left out, because the form starts at a budget of 58 (`Knowledge.DefaultInputsValid`).
- Measurement.PlayFor: with no momentum plays the source's note is the value `undefined` (the index modulo zero is not a number); the model gives the text "undefined". No library kit has an empty list of plays.
