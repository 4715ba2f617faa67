/**
 * The static knowledge bases of the campaign planner and the records the
 * pipeline passes around: goal kits, platform configurations, persona
 * templates, the inputs record and the per-platform blueprint.
 *
 * The tables are constants; every list keeps the length and order it has in
 * the planner, because the pipeline indexes into them.
 */
module Knowledge {

  datatype Goal = Awareness | Engagement | Conversion | Retention

  datatype Tier = Lean | Steady | Aggressive

  datatype PlatformKey = Instagram | TikTok | LinkedIn | X | YouTube

  /** The literal of a goal, as it appears in the seed text. */
  function GoalName(g: Goal): string
  {
    match g
    case Awareness => "awareness"
    case Engagement => "engagement"
    case Conversion => "conversion"
    case Retention => "retention"
  }

  /** The literal of a platform key, as it appears in the seed text. */
  function KeyName(k: PlatformKey): string
  {
    match k
    case Instagram => "instagram"
    case TikTok => "tiktok"
    case LinkedIn => "linkedin"
    case X => "x"
    case YouTube => "youtube"
  }

  datatype Persona = Persona(
    name: string,
    description: string,
    vibe: string,
    painPoints: seq<string>,
    triggers: seq<string>,
    channelHabits: seq<string>)

  datatype GoalKit = GoalKit(
    title: string,
    northStar: string,
    successSignals: seq<string>,
    creativeAngles: seq<string>,
    ctas: seq<string>,
    narrativeArc: seq<string>,
    momentumPlays: seq<string>,
    proofDrivers: seq<string>)

  /** A text per budget tier (`Record<BudgetTier, string>`). */
  datatype ByTier = ByTier(lean: string, steady: string, aggressive: string)
  {
    function For(t: Tier): string
    {
      match t
      case Lean => lean
      case Steady => steady
      case Aggressive => aggressive
    }
  }

  /** A text per campaign goal (`Record<CampaignGoal, string>`). */
  datatype ByGoal = ByGoal(awareness: string, engagement: string, conversion: string, retention: string)
  {
    function For(g: Goal): string
    {
      match g
      case Awareness => awareness
      case Engagement => engagement
      case Conversion => conversion
      case Retention => retention
    }
  }

  datatype PlatformConfig = PlatformConfig(
    displayName: string,
    accent: string,
    summary: string,
    cadences: ByTier,
    bestTimes: seq<string>,
    heroHooks: ByGoal,
    recommendedContent: seq<string>,
    automation: seq<string>,
    proTips: seq<string>,
    culturalNotes: seq<string>)

  /**
   * A persona template: the pattern is an alternation of literal keywords
   * matched case-insensitively, kept here as its list of lower-case keywords.
   */
  datatype PersonaTemplate = PersonaTemplate(keywords: seq<string>, persona: Persona)

  datatype CampaignInputs = CampaignInputs(
    brandName: string,
    offering: string,
    differentiation: string,
    audience: string,
    tone: string,
    goal: Goal,
    budget: int,
    campaignLength: int,
    selectedPlatforms: seq<PlatformKey>)

  datatype PlatformBlueprint = PlatformBlueprint(
    key: PlatformKey,
    displayName: string,
    accent: string,
    summary: string,
    cadence: string,
    bestTimes: seq<string>,
    heroAngle: string,
    recommendedContent: seq<string>,
    automation: seq<string>,
    proTip: string)

  ghost predicate NoDuplicates<T>(s: seq<T>)
  {
    forall i, j :: 0 <= i < j < |s| ==> s[i] != s[j]
  }

  /** A platform selection the toggles keep: at least one platform, each at most once. */
  ghost predicate ValidSelection(selected: seq<PlatformKey>)
  {
    |selected| > 0 && NoDuplicates(selected)
  }

  /**
   * The ranges of the input form: the budget slider runs from 20 to 100, the
   * length slider from 4 to 10, and the selection is valid. The budget
   * slider moves in steps of 5, but the form starts off that grid (see
   * DefaultInputs), so the step is not part of this predicate.
   */
  ghost predicate ValidInputs(inputs: CampaignInputs)
  {
    && 20 <= inputs.budget <= 100
    && 4 <= inputs.campaignLength <= 10
    && ValidSelection(inputs.selectedPlatforms)
  }

  /**
   * DEFAULT_INPUTS: the state the form starts in. Long texts are cut after
   * their first words; the audience, which drives persona matching, is kept
   * in full.
   */
  const DefaultInputs := CampaignInputs(
    "SignalSync Labs",
    "AI-powered social listening…",
    "Predictive sentiment radar…",
    "Director-level marketers at modern ecommerce and consumer tech brands",
    "Bold, insightful, forward-leaning",
    Awareness, 58, 6, [Instagram, LinkedIn, TikTok])

  /** The starting state is within the form's ranges, although its budget of 58 is not a step of the slider. */
  lemma DefaultInputsValid()
    ensures ValidInputs(DefaultInputs)
    ensures DefaultInputs.budget % 5 != 0
  {
  }

  /** The form's starting values: a brand, the awareness goal, 58, six weeks and three platforms with Instagram first. */
  lemma DefaultInputsAsDeclared()
    ensures DefaultInputs.brandName == "SignalSync Labs"
    ensures DefaultInputs.audience == "Director-level marketers at modern ecommerce and consumer tech brands"
    ensures DefaultInputs.goal == Awareness
    ensures DefaultInputs.budget == 58 && DefaultInputs.campaignLength == 6
    ensures DefaultInputs.selectedPlatforms == [Instagram, LinkedIn, TikTok]
  {
  }

  /** The list lengths the pipeline relies on when it indexes a goal kit. */
  ghost predicate KitShape(kit: GoalKit)
  {
    && |kit.successSignals| == 4
    && |kit.creativeAngles| == 4
    && |kit.ctas| >= 3
    && |kit.narrativeArc| == 5
    && |kit.momentumPlays| == 5
    && |kit.proofDrivers| == 4
  }


  /** GOAL_LIBRARY: one fixed kit per goal. */
  function GoalLibrary(g: Goal): (kit: GoalKit)
    ensures KitShape(kit)
  {
    match g
    case Awareness => AwarenessKit
    case Engagement => EngagementKit
    case Conversion => ConversionKit
    case Retention => RetentionKit
  }

  const AwarenessKit: GoalKit :=
    GoalKit(
      "Break New Ground",
      "Turn lurkers into fans….",
      ["Organic reach growth", "Profile visits", "Share rate", "New followers"],
      ["Future-state storytelling", "Category tension moments", "Data-backed hooks", "Earned media and PR beats"],
      ["Follow for daily signal drops", "Share with your…", "Save for your next…"],
      ["Spark intrigue", "Name the tension", "Introduce the vehicle", "Show quick social proof", "Invite participation"],
      ["Trending audio hijacks", "Creator duets and stitches", "Community listening prompts", "AMA or livestream Q&A",
       "Press or podcast amplification"],
      ["Numbers that feel inevitable", "Before/after transformations", "Third-party validation",
       "Customer or expert POV quotes"])

  const EngagementKit: GoalKit :=
    GoalKit(
      "Energize The Community",
      "Pull the audience into….",
      ["Comment quality", "Saves and shares", "Audience-generated content", "DM conversations"],
      ["Challenge formats", "Community spotlights", "Open loops and episodic…", "Behind-the-scenes access"],
      ["Drop your take", "Vote in the poll", "Tag a teammate", "Co-create with us"],
      ["Issue the challenge", "Spotlight responses", "Double down on community wins", "Reveal exclusive access",
       "Launch episodic hero"],
      ["Duet-worthy prompts", "Debate formats", "Shout-outs and stitched…", "Weekly live recap",
       "Reward loop for top…"],
      ["Volume of participation", "Screenshots of…", "Community testimonials",
       "User-generated highlight reels"])

  const ConversionKit: GoalKit :=
    GoalKit(
      "Accelerate Pipeline",
      "Prime the audience with….",
      ["Click-through rate", "Demo or trial sign-ups", "Lead form submissions", "Cost per acquisition"],
      ["Pain-to-solution breakdowns", "ROI calculators", "Fast-track case studies", "Offer driven retargeting"],
      ["Book a strategy session", "Start the free trial", "Download the playbook", "Lock in founder pricing"],
      ["Expose the hidden cost", "Quantify the upside", "Show the proof stack", "Remove friction", "Drive the decision"],
      ["Countdown offers", "Success-teardown webinars", "Partner co-marketing", "Retargeting workflow",
       "Referral unlocks"],
      ["Win-rate jumps", "Customer logo momentum", "Integration partners", "ROI highlights"])

  const RetentionKit: GoalKit :=
    GoalKit(
      "Deepen Loyalty",
      "Keep champions activated….",
      ["Repeat purchase rate", "Expansion conversations", "Net promoter sentiment", "Referral volume"],
      ["Product roadmap sneak peeks", "Customer milestone…", "Power user tutorials", "Co-creation studio"],
      ["Vote on the roadmap", "Share your win", "Refer a peer", "Unlock VIP resources"],
      ["Celebrate the insiders", "Unlock elevated access", "Teach elite workflows", "Spotlight community wins",
       "Activate referral flywheel"],
      ["Member-only drops", "Office-hours series", "Ambassador program", "Quarterly business…",
       "Advocate leaderboard"],
      ["Time-to-value reductions", "Power user transformations", "Exclusive roadmap reveals", "Referral testimonials"])

  /** The list lengths the pipeline relies on when it reads a platform configuration. */
  ghost predicate ConfigShape(config: PlatformConfig)
  {
    && |config.proTips| == 3
    && NoDuplicates(config.automation)
    && |config.automation| == 3
    && |config.bestTimes| == 3
    && |config.recommendedContent| == 4
    && |config.culturalNotes| == 3
  }


  /**
   * The label a platform is shown under. The labels start with letters no
   * stock automation entry starts with, and none holds a colon.
   */
  function DisplayName(k: PlatformKey): (name: string)
    ensures |name| > 0 && name[0] in {'I', 'T', 'L', 'X', 'Y'}
    ensures ':' !in name
  {
    match k
    case Instagram => "Instagram"
    case TikTok => "TikTok"
    case LinkedIn => "LinkedIn"
    case X => "X (Twitter)"
    case YouTube => "YouTube"
  }

  /** Different platforms are shown under different labels. */
  lemma DisplayNameInjective(k1: PlatformKey, k2: PlatformKey)
    requires DisplayName(k1) == DisplayName(k2)
    ensures k1 == k2
  {
  }

  /** PLATFORM_LIBRARY: one fixed configuration per platform key. */
  function PlatformLibrary(k: PlatformKey): (config: PlatformConfig)
    ensures ConfigShape(config)
    ensures config.displayName == DisplayName(k)
  {
    match k
    case Instagram => InstagramConfig
    case TikTok => TikTokConfig
    case LinkedIn => LinkedInConfig
    case X => XConfig
    case YouTube => YouTubeConfig
  }

  const InstagramConfig: PlatformConfig :=
    PlatformConfig(
      "Instagram",
      "#ec4899",
      "Visual storytelling and….",
      ByTier(
        "3 Reels, 2 carousel…",
        "4 Reels, 3 carousels, 4…",
        "5 Reels, 4 carousels…"),
      ["Mon 9am", "Wed 12pm", "Thu 6pm"],
      ByGoal(
        "Launch a swipe-stopping….",
        "Run story labs with….",
        "Drop a carousel….",
        "Publish a Reel…."),
      ["Trend-reactive…", "Swipeable insight carousels", "Story poll experiments",
       "Creator remix collaborations"],
      ["Meta Business Suite scheduling", "CapCut templates library", "Later.com performance tagging"],
      ["Use 0.8x speed edits to….",
       "Hook the Reel with a….",
       "Stack story features…."],
      ["Reels favor bold….",
       "Carousels that feel like….",
       "Story series that span…."])

  const TikTokConfig: PlatformConfig :=
    PlatformConfig(
      "TikTok",
      "#22d3ee",
      "Attention hacking with….",
      ByTier(
        "4 short-form drops + 1…",
        "5 original drops, 2…",
        "7 drops (mix of original…"),
      ["Tue 8pm", "Thu 7pm", "Sat 10am"],
      ByGoal(
        "Kick off with a pattern….",
        "Challenge the audience….",
        "Run a fast-paced ‘myth….",
        "Host a live feature lab…."),
      ["POV explainers", "Trend hijacks with data…", "Duet invitations", "Behind-the-scenes montage"],
      ["OpusClip repurposing pipeline", "Descript for…", "Metricool for smart scheduling"],
      ["Layer contextual….",
       "End with an explicit ask….",
       "Switch camera angles…."],
      ["Educational content with….",
       "Creator collaborations….",
       "Live shopping style…."])

  const LinkedInConfig: PlatformConfig :=
    PlatformConfig(
      "LinkedIn",
      "#2563eb",
      "Thought leadership and….",
      ByTier(
        "3 narrative posts + 1…",
        "4 posts (mix POV +…",
        "5 posts, 2 carousels…"),
      ["Tue 8am", "Wed 9am", "Thu 11am"],
      ByGoal(
        "Publish a first-person….",
        "Host an audio event with….",
        "Drop a narrative post….",
        "Celebrate customer wins…."),
      ["Document carousels", "Founder POV essays", "Pulse check polls", "Team member video journals"],
      ["Shield analytics for…", "Taplio scheduling", "Fathom notes to capture…"],
      ["Lead with a tension….",
       "Use carousel slides with….",
       "Invite tagged voices…."],
      ["Narrative carousels with….",
       "Executive POV videos….",
       "Comment-first prompts…."])

  const XConfig: PlatformConfig :=
    PlatformConfig(
      "X (Twitter)",
      "#0ea5e9",
      "Real-time narrative….",
      ByTier(
        "Daily conversational…",
        "2-3 posts daily, 1…",
        "3-4 posts daily, 2…"),
      ["Mon 11am", "Wed 3pm", "Fri 9am"],
      ByGoal(
        "Thread the state of the….",
        "Run a ‘build with us’….",
        "Pin a thread breaking….",
        "Host a Spaces with…."),
      ["Narrative threads", "Quote-retweet spotlights", "Live event coverage", "Spaces conversations"],
      ["Typefully thread drafting", "TweetHunter inspiration vault", "SavvyCal for Spaces scheduling"],
      ["Use lead-in hooks under….",
       "Reply to your own thread….",
       "Curate and share…."],
      ["Operator threads with….",
       "Spaces sessions during….",
       "Pinned tweet refresh…."])

  const YouTubeConfig: PlatformConfig :=
    PlatformConfig(
      "YouTube",
      "#f97316",
      "Deep-dive authority….",
      ByTier(
        "1 long-form breakdown +…",
        "Bi-weekly deep dives, 3…",
        "Weekly deep dives, 4…"),
      ["Wed 4pm", "Thu 2pm", "Sun 10am"],
      ByGoal(
        "Publish a cinematic case….",
        "Drop a workflow teardown….",
        "Launch a product demo….",
        "Host a customer…."),
      ["Chaptered explainers", "Customers roundtables", "Shorts recaps of hero stats", "Livestream office hours"],
      ["TubeBuddy optimization…", "StreamYard multicasting", "Lumen5 auto-highlight clipping"],
      ["Open with a cold hook….",
       "Chapter your videos so….",
       "Republish top Shorts…."],
      ["Educational explainers….",
       "Community posts that….",
       "Livestream replays with…."])

  /** PERSONA_LIBRARY, in matching order: the first template that matches wins. */
  const PersonaLibrary: seq<PersonaTemplate> := [
    PersonaTemplate(
      ["founder", "startup", "entrepreneur", "bootstrap"],
      Persona(
        "Founder Finn",
        "Scrappy startup builders….",
        "Ambitious….",
        ["Hard to track which…",
         "Need momentum without…",
         "Lack of consistent…"],
        ["Battle-tested frameworks",
         "Proof that speed beats size",
         "Dashboard screenshots…"],
        ["Scrolls TikTok at night", "Lives on X for real-time intel", "Checks LinkedIn over…"])),
    PersonaTemplate(
      ["marketing director", "brand manager", "cm", "enterprise", "corporate", "fortune"],
      Persona(
        "Brand Builder Bailey",
        "Senior marketing leaders….",
        "Strategic, data-curious….",
        ["Need proof that creative…",
         "Struggle to keep teams…",
         "Missing intelligence on…"],
        ["Benchmark reports that…",
         "Stories of…",
         "Confidence that the plan…"],
        ["Lives in LinkedIn DMs", "Subscribes to industry…", "Screenshots TikTok…"])),
    PersonaTemplate(
      ["ecommerce", "d2c", "retail", "shopify"],
      Persona(
        "Ecom Operator Eli",
        "Performance-minded….",
        "Numbers-first but playful.",
        ["Need fast signals on…",
         "Hard to differentiate in…",
         "Always-on pressure to…"],
        ["Split tests with clear results",
         "Offer frameworks they…",
         "Proof of higher AOV from…"],
        ["Checks Instagram Shops daily", "Studies TikTok trend reports", "Listens to DTC podcasts"])),
    PersonaTemplate(
      ["developer", "product manager", "data team", "engineer"],
      Persona(
        "Product Strategist Priya",
        "Product and data leaders….",
        "Analytical….",
        ["Need structured signals…",
         "Skeptical of fluffy…",
         "Looking for tooling that…"],
        ["API-first angles",
         "Architecture diagrams",
         "Case studies with…"],
        ["Watches YouTube explainers", "Skims product hunt", "Prefers Slack-style…"]))
  ]

  /** DEFAULT_PERSONA: the persona used when no template matches. */
  const DefaultPersona: Persona :=
    Persona(
      "Growth Leader Jordan",
      "Ambitious growth….",
      "Curious, pragmatic….",
      ["Need differentiated…",
       "Limited headcount to…",
       "Struggle to translate…"],
      ["Clear strategic frameworks",
       "Proof from brands they admire",
       "Time-saving automation"],
      ["Juggles between LinkedIn and X", "Saves TikTok inspiration…", "Binge listens to GTM podcasts"])

  /** The lists a persona carries, three of each, as the plan sections index them. */
  ghost predicate PersonaShape(p: Persona)
  {
    && p.name != []
    && |p.painPoints| == 3
    && |p.triggers| == 3
    && |p.channelHabits| == 3
  }

  /**
   * The four persona templates in matching order, each with its keywords,
   * and each persona with three pain points, triggers and habits.
   */
  lemma PersonaLibraryInOrder()
    ensures |PersonaLibrary| == 4
    ensures PersonaLibrary[0].persona.name == "Founder Finn"
    ensures PersonaLibrary[0].keywords == ["founder", "startup", "entrepreneur", "bootstrap"]
    ensures PersonaLibrary[1].persona.name == "Brand Builder Bailey"
    ensures PersonaLibrary[1].keywords == ["marketing director", "brand manager", "cm", "enterprise", "corporate", "fortune"]
    ensures PersonaLibrary[2].persona.name == "Ecom Operator Eli"
    ensures PersonaLibrary[2].keywords == ["ecommerce", "d2c", "retail", "shopify"]
    ensures PersonaLibrary[3].persona.name == "Product Strategist Priya"
    ensures PersonaLibrary[3].keywords == ["developer", "product manager", "data team", "engineer"]
    ensures forall t :: t in PersonaLibrary ==> PersonaShape(t.persona)
  {
  }

  /** The fallback persona has the shape of the others and a name none of them uses. */
  lemma DefaultPersonaShape()
    ensures DefaultPersona.name == "Growth Leader Jordan"
    ensures PersonaShape(DefaultPersona)
    ensures DefaultPersona.triggers == ["Clear strategic frameworks", "Proof from brands they admire", "Time-saving automation"]
    ensures forall t :: t in PersonaLibrary ==> t.persona.name != DefaultPersona.name
  {
  }
}
