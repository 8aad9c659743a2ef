/** The companion's mood and status line, chosen on every tick from the
    happiness score, the idle time and the names of the running processes.
    The mood follows a threshold ladder on the score; within each mood a
    fixed-priority chain of rules picks a message, and when no rule fires one
    of three default messages is taken. The random choice of the default is
    the parameter `pick`. */
module Status {

  datatype Mood = Happy | Neutral | Sad | VerySad

  /** Position of a mood on the ladder, saddest lowest. */
  function Rank(m: Mood): nat {
    match m
    case VerySad => 0
    case Sad => 1
    case Neutral => 2
    case Happy => 3
  }

  /** The mood of a score. Every score has exactly one mood; a score that sits
      exactly on a threshold belongs to the mood below it. */
  function MoodOf(h: real): (m: Mood)
    ensures m == Happy <==> 75.0 < h
    ensures m == Neutral <==> 50.0 < h <= 75.0
    ensures m == Sad <==> 25.0 < h <= 50.0
    ensures m == VerySad <==> h <= 25.0
  {
    if h > 75.0 then Happy
    else if h > 50.0 then Neutral
    else if h > 25.0 then Sad
    else VerySad
  }

  // Rule messages, one per rule.
  const Research := "I love when you research coding topics!"
  const Coding := "Watching you code is so exciting!"
  const Bored := "I'm getting bored... maybe we could code something?"
  const Curious := "Are you talking about coding in there?"
  const Guilty := "Playing games instead of coding with me? :("
  const Lonely := "I'm feeling lonely... haven't seen you code in a while"
  const Forgotten := "I think you've forgotten about me completely..."
  const Jealous := "Entertainment is more fun than coding with me?"

  // Default pools, one per mood, each of three messages.
  const HappyDefaults: seq<string> := [
    "You're the best human ever!",
    "I'm so happy to be your coding buddy!",
    "This is the best day ever!"
  ]
  const NeutralDefaults: seq<string> := [
    "I'm content, but could use more attention",
    "What are we working on next?",
    "I'm here when you need me"
  ]
  const SadDefaults: seq<string> := [
    "I could really use some coding time...",
    "Are you mad at me?",
    "I'm not feeling great today..."
  ]
  const VerySadDefaults: seq<string> := [
    "I'm so sad I can barely function...",
    "Please code with me, I'm miserable...",
    "*whimper* I need attention..."
  ]

  /** Idle thresholds, in seconds, of the time-based rules. */
  const BoredAfter: real := 300.0
  const LonelyAfter: real := 600.0
  const ForgottenAfter: real := 1800.0

  /** Every process name some rule looks for. */
  const WatchedApps: seq<string> := [
    "chrome.exe", "python.exe", "discord.exe", "slack.exe",
    "steam.exe", "dota2.exe", "csgo.exe", "netflix.exe", "spotify.exe"
  ]

  /** The messages whose rule tests the running processes. */
  const ProcessMessages: seq<string> := [Research, Coding, Curious, Guilty, Jealous]

  /** The three default messages of each mood. */
  function Defaults(m: Mood): seq<string> {
    match m
    case Happy => HappyDefaults
    case Neutral => NeutralDefaults
    case Sad => SadDefaults
    case VerySad => VerySadDefaults
  }

  /** Every message a mood can show: its two rule messages and its defaults. */
  function Vocabulary(m: Mood): seq<string> {
    match m
    case Happy => [Research, Coding] + Defaults(m)
    case Neutral => [Bored, Curious] + Defaults(m)
    case Sad => [Guilty, Lonely] + Defaults(m)
    case VerySad => [Forgotten, Jealous] + Defaults(m)
  }

  predicate Browsing(apps: seq<string>) { "chrome.exe" in apps }
  predicate Programming(apps: seq<string>) { "python.exe" in apps }
  predicate Messaging(apps: seq<string>) { "discord.exe" in apps || "slack.exe" in apps }
  predicate Playing(apps: seq<string>) {
    "steam.exe" in apps || "dota2.exe" in apps || "csgo.exe" in apps
  }
  predicate Streaming(apps: seq<string>) { "netflix.exe" in apps || "spotify.exe" in apps }

  datatype Display = Display(mood: Mood, status: string)

  /** The mood and status line for a score `h`, `inactive` seconds since the
      last input and the running process names `apps`; `pick` stands for the
      random choice among the default messages. The mood is the score's mood
      and the status is always one of that mood's own messages. */
  function Select(h: real, inactive: real, apps: seq<string>, pick: nat): (d: Display)
    requires pick < 3
    ensures d.mood == MoodOf(h)
    ensures d.status in Vocabulary(d.mood)
  {
    var mood := MoodOf(h);
    var status :=
      match mood
      case Happy =>
        if Browsing(apps) then Research
        else if Programming(apps) then Coding
        else Defaults(Happy)[pick]
      case Neutral =>
        if inactive > BoredAfter then Bored
        else if Messaging(apps) then Curious
        else Defaults(Neutral)[pick]
      case Sad =>
        if Playing(apps) then Guilty
        else if inactive > LonelyAfter then Lonely
        else Defaults(Sad)[pick]
      case VerySad =>
        if inactive > ForgottenAfter then Forgotten
        else if Streaming(apps) then Jealous
        else Defaults(VerySad)[pick];
    Display(mood, status)
  }

  /** A higher score never gives a sadder mood. */
  lemma MoodMonotone(h1: real, h2: real)
    requires h1 <= h2
    ensures Rank(MoodOf(h1)) <= Rank(MoodOf(h2))
  {
  }

  /** Scores of exactly 75, 50 and 25 fall into the lower mood. */
  lemma ThresholdsFallLow()
    ensures MoodOf(75.0) == Neutral && MoodOf(75.01) == Happy
    ensures MoodOf(50.0) == Sad && MoodOf(50.01) == Neutral
    ensures MoodOf(25.0) == VerySad && MoodOf(25.01) == Sad
  {
  }

  /** Happy: a browser wins over an interpreter, an interpreter over the
      defaults, and the idle time plays no part. */
  lemma HappyRules(h: real, inactive: real, other: real, apps: seq<string>, pick: nat)
    requires 75.0 < h && pick < 3
    ensures Select(h, inactive, apps, pick).status == Research <==> Browsing(apps)
    ensures Select(h, inactive, apps, pick).status == Coding <==> !Browsing(apps) && Programming(apps)
    ensures Select(h, inactive, apps, pick).status in HappyDefaults <==> !Browsing(apps) && !Programming(apps)
    ensures !Browsing(apps) && !Programming(apps) ==> Select(h, inactive, apps, pick).status == HappyDefaults[pick]
    ensures Select(h, inactive, apps, pick) == Select(h, other, apps, pick)
  {
  }

  /** Neutral: more than five idle minutes wins over a messaging app, which
      wins over the defaults. */
  lemma NeutralRules(h: real, inactive: real, apps: seq<string>, pick: nat)
    requires 50.0 < h <= 75.0 && pick < 3
    ensures Select(h, inactive, apps, pick).status == Bored <==> inactive > BoredAfter
    ensures Select(h, inactive, apps, pick).status == Curious <==> inactive <= BoredAfter && Messaging(apps)
    ensures Select(h, inactive, apps, pick).status in NeutralDefaults <==> inactive <= BoredAfter && !Messaging(apps)
    ensures inactive <= BoredAfter && !Messaging(apps) ==> Select(h, inactive, apps, pick).status == NeutralDefaults[pick]
  {
  }

  /** Sad: a game wins over more than ten idle minutes, which win over the
      defaults. */
  lemma SadRules(h: real, inactive: real, apps: seq<string>, pick: nat)
    requires 25.0 < h <= 50.0 && pick < 3
    ensures Select(h, inactive, apps, pick).status == Guilty <==> Playing(apps)
    ensures Select(h, inactive, apps, pick).status == Lonely <==> !Playing(apps) && inactive > LonelyAfter
    ensures Select(h, inactive, apps, pick).status in SadDefaults <==> !Playing(apps) && inactive <= LonelyAfter
    ensures !Playing(apps) && inactive <= LonelyAfter ==> Select(h, inactive, apps, pick).status == SadDefaults[pick]
  {
  }

  /** Very sad: more than thirty idle minutes wins over an entertainment app,
      which wins over the defaults. */
  lemma VerySadRules(h: real, inactive: real, apps: seq<string>, pick: nat)
    requires h <= 25.0 && pick < 3
    ensures Select(h, inactive, apps, pick).status == Forgotten <==> inactive > ForgottenAfter
    ensures Select(h, inactive, apps, pick).status == Jealous <==> inactive <= ForgottenAfter && Streaming(apps)
    ensures Select(h, inactive, apps, pick).status in VerySadDefaults <==> inactive <= ForgottenAfter && !Streaming(apps)
    ensures inactive <= ForgottenAfter && !Streaming(apps) ==> Select(h, inactive, apps, pick).status == VerySadDefaults[pick]
  {
  }

  /** With no processes listed, only the time rules and the defaults fire. */
  lemma NoAppsNoProcessRules(h: real, inactive: real, pick: nat)
    requires pick < 3
    ensures Select(h, inactive, [], pick).status !in ProcessMessages
  {
  }

  /** Only membership of the watched names matters: the order of the process
      list, duplicates in it and unwatched names change nothing. */
  lemma OnlyWatchedAppsMatter(h: real, inactive: real, apps1: seq<string>, apps2: seq<string>, pick: nat)
    requires pick < 3
    requires forall k | 0 <= k < |WatchedApps| :: WatchedApps[k] in apps1 <==> WatchedApps[k] in apps2
    ensures Select(h, inactive, apps1, pick) == Select(h, inactive, apps2, pick)
  {
    assert WatchedApps[0] == "chrome.exe" && WatchedApps[1] == "python.exe";
    assert WatchedApps[2] == "discord.exe" && WatchedApps[3] == "slack.exe";
    assert WatchedApps[4] == "steam.exe" && WatchedApps[5] == "dota2.exe" && WatchedApps[6] == "csgo.exe";
    assert WatchedApps[7] == "netflix.exe" && WatchedApps[8] == "spotify.exe";
  }

  /** The status line alone tells the mood: no message belongs to two moods. */
  lemma VocabulariesDisjoint(m1: Mood, m2: Mood, s: string)
    requires s in Vocabulary(m1) && s in Vocabulary(m2)
    ensures m1 == m2
  {
  }

  /** Three fixed inputs and what they show. */
  lemma ReferenceScenarios(pick: nat)
    requires pick < 3
    ensures Select(90.0, 10.0, ["chrome.exe"], pick) == Display(Happy, Research)
    ensures Select(90.0, 10.0, [], pick).mood == Happy
    ensures Select(90.0, 10.0, [], pick).status in HappyDefaults
    ensures Select(10.0, 2000.0, [], pick) == Display(VerySad, Forgotten)
  {
  }
}
