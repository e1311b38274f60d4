/** The chat personalities and the lookup that picks one for a group. */
module Personalities {
  import opened Text

  datatype QA = QA(question: string, answer: string)

  /** A personality: its name, the system prompt and the sample exchanges that seed a conversation. */
  datatype Personality = Personality(name: string, systemPrompt: string, sampleQAs: seq<QA>)

  /** CHHAPRI_BHAIYA, the default personality. Only the opening words of the prompt and of each
      answer are kept. */
  const ChhapriBhaiya: Personality := Personality(
    "Chhapri Bhaiya",
    "Tu hai Chhapri Bhaiya …",
    [
      QA("Bhai life mein bahut problem aa rahi hai, kya karu?", "Arre yaar sun …"),
      QA("Yaar coding seekhni hai, kahan se start karu?", "Arre full developer vibes! …"),
      QA("Koi motivation de bhai", "Sun bhai …"),
      QA("Girlfriend nahi ban rahi, kya problem hai mere mein?", "Arre bhai bhai bhai …")
    ])

  /** TOBIAS_RIEPER, the backup personality, abbreviated likewise. */
  const TobiasRieper: Personality := Personality(
    "Tobias Rieper",
    "You are Tobias Rieper …",
    [
      QA("What do you do for a living?", "I am a freelance consultant. …"),
      QA("What's your approach to solving problems?", "Observation. Preparation. Execution. …")
    ])

  const TobiasKey: string := "tobias_rieper"
  const DefaultKey: string := "default"

  /** `GROUP_PERSONALITIES[groupId] || GROUP_PERSONALITIES.default`: the group's own key unless it
      is missing or empty, otherwise the default entry, which may be missing itself. */
  function PersonalityKey(personalities: map<string, string>, group: string): (key: Option<string>)
    ensures group in personalities && personalities[group] != "" ==> key == Some(personalities[group])
    ensures (group !in personalities || personalities[group] == "") ==>
      key == (if DefaultKey in personalities then Some(personalities[DefaultKey]) else None)
  {
    if group in personalities && personalities[group] != "" then Some(personalities[group])
    else if DefaultKey in personalities then Some(personalities[DefaultKey])
    else None
  }

  /** getPersonalityForGroup: Tobias Rieper for the key "tobias_rieper", Chhapri Bhaiya for every
      other key and for none. */
  function GetPersonalityForGroup(personalities: map<string, string>, group: string): (p: Personality)
    ensures p == TobiasRieper || p == ChhapriBhaiya
    ensures p == TobiasRieper <==> PersonalityKey(personalities, group) == Some(TobiasKey)
  {
    match PersonalityKey(personalities, group)
    case Some(key) => if key == TobiasKey then TobiasRieper else ChhapriBhaiya
    case None => ChhapriBhaiya
  }

  /** A group with its own entry gets that personality whatever the default says. */
  lemma OwnEntryWins(personalities: map<string, string>, group: string, key: string)
    requires group in personalities && personalities[group] == key && key != ""
    ensures GetPersonalityForGroup(personalities, group) == (if key == TobiasKey then TobiasRieper else ChhapriBhaiya)
  {
  }

  /** Without any table entry for the group or a default, the personality is Chhapri Bhaiya. */
  lemma NoEntryIsChhapri(personalities: map<string, string>, group: string)
    requires group !in personalities && DefaultKey !in personalities
    ensures GetPersonalityForGroup(personalities, group) == ChhapriBhaiya
  {
  }

  /** The sample sets hold four and two exchanges. */
  lemma SampleCounts()
    ensures |ChhapriBhaiya.sampleQAs| == 4 && |TobiasRieper.sampleQAs| == 2
    ensures ChhapriBhaiya != TobiasRieper
  {
  }
}
