/**
 * prompts/personalities.ts: the three personas, the memory context block and
 * the prompt sent to the model for one persona.
 */
module Personalities {
  import opened Text
  import opened Types

  // ===== The persona table =====

  // The persona instructions, verbatim.
  const CalmMentorPrompt: string := @"You are a wise, patient mentor who helps people discover their own answers rather than simply providing solutions. Your approach is:

**Communication Style:**
- Speak calmly, thoughtfully, and with measured wisdom
- Use metaphors from nature, life experiences, or timeless wisdom
- Ask guiding questions that help people reflect deeply
- Provide perspective rather than direct instructions
- Reference past experiences to illuminate patterns

**Tone Characteristics:**
- Patient and unhurried
- Reflective and contemplative
- Warm but composed
- Encouraging without being overly enthusiastic
- Wise without being preachy

**How You Use Memories:**
- Reference the user's past experiences to help them see patterns
- Connect their current situation to lessons from their history
- Show how their values and goals relate to the question at hand
- Help them recognize their own growth and wisdom

**Example Phrases:**
- ""I notice in our conversations that you...""
- ""Consider this perspective...""
- ""What would happen if you...""
- ""Remember when you mentioned...""
- ""Like a river finding its path..."""

  const WittyFriendPrompt: string := @"You are a fun, playful friend who makes conversations enjoyable with humor and relatable references. Your approach is:

**Communication Style:**
- Casual and conversational, like texting a close friend
- Use humor, wit, and playful teasing (always kind-hearted)
- Reference pop culture, memes, and shared interests
- Keep things light and entertaining
- Create inside jokes based on what you know about them

**Tone Characteristics:**
- Energetic and upbeat
- Playful and humorous
- Casual with occasional slang
- Warm and friendly
- Supportive but never preachy

**How You Use Memories:**
- Reference their interests and hobbies in fun ways
- Make callbacks to things they've mentioned before
- Create connections to things they enjoy
- Show you ""get"" them through specific references
- Use their preferences to add personality to responses

**Example Phrases:**
- ""Okay so here's the thing...""
- ""You know how you always...""
- ""This reminds me of when you said...""
- ""Classic [their name] move! 😄""
- ""Wait, wasn't this like that time...""
- ""Dude, remember..."""

  const TherapistPrompt: string := @"You are an empathetic, validating therapist who creates a safe, non-judgmental space. Your approach is:

**Communication Style:**
- Warm, gentle, and validating
- Practice reflective listening (mirror back feelings and content)
- Acknowledge emotions before problem-solving
- Ask open-ended, exploratory questions
- Normalize feelings and experiences
- Create psychological safety

**Tone Characteristics:**
- Empathetic and understanding
- Gentle and soothing
- Non-judgmental and accepting
- Present and attentive
- Validating without toxic positivity

**How You Use Memories:**
- Acknowledge patterns in their emotional experiences
- Recognize and validate their stress triggers
- Celebrate their sources of joy
- Show deep understanding of their communication style
- Reference their values when exploring challenges

**Therapeutic Techniques:**
- Validation: ""It makes sense that you'd feel...""
- Reflection: ""What I'm hearing is...""
- Normalization: ""Many people experience...""
- Exploration: ""Tell me more about...""
- Connection: ""I notice this relates to...""

**Example Phrases:**
- ""That sounds really challenging...""
- ""It's completely understandable that you'd feel...""
- ""I'm hearing that...""
- ""How does that sit with you?""
- ""Given what you've shared about [memory], I can see why...""
- ""Let's explore that feeling together..."""

  const CalmMentorConfig: PersonalityConfig := PersonalityConfig(
    CalmMentor,
    "Calm Mentor",
    "A wise, patient guide who helps you find your own answers through reflection and thoughtful questions.",
    CalmMentorPrompt,
    7,
    "blue",
    ["Reflective", "Guiding", "Patient", "Uses metaphors", "Asks questions"])

  const WittyFriendConfig: PersonalityConfig := PersonalityConfig(
    WittyFriend,
    "Witty Friend",
    "A fun, playful companion who keeps things light with humor, inside jokes, and casual banter.",
    WittyFriendPrompt,
    9,
    "yellow",
    ["Playful", "Humorous", "Casual", "Relatable", "Uses references"])

  const TherapistConfig: PersonalityConfig := PersonalityConfig(
    Therapist,
    "Therapist",
    "An empathetic, validating listener who creates a safe space for processing emotions and experiences.",
    TherapistPrompt,
    6,
    "purple",
    ["Empathetic", "Validating", "Gentle", "Reflective", "Non-judgmental"])

  /** `PERSONALITIES`: one configuration per persona id. */
  const PersonalityTable: map<PersonalityType, PersonalityConfig> :=
    map[CalmMentor := CalmMentorConfig, WittyFriend := WittyFriendConfig, Therapist := TherapistConfig]

  /** `getPersonality(type)`: the configuration of that id. */
  function GetPersonality(t: PersonalityType): (c: PersonalityConfig)
    ensures c.id == t
  {
    match t
    case CalmMentor => CalmMentorConfig
    case WittyFriend => WittyFriendConfig
    case Therapist => TherapistConfig
  }

  /**
   * The table has exactly the three ids as keys, each entry carries its own key
   * as `id`, and looking an id up gives that persona's configuration.
   */
  lemma PersonalityTableKeys()
    ensures PersonalityTable.Keys == {CalmMentor, WittyFriend, Therapist}
    ensures forall t :: t in PersonalityTable && PersonalityTable[t] == GetPersonality(t)
    ensures forall t :: t in PersonalityTable ==> PersonalityTable[t].id == t
  {
    forall t ensures t in PersonalityTable && PersonalityTable[t] == GetPersonality(t) {
      TableEntry(t);
    }
  }

  /** The entry of each id is that persona's configuration. */
  lemma TableEntry(t: PersonalityType)
    ensures t in PersonalityTable && PersonalityTable[t] == GetPersonality(t)
  {
  }

  /** `getAllPersonalities()`: the table's values in declaration order. */
  function GetAllPersonalities(): (r: seq<PersonalityConfig>)
    ensures |r| == 3
    ensures r[0] == GetPersonality(CalmMentor)
    ensures r[1] == GetPersonality(WittyFriend)
    ensures r[2] == GetPersonality(Therapist)
  {
    [CalmMentorConfig, WittyFriendConfig, TherapistConfig]
  }

  /** Each persona's temperature, in tenths: 0.7, 0.9 and 0.6. */
  lemma Temperatures()
    ensures GetPersonality(CalmMentor).temperature == 7
    ensures GetPersonality(WittyFriend).temperature == 9
    ensures GetPersonality(Therapist).temperature == 6
  {
  }

  /** The three personas have distinct names. */
  lemma NamesDistinct(t1: PersonalityType, t2: PersonalityType)
    requires GetPersonality(t1).name == GetPersonality(t2).name
    ensures t1 == t2
  {
  }

  // ===== The memory context =====

  /** One printed line: `${label}: ${items.join(", ")}`. */
  function Line(title: string, items: seq<string>): string {
    title + ": " + Join(items, ", ")
  }

  /** The line for `items`, when there are any. */
  function LineIfAny(title: string, items: seq<string>): seq<string> {
    if |items| > 0 then [Line(title, items)] else []
  }

  /** The lines of the preferences section. */
  function PreferenceParts(p: Preferences): seq<string> {
    LineIfAny("Hobbies", p.hobbies) + LineIfAny("Likes", p.likes)
    + LineIfAny("Dislikes", p.dislikes) + LineIfAny("Habits", p.habits)
  }

  /** The lines of the emotional patterns section; the communication style only when non-empty. */
  function EmotionParts(e: EmotionalPatterns): seq<string> {
    LineIfAny("Common Emotions", e.commonEmotions) + LineIfAny("Stress Triggers", e.stressTriggers)
    + LineIfAny("Joy Sources", e.joySources)
    + (if e.communicationStyle != "" then ["Communication Style: " + e.communicationStyle] else [])
  }

  /** The lines of the facts section; personal details under the label "Personal". */
  function FactParts(f: Facts): seq<string> {
    LineIfAny("Personal", f.personalDetails) + LineIfAny("Relationships", f.relationships)
    + LineIfAny("Goals", f.goals) + LineIfAny("Values", f.values)
  }

  const PreferencesHeader: string := "**Preferences:**\n"
  const EmotionsHeader: string := "**Emotional Patterns:**\n"
  const FactsHeader: string := "**Important Facts:**\n"

  /** Each section is printed only when one of the two lists that open it is non-empty. */
  predicate PreferencesOpen(p: Preferences) {
    |p.hobbies| > 0 || |p.likes| > 0
  }

  predicate EmotionsOpen(e: EmotionalPatterns) {
    |e.commonEmotions| > 0 || |e.stressTriggers| > 0
  }

  predicate FactsOpen(f: Facts) {
    |f.personalDetails| > 0 || |f.goals| > 0
  }

  function Section(header: string, parts: seq<string>): string {
    header + Join(parts, "\n")
  }

  /** The preferences section, when it is open. */
  function PreferencesSection(p: Preferences): seq<string> {
    if PreferencesOpen(p) then [Section(PreferencesHeader, PreferenceParts(p))] else []
  }

  /** The emotional patterns section, when it is open. */
  function EmotionsSection(e: EmotionalPatterns): seq<string> {
    if EmotionsOpen(e) then [Section(EmotionsHeader, EmotionParts(e))] else []
  }

  /** The facts section, when it is open. */
  function FactsSection(f: Facts): seq<string> {
    if FactsOpen(f) then [Section(FactsHeader, FactParts(f))] else []
  }

  /** The sections of the memory context, in the order preferences, emotional patterns, facts. */
  function ContextSections(m: ExtractedMemory): seq<string> {
    PreferencesSection(m.preferences) + EmotionsSection(m.emotionalPatterns) + FactsSection(m.facts)
  }

  /** What `formatMemoriesForContext` returns: the sections joined by a blank line. */
  function MemoryContext(m: ExtractedMemory): string {
    Join(ContextSections(m), "\n\n")
  }

  /** `formatMemoriesForContext`: builds each section's lines, then the sections, by pushing under conditions. */
  method FormatMemoriesForContext(memories: ExtractedMemory) returns (context: string)
    ensures context == MemoryContext(memories)
  {
    var sections: seq<string> := [];
    var p := memories.preferences;
    if |p.hobbies| > 0 || |p.likes| > 0 {
      var parts: seq<string> := [];
      if |p.hobbies| > 0 {
        parts := parts + [Line("Hobbies", p.hobbies)];
      }
      assert parts == LineIfAny("Hobbies", p.hobbies);
      if |p.likes| > 0 {
        parts := parts + [Line("Likes", p.likes)];
      }
      assert parts == LineIfAny("Hobbies", p.hobbies) + LineIfAny("Likes", p.likes);
      if |p.dislikes| > 0 {
        parts := parts + [Line("Dislikes", p.dislikes)];
      }
      assert parts == LineIfAny("Hobbies", p.hobbies) + LineIfAny("Likes", p.likes) + LineIfAny("Dislikes", p.dislikes);
      if |p.habits| > 0 {
        parts := parts + [Line("Habits", p.habits)];
      }
      assert parts == LineIfAny("Hobbies", p.hobbies) + LineIfAny("Likes", p.likes) + LineIfAny("Dislikes", p.dislikes) + LineIfAny("Habits", p.habits);
      assert parts == PreferenceParts(p);
      sections := sections + [PreferencesHeader + Join(parts, "\n")];
    }
    assert sections == PreferencesSection(p);
    var e := memories.emotionalPatterns;
    if |e.commonEmotions| > 0 || |e.stressTriggers| > 0 {
      var parts: seq<string> := [];
      if |e.commonEmotions| > 0 {
        parts := parts + [Line("Common Emotions", e.commonEmotions)];
      }
      assert parts == LineIfAny("Common Emotions", e.commonEmotions);
      if |e.stressTriggers| > 0 {
        parts := parts + [Line("Stress Triggers", e.stressTriggers)];
      }
      assert parts == LineIfAny("Common Emotions", e.commonEmotions) + LineIfAny("Stress Triggers", e.stressTriggers);
      if |e.joySources| > 0 {
        parts := parts + [Line("Joy Sources", e.joySources)];
      }
      assert parts == LineIfAny("Common Emotions", e.commonEmotions) + LineIfAny("Stress Triggers", e.stressTriggers) + LineIfAny("Joy Sources", e.joySources);
      if e.communicationStyle != "" {
        parts := parts + ["Communication Style: " + e.communicationStyle];
      }
      assert parts == EmotionParts(e);
      sections := sections + [EmotionsHeader + Join(parts, "\n")];
    }
    assert sections == PreferencesSection(p) + EmotionsSection(e);
    var f := memories.facts;
    if |f.personalDetails| > 0 || |f.goals| > 0 {
      var parts: seq<string> := [];
      if |f.personalDetails| > 0 {
        parts := parts + [Line("Personal", f.personalDetails)];
      }
      assert parts == LineIfAny("Personal", f.personalDetails);
      if |f.relationships| > 0 {
        parts := parts + [Line("Relationships", f.relationships)];
      }
      assert parts == LineIfAny("Personal", f.personalDetails) + LineIfAny("Relationships", f.relationships);
      if |f.goals| > 0 {
        parts := parts + [Line("Goals", f.goals)];
      }
      assert parts == LineIfAny("Personal", f.personalDetails) + LineIfAny("Relationships", f.relationships) + LineIfAny("Goals", f.goals);
      if |f.values| > 0 {
        parts := parts + [Line("Values", f.values)];
      }
      assert parts == LineIfAny("Personal", f.personalDetails) + LineIfAny("Relationships", f.relationships) + LineIfAny("Goals", f.goals) + LineIfAny("Values", f.values);
      assert parts == FactParts(f);
      sections := sections + [FactsHeader + Join(parts, "\n")];
    }
    assert sections == ContextSections(memories);
    context := Join(sections, "\n\n");
  }

  /** A section is never empty: it starts with its header. */
  lemma {:induction false} ContextEmptyIff(m: ExtractedMemory)
    ensures MemoryContext(m) == "" <==>
      !PreferencesOpen(m.preferences) && !EmotionsOpen(m.emotionalPatterns) && !FactsOpen(m.facts)
  {
    var sections := ContextSections(m);
    if |sections| > 0 {
      JoinStartsWithFirst(sections, "\n\n");
      assert |sections[0]| > 0;
    }
  }

  /**
   * A closed section adds nothing, whatever its other lists hold: two profiles
   * whose sections are each the same or closed in both give the same context.
   */
  lemma ClosedSectionsIgnored(m1: ExtractedMemory, m2: ExtractedMemory)
    requires m1.preferences == m2.preferences || (!PreferencesOpen(m1.preferences) && !PreferencesOpen(m2.preferences))
    requires m1.emotionalPatterns == m2.emotionalPatterns
      || (!EmotionsOpen(m1.emotionalPatterns) && !EmotionsOpen(m2.emotionalPatterns))
    requires m1.facts == m2.facts || (!FactsOpen(m1.facts) && !FactsOpen(m2.facts))
    ensures MemoryContext(m1) == MemoryContext(m2)
  {
  }

  /** A closed section is left out of the context, and the open ones are joined as they stand. */
  lemma ClosedSectionOmitted(m: ExtractedMemory)
    ensures var p, e, f := m.preferences, m.emotionalPatterns, m.facts;
      && (!PreferencesOpen(p) ==> MemoryContext(m) == Join(EmotionsSection(e) + FactsSection(f), "\n\n"))
      && (!EmotionsOpen(e) ==> MemoryContext(m) == Join(PreferencesSection(p) + FactsSection(f), "\n\n"))
      && (!FactsOpen(f) ==> MemoryContext(m) == Join(PreferencesSection(p) + EmotionsSection(e), "\n\n"))
  {
    var p, e, f := m.preferences, m.emotionalPatterns, m.facts;
    assert !PreferencesOpen(p) ==> ContextSections(m) == EmotionsSection(e) + FactsSection(f);
    assert !EmotionsOpen(e) ==> ContextSections(m) == PreferencesSection(p) + FactsSection(f);
    assert !FactsOpen(f) ==> ContextSections(m) == PreferencesSection(p) + EmotionsSection(e);
  }

  /** An open section is shown: its header occurs in the context. */
  lemma OpenSectionShown(m: ExtractedMemory)
    ensures PreferencesOpen(m.preferences) ==> Contains(MemoryContext(m), PreferencesHeader)
    ensures EmotionsOpen(m.emotionalPatterns) ==> Contains(MemoryContext(m), EmotionsHeader)
    ensures FactsOpen(m.facts) ==> Contains(MemoryContext(m), FactsHeader)
  {
    if PreferencesOpen(m.preferences) {
      HeaderInSection(PreferencesHeader, PreferenceParts(m.preferences));
      SectionInContext(m, PreferencesHeader);
    }
    if EmotionsOpen(m.emotionalPatterns) {
      HeaderInSection(EmotionsHeader, EmotionParts(m.emotionalPatterns));
      SectionInContext(m, EmotionsHeader);
    }
    if FactsOpen(m.facts) {
      HeaderInSection(FactsHeader, FactParts(m.facts));
      SectionInContext(m, FactsHeader);
    }
  }

  lemma HeaderInSection(header: string, parts: seq<string>)
    ensures InSome([Section(header, parts)], header)
  {
    assert OccursAt([Section(header, parts)][0], header, 0);
  }

  /**
   * Only the two opening lists of a section count: in a section whose opening
   * lists are empty, dislikes, habits, joy sources, the communication style,
   * relationships and values print nothing, whatever the other sections hold.
   */
  lemma OnlyOpeningListsCount(m: ExtractedMemory)
    ensures var p := m.preferences;
      p.hobbies == [] && p.likes == [] ==>
        MemoryContext(m) == MemoryContext(m.(preferences := p.(dislikes := [], habits := [])))
    ensures var e := m.emotionalPatterns;
      e.commonEmotions == [] && e.stressTriggers == [] ==>
        MemoryContext(m) == MemoryContext(m.(emotionalPatterns := e.(joySources := [], communicationStyle := "")))
    ensures var f := m.facts;
      f.personalDetails == [] && f.goals == [] ==>
        MemoryContext(m) == MemoryContext(m.(facts := f.(relationships := [], values := [])))
    ensures
      && m.preferences.hobbies == [] && m.preferences.likes == []
      && m.emotionalPatterns.commonEmotions == [] && m.emotionalPatterns.stressTriggers == []
      && m.facts.personalDetails == [] && m.facts.goals == []
      ==> MemoryContext(m) == ""
  {
    var p, e, f := m.preferences, m.emotionalPatterns, m.facts;
    if p.hobbies == [] && p.likes == [] {
      ClosedSectionsIgnored(m, m.(preferences := p.(dislikes := [], habits := [])));
    }
    if e.commonEmotions == [] && e.stressTriggers == [] {
      ClosedSectionsIgnored(m, m.(emotionalPatterns := e.(joySources := [], communicationStyle := "")));
    }
    if f.personalDetails == [] && f.goals == [] {
      ClosedSectionsIgnored(m, m.(facts := f.(relationships := [], values := [])));
    }
  }

  /** A listed item occurs verbatim in its line. */
  lemma ItemInLine(title: string, items: seq<string>, item: string)
    requires item in items
    ensures InSome(LineIfAny(title, items), item)
  {
    var k :| 0 <= k < |items| && items[k] == item;
    JoinContainsElement(items, ", ", k);
    OccursAfterPrefix(title + ": ", Join(items, ", "), item);
    assert Line(title, items) == (title + ": ") + Join(items, ", ");
    var i :| OccursAt(Line(title, items), item, i);
    assert LineIfAny(title, items)[0] == Line(title, items);
  }

  /** What occurs in one of a section's lines occurs in the section. */
  lemma InSection(header: string, parts: seq<string>, item: string)
    requires InSome(parts, item)
    ensures InSome([Section(header, parts)], item)
  {
    InSomeJoin(parts, "\n", item);
    OccursAfterPrefix(header, Join(parts, "\n"), item);
    var i :| OccursAt(Section(header, parts), item, i);
    assert [Section(header, parts)][0] == Section(header, parts);
  }

  /** Every item of the four preference lists occurs verbatim in the context when the section is open. */
  lemma PreferenceItemInContext(m: ExtractedMemory, item: string)
    requires PreferencesOpen(m.preferences)
    requires var p := m.preferences; item in p.hobbies || item in p.likes || item in p.dislikes || item in p.habits
    ensures Contains(MemoryContext(m), item)
  {
    var p := m.preferences;
    var a, b, c, d := LineIfAny("Hobbies", p.hobbies), LineIfAny("Likes", p.likes), LineIfAny("Dislikes", p.dislikes), LineIfAny("Habits", p.habits);
    if item in p.hobbies {
      ItemInLine("Hobbies", p.hobbies, item);
    } else if item in p.likes {
      ItemInLine("Likes", p.likes, item);
    } else if item in p.dislikes {
      ItemInLine("Dislikes", p.dislikes, item);
    } else {
      ItemInLine("Habits", p.habits, item);
    }
    InSomeAppend(a, b, item);
    InSomeAppend(a + b, c, item);
    InSomeAppend(a + b + c, d, item);
    InSection(PreferencesHeader, PreferenceParts(p), item);
    SectionInContext(m, item);
  }

  /** Every emotion item, and a non-empty communication style, occurs verbatim in the context when the section is open. */
  lemma EmotionItemInContext(m: ExtractedMemory, item: string)
    requires EmotionsOpen(m.emotionalPatterns)
    requires var e := m.emotionalPatterns;
      || item in e.commonEmotions || item in e.stressTriggers || item in e.joySources
      || (item == e.communicationStyle && item != "")
    ensures Contains(MemoryContext(m), item)
  {
    var e := m.emotionalPatterns;
    var a, b, c := LineIfAny("Common Emotions", e.commonEmotions), LineIfAny("Stress Triggers", e.stressTriggers), LineIfAny("Joy Sources", e.joySources);
    var d := if e.communicationStyle != "" then ["Communication Style: " + e.communicationStyle] else [];
    if item in e.commonEmotions {
      ItemInLine("Common Emotions", e.commonEmotions, item);
    } else if item in e.stressTriggers {
      ItemInLine("Stress Triggers", e.stressTriggers, item);
    } else if item in e.joySources {
      ItemInLine("Joy Sources", e.joySources, item);
    } else {
      assert OccursAt(d[0], item, |"Communication Style: "|);
    }
    InSomeAppend(a, b, item);
    InSomeAppend(a + b, c, item);
    InSomeAppend(a + b + c, d, item);
    InSection(EmotionsHeader, EmotionParts(e), item);
    SectionInContext(m, item);
  }

  /** Every fact occurs verbatim in the context when the section is open. */
  lemma FactItemInContext(m: ExtractedMemory, item: string)
    requires FactsOpen(m.facts)
    requires var f := m.facts; item in f.personalDetails || item in f.relationships || item in f.goals || item in f.values
    ensures Contains(MemoryContext(m), item)
  {
    var f := m.facts;
    var a, b, c, d := LineIfAny("Personal", f.personalDetails), LineIfAny("Relationships", f.relationships), LineIfAny("Goals", f.goals), LineIfAny("Values", f.values);
    if item in f.personalDetails {
      ItemInLine("Personal", f.personalDetails, item);
    } else if item in f.relationships {
      ItemInLine("Relationships", f.relationships, item);
    } else if item in f.goals {
      ItemInLine("Goals", f.goals, item);
    } else {
      ItemInLine("Values", f.values, item);
    }
    InSomeAppend(a, b, item);
    InSomeAppend(a + b, c, item);
    InSomeAppend(a + b + c, d, item);
    InSection(FactsHeader, FactParts(f), item);
    SectionInContext(m, item);
  }

  /** What occurs in an open section occurs in the context. */
  lemma SectionInContext(m: ExtractedMemory, item: string)
    requires
      || (PreferencesOpen(m.preferences) && InSome(PreferencesSection(m.preferences), item))
      || (EmotionsOpen(m.emotionalPatterns) && InSome(EmotionsSection(m.emotionalPatterns), item))
      || (FactsOpen(m.facts) && InSome(FactsSection(m.facts), item))
    ensures Contains(MemoryContext(m), item)
  {
    var a, b, c := PreferencesSection(m.preferences), EmotionsSection(m.emotionalPatterns), FactsSection(m.facts);
    InSomeAppend(a, b, item);
    InSomeAppend(a + b, c, item);
    InSomeJoin(ContextSections(m), "\n\n", item);
  }

  // ===== The persona prompt =====

  /** Everything before the query: the persona's instructions, then the fixed rules and the memory context. */
  function PromptHead(config: PersonalityConfig, memoryContext: string): string {
    config.systemPrompt + PromptRules(config.name, memoryContext)
  }

  const RulesOpening: string := "\n\n**IMPORTANT INSTRUCTIONS:**\n1. Stay fully in character for the "

  const RulesClosing: string :=
    " personality"
    + "\n2. Use the provided memories naturally - don't just list them"
    + "\n3. Keep your response conversational (2-4 paragraphs)"
    + "\n4. Reference specific memories when relevant to the question"
    + "\n5. Maintain the tone and style described above"
    + "\n\n**WHAT YOU KNOW ABOUT THE USER:**\n\n"

  const QuestionHeading: string := "\n\n**USER'S QUESTION:**\n"

  /** The fixed rules naming the persona, the memory context and the query heading. */
  function PromptRules(name: string, memoryContext: string): string {
    RulesOpening + name + RulesClosing + memoryContext + QuestionHeading
  }

  /** Everything after the query: the cue naming the persona. */
  function ResponseCue(name: string): string {
    CueOpening + name + "):**"
  }

  const CueOpening: string := "\n\n**YOUR RESPONSE (as "

  /** The first, third and fourth parts of a concatenation can be found back in it. */
  lemma FourParts(a: string, b: string, c: string, d: string)
    ensures var r := a + (b + (c + d));
      a <= r && OccursAt(r, b, |a|) && OccursAt(r, c, |a| + |b|) && EndsWith(r, d)
  {
    var r := a + (b + (c + d));
    assert r[..|a|] == a;
    assert r[|a|..|a| + |b|] == b;
    assert r[|a| + |b|..|a| + |b| + |c|] == c;
    assert r[|r| - |d|..] == d;
  }

  /** The prompt for one persona configuration, memory context and query. */
  function PersonaPrompt(config: PersonalityConfig, query: string, memoryContext: string): string {
    config.systemPrompt + (PromptRules(config.name, memoryContext) + (query + ResponseCue(config.name)))
  }

  /**
   * The prompt starts with the persona's instructions, holds the query verbatim
   * right after the memory context and the question heading, and ends with the
   * cue naming the persona.
   */
  lemma PromptFraming(config: PersonalityConfig, query: string, memoryContext: string)
    ensures var r := PersonaPrompt(config, query, memoryContext);
      && config.systemPrompt <= r
      && EndsWith(r, ResponseCue(config.name))
      && OccursAt(r, query, |PromptHead(config, memoryContext)|)
  {
    FourParts(config.systemPrompt, PromptRules(config.name, memoryContext), query, ResponseCue(config.name));
  }

  /** The prompt embeds the memory context verbatim, right after the instructions and the fixed rules. */
  lemma ContextInPrompt(config: PersonalityConfig, query: string, memoryContext: string)
    ensures OccursAt(PersonaPrompt(config, query, memoryContext), memoryContext, ContextOffset(config))
  {
    ContextInParts(config.systemPrompt, RulesOpening, config.name, RulesClosing, memoryContext, QuestionHeading,
      query + ResponseCue(config.name));
  }

  /** The shape of the prompt over any strings: the context follows the head, the opening, the name and the closing. */
  lemma ContextInParts(head: string, opening: string, name: string, closing: string, context: string, heading: string, rest: string)
    ensures OccursAt(head + ((opening + name + closing + context + heading) + rest), context,
      |head| + |opening| + |name| + |closing|)
  {
    var lead := opening + name + closing;
    var rules := lead + context + heading;
    var r := head + (rules + rest);
    assert r[|head|..|head| + |rules|] == rules;
    MiddlePart(lead, context, heading);
    OccursWithin(r, rules, context, |head|, |lead|);
  }

  /** Where the memory context starts in a persona's prompt: after the instructions and the fixed rules. */
  function ContextOffset(config: PersonalityConfig): nat {
    |config.systemPrompt| + |RulesOpening| + |config.name| + |RulesClosing|
  }

  /** The middle part of a concatenation can be found back in it. */
  lemma MiddlePart(a: string, b: string, c: string)
    ensures OccursAt(a + b + c, b, |a|)
  {
    assert (a + b + c)[|a|..|a| + |b|] == b;
  }

  /**
   * The prompt embeds the memory context verbatim, so every item of an open
   * section of the profile reaches the model.
   */
  lemma MemoryItemInPrompt(t: PersonalityType, query: string, memories: ExtractedMemory, item: string)
    requires
      || (PreferencesOpen(memories.preferences) && InSome(PreferencesSection(memories.preferences), item))
      || (EmotionsOpen(memories.emotionalPatterns) && InSome(EmotionsSection(memories.emotionalPatterns), item))
      || (FactsOpen(memories.facts) && InSome(FactsSection(memories.facts), item))
    ensures Contains(CreatePersonalityPrompt(t, query, memories), item)
  {
    var config, context := GetPersonality(t), MemoryContext(memories);
    SectionInContext(memories, item);
    var i :| OccursAt(context, item, i);
    ContextInPrompt(config, query, context);
    OccursWithin(PersonaPrompt(config, query, context), context, item, ContextOffset(config), i);
  }

  /**
   * `createPersonalityPrompt`: the persona's instructions, the fixed rules, the
   * memory context, the query verbatim, and the cue naming the persona.
   */
  function CreatePersonalityPrompt(t: PersonalityType, query: string, memories: ExtractedMemory): (r: string)
  {
    PersonaPrompt(GetPersonality(t), query, MemoryContext(memories))
  }

  /**
   * The layout of `createPersonalityPrompt`: the persona's instructions first,
   * the memory context verbatim after the fixed rules, the query verbatim after
   * the question heading, and the cue naming the persona last.
   */
  lemma CreatePersonalityPromptLayout(t: PersonalityType, query: string, memories: ExtractedMemory)
    ensures var config, context := GetPersonality(t), MemoryContext(memories);
      var r := CreatePersonalityPrompt(t, query, memories);
      && config.systemPrompt <= r
      && OccursAt(r, context, ContextOffset(config))
      && OccursAt(r, query, |PromptHead(config, context)|)
      && EndsWith(r, ResponseCue(config.name))
  {
    var config, context := GetPersonality(t), MemoryContext(memories);
    PromptFraming(config, query, context);
    ContextInPrompt(config, query, context);
  }

  /** The query can be read back from the prompt: two queries give two prompts. */
  lemma PromptDeterminesQuery(t: PersonalityType, q1: string, q2: string, memories: ExtractedMemory)
    requires CreatePersonalityPrompt(t, q1, memories) == CreatePersonalityPrompt(t, q2, memories)
    ensures q1 == q2
  {
    var config, context := GetPersonality(t), MemoryContext(memories);
    PromptFraming(config, q1, context);
    PromptFraming(config, q2, context);
    assert |q1| == |q2|;
  }

  /** The persona can be read back from the last character of its name in the cue. */
  lemma PromptDeterminesPersona(t1: PersonalityType, t2: PersonalityType, q1: string, q2: string, m1: ExtractedMemory, m2: ExtractedMemory)
    requires CreatePersonalityPrompt(t1, q1, m1) == CreatePersonalityPrompt(t2, q2, m2)
    ensures t1 == t2
  {
    PromptNameEnd(t1, q1, m1);
    PromptNameEnd(t2, q2, m2);
  }

  /** The last character of each persona's name; no two are alike. */
  function NameEnd(t: PersonalityType): char {
    match t
    case CalmMentor => 'r'
    case WittyFriend => 'd'
    case Therapist => 't'
  }

  /** The character before the closing "):**" of a prompt is the last of the persona's name. */
  lemma PromptNameEnd(t: PersonalityType, query: string, memories: ExtractedMemory)
    ensures var r := CreatePersonalityPrompt(t, query, memories); |r| >= 5 && r[|r| - 5] == NameEnd(t)
  {
    var name := GetPersonality(t).name;
    PromptFraming(GetPersonality(t), query, MemoryContext(memories));
    CueEnd(CreatePersonalityPrompt(t, query, memories), name);
    assert name[|name| - 1] == NameEnd(t);
  }

  /** Where a string ends with the cue for `name`, the character before "):**" is the last of `name`. */
  lemma CueEnd(r: string, name: string)
    requires name != []
    requires EndsWith(r, ResponseCue(name))
    ensures |r| >= 5 && r[|r| - 5] == name[|name| - 1]
  {
    var cue := ResponseCue(name);
    assert cue[|cue| - 5] == name[|name| - 1];
    assert r[|r| - 5] == r[|r| - |cue|..][|cue| - 5];
  }
}
