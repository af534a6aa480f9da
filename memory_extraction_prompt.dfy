/**
 * The extraction prompt of prompts/memory-extraction.ts: the transcript rendered
 * as "User: ..." / "AI: ..." blocks, embedded in a fixed instruction template,
 * and the example profile kept as a fixture.
 */
module ExtractionPrompt {
  import opened Text
  import opened Wrappers
  import opened Types

  /** The tag a message is written with: "User" for the user, "AI" for anything else. */
  function Speaker(role: Role): string {
    if role == User then "User" else "AI"
  }

  /** One message as `${role}: ${content}`, the content verbatim. */
  function RenderMessage(m: ChatMessage): string {
    Speaker(m.role) + ": " + m.content
  }

  function RenderAll(messages: seq<ChatMessage>): (r: seq<string>)
    ensures |r| == |messages|
    ensures forall k :: 0 <= k < |messages| ==> r[k] == RenderMessage(messages[k])
  {
    seq(|messages|, k requires 0 <= k < |messages| => RenderMessage(messages[k]))
  }

  /** The conversation block: the rendered messages in order, separated by a blank line. */
  function ConversationText(messages: seq<ChatMessage>): (r: string)
    ensures r == "" <==> messages == []
  {
    var lines := RenderAll(messages);
    JoinNonEmpty(lines, "\n\n");
    Join(lines, "\n\n")
  }

  /** The instructions before the conversation block; they do not depend on the input. */
  const PromptPrefix: string := @"You are a sophisticated memory extraction system for a companion AI. Your task is to analyze the following conversation and extract structured information about the user.

**CRITICAL INSTRUCTIONS:**

1. **Focus on PATTERNS, not one-off mentions**
   - Only include information that appears 2+ times or is clearly emphasized
   - Avoid assumptions based on single mentions

2. **Be SPECIFIC, not vague**
   - Extract concrete details (e.g., ""loves brewing specialty coffee"" not ""likes coffee"")
   - Include context when relevant

3. **Extract ACTIONABLE information**
   - Information that helps understand the user deeply
   - Details that can be referenced in future conversations

4. **Analyze across ALL messages**
   - Look for recurring themes
   - Identify patterns in emotional responses
   - Notice consistent habits or preferences

**EXTRACTION CATEGORIES:**

**Preferences:**
- hobbies: Activities the user actively engages in or talks about doing
- likes: Things the user expresses positive feelings about
- dislikes: Things the user expresses negative feelings about or avoids
- habits: Regular routines or behavioral patterns

**Emotional Patterns:**
- commonEmotions: Emotions the user frequently expresses or experiences
- stressTriggers: Situations, events, or factors that cause stress or anxiety
- joySources: Things that consistently bring happiness, excitement, or satisfaction
- communicationStyle: How the user communicates (e.g., ""direct and analytical"", ""reflective and thoughtful"", ""casual and humorous"")

**Facts:**
- personalDetails: Concrete personal information (occupation, location, age, etc.)
- relationships: Information about family, friends, colleagues, pets
- goals: Aspirations, objectives, or things they're working towards
- values: Core beliefs, principles, or what matters most to them

**OUTPUT FORMAT:**
Return ONLY a valid JSON object with this exact structure:

{
  ""preferences"": {
    ""hobbies"": [""specific hobby 1"", ""specific hobby 2""],
    ""likes"": [""specific like 1"", ""specific like 2""],
    ""dislikes"": [""specific dislike 1"", ""specific dislike 2""],
    ""habits"": [""specific habit 1"", ""specific habit 2""]
  },
  ""emotionalPatterns"": {
    ""commonEmotions"": [""emotion 1"", ""emotion 2""],
    ""stressTriggers"": [""trigger 1"", ""trigger 2""],
    ""joySources"": [""source 1"", ""source 2""],
    ""communicationStyle"": ""description of communication style""
  },
  ""facts"": {
    ""personalDetails"": [""detail 1"", ""detail 2""],
    ""relationships"": [""relationship 1"", ""relationship 2""],
    ""goals"": [""goal 1"", ""goal 2""],
    ""values"": [""value 1"", ""value 2""]
  }
}

**QUALITY GUIDELINES:**
- Each array should contain 2-8 items (avoid empty arrays or single items unless truly warranted)
- Be specific and detailed in each entry
- Use complete sentences or detailed phrases
- Ensure information is evidence-based from the conversation
- If a category has insufficient evidence, include fewer items rather than making assumptions

**CONVERSATION TO ANALYZE:**

"

  /** The line after the conversation block. */
  const PromptSuffix: string := "\n\n**NOW EXTRACT THE MEMORIES:**"

  /** `createMemoryExtractionPrompt`: the fixed prefix, the conversation block, the fixed suffix. */
  function CreateMemoryExtractionPrompt(messages: seq<ChatMessage>): (r: string)
    ensures |PromptPrefix| + |PromptSuffix| <= |r|
    ensures r[..|PromptPrefix|] == PromptPrefix
    ensures r[|r| - |PromptSuffix|..] == PromptSuffix
    ensures r[|PromptPrefix|..|r| - |PromptSuffix|] == ConversationText(messages)
  {
    ThreeParts(PromptPrefix, ConversationText(messages), PromptSuffix);
    PromptPrefix + ConversationText(messages) + PromptSuffix
  }

  /** Each part of a concatenation of three can be sliced back out of it. */
  lemma ThreeParts(a: string, b: string, c: string)
    ensures var r := a + b + c;
      && r[..|a|] == a
      && r[|a|..|r| - |c|] == b
      && r[|r| - |c|..] == c
  {
    var r := a + b + c;
    assert r[..|a|] == a;
    assert r[|a|..|r| - |c|] == b;
  }

  /** With no messages the block is empty and the prompt is the template alone. */
  lemma EmptyConversationPrompt()
    ensures CreateMemoryExtractionPrompt([]) == PromptPrefix + PromptSuffix
  {
  }

  /** Every message content appears verbatim, unescaped, in the conversation block. */
  lemma {:induction false} ContentInConversation(messages: seq<ChatMessage>, k: nat)
    requires k < |messages|
    ensures exists i :: OccursAt(ConversationText(messages), messages[k].content, i)
  {
    var block := ConversationText(messages);
    var line := RenderMessage(messages[k]);
    var content := messages[k].content;
    JoinContainsElement(RenderAll(messages), "\n\n", k);
    var i :| OccursAt(block, line, i);
    var off := |Speaker(messages[k].role)| + 2;
    assert OccursAt(line, content, off);
    OccursWithin(block, line, content, i, off);
  }

  /** Every message content appears verbatim, unescaped, in the prompt. */
  lemma {:induction false} ContentInPrompt(messages: seq<ChatMessage>, k: nat)
    requires k < |messages|
    ensures exists i :: OccursAt(CreateMemoryExtractionPrompt(messages), messages[k].content, i)
  {
    var r := CreateMemoryExtractionPrompt(messages);
    ContentInConversation(messages, k);
    var i :| OccursAt(ConversationText(messages), messages[k].content, i);
    var n := |PromptPrefix|;
    assert OccursAt(r, ConversationText(messages), n);
    OccursWithin(r, ConversationText(messages), messages[k].content, n, i);
  }

  /** `EXAMPLE_EXTRACTION`: the sample profile kept for testing. */
  const ExampleExtraction: ExtractedMemory := ExtractedMemory(
    Preferences(
      [ "Rock climbing at indoor gym",
        "Reading sci-fi novels, especially Isaac Asimov",
        "Experimenting with new coffee brewing methods" ],
      [ "Quiet mornings with coffee and a book",
        "Problem-solving and technical challenges",
        "Minimalist design and clean spaces" ],
      [ "Crowded social events",
        "Unnecessary meetings",
        "Cluttered or disorganized environments" ],
      [ "Wakes up at 6 AM to work out",
        "Reviews goals every Sunday evening",
        "Takes breaks to walk outside during work" ]),
    EmotionalPatterns(
      [ "Focused determination when working on projects",
        "Frustration with inefficient processes",
        "Contentment during solo activities" ],
      [ "Tight deadlines with unclear requirements",
        "Dealing with office politics",
        "Feeling overwhelmed by too many commitments" ],
      [ "Completing challenging projects successfully",
        "Learning new technical skills",
        "Quality time alone to recharge" ],
      "Direct and analytical, prefers clear communication with specific details, thinks before responding"),
    Facts(
      [ "Software engineer at a mid-size tech company",
        "Lives in a small apartment in the city",
        "26 years old" ],
      [ "Close with younger sister who lives in another state",
        "Has a small circle of friends from college",
        "Recently adopted a cat named Luna" ],
      [ "Become a senior engineer within 2 years",
        "Build a side project that generates passive income",
        "Improve work-life balance and set better boundaries" ],
      [ "Personal growth and continuous learning",
        "Authenticity and honest communication",
        "Independence and self-sufficiency" ]))

  /** The fixture passes the schema unchanged; each of its 11 lists has 3 items and its style is non-empty. */
  lemma ExampleExtractionConforms()
    ensures ParseExtractedMemory(MemoryToJson(ExampleExtraction)) == Some(ExampleExtraction)
    ensures var e := ExampleExtraction;
      && |e.preferences.hobbies| == |e.preferences.likes| == |e.preferences.dislikes| == |e.preferences.habits| == 3
      && |e.emotionalPatterns.commonEmotions| == |e.emotionalPatterns.stressTriggers| == |e.emotionalPatterns.joySources| == 3
      && |e.facts.personalDetails| == |e.facts.relationships| == |e.facts.goals| == |e.facts.values| == 3
      && e.emotionalPatterns.communicationStyle != ""
  {
    ParseMemoryToJson(ExampleExtraction);
  }
}
