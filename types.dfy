/**
 * The data model of lib/types.ts: chat messages, the extracted memory profile and
 * its schema check, the persona ids, configurations and responses.
 */
module Types {
  import opened Wrappers
  import opened JsonValues

  // ===== Chat messages =====

  /** `ChatMessage.role`: exactly "user" or "ai". */
  datatype Role = User | Ai

  datatype ChatMessage = ChatMessage(role: Role, content: string)

  function RoleName(role: Role): string {
    match role
    case User => "user"
    case Ai => "ai"
  }

  /** `z.enum(["user", "ai"])`: accepts exactly the two role names. */
  function ParseRole(s: string): (r: Option<Role>)
    ensures r.Some? <==> s == "user" || s == "ai"
    ensures r.Some? ==> RoleName(r.value) == s
  {
    if s == "user" then Some(User) else if s == "ai" then Some(Ai) else None
  }

  // ===== Memory profile =====

  datatype Preferences = Preferences(
    hobbies: seq<string>,
    likes: seq<string>,
    dislikes: seq<string>,
    habits: seq<string>)

  datatype EmotionalPatterns = EmotionalPatterns(
    commonEmotions: seq<string>,
    stressTriggers: seq<string>,
    joySources: seq<string>,
    communicationStyle: string)

  datatype Facts = Facts(
    personalDetails: seq<string>,
    relationships: seq<string>,
    goals: seq<string>,
    values: seq<string>)

  datatype ExtractedMemory = ExtractedMemory(
    preferences: Preferences,
    emotionalPatterns: EmotionalPatterns,
    facts: Facts)

  // ===== Personas =====

  /** `PersonalityType`: a closed set of three ids. */
  datatype PersonalityType = CalmMentor | WittyFriend | Therapist

  function PersonalityId(t: PersonalityType): string {
    match t
    case CalmMentor => "calm_mentor"
    case WittyFriend => "witty_friend"
    case Therapist => "therapist"
  }

  /** `z.enum(["calm_mentor", "witty_friend", "therapist"])`. */
  function ParsePersonalityType(s: string): (r: Option<PersonalityType>)
    ensures r.Some? <==> s == "calm_mentor" || s == "witty_friend" || s == "therapist"
    ensures r.Some? ==> PersonalityId(r.value) == s
  {
    if s == "calm_mentor" then Some(CalmMentor)
    else if s == "witty_friend" then Some(WittyFriend)
    else if s == "therapist" then Some(Therapist)
    else None
  }

  /** `PersonalityConfig`; `temperature` is in tenths (7 stands for 0.7). */
  datatype PersonalityConfig = PersonalityConfig(
    id: PersonalityType,
    name: string,
    description: string,
    systemPrompt: string,
    temperature: nat,
    color: string,
    characteristics: seq<string>)

  /** `PersonalityResponse` without its `generatedAt` time stamp. */
  datatype PersonalityResponse = PersonalityResponse(
    personality: PersonalityType,
    response: string,
    memoryReferences: seq<string>)

  // ===== Calls to the language model =====

  /**
   * The options each call hands to the model: temperature in tenths, output
   * budget and model name. The client in lib/gemini.ts is not part of this model:
   * a call is a function parameter from prompt and options to text or to the
   * message of the error it throws.
   */
  datatype GenerationOptions = GenerationOptions(temperature: nat, maxOutputTokens: nat, modelName: string)

  const ModelName: string := "models/gemini-2.5-flash-lite"

  // ===== The schema ExtractedMemorySchema =====

  /** A list of strings as a JSON array. */
  function StringsToJson(xs: seq<string>): Json {
    JArray(seq(|xs|, i requires 0 <= i < |xs| => JString(xs[i])))
  }

  /** `z.array(z.string())`: an array whose every element is a string. */
  function StringArray(j: Json): (r: Option<seq<string>>)
    ensures r.Some? <==> j.JArray? && forall i :: 0 <= i < |j.items| ==> j.items[i].JString?
    ensures r.Some? ==> j == StringsToJson(r.value)
  {
    if j.JArray? && forall i :: 0 <= i < |j.items| ==> j.items[i].JString? then
      var xs := seq(|j.items|, i requires 0 <= i < |j.items| => j.items[i].s);
      assert j.items == StringsToJson(xs).items;
      Some(xs)
    else
      None
  }

  /** A required member of type `z.array(z.string())`. */
  function ListMember(j: Json, key: string): Option<seq<string>> {
    match Member(j, key)
    case None => None
    case Some(v) => StringArray(v)
  }

  /** A required member of type `z.string()`; no minimum length, so "" passes. */
  function StringMember(j: Json, key: string): Option<string> {
    match Member(j, key)
    case Some(JString(s)) => Some(s)
    case _ => None
  }

  /** `PreferencesSchema.parse`. */
  function ParsePreferences(j: Json): Option<Preferences> {
    match (ListMember(j, "hobbies"), ListMember(j, "likes"), ListMember(j, "dislikes"), ListMember(j, "habits"))
    case (Some(h), Some(l), Some(d), Some(b)) => Some(Preferences(h, l, d, b))
    case _ => None
  }

  /** `EmotionalPatternsSchema.parse`. */
  function ParseEmotionalPatterns(j: Json): Option<EmotionalPatterns> {
    match (ListMember(j, "commonEmotions"), ListMember(j, "stressTriggers"), ListMember(j, "joySources"), StringMember(j, "communicationStyle"))
    case (Some(e), Some(t), Some(s), Some(c)) => Some(EmotionalPatterns(e, t, s, c))
    case _ => None
  }

  /** `FactsSchema.parse`. */
  function ParseFacts(j: Json): Option<Facts> {
    match (ListMember(j, "personalDetails"), ListMember(j, "relationships"), ListMember(j, "goals"), ListMember(j, "values"))
    case (Some(d), Some(r), Some(g), Some(v)) => Some(Facts(d, r, g, v))
    case _ => None
  }

  /**
   * `ExtractedMemorySchema.parse`: the typed profile, or None where zod throws.
   * Members the schema does not name are dropped, as zod's default object mode does.
   */
  function ParseExtractedMemory(j: Json): (r: Option<ExtractedMemory>)
    ensures r.Some? ==> Describes(j, r.value)
  {
    match Member(j, "preferences")
    case None => None
    case Some(pj) =>
      match Member(j, "emotionalPatterns")
      case None => None
      case Some(ej) =>
        match Member(j, "facts")
        case None => None
        case Some(fj) =>
          match (ParsePreferences(pj), ParseEmotionalPatterns(ej), ParseFacts(fj))
          case (Some(p), Some(e), Some(f)) => Some(ExtractedMemory(p, e, f))
          case _ => None
  }

  // ----- What it means for a JSON value to describe a profile -----

  ghost predicate HasList(j: Json, key: string, xs: seq<string>) {
    j.JObject? && key in j.fields && j.fields[key] == StringsToJson(xs)
  }

  ghost predicate DescribesPreferences(j: Json, p: Preferences) {
    && HasList(j, "hobbies", p.hobbies) && HasList(j, "likes", p.likes)
    && HasList(j, "dislikes", p.dislikes) && HasList(j, "habits", p.habits)
  }

  ghost predicate DescribesEmotionalPatterns(j: Json, e: EmotionalPatterns) {
    && HasList(j, "commonEmotions", e.commonEmotions) && HasList(j, "stressTriggers", e.stressTriggers)
    && HasList(j, "joySources", e.joySources)
    && j.JObject? && "communicationStyle" in j.fields
    && j.fields["communicationStyle"] == JString(e.communicationStyle)
  }

  ghost predicate DescribesFacts(j: Json, f: Facts) {
    && HasList(j, "personalDetails", f.personalDetails) && HasList(j, "relationships", f.relationships)
    && HasList(j, "goals", f.goals) && HasList(j, "values", f.values)
  }

  /**
   * `j` carries every field of `m` where the schema looks for it, with the same
   * value; other members of `j` are free.
   */
  ghost predicate Describes(j: Json, m: ExtractedMemory) {
    && j.JObject?
    && "preferences" in j.fields && DescribesPreferences(j.fields["preferences"], m.preferences)
    && "emotionalPatterns" in j.fields && DescribesEmotionalPatterns(j.fields["emotionalPatterns"], m.emotionalPatterns)
    && "facts" in j.fields && DescribesFacts(j.fields["facts"], m.facts)
  }

  lemma {:induction false} StringArrayOfStrings(xs: seq<string>)
    ensures StringArray(StringsToJson(xs)) == Some(xs)
  {
    var j := StringsToJson(xs);
    assert forall i :: 0 <= i < |j.items| ==> j.items[i].JString?;
    var ys := StringArray(j).value;
    assert |ys| == |xs|;
    forall i | 0 <= i < |xs| ensures ys[i] == xs[i] {
      assert j.items[i] == JString(xs[i]);
    }
    assert ys == xs;
  }

  lemma ListMemberIff(j: Json, key: string, xs: seq<string>)
    ensures ListMember(j, key) == Some(xs) <==> HasList(j, key, xs)
  {
    if HasList(j, key, xs) {
      StringArrayOfStrings(xs);
    }
  }

  /**
   * The schema accepts `j` with the value `m` exactly when `j` describes `m`:
   * the schema checks and selects, and never alters a field.
   */
  lemma {:induction false} ParseExtractedMemoryIff(j: Json, m: ExtractedMemory)
    ensures ParseExtractedMemory(j) == Some(m) <==> Describes(j, m)
  {
    if j.JObject? && "preferences" in j.fields && "emotionalPatterns" in j.fields && "facts" in j.fields {
      var pj, ej, fj := j.fields["preferences"], j.fields["emotionalPatterns"], j.fields["facts"];
      var p, e, f := m.preferences, m.emotionalPatterns, m.facts;
      ListMemberIff(pj, "hobbies", p.hobbies);
      ListMemberIff(pj, "likes", p.likes);
      ListMemberIff(pj, "dislikes", p.dislikes);
      ListMemberIff(pj, "habits", p.habits);
      ListMemberIff(ej, "commonEmotions", e.commonEmotions);
      ListMemberIff(ej, "stressTriggers", e.stressTriggers);
      ListMemberIff(ej, "joySources", e.joySources);
      ListMemberIff(fj, "personalDetails", f.personalDetails);
      ListMemberIff(fj, "relationships", f.relationships);
      ListMemberIff(fj, "goals", f.goals);
      ListMemberIff(fj, "values", f.values);
      assert ParsePreferences(pj) == Some(p) <==> DescribesPreferences(pj, p);
      assert ParseEmotionalPatterns(ej) == Some(e) <==> DescribesEmotionalPatterns(ej, e);
      assert ParseFacts(fj) == Some(f) <==> DescribesFacts(fj, f);
    }
  }

  /** The profile written out as the JSON object the schema describes. */
  function MemoryToJson(m: ExtractedMemory): (j: Json) {
    var p, e, f := m.preferences, m.emotionalPatterns, m.facts;
    JObject(map[
      "preferences" := JObject(map[
        "hobbies" := StringsToJson(p.hobbies), "likes" := StringsToJson(p.likes),
        "dislikes" := StringsToJson(p.dislikes), "habits" := StringsToJson(p.habits)]),
      "emotionalPatterns" := JObject(map[
        "commonEmotions" := StringsToJson(e.commonEmotions), "stressTriggers" := StringsToJson(e.stressTriggers),
        "joySources" := StringsToJson(e.joySources), "communicationStyle" := JString(e.communicationStyle)]),
      "facts" := JObject(map[
        "personalDetails" := StringsToJson(f.personalDetails), "relationships" := StringsToJson(f.relationships),
        "goals" := StringsToJson(f.goals), "values" := StringsToJson(f.values)])])
  }

  /** Every profile passes the schema once written as JSON, and comes back unchanged. */
  lemma {:induction false} ParseMemoryToJson(m: ExtractedMemory)
    ensures ParseExtractedMemory(MemoryToJson(m)) == Some(m)
  {
    var j := MemoryToJson(m);
    assert Describes(j, m);
    ParseExtractedMemoryIff(j, m);
  }

  /** A reply carrying a top-level member the schema does not know is still accepted: `z.object` strips it. */
  lemma ExtraMemberStripped(m: ExtractedMemory, key: string, v: Json)
    requires key != "preferences" && key != "emotionalPatterns" && key != "facts"
    ensures ParseExtractedMemory(JObject(MemoryToJson(m).fields[key := v])) == Some(m)
  {
    var j := JObject(MemoryToJson(m).fields[key := v]);
    assert j.fields["preferences"] == MemoryToJson(m).fields["preferences"];
    assert j.fields["emotionalPatterns"] == MemoryToJson(m).fields["emotionalPatterns"];
    assert j.fields["facts"] == MemoryToJson(m).fields["facts"];
    assert Describes(j, m);
    ParseExtractedMemoryIff(j, m);
  }

  /** Empty lists and an empty `communicationStyle` are accepted: the schema sets no minimum. */
  lemma {:induction false} EmptyProfileAccepted(style: string)
    ensures var m := ExtractedMemory(Preferences([], [], [], []), EmotionalPatterns([], [], [], style), Facts([], [], [], []));
            ParseExtractedMemory(MemoryToJson(m)) == Some(m)
  {
    ParseMemoryToJson(ExtractedMemory(Preferences([], [], [], []), EmotionalPatterns([], [], [], style), Facts([], [], [], [])));
  }

  /** Each of the three groups is required; there is no default for a missing one. */
  lemma MissingGroupRejected(j: Json)
    requires Member(j, "preferences").None? || Member(j, "emotionalPatterns").None? || Member(j, "facts").None?
    ensures ParseExtractedMemory(j) == None
  {
  }

  /** A missing or non-string `communicationStyle` is rejected. */
  lemma MissingStyleRejected(j: Json)
    requires Member(j, "emotionalPatterns").Some?
    requires !StringMember(Member(j, "emotionalPatterns").value, "communicationStyle").Some?
    ensures ParseExtractedMemory(j) == None
  {
  }

  /** A list member that is absent, or holds a non-string element, is rejected; it never defaults to []. */
  lemma ListMemberRejects(j: Json, key: string, i: nat)
    ensures Member(j, key).None? ==> ListMember(j, key) == None
    ensures (Member(j, key).Some? && Member(j, key).value.JArray? && i < |Member(j, key).value.items|
             && !Member(j, key).value.items[i].JString?) ==> ListMember(j, key) == None
  {
  }
}
