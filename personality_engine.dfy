/**
 * lib/personality-engine.ts: one persona's reply and its memory references, the
 * replies of all three personas, their comparison, and the query check.
 */
module PersonalityEngine {
  import opened Wrappers
  import opened Text
  import opened Types
  import opened Personalities

  // ===== Memory references =====

  /**
   * `checkReference`'s test: the lower-cased item occurs in the lower-cased
   * response, or one of its space-separated pieces longer than three
   * characters does.
   */
  function IsReferenced(lowerResponse: string, item: string): (r: bool)
    ensures Contains(lowerResponse, Lower(item)) ==> r
    ensures (forall word :: word in Split(Lower(item), ' ') ==> |word| <= 3) ==>
      (r <==> Contains(lowerResponse, Lower(item)))
  {
    var lowerItem := Lower(item);
    || Contains(lowerResponse, lowerItem)
    || exists word :: word in Split(lowerItem, ' ') && |word| > 3 && Contains(lowerResponse, word)
  }

  /** A reference as `checkReference` adds it: `${category}: ${item}`. */
  function Reference(category: string, item: string): string {
    category + ": " + item
  }

  /** The references `items.forEach(checkReference)` tries to add, in list order, repeats included. */
  function Hits(lowerResponse: string, items: seq<string>, category: string): (r: seq<string>)
    ensures |r| <= |items|
  {
    if |items| == 0 then []
    else
      var item := items[|items| - 1];
      Hits(lowerResponse, items[..|items| - 1], category)
      + (if IsReferenced(lowerResponse, item) then [Reference(category, item)] else [])
  }

  /** The communication style is tried as a whole phrase only, and only when it is non-empty. */
  function StyleHit(lowerResponse: string, style: string): seq<string> {
    if style != "" && Contains(lowerResponse, Lower(style)) then [Reference("Communication Style", style)] else []
  }

  /** Every reference `extractMemoryReferences` tries to add, in the order it tries them. */
  function Candidates(lowerResponse: string, m: ExtractedMemory): seq<string> {
    var p, e, f := m.preferences, m.emotionalPatterns, m.facts;
    Hits(lowerResponse, p.hobbies, "Hobby") + Hits(lowerResponse, p.likes, "Like")
    + Hits(lowerResponse, p.dislikes, "Dislike") + Hits(lowerResponse, p.habits, "Habit")
    + Hits(lowerResponse, e.commonEmotions, "Emotion") + Hits(lowerResponse, e.stressTriggers, "Stress Trigger")
    + Hits(lowerResponse, e.joySources, "Joy Source") + StyleHit(lowerResponse, e.communicationStyle)
    + Hits(lowerResponse, f.personalDetails, "Personal Detail") + Hits(lowerResponse, f.relationships, "Relationship")
    + Hits(lowerResponse, f.goals, "Goal") + Hits(lowerResponse, f.values, "Value")
  }

  /** `Set.prototype.add` on a set kept in insertion order. */
  function Add(references: seq<string>, x: string): seq<string> {
    if x in references then references else references + [x]
  }

  /** Adding each element of `xs` in turn. */
  function AddAll(references: seq<string>, xs: seq<string>): seq<string> {
    if |xs| == 0 then references
    else Add(AddAll(references, xs[..|xs| - 1]), xs[|xs| - 1])
  }

  /** What `extractMemoryReferences(response, memories)` returns. */
  function MemoryReferences(response: string, m: ExtractedMemory): (r: seq<string>)
    ensures NoDuplicates(r)
    ensures forall x :: x in r <==> x in Candidates(Lower(response), m)
  {
    var candidates := Candidates(Lower(response), m);
    AddAllMembers([], candidates);
    AddAllIsFirstOccurrences(candidates);
    AddAll([], candidates)
  }

  /** One `forEach(checkReference)` over a list: add each referenced item in turn. */
  method CheckReferences(references: seq<string>, lowerResponse: string, items: seq<string>, category: string)
    returns (r: seq<string>)
    ensures r == AddAll(references, Hits(lowerResponse, items, category))
  {
    r := references;
    for i := 0 to |items|
      invariant r == AddAll(references, Hits(lowerResponse, items[..i], category))
    {
      HitsPrefix(lowerResponse, items, category, i);
      if IsReferenced(lowerResponse, items[i]) {
        AddAllSnoc(references, Hits(lowerResponse, items[..i], category), Reference(category, items[i]));
        r := Add(r, Reference(category, items[i]));
      } else {
        assert Hits(lowerResponse, items[..i + 1], category) == Hits(lowerResponse, items[..i], category);
      }
    }
    assert items[..|items|] == items;
  }

  /** The hits of the first `i + 1` items: those of the first `i`, then item `i`'s, if referenced. */
  lemma HitsPrefix(lowerResponse: string, items: seq<string>, category: string, i: nat)
    requires i < |items|
    ensures Hits(lowerResponse, items[..i + 1], category) == Hits(lowerResponse, items[..i], category)
      + (if IsReferenced(lowerResponse, items[i]) then [Reference(category, items[i])] else [])
  {
    assert items[..i + 1][..i] == items[..i];
  }

  lemma AddAllSnoc(references: seq<string>, xs: seq<string>, x: string)
    ensures AddAll(references, xs + [x]) == Add(AddAll(references, xs), x)
  {
    assert (xs + [x])[..|xs|] == xs;
  }

  /** `extractMemoryReferences`: every list in turn, the communication style after the joy sources. */
  method ExtractMemoryReferences(response: string, memories: ExtractedMemory) returns (references: seq<string>)
    ensures references == MemoryReferences(response, memories)
  {
    var lowerResponse := Lower(response);
    var p, e, f := memories.preferences, memories.emotionalPatterns, memories.facts;
    references := [];
    references := CheckReferences(references, lowerResponse, p.hobbies, "Hobby");
    ghost var tried := Hits(lowerResponse, p.hobbies, "Hobby");
    assert references == AddAll([], tried);
    references := CheckReferences(references, lowerResponse, p.likes, "Like");
    AddAllAppend([], tried, Hits(lowerResponse, p.likes, "Like"));
    tried := tried + Hits(lowerResponse, p.likes, "Like");
    assert references == AddAll([], tried);
    references := CheckReferences(references, lowerResponse, p.dislikes, "Dislike");
    AddAllAppend([], tried, Hits(lowerResponse, p.dislikes, "Dislike"));
    tried := tried + Hits(lowerResponse, p.dislikes, "Dislike");
    assert references == AddAll([], tried);
    references := CheckReferences(references, lowerResponse, p.habits, "Habit");
    AddAllAppend([], tried, Hits(lowerResponse, p.habits, "Habit"));
    tried := tried + Hits(lowerResponse, p.habits, "Habit");
    assert references == AddAll([], tried);
    references := CheckReferences(references, lowerResponse, e.commonEmotions, "Emotion");
    AddAllAppend([], tried, Hits(lowerResponse, e.commonEmotions, "Emotion"));
    tried := tried + Hits(lowerResponse, e.commonEmotions, "Emotion");
    assert references == AddAll([], tried);
    references := CheckReferences(references, lowerResponse, e.stressTriggers, "Stress Trigger");
    AddAllAppend([], tried, Hits(lowerResponse, e.stressTriggers, "Stress Trigger"));
    tried := tried + Hits(lowerResponse, e.stressTriggers, "Stress Trigger");
    assert references == AddAll([], tried);
    references := CheckReferences(references, lowerResponse, e.joySources, "Joy Source");
    AddAllAppend([], tried, Hits(lowerResponse, e.joySources, "Joy Source"));
    tried := tried + Hits(lowerResponse, e.joySources, "Joy Source");
    assert references == AddAll([], tried);
    if e.communicationStyle != "" && Contains(lowerResponse, Lower(e.communicationStyle)) {
      references := Add(references, Reference("Communication Style", e.communicationStyle));
    }
    AddAllAppend([], tried, StyleHit(lowerResponse, e.communicationStyle));
    tried := tried + StyleHit(lowerResponse, e.communicationStyle);
    assert references == AddAll([], tried);
    references := CheckReferences(references, lowerResponse, f.personalDetails, "Personal Detail");
    AddAllAppend([], tried, Hits(lowerResponse, f.personalDetails, "Personal Detail"));
    tried := tried + Hits(lowerResponse, f.personalDetails, "Personal Detail");
    assert references == AddAll([], tried);
    references := CheckReferences(references, lowerResponse, f.relationships, "Relationship");
    AddAllAppend([], tried, Hits(lowerResponse, f.relationships, "Relationship"));
    tried := tried + Hits(lowerResponse, f.relationships, "Relationship");
    assert references == AddAll([], tried);
    references := CheckReferences(references, lowerResponse, f.goals, "Goal");
    AddAllAppend([], tried, Hits(lowerResponse, f.goals, "Goal"));
    tried := tried + Hits(lowerResponse, f.goals, "Goal");
    assert references == AddAll([], tried);
    references := CheckReferences(references, lowerResponse, f.values, "Value");
    AddAllAppend([], tried, Hits(lowerResponse, f.values, "Value"));
    tried := tried + Hits(lowerResponse, f.values, "Value");
    assert references == AddAll([], tried);
    assert tried == Candidates(lowerResponse, memories);
  }

  /** Adding two runs of elements is adding their concatenation. */
  lemma {:induction false} AddAllAppend(references: seq<string>, a: seq<string>, b: seq<string>)
    ensures AddAll(AddAll(references, a), b) == AddAll(references, a + b)
    decreases |b|
  {
    if |b| == 0 {
      assert a + b == a;
    } else {
      AddAllAppend(references, a, b[..|b| - 1]);
      assert (a + b)[..|a + b| - 1] == a + b[..|b| - 1];
      assert (a + b)[|a + b| - 1] == b[|b| - 1];
    }
  }

  predicate NoDuplicates(xs: seq<string>) {
    forall i, j :: 0 <= i < j < |xs| ==> xs[i] != xs[j]
  }

  /** The set keeps exactly the elements added to it, each once. */
  lemma {:induction false} AddAllMembers(references: seq<string>, xs: seq<string>)
    ensures forall x :: x in AddAll(references, xs) <==> x in references || x in xs
    ensures NoDuplicates(references) ==> NoDuplicates(AddAll(references, xs))
    decreases |xs|
  {
    if |xs| > 0 {
      var init := xs[..|xs| - 1];
      AddAllMembers(references, init);
      assert xs == init + [xs[|xs| - 1]];
    }
  }

  /** The elements of `xs` at the place each first occurs: the reference order for an insertion-ordered set. */
  function FirstOccurrences(xs: seq<string>): seq<string> {
    if |xs| == 0 then []
    else
      var init, last := xs[..|xs| - 1], xs[|xs| - 1];
      FirstOccurrences(init) + (if last in init then [] else [last])
  }

  /** Adding to an empty set in turn keeps each element where it first occurs. */
  lemma {:induction false} AddAllIsFirstOccurrences(xs: seq<string>)
    ensures AddAll([], xs) == FirstOccurrences(xs)
    decreases |xs|
  {
    if |xs| > 0 {
      var init := xs[..|xs| - 1];
      AddAllIsFirstOccurrences(init);
      AddAllMembers([], init);
    }
  }

  /** Every referenced item of a list is among its hits. */
  lemma {:induction false} HitsComplete(lowerResponse: string, items: seq<string>, category: string, k: nat)
    requires k < |items| && IsReferenced(lowerResponse, items[k])
    ensures Reference(category, items[k]) in Hits(lowerResponse, items, category)
    decreases |items|
  {
    var n := |items| - 1;
    HitsPrefix(lowerResponse, items, category, n);
    assert items[..n + 1] == items;
    if k < n {
      assert items[..n][k] == items[k];
      HitsComplete(lowerResponse, items[..n], category, k);
    }
  }

  /** Every hit of a list is the reference of one of its referenced items. */
  lemma {:induction false} HitsSound(lowerResponse: string, items: seq<string>, category: string, x: string)
    requires x in Hits(lowerResponse, items, category)
    ensures exists k :: 0 <= k < |items| && IsReferenced(lowerResponse, items[k]) && x == Reference(category, items[k])
    decreases |items|
  {
    var n := |items| - 1;
    if x in Hits(lowerResponse, items[..n], category) {
      HitsSound(lowerResponse, items[..n], category, x);
      var k :| 0 <= k < n && IsReferenced(lowerResponse, items[..n][k]) && x == Reference(category, items[..n][k]);
      assert items[..n][k] == items[k];
    } else {
      assert IsReferenced(lowerResponse, items[n]) && x == Reference(category, items[n]);
    }
  }

  /** `x` is the reference of a referenced item of `items` under `category`. */
  ghost predicate ListReference(lowerResponse: string, x: string, items: seq<string>, category: string) {
    exists k :: 0 <= k < |items| && IsReferenced(lowerResponse, items[k]) && x == Reference(category, items[k])
  }

  lemma HitsIff(lowerResponse: string, items: seq<string>, category: string, x: string)
    ensures x in Hits(lowerResponse, items, category) <==> ListReference(lowerResponse, x, items, category)
  {
    if x in Hits(lowerResponse, items, category) {
      HitsSound(lowerResponse, items, category, x);
    }
    if ListReference(lowerResponse, x, items, category) {
      var k :| 0 <= k < |items| && IsReferenced(lowerResponse, items[k]) && x == Reference(category, items[k]);
      HitsComplete(lowerResponse, items, category, k);
    }
  }

  /**
   * What a reference can be: an item of one of the eleven lists, with that
   * list's label, which the response mentions, or the whole communication style.
   */
  ghost predicate Referenced(response: string, m: ExtractedMemory, x: string) {
    var lr, p, e, f := Lower(response), m.preferences, m.emotionalPatterns, m.facts;
    || ListReference(lr, x, p.hobbies, "Hobby") || ListReference(lr, x, p.likes, "Like")
    || ListReference(lr, x, p.dislikes, "Dislike") || ListReference(lr, x, p.habits, "Habit")
    || ListReference(lr, x, e.commonEmotions, "Emotion") || ListReference(lr, x, e.stressTriggers, "Stress Trigger")
    || ListReference(lr, x, e.joySources, "Joy Source")
    || (e.communicationStyle != "" && Contains(lr, Lower(e.communicationStyle))
        && x == Reference("Communication Style", e.communicationStyle))
    || ListReference(lr, x, f.personalDetails, "Personal Detail") || ListReference(lr, x, f.relationships, "Relationship")
    || ListReference(lr, x, f.goals, "Goal") || ListReference(lr, x, f.values, "Value")
  }

  /** The references are exactly the labelled items the response mentions. */
  lemma MemoryReferencesIff(response: string, m: ExtractedMemory, x: string)
    ensures x in MemoryReferences(response, m) <==> Referenced(response, m, x)
  {
    var lr, p, e, f := Lower(response), m.preferences, m.emotionalPatterns, m.facts;
    MemoryReferencesShape(response, m);
    HitsIff(lr, p.hobbies, "Hobby", x);
    HitsIff(lr, p.likes, "Like", x);
    HitsIff(lr, p.dislikes, "Dislike", x);
    HitsIff(lr, p.habits, "Habit", x);
    HitsIff(lr, e.commonEmotions, "Emotion", x);
    HitsIff(lr, e.stressTriggers, "Stress Trigger", x);
    HitsIff(lr, e.joySources, "Joy Source", x);
    HitsIff(lr, f.personalDetails, "Personal Detail", x);
    HitsIff(lr, f.relationships, "Relationship", x);
    HitsIff(lr, f.goals, "Goal", x);
    HitsIff(lr, f.values, "Value", x);
  }

  /**
   * The references are those tried, each once, ordered by where they were
   * first tried.
   */
  lemma MemoryReferencesShape(response: string, m: ExtractedMemory)
    ensures var r, c := MemoryReferences(response, m), Candidates(Lower(response), m);
      && (forall x :: x in r <==> x in c)
      && NoDuplicates(r)
      && r == FirstOccurrences(c)
  {
    AddAllMembers([], Candidates(Lower(response), m));
    AddAllIsFirstOccurrences(Candidates(Lower(response), m));
  }

  /** An empty item occurs in every response, so it is always referenced. */
  lemma EmptyItemReferenced(lowerResponse: string)
    ensures IsReferenced(lowerResponse, "")
  {
    assert OccursAt(lowerResponse, Lower(""), 0);
  }

  /** An empty hobby yields the reference "Hobby: " whatever the response. */
  lemma EmptyHobbyReferenced(response: string, m: ExtractedMemory)
    requires "" in m.preferences.hobbies
    ensures Reference("Hobby", "") in MemoryReferences(response, m)
  {
    var lr := Lower(response);
    var k :| 0 <= k < |m.preferences.hobbies| && m.preferences.hobbies[k] == "";
    EmptyItemReferenced(lr);
    HitsComplete(lr, m.preferences.hobbies, "Hobby", k);
    MemoryReferencesShape(response, m);
  }

  /** What a response references, a response containing it references too. */
  lemma ReferencedInLonger(lowerResponse: string, longer: string, item: string, at: int)
    requires OccursAt(longer, lowerResponse, at) && IsReferenced(lowerResponse, item)
    ensures IsReferenced(longer, item)
  {
    var lowerItem := Lower(item);
    if Contains(lowerResponse, lowerItem) {
      var i :| OccursAt(lowerResponse, lowerItem, i);
      OccursWithin(longer, lowerResponse, lowerItem, at, i);
    } else {
      var word :| word in Split(lowerItem, ' ') && |word| > 3 && Contains(lowerResponse, word);
      var i :| OccursAt(lowerResponse, word, i);
      OccursWithin(longer, lowerResponse, word, at, i);
    }
  }

  /** A list's hits for a response are among its hits for any response containing it. */
  lemma HitsGrow(lowerResponse: string, longer: string, at: int, items: seq<string>, category: string)
    requires OccursAt(longer, lowerResponse, at)
    ensures forall x :: x in Hits(lowerResponse, items, category) ==> x in Hits(longer, items, category)
  {
    forall x | x in Hits(lowerResponse, items, category) ensures x in Hits(longer, items, category) {
      HitsSound(lowerResponse, items, category, x);
      var k :| 0 <= k < |items| && IsReferenced(lowerResponse, items[k]) && x == Reference(category, items[k]);
      ReferencedInLonger(lowerResponse, longer, items[k], at);
      HitsComplete(longer, items, category, k);
    }
  }

  /**
   * Extending a response never loses a reference: when the lower-cased text of
   * one response occurs in that of another, every reference of the first is
   * one of the second.
   */
  lemma ReferencesGrowWithResponse(response: string, longer: string, m: ExtractedMemory, at: int)
    requires OccursAt(Lower(longer), Lower(response), at)
    ensures forall x :: x in MemoryReferences(response, m) ==> x in MemoryReferences(longer, m)
  {
    var lr, ll := Lower(response), Lower(longer);
    var p, e, f := m.preferences, m.emotionalPatterns, m.facts;
    MemoryReferencesShape(response, m);
    MemoryReferencesShape(longer, m);
    HitsGrow(lr, ll, at, p.hobbies, "Hobby");
    HitsGrow(lr, ll, at, p.likes, "Like");
    HitsGrow(lr, ll, at, p.dislikes, "Dislike");
    HitsGrow(lr, ll, at, p.habits, "Habit");
    HitsGrow(lr, ll, at, e.commonEmotions, "Emotion");
    HitsGrow(lr, ll, at, e.stressTriggers, "Stress Trigger");
    HitsGrow(lr, ll, at, e.joySources, "Joy Source");
    HitsGrow(lr, ll, at, f.personalDetails, "Personal Detail");
    HitsGrow(lr, ll, at, f.relationships, "Relationship");
    HitsGrow(lr, ll, at, f.goals, "Goal");
    HitsGrow(lr, ll, at, f.values, "Value");
    var style := e.communicationStyle;
    if style != "" && Contains(lr, Lower(style)) {
      var i :| OccursAt(lr, Lower(style), i);
      OccursWithin(ll, lr, Lower(style), at, i);
    }
  }

  /**
   * The communication style is referenced iff it is non-empty and the whole
   * phrase occurs in the response, whatever the lists hold.
   */
  lemma CommunicationStyleReferenced(response: string, m: ExtractedMemory)
    ensures var style := m.emotionalPatterns.communicationStyle;
      Reference("Communication Style", style) in MemoryReferences(response, m) <==>
        style != "" && Contains(Lower(response), Lower(style))
  {
    var lr := Lower(response);
    var style := m.emotionalPatterns.communicationStyle;
    var x := Reference("Communication Style", style);
    MemoryReferencesShape(response, m);
    var p, e, f := m.preferences, m.emotionalPatterns, m.facts;
    NotAHit(lr, p.hobbies, "Hobby", style);
    NotAHit(lr, p.likes, "Like", style);
    NotAHit(lr, p.dislikes, "Dislike", style);
    NotAHit(lr, p.habits, "Habit", style);
    NotAHit(lr, e.commonEmotions, "Emotion", style);
    NotAHit(lr, e.stressTriggers, "Stress Trigger", style);
    NotAHit(lr, e.joySources, "Joy Source", style);
    NotAHit(lr, f.personalDetails, "Personal Detail", style);
    NotAHit(lr, f.relationships, "Relationship", style);
    NotAHit(lr, f.goals, "Goal", style);
    NotAHit(lr, f.values, "Value", style);
  }

  /** Every hit of a list starts with the list's category. */
  lemma {:induction false} HitsFirstCharacter(lowerResponse: string, items: seq<string>, category: string)
    requires |category| > 0
    ensures forall x :: x in Hits(lowerResponse, items, category) ==> |x| > 0 && x[0] == category[0]
    decreases |items|
  {
    if |items| > 0 {
      var n := |items| - 1;
      HitsFirstCharacter(lowerResponse, items[..n], category);
      assert Reference(category, items[n])[0] == category[0];
    }
  }

  /** A list's hits never include the communication style's reference when its category starts with another letter. */
  lemma NotAHit(lowerResponse: string, items: seq<string>, category: string, style: string)
    requires |category| > 0 && category[0] != 'C'
    ensures Reference("Communication Style", style) !in Hits(lowerResponse, items, category)
  {
    HitsFirstCharacter(lowerResponse, items, category);
    assert Reference("Communication Style", style)[0] == 'C';
  }

  // ===== Query check =====

  /** The three reasons `validateQuery` gives. */
  datatype QueryError = EmptyQuery | ShortQuery | LongQuery

  /**
   * The message for each reason, split after the words that tell the three
   * apart, so that `QueryErrorTextInjective` compares those prefixes only.
   */
  function QueryErrorText(e: QueryError): string {
    match e
    case EmptyQuery => "Query cannot" + " be empty"
    case ShortQuery => "Query is too short" + ". Please provide more context."
    case LongQuery => "Query is too long" + ". Please keep it under 500 characters."
  }

  /** The three messages differ, so the message says which rule failed. */
  lemma QueryErrorTextInjective(e1: QueryError, e2: QueryError)
    requires QueryErrorText(e1) == QueryErrorText(e2)
    ensures e1 == e2
  {
    var k1, k2 := QueryErrorText(e1), QueryErrorText(e2);
    assert k1[6] == k2[6] && k1[13] == k2[13];
    assert QueryErrorText(EmptyQuery)[6] == 'c';
    assert QueryErrorText(ShortQuery)[6] == 'i' && QueryErrorText(ShortQuery)[13] == 's';
    assert QueryErrorText(LongQuery)[6] == 'i' && QueryErrorText(LongQuery)[13] == 'l';
  }

  /** The result of `validateQuery`: valid, or the reason why not. */
  datatype QueryCheck = QueryCheck(isValid: bool, error: Option<QueryError>)

  /**
   * `validateQuery`: blank, then shorter than 5 once trimmed, then longer than
   * 500 as given; the first failing rule names the error.
   */
  function ValidateQuery(query: string): (r: QueryCheck)
    ensures r.isValid <==> |Trim(query)| >= 5 && |query| <= 500
    ensures r.isValid <==> r.error == None
    ensures r.error == Some(EmptyQuery) <==> forall i :: 0 <= i < |query| ==> IsSpace(query[i])
    ensures r.error == Some(ShortQuery) <==> 0 < |Trim(query)| < 5
    ensures r.error == Some(LongQuery) <==> |Trim(query)| >= 5 && |query| > 500
  {
    var trimmed := Trim(query);
    if |query| == 0 || |trimmed| == 0 then QueryCheck(false, Some(EmptyQuery))
    else if |trimmed| < 5 then QueryCheck(false, Some(ShortQuery))
    else if |query| > 500 then QueryCheck(false, Some(LongQuery))
    else QueryCheck(true, None)
  }

  /** The boundaries are inclusive: five characters once trimmed, and 500 as given, pass. */
  lemma QueryBoundaries(query: string)
    ensures |Trim(query)| == 5 && |query| <= 500 ==> ValidateQuery(query).isValid
    ensures |query| == 500 && |Trim(query)| >= 5 ==> ValidateQuery(query).isValid
    ensures |query| == 501 && |Trim(query)| >= 5 ==> ValidateQuery(query) == QueryCheck(false, Some(LongQuery))
  {
  }

  // ===== Generation =====

  const GenerationFailed: string := "Failed to generate response: "

  /** The options of a persona's call: the persona's temperature, up to 1024 tokens. */
  function ResponseOptions(t: PersonalityType): GenerationOptions {
    GenerationOptions(GetPersonality(t).temperature, 1024, ModelName)
  }

  /**
   * `generatePersonalityResponse`: the persona's prompt goes to the model, and
   * the reply comes back trimmed, with the references found in the untrimmed
   * reply. `generate` is the model call; a failure is rethrown with the prefix
   * "Failed to generate response: ".
   */
  function GeneratePersonalityResponse(
    t: PersonalityType,
    query: string,
    memories: ExtractedMemory,
    generate: (string, GenerationOptions) -> Result<string>): (r: Result<PersonalityResponse>)
    ensures var reply := generate(CreatePersonalityPrompt(t, query, memories), ResponseOptions(t));
      && (r.Success? <==> reply.Success?)
      && (r.Failure? ==> r.error == GenerationFailed + reply.error)
      && (r.Success? ==>
            && r.value.personality == t
            && IsTrimmed(r.value.response)
            && r.value.response == Trim(reply.value)
            && r.value.memoryReferences == MemoryReferences(reply.value, memories))
  {
    match generate(CreatePersonalityPrompt(t, query, memories), ResponseOptions(t))
    case Failure(e) => Failure(GenerationFailed + e)
    case Success(text) => Success(PersonalityResponse(t, Trim(text), MemoryReferences(text, memories)))
  }

  /**
   * `generateAllPersonalityResponses`: one reply per persona, in the listed
   * order, or the error of a failing call.
   */
  function GenerateAllPersonalityResponses(
    query: string,
    memories: ExtractedMemory,
    generate: (string, GenerationOptions) -> Result<string>): (r: Result<seq<PersonalityResponse>>)
    ensures r.Success? <==> forall t :: GeneratePersonalityResponse(t, query, memories, generate).Success?
    ensures r.Success? ==> && |r.value| == 3
                           && Success(r.value[0]) == GeneratePersonalityResponse(CalmMentor, query, memories, generate)
                           && Success(r.value[1]) == GeneratePersonalityResponse(WittyFriend, query, memories, generate)
                           && Success(r.value[2]) == GeneratePersonalityResponse(Therapist, query, memories, generate)
    ensures r.Failure? ==> exists t :: GeneratePersonalityResponse(t, query, memories, generate) == Failure(r.error)
  {
    var calm := GeneratePersonalityResponse(CalmMentor, query, memories, generate);
    var witty := GeneratePersonalityResponse(WittyFriend, query, memories, generate);
    var therapist := GeneratePersonalityResponse(Therapist, query, memories, generate);
    if calm.Failure? then Failure(calm.error)
    else if witty.Failure? then Failure(witty.error)
    else if therapist.Failure? then Failure(therapist.error)
    else
      EveryPersonaReplies(query, memories, generate);
      Success([calm.value, witty.value, therapist.value])
  }

  /** The three personas are all there are: when each of them replies, every persona does. */
  lemma EveryPersonaReplies(
    query: string,
    memories: ExtractedMemory,
    generate: (string, GenerationOptions) -> Result<string>)
    requires GeneratePersonalityResponse(CalmMentor, query, memories, generate).Success?
    requires GeneratePersonalityResponse(WittyFriend, query, memories, generate).Success?
    requires GeneratePersonalityResponse(Therapist, query, memories, generate).Success?
    ensures forall t :: GeneratePersonalityResponse(t, query, memories, generate).Success?
  {
    forall t ensures GeneratePersonalityResponse(t, query, memories, generate).Success? {
      match t
      case CalmMentor =>
      case WittyFriend =>
      case Therapist =>
    }
  }

  // ===== Comparison =====

  /** The result of `comparePersonalityResponses`. */
  datatype Comparison = Comparison(
    commonThemes: seq<string>,
    uniqueApproaches: map<PersonalityType, seq<string>>,
    memoryUsage: map<PersonalityType, nat>)

  /** The reference count of the last reply from persona `t`, or 0 when there is none. */
  function LastUsage(responses: seq<PersonalityResponse>, t: PersonalityType): nat {
    if |responses| == 0 then 0
    else if responses[|responses| - 1].personality == t then |responses[|responses| - 1].memoryReferences|
    else LastUsage(responses[..|responses| - 1], t)
  }

  /** Every persona is a key of a record listing the three. */
  lemma AllKeys<V>(m: map<PersonalityType, V>)
    requires CalmMentor in m && WittyFriend in m && Therapist in m
    ensures forall t :: t in m
  {
    forall t ensures t in m {
      match t
      case CalmMentor =>
      case WittyFriend =>
      case Therapist =>
    }
  }

  /**
   * `comparePersonalityResponses`: themes and approaches stay empty; each
   * reply overwrites its persona's usage with its reference count.
   */
  method ComparePersonalityResponses(responses: seq<PersonalityResponse>) returns (c: Comparison)
    ensures c.commonThemes == []
    ensures forall t :: t in c.uniqueApproaches && c.uniqueApproaches[t] == []
    ensures forall t :: t in c.memoryUsage && c.memoryUsage[t] == LastUsage(responses, t)
  {
    var commonThemes: seq<string> := [];
    var uniqueApproaches: map<PersonalityType, seq<string>> := map[CalmMentor := [], WittyFriend := [], Therapist := []];
    var memoryUsage: map<PersonalityType, nat> := map[CalmMentor := 0, WittyFriend := 0, Therapist := 0];
    AllKeys(uniqueApproaches);
    AllKeys(memoryUsage);
    for i := 0 to |responses|
      invariant forall t :: t in memoryUsage && memoryUsage[t] == LastUsage(responses[..i], t)
    {
      assert responses[..i + 1][..i] == responses[..i];
      memoryUsage := memoryUsage[responses[i].personality := |responses[i].memoryReferences|];
    }
    assert responses[..|responses|] == responses;
    c := Comparison(commonThemes, uniqueApproaches, memoryUsage);
  }

  /** A persona without a reply has usage 0. */
  lemma {:induction false} LastUsageAbsent(responses: seq<PersonalityResponse>, t: PersonalityType)
    requires forall i :: 0 <= i < |responses| ==> responses[i].personality != t
    ensures LastUsage(responses, t) == 0
    decreases |responses|
  {
    if |responses| > 0 {
      var n := |responses| - 1;
      assert forall i :: 0 <= i < n ==> responses[..n][i] == responses[i];
      LastUsageAbsent(responses[..n], t);
    }
  }

  /** A persona's usage is the reference count of its last reply: later replies of it overwrite earlier ones. */
  lemma {:induction false} LastUsageIsLast(responses: seq<PersonalityResponse>, t: PersonalityType, k: nat)
    requires k < |responses| && responses[k].personality == t
    requires forall j :: k < j < |responses| ==> responses[j].personality != t
    ensures LastUsage(responses, t) == |responses[k].memoryReferences|
    decreases |responses|
  {
    var n := |responses| - 1;
    if k < n {
      assert responses[..n][k] == responses[k];
      assert forall j :: k < j < n ==> responses[..n][j] == responses[j];
      LastUsageIsLast(responses[..n], t, k);
    }
  }
}
