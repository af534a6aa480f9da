# Memory extraction and persona replies, modelled in Dafny

This project models the deterministic core of a companion-AI demo. The demo's
pipeline has two halves.

The first half turns a chat transcript into a structured memory profile:
- the transcript is parsed from "User: …" / "AI: …" text;
- the transcript's quality is checked;
- it is rendered into an extraction prompt;
- the model's JSON answer is validated against the memory schema.

The second half answers a question in one of three personas:
- the persona prompt is built around the persona's system prompt, the memory context and the query;
- the reply is trimmed;
- a keyword heuristic reports which memories the reply refers to.

The two HTTP routes are modelled as decision functions over an already-parsed JSON body. Each route's checks run in a fixed order, and each route maps every outcome to a status and a message.

The language model is never modelled. Each call to it is a function parameter:
- the extraction call has type `(prompt, options) -> Result<Json>`;
- the reply call has type `(prompt, options) -> Result<string>`.

Temperatures are written in tenths (0.7 is `7`).

## Modules

- wrappers.dfy, `Wrappers`: `Option` and `Result`.
- text.dfy, `Text`: the JavaScript string built-ins the source uses (`trim`, `toLowerCase`, `includes`, `split`, `join`, number formatting).
- json.dfy, `JsonValues`: a parsed JSON value.
- types.dfy, `Types`: lib/types.ts.
- memory_extraction_prompt.dfy, `ExtractionPrompt`: prompts/memory-extraction.ts.
- memory_extractor.dfy, `MemoryExtractor`: lib/memory-extractor.ts.
- personalities.dfy, `Personalities`: prompts/personalities.ts.
- personality_engine.dfy, `PersonalityEngine`: lib/personality-engine.ts.
- extract_route.dfy, `ExtractMemoryRoute`: app/api/extract-memory/route.ts.
- generate_route.dfy, `GenerateResponseRoute`: app/api/generate-response/route.ts.

The imperative parts of the source are methods with loops. Each method is proved equal to a specification function, and the properties are proved about that function:
- `parseConversationText`: a `for` loop pushing messages;
- `validateMessages`: pushes with early returns;
- `formatMemoriesForContext`: pushes under conditions;
- `extractMemoryReferences`: `forEach` callbacks adding to a `Set`;
- `comparePersonalityResponses`: `forEach` overwriting a record.

The rest of the source is written as pure functions:
- the schema;
- the prompts;
- the query check;
- the route decisions.

## Model

| member | source | states |
|---|---|---|
| Types.ParseRole | lib/types.ts:5-8 | a role is accepted iff it is exactly "user" or "ai", and printing the parsed role gives the input back |
| Types.ParsePersonalityType | lib/types.ts:65 | a persona id is accepted iff it is one of calm_mentor, witty_friend, therapist, and printing the parsed id gives the input back |
| Types.StringArray | lib/types.ts:20 | `z.array(z.string())` accepts exactly the arrays whose every element is a string, and the accepted list prints back to the same JSON |
| Types.StringArrayOfStrings | lib/types.ts:20 | any list of strings printed as JSON is accepted unchanged |
| Types.ListMemberIff | lib/types.ts:19-50 | a list field is accepted iff the key is present and holds an array of strings with those items |
| Types.ParseExtractedMemoryIff | lib/types.ts:19-56 | the schema accepts a JSON value with result m iff the value has the three groups and all 12 fields, each of the right type, carrying exactly m's values |
| Types.ParseExtractedMemory | lib/types.ts:52-56 | an accepted value describes the resulting profile: the three groups and all 12 fields are present with exactly the profile's values |
| Types.ParseMemoryToJson | lib/types.ts:52-61 | every profile printed as JSON passes the schema unchanged: the schema only checks and does not transform |
| Types.ExtraMemberStripped | lib/types.ts:52-56 | a profile's JSON with one more top-level member is still accepted, as the same profile: the schema strips unknown keys |
| Types.EmptyProfileAccepted | lib/types.ts:20 | empty lists and any communication style, including "", are accepted |
| Types.MissingGroupRejected | lib/types.ts:52-56 | a value missing preferences, emotionalPatterns or facts is rejected |
| Types.MissingStyleRejected | lib/types.ts:36-38 | a value whose communicationStyle is missing or not a string is rejected |
| Types.ListMemberRejects | lib/types.ts:19-50 | a missing list, or a list holding a non-string element, is rejected; there is no default to an empty list |
| Text.Trim | lib/memory-extractor.ts:63 | the result is a slice of the input with only white space before and after it, and has no leading or trailing white space itself; it leaves a trimmed string unchanged and is empty iff the input is all white space |
| Text.Lower | lib/personality-engine.ts:99 | lower-casing keeps the length and lower-cases each character |
| Text.Contains | lib/personality-engine.ts:107 | `includes` holds iff the needle occurs at some position |
| Text.Split | lib/memory-extractor.ts:59 | `split` gives at least one piece, and no piece holds the separator |
| Text.JoinSplit | lib/memory-extractor.ts:59 | joining the pieces of a split with the separator gives the input back |
| Text.DecimalRoundTrip | lib/memory-extractor.ts:105 | the decimal text of a count reads back as that count |
| ExtractionPrompt.RenderAll | prompts/memory-extraction.ts:9-10 | one rendered line per message, in input order, each "User: c" or "AI: c" |
| ExtractionPrompt.ConversationText | prompts/memory-extraction.ts:9-11 | the conversation block is empty iff there are no messages |
| ExtractionPrompt.CreateMemoryExtractionPrompt | prompts/memory-extraction.ts:8-90 | the prompt is the fixed prefix, then the conversation block, then the fixed suffix "\n\n**NOW EXTRACT THE MEMORIES:**" |
| ExtractionPrompt.EmptyConversationPrompt | prompts/memory-extraction.ts:85-89 | with no messages the prompt is exactly the prefix followed by the suffix |
| ExtractionPrompt.ContentInConversation | prompts/memory-extraction.ts:9-11 | every message content occurs verbatim in the conversation block |
| ExtractionPrompt.ContentInPrompt | prompts/memory-extraction.ts:10 | every message content occurs verbatim, unescaped, in the prompt |
| ExtractionPrompt.ExampleExtractionConforms | prompts/memory-extraction.ts:95-159 | the example profile passes the schema unchanged, its 11 lists have 3 items each and its style is non-empty |
| MemoryExtractor.MatchTaggedIsGreedyMatch | lib/memory-extractor.ts:66-67 | the tag matcher succeeds iff the regex `^tag\s*(.+)$` (case-insensitive, `.` excluding line terminators) matches, and it captures what the regex captures (the longest white-space run is skipped) |
| MemoryExtractor.MatchTagged | lib/memory-extractor.ts:66-67 | a capture is non-empty and holds no line terminator, as `(.+)` requires |
| MemoryExtractor.NonBlank | lib/memory-extractor.ts:59 | the filter keeps at most the lines it is given |
| MemoryExtractor.ParseLines | lib/memory-extractor.ts:62-80 | parsing yields at most one message per line |
| MemoryExtractor.ParseLine | lib/memory-extractor.ts:63-79 | a parsed message's content is trimmed, and a user message comes only from a trimmed line starting with "user:" in any letter case |
| MemoryExtractor.ParseConversationText | lib/memory-extractor.ts:58-83 | the loop returns exactly the specification's messages: one per matching non-blank line, in line order |
| MemoryExtractor.ParseLinesAppend | lib/memory-extractor.ts:62-80 | parsing is line-by-line: parsing two blocks of lines gives the two results concatenated, so line order is kept |
| MemoryExtractor.ParseLinesNonBlank | lib/memory-extractor.ts:59 | dropping blank lines before parsing changes nothing, since a blank line never parses |
| MemoryExtractor.ParseLineRole | lib/memory-extractor.ts:66-79 | a parsed line is a user message iff it starts with "user:" in any letter case, an AI message only if it starts with "ai:", and any other or blank line is dropped |
| MemoryExtractor.ParseLineClean | lib/memory-extractor.ts:66-78 | a parsed message's content is non-empty, trimmed and free of line terminators |
| MemoryExtractor.ParsedMessagesClean | lib/memory-extractor.ts:58-83 | every message of a parsed transcript has non-empty, trimmed content without line terminators |
| MemoryExtractor.ParseRenderedMessage | lib/memory-extractor.ts:66-79 | a message rendered as "User: c" or "AI: c" with clean content parses back to itself |
| MemoryExtractor.ParseConversationText_RoundTrip | lib/memory-extractor.ts:58-83 | rendering messages with clean contents as a conversation block and parsing it gives the same messages back |
| MemoryExtractor.ExtractionPromptRecoversMessages | prompts/memory-extraction.ts:8-11 | the messages can be recovered from the conversation block inside the extraction prompt |
| MemoryExtractor.CountRole | lib/memory-extractor.ts:115-116 | a role count is at most the number of messages |
| MemoryExtractor.CountShort | lib/memory-extractor.ts:132 | the short-message count is at most the number of messages |
| MemoryExtractor.CountRolesSum | lib/memory-extractor.ts:115-116 | the user count plus the AI count is the number of messages |
| MemoryExtractor.CountRoleIsCardinality | lib/memory-extractor.ts:115 | the role count equals the number of positions holding that role, the length of the filtered list |
| MemoryExtractor.CountShortIsCardinality | lib/memory-extractor.ts:132 | the short-message count equals the number of positions whose content is shorter than 10 characters, the length of the filtered list |
| MemoryExtractor.Validate | lib/memory-extractor.ts:90-143 | the result is valid iff there are messages and at least one user message; an empty list gives only "no messages"; a list without user messages gives only "no user messages", which drops the count warning; a valid result holds the few, many, unbalanced and short warnings exactly when their rules hold, and no other warning; the counts in its few and many warnings are the number of messages |
| MemoryExtractor.ValidateMessages | lib/memory-extractor.ts:90-143 | the push-and-return method returns exactly the specification's validation |
| MemoryExtractor.ValidWarningsOrdered | lib/memory-extractor.ts:103-142 | a valid result's warnings are in the rules' order with at most one per rule, so there are at most three |
| MemoryExtractor.IdealTranscript | lib/memory-extractor.ts:103-137 | 30 to 50 messages, some user message, balance within 5 and at most 30% short messages give a valid result with no warning |
| MemoryExtractor.NoUserDropsCountWarning | lib/memory-extractor.ts:109-123 | more than 50 AI-only messages give only the "no user messages" warning; the count warning is discarded |
| MemoryExtractor.NoRoleCount | lib/memory-extractor.ts:115-118 | a list with no message of a role counts 0 for that role |
| MemoryExtractor.WarningTextInjective | lib/memory-extractor.ts:96-136 | distinct warnings have distinct texts, so the joined message identifies the warnings |
| MemoryExtractor.TooFewInjective | lib/memory-extractor.ts:104-106 | the "Only n messages" text determines n |
| MemoryExtractor.TooManyInjective | lib/memory-extractor.ts:110-112 | the "n messages found" text determines n |
| MemoryExtractor.FirstCharacters | lib/memory-extractor.ts:96-136 | each warning text starts with its own opening, and the "too many" text starts with a digit |
| MemoryExtractor.GetMemoryStats | lib/memory-extractor.ts:150-186 | the per-list counts are the list lengths; totalPreferences and totalFacts are the sums of their counts; totalEmotionalPatterns is the sum of its three counts plus 1 |
| MemoryExtractor.ExampleStats | lib/memory-extractor.ts:150-166 | the example profile has 12 preferences, 10 emotional patterns and 12 facts |
| MemoryExtractor.EmptyProfileStats | lib/memory-extractor.ts:157-161 | an empty profile still counts 1 emotional pattern, for the style |
| MemoryExtractor.ExtractMemories | lib/memory-extractor.ts:10-50 | an empty list fails with "Memory extraction failed: No messages provided for memory extraction"; every failure carries the "Memory extraction failed: " prefix; a success comes from a successful model answer that the schema accepts, with the answer's values |
| MemoryExtractor.ExtractMemoriesAccepts | lib/memory-extractor.ts:26-40 | for a non-empty list, when the model answers with any JSON value that describes a profile, whatever other members it carries, the extraction returns that profile |
| Personalities.GetPersonality | prompts/personalities.ts:294-296 | the config returned for an id carries that id |
| Personalities.PersonalityTableKeys | prompts/personalities.ts:10-157 | the table has exactly the three ids as keys, each entry's id equals its key, and each entry is what the id lookup returns |
| Personalities.TableEntry | prompts/personalities.ts:294-296 | every id is in the table, and the lookup returns its entry |
| Personalities.GetAllPersonalities | prompts/personalities.ts:285-287 | three configs in declaration order: calm mentor, witty friend, therapist |
| Personalities.Temperatures | prompts/personalities.ts:44 | the temperatures are 0.7, 0.9 and 0.6 for calm mentor, witty friend and therapist (lines 44, 91, 146) |
| Personalities.NamesDistinct | prompts/personalities.ts:10-157 | the three personas have distinct names |
| Personalities.FormatMemoriesForContext | prompts/personalities.ts:200-279 | the push-under-conditions method returns exactly the specification's context |
| Personalities.ContextEmptyIff | prompts/personalities.ts:204-278 | the context is empty iff none of the three sections opens; a section opens iff one of its two gating lists is non-empty |
| Personalities.OnlyOpeningListsCount | prompts/personalities.ts:204-276 | section by section: when a section's two opening lists are empty, its other lists (dislikes and habits, joy sources and style, relationships and values) change nothing in the context, whatever the other sections hold; when all six opening lists are empty the context is empty |
| Personalities.ClosedSectionsIgnored | prompts/personalities.ts:204-276 | section by section: two profiles whose sections are each equal or each closed in both give the same context, so a closed section's non-gating lists never matter, whatever the other sections hold |
| Personalities.ClosedSectionOmitted | prompts/personalities.ts:204-278 | when one section is closed, the context is the other two sections joined with blank lines |
| Personalities.OpenSectionShown | prompts/personalities.ts:204-276 | when a section is open, its header occurs in the context |
| Personalities.ItemInLine | prompts/personalities.ts:209-220 | every item of a non-empty list appears in its "Label: a, b" line |
| Personalities.InSection | prompts/personalities.ts:221 | every text in a section's lines appears in the section |
| Personalities.PreferenceItemInContext | prompts/personalities.ts:204-222 | in an open Preferences section every hobby, like, dislike and habit appears in the context |
| Personalities.EmotionItemInContext | prompts/personalities.ts:225-251 | in an open Emotional Patterns section every emotion, trigger and joy source, and a non-empty style, appear in the context |
| Personalities.FactItemInContext | prompts/personalities.ts:254-276 | in an open Important Facts section every detail, relationship, goal and value appears in the context |
| Personalities.SectionInContext | prompts/personalities.ts:278 | every text in an open section appears in the context joined with blank lines |
| Personalities.PromptFraming | prompts/personalities.ts:176-192 | the prompt starts with the system prompt, holds the query verbatim after the memory context, and ends with "**YOUR RESPONSE (as <name>):**" |
| Personalities.ContextInPrompt | prompts/personalities.ts:176-187 | the memory context occurs verbatim in the prompt, right after the system prompt and the instructions that name the persona |
| Personalities.MemoryItemInPrompt | prompts/personalities.ts:166-193 | every text of an open memory section, so every item of its lists, occurs in the prompt built for any persona and query |
| Personalities.CreatePersonalityPromptLayout | prompts/personalities.ts:166-193 | the prompt built for a persona id starts with that persona's system prompt, holds the memory context verbatim after the fixed rules, holds the query verbatim after the question heading, and ends with the cue naming the persona |
| Personalities.PromptDeterminesQuery | prompts/personalities.ts:187-190 | for the same persona and memories, the prompt determines the query |
| Personalities.PromptDeterminesPersona | prompts/personalities.ts:176-192 | the prompt determines the persona |
| Personalities.PromptNameEnd | prompts/personalities.ts:192 | the character before the closing "):**" is the last letter of the persona's name |
| PersonalityEngine.Hits | lib/personality-engine.ts:102-113 | one list yields at most one reference per item |
| PersonalityEngine.CheckReferences | lib/personality-engine.ts:102-125 | the loop over one list adds exactly the specification's hits to the set, in order |
| PersonalityEngine.ExtractMemoryReferences | lib/personality-engine.ts:94-160 | the callbacks over the eleven lists and the style return exactly the specification's references |
| PersonalityEngine.AddAllMembers | lib/personality-engine.ts:98 | adding to a set keeps exactly the old members and the added ones, and adds no duplicate |
| PersonalityEngine.AddAllIsFirstOccurrences | lib/personality-engine.ts:98-159 | `Array.from` of the set lists each reference where it first occurs |
| PersonalityEngine.HitsIff | lib/personality-engine.ts:102-113 | a reference is produced for a list iff it is "<Label>: <item>" for an item of that list that is referenced |
| PersonalityEngine.MemoryReferencesIff | lib/personality-engine.ts:94-160 | a text is a reference iff it is "<Label>: <item>" with the original item of that label's list and the item referenced, or the style under "Communication Style" |
| PersonalityEngine.MemoryReferencesShape | lib/personality-engine.ts:98-159 | the references have no duplicates and are the candidates in category order, each at its first occurrence |
| PersonalityEngine.MemoryReferences | lib/personality-engine.ts:94-160 | the references have no duplicates and are exactly the candidate references of the lower-cased response |
| PersonalityEngine.EmptyItemReferenced | lib/personality-engine.ts:107 | an empty item is always referenced |
| PersonalityEngine.EmptyHobbyReferenced | lib/personality-engine.ts:107-108 | an empty hobby always yields the reference "Hobby: " |
| PersonalityEngine.IsReferenced | lib/personality-engine.ts:103-112 | an item occurring whole, ignoring case, is referenced; an item whose space-separated pieces all have at most 3 characters is referenced iff it occurs whole |
| PersonalityEngine.ReferencedInLonger | lib/personality-engine.ts:103-112 | an item referenced in a response is referenced in any response that contains it |
| PersonalityEngine.ReferencesGrowWithResponse | lib/personality-engine.ts:94-160 | every reference found in a response is found in any longer response that contains it |
| PersonalityEngine.CommunicationStyleReferenced | lib/personality-engine.ts:138-147 | the style is referenced iff it is non-empty and occurs whole, ignoring case, in the response |
| PersonalityEngine.HitsFirstCharacter | lib/personality-engine.ts:108 | every list reference starts with its label's first letter |
| PersonalityEngine.NotAHit | lib/personality-engine.ts:108 | a list whose label does not start with "C" never yields the style reference |
| PersonalityEngine.QueryErrorTextInjective | lib/personality-engine.ts:205-224 | the three query messages are distinct |
| PersonalityEngine.ValidateQuery | lib/personality-engine.ts:201-227 | valid iff the trimmed length is at least 5 and the raw length at most 500; invalid exactly when an error is set; "empty" iff all white space, "too short" iff the trimmed length is 1 to 4, "too long" iff the trimmed length is at least 5 and the raw length over 500 |
| PersonalityEngine.QueryBoundaries | lib/personality-engine.ts:212-224 | a trimmed length of 5 and a raw length of 500 are valid; a raw length of 501 is too long |
| PersonalityEngine.GeneratePersonalityResponse | lib/personality-engine.ts:15-52 | succeeds iff the model reply does; a failure carries "Failed to generate response: "; a success echoes the persona, trims the reply and finds the references in the untrimmed reply |
| PersonalityEngine.GenerateAllPersonalityResponses | lib/personality-engine.ts:60-85 | succeeds iff every persona's reply does, then with the three replies in order calm mentor, witty friend, therapist; otherwise fails with some persona's error |
| PersonalityEngine.EveryPersonaReplies | lib/personality-engine.ts:64-68 | when the three listed personas reply, every persona replies |
| PersonalityEngine.AllKeys | lib/personality-engine.ts:174-183 | a record listing the three ids has every persona as a key |
| PersonalityEngine.ComparePersonalityResponses | lib/personality-engine.ts:167-194 | no common themes, every approach list empty, and each persona's usage is the reference count of its last response |
| PersonalityEngine.LastUsageAbsent | lib/personality-engine.ts:179-187 | a persona with no response has usage 0 |
| PersonalityEngine.LastUsageIsLast | lib/personality-engine.ts:185-187 | a persona's usage is the reference count of its last response |
| ExtractMemoryRoute.ParseMessage | app/api/extract-memory/route.ts:9-12 | a message is accepted iff its role is the string "user" or "ai" and its content is a string of length at least 1; the result carries that role and content |
| ExtractMemoryRoute.ParseMessageList | app/api/extract-memory/route.ts:8-13 | a message array is accepted iff every element is, and the result lists the elements in order |
| ExtractMemoryRoute.ParseExtractRequest | app/api/extract-memory/route.ts:7-14 | a request is accepted iff `messages` is an array whose every element is an accepted message; the result has one message per element, each the element's parse |
| ExtractMemoryRoute.RequestRoundTrip | app/api/extract-memory/route.ts:7-14 | a request whose contents are all non-empty passes the schema unchanged; one empty content fails it |
| ExtractMemoryRoute.MessageRoundTrip | app/api/extract-memory/route.ts:9-12 | a message with non-empty content passes unchanged, and one with empty content fails |
| ExtractMemoryRoute.UnknownRoleRejected | app/api/extract-memory/route.ts:10 | a role other than "user" or "ai" fails the schema |
| ExtractMemoryRoute.Respond | app/api/extract-memory/route.ts:33-91 | an invalid transcript gets 400 with the warnings joined by ". "; extraction happens only for a valid one; a 500 error carries "Memory extraction failed: " twice |
| ExtractMemoryRoute.Post | app/api/extract-memory/route.ts:16-92 | a non-JSON body gets 400 "Invalid JSON in request body"; a schema failure gets 400 "Invalid request format: " and the schema message; success needs the schema and the validation to pass; statuses are 400 or 500 |
| ExtractMemoryRoute.GatesPrecedeExtraction | app/api/extract-memory/route.ts:19-46 | a body that is not JSON, fails the schema or fails validation gets a 400 that does not depend on the model |
| ExtractMemoryRoute.EmptyListRejected | app/api/extract-memory/route.ts:36-46 | an empty list gets 400 "No messages found in the conversation" |
| ExtractMemoryRoute.NoUserMessagesRejected | app/api/extract-memory/route.ts:36-46 | an AI-only transcript of any length gets 400 "No user messages found in the conversation" |
| ExtractMemoryRoute.OneWarning | app/api/extract-memory/route.ts:41 | a single warning is reported as its text alone |
| ExtractMemoryRoute.WarningsDoNotBlock | app/api/extract-memory/route.ts:47-65 | a valid transcript with any warnings gets the profile described by the model's reply, whatever other members the reply carries |
| GenerateResponseRoute.ParseGenerateRequest | app/api/generate-response/route.ts:15-20 | a request passes iff the query is a string of raw length 5 to 500, the memories pass the memory schema, and a present personality is one of the ids and a present generateAll is a boolean; an accepted request carries the body's query, memories, personality and generateAll |
| GenerateResponseRoute.NullOptionalRejected | app/api/generate-response/route.ts:18-19 | a null personality or generateAll fails the schema: optional means absent |
| GenerateResponseRoute.RespondAll | app/api/generate-response/route.ts:55-66 | the all-personas branch gives three replies or a 500 carrying "Response generation failed: " |
| GenerateResponseRoute.RespondOne | app/api/generate-response/route.ts:67-83 | the one-persona branch gives a trimmed reply or a 500 carrying "Response generation failed: " |
| GenerateResponseRoute.Route | app/api/generate-response/route.ts:54-92 | all replies only when generateAll is true; one reply only when it is not and a persona is given; a 400 is always "Must specify either 'personality' or 'generateAll: true'" |
| GenerateResponseRoute.Dispatch | app/api/generate-response/route.ts:42-92 | a query that fails `validateQuery` gets 400 with its message; a valid query is routed |
| GenerateResponseRoute.Post | app/api/generate-response/route.ts:22-119 | a non-JSON body gets 400 "Invalid JSON in request body"; a schema failure gets 400 "Invalid request format: " and the schema message; any reply needs the schema to pass |
| GenerateResponseRoute.GatesPrecedeGeneration | app/api/generate-response/route.ts:22-52 | a body that is not JSON, fails the schema or fails the query check gets a 400 that does not depend on the model |
| GenerateResponseRoute.SpacesQueryRejected | app/api/generate-response/route.ts:15-52 | six spaces pass the schema and are rejected as "Query cannot be empty" |
| GenerateResponseRoute.SpacesBodyRejected | app/api/generate-response/route.ts:22-52 | a request body whose query is six spaces and which otherwise passes the schema gets 400 "Query cannot be empty" |
| GenerateResponseRoute.PaddedQueryTooShort | app/api/generate-response/route.ts:15-52 | "a" and four spaces pass the schema and are rejected as too short |
| GenerateResponseRoute.TooLongNeverSent | app/api/generate-response/route.ts:15-52 | the schema caps the query at 500, so the "too long" message is never sent |
| GenerateResponseRoute.GenerateAllTakesPrecedence | app/api/generate-response/route.ts:55-67 | generateAll true wins over any personality and returns the three replies when all succeed |
| GenerateResponseRoute.SinglePersonaReply | app/api/generate-response/route.ts:67-83 | with only a persona, the response is that persona's trimmed reply and its references |
| GenerateResponseRoute.NeitherRejected | app/api/generate-response/route.ts:84-92 | with neither field, or generateAll false, the response is 400 "Must specify either 'personality' or 'generateAll: true'" |

## Left out

- lib/gemini.ts is not part of this model. The SDK client, its API key, the network call and its `JSON.parse` of the model's text are a function parameter that returns a `Result`.
- GenerateAllPersonalityResponses: the `Promise.all` fan-out is modelled as a sequential map over calm mentor, witty friend and therapist. Any failure fails the whole call with the error of the first failing persona. Concurrency and which rejection settles first are not modelled.
- The `generatedAt: new Date()` timestamp of a reply is not modelled, because it reads the clock.
- `console.log`, `console.warn` and `console.error` are logging only and are not modelled.
- The text of zod's error messages is not modelled. It is a string parameter: `formatError` for the request schemas, `schemaError` for the memory schema inside extraction.
- The "Unknown error" branches that handle a thrown value that is not an `Error` are not modelled. Every failure here carries a message.
- The `GET` handlers that answer 405 are not modelled.
- The `NextResponse` and `request.json()` plumbing is not modelled. A body that is not JSON is `None`, and a JSON body is a parsed `Json` value.
- The extraction's "fewer than 10 messages" branch only logs, so it changes no result and is not modelled.
- The React pages and components, the OAuth wiring in lib/auth.ts and the sample transcripts in data/sample-chats.ts are not part of this model.
- The persona icons (the `icon` field) are display data and are not modelled. Descriptions, colours and characteristics are kept in the configs as constants, but only the ids, names, system prompts and temperatures take part in any property.
- Text.Lower: lower-cases ASCII letters only, not the full Unicode case mapping of `toLowerCase`.
- Text.Trim: white space is the ECMAScript WhiteSpace and LineTerminator set, taken character by character.
- Lengths are counted in Unicode scalar values, not UTF-16 code units. A query holding characters outside the Basic Multilingual Plane is measured differently by the 5-to-500 limits.
- MemoryExtractor.Validate: the 30% rule `short > n * 0.3` is written as the integer comparison `10 * short > 3 * n`. The constant 0.3 is itself a rounded double, slightly below 3/10, and the product is rounded again. For an array length n (at most 2^32 - 1), the two roundings together move `n * 0.3` by less than 10^-6. When 3n/10 is not whole it is at least 1/10 from the nearest integer, and when it is whole the product rounds back to it exactly, so the two tests agree. They can differ for larger n: at n = 7505999378950833, below 2^53, the double product is exactly 2251799813685250, so a short count of 2251799813685250 passes `10 * short > 3 * n` but not `short > n * 0.3`.

## Notes on the source

- The memory schema accepts an empty `communicationStyle`, because `z.string()` has no minimum. Every one of the 11 lists must be present: there is no default to an empty list.
- `validateMessages` returns early for a transcript without user messages. That return discards a count warning already pushed.
- A failure inside `extractMemories` already carries "Memory extraction failed: ". The route's catch adds the same prefix again, so a 500 from the extraction route starts with it twice (`ExtractMemoryRoute.Respond`).
- The generation route's schema limits the raw query to 500 characters, and `validateQuery` checks the trimmed length. A query of white space passes the schema and fails `validateQuery`. Its "too long" message can never be sent (`GenerateResponseRoute.TooLongNeverSent`).
- Only two lists of each memory group decide whether the group's section is printed. A profile holding only dislikes, habits, joy sources, relationships or values gets an empty context (`Personalities.OnlyOpeningListsCount`).
