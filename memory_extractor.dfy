/**
 * lib/memory-extractor.ts: parsing pasted transcript text into messages, the
 * transcript quality rules, the profile statistics, and the extraction call.
 */
module MemoryExtractor {
  import opened Wrappers
  import opened Text
  import opened JsonValues
  import opened Types
  import opened ExtractionPrompt

  // ===== Parsing =====

  /** `s` starts with `prefix` up to ASCII letter case, as the `i` flag compares; `prefix` is in lower case. */
  predicate StartsWithIgnoringCase(s: string, prefix: string) {
    |prefix| <= |s| && forall i :: 0 <= i < |prefix| ==> LowerChar(s[i]) == prefix[i]
  }

  /**
   * The first capture group of `line.match(/^<tag>\s*(.+)$/i)`, where `tag` is
   * "user:" or "ai:". `\s*` is greedy, and gives back one white-space character
   * when nothing else is left for `(.+)`; `.` matches no line terminator.
   */
  function MatchTagged(line: string, tag: string): (r: Option<string>)
    ensures r.Some? ==> r.value != [] && NoLineTerminator(r.value)
  {
    if !StartsWithIgnoringCase(line, tag) then None
    else
      var rest := line[|tag|..];
      var tail := TrimStart(rest);
      var k := |rest| - |tail|;
      if tail != [] then
        if NoLineTerminator(tail) then Some(tail) else None
      else if k > 0 && !IsLineTerminator(rest[k - 1]) then Some([rest[k - 1]])
      else None
  }

  /**
   * The regular expression matches `line` with `\s*` taking the first `k`
   * characters after the tag and `(.+)` taking all the others.
   */
  ghost predicate MatchesAt(line: string, tag: string, k: int) {
    && StartsWithIgnoringCase(line, tag)
    && 0 <= k < |line| - |tag|
    && (forall i :: |tag| <= i < |tag| + k ==> IsSpace(line[i]))
    && CapturableAfter(line, tag, k)
  }

  /** `(.+)` can take everything after the tag and `k` more characters: no line terminator there. */
  ghost predicate CapturableAfter(line: string, tag: string, k: nat)
    requires |tag| + k <= |line|
  {
    NoLineTerminator(line[|tag| + k..])
  }

  /**
   * MatchTagged is the regular expression's match: it succeeds iff some split
   * matches, and then captures what the greediest split leaves to `(.+)`.
   */
  lemma MatchTaggedIsGreedyMatch(line: string, tag: string)
    ensures MatchTagged(line, tag).Some? <==> exists k :: MatchesAt(line, tag, k)
    ensures MatchTagged(line, tag).Some? ==>
      exists k :: && MatchesAt(line, tag, k)
                  && MatchTagged(line, tag).value == line[|tag| + k..]
                  && forall k' :: MatchesAt(line, tag, k') ==> k' <= k
  {
    var r := MatchTagged(line, tag);
    if StartsWithIgnoringCase(line, tag) {
      var rest := line[|tag|..];
      var tail := TrimStart(rest);
      var n := |rest| - |tail|;
      LeadingSpaceBound(line, tag);
      assert line[|tag| + n..] == tail;
      if tail != [] {
        if NoLineTerminator(tail) {
          assert MatchesAt(line, tag, n);
          CapturedAt(line, tag, n);
          assert r == Some(line[|tag| + n..]);
        } else {
          TerminatorInTail(line, tag, tail);
          NoCapture(line, tag);
        }
      } else if n > 0 && !IsLineTerminator(rest[n - 1]) {
        assert line[|tag| + n - 1..] == [rest[n - 1]];
        assert MatchesAt(line, tag, n - 1);
        CapturedAt(line, tag, n - 1);
        assert r == Some(line[|tag| + n - 1..]);
      } else {
        NothingToCapture(line, tag);
        NoCapture(line, tag);
      }
    } else {
      NoCapture(line, tag);
    }
    assert GreedyCapture(line, tag, r);
  }

  /** `r` is what the regular expression captures: present iff some split matches, and then the greediest split's. */
  ghost predicate GreedyCapture(line: string, tag: string, r: Option<string>) {
    && (r.Some? <==> exists k :: MatchesAt(line, tag, k))
    && (r.Some? ==>
      exists k :: && MatchesAt(line, tag, k)
                  && r.value == line[|tag| + k..]
                  && forall k' :: MatchesAt(line, tag, k') ==> k' <= k)
  }

  /** A split that matches, with no greedier split matching, gives the capture. */
  lemma CapturedAt(line: string, tag: string, k: int)
    requires MatchesAt(line, tag, k)
    requires forall k' :: MatchesAt(line, tag, k') ==> k' <= k
    ensures GreedyCapture(line, tag, Some(line[|tag| + k..]))
  {
  }

  /** When no split matches, there is no capture. */
  lemma NoCapture(line: string, tag: string)
    requires forall k :: !MatchesAt(line, tag, k)
    ensures GreedyCapture(line, tag, None)
  {
  }

  /** No split can give `\s*` more than the white space that leads the text after the tag. */
  lemma LeadingSpaceBound(line: string, tag: string)
    requires StartsWithIgnoringCase(line, tag)
    ensures var rest := line[|tag|..];
      forall k :: MatchesAt(line, tag, k) ==> k <= |rest| - |TrimStart(rest)|
  {
    var rest := line[|tag|..];
    var tail := TrimStart(rest);
    var n := |rest| - |tail|;
    forall k | MatchesAt(line, tag, k) ensures k <= n {
      if n < |rest| {
        assert tail[0] == rest[n] == line[|tag| + n];
      }
    }
  }

  /** A line terminator after the leading white space leaves `(.+)` nothing it can take up to the end. */
  lemma TerminatorInTail(line: string, tag: string, tail: string)
    requires |tag| + |tail| <= |line| && tail == line[|line| - |tail|..]
    requires forall k :: MatchesAt(line, tag, k) ==> k <= |line| - |tag| - |tail|
    requires !NoLineTerminator(tail)
    ensures forall k :: !MatchesAt(line, tag, k)
  {
    var q := TerminatorAfter(line, tail);
    BlockedBeyondSpace(line, tag, |line| - |tag| - |tail|, q);
  }

  /** When `\s*` can take at most `n` characters and a line terminator follows them, no split matches. */
  lemma BlockedBeyondSpace(line: string, tag: string, n: nat, q: nat)
    requires forall k :: MatchesAt(line, tag, k) ==> k <= n
    requires |tag| + n <= q < |line| && IsLineTerminator(line[q])
    ensures forall k :: !MatchesAt(line, tag, k)
  {
    TerminatorBlocks(line, tag, q);
  }

  /** A line terminator in a suffix of `line` sits at some position of `line` where the suffix begins or later. */
  lemma TerminatorAfter(line: string, tail: string) returns (q: nat)
    requires |tail| <= |line| && tail == line[|line| - |tail|..]
    requires !NoLineTerminator(tail)
    ensures |line| - |tail| <= q < |line| && IsLineTerminator(line[q])
  {
    var p :| 0 <= p < |tail| && IsLineTerminator(tail[p]);
    q := |line| - |tail| + p;
  }

  /** A line terminator at `q` stops `(.+)` from reaching the end when it starts at or before `q`. */
  lemma TerminatorBlocks(line: string, tag: string, q: nat)
    requires |tag| <= q < |line| && IsLineTerminator(line[q])
    ensures forall k: nat :: |tag| + k <= q ==> !CapturableAfter(line, tag, k)
  {
    forall k: nat | |tag| + k <= q ensures !CapturableAfter(line, tag, k) {
      assert line[|tag| + k..][q - |tag| - k] == line[q];
    }
  }

  /** Only white space after the tag, ending in a line terminator or absent: nothing for `(.+)`. */
  lemma NothingToCapture(line: string, tag: string)
    requires StartsWithIgnoringCase(line, tag)
    requires var rest := line[|tag|..]; var n := |rest| - |TrimStart(rest)|;
      TrimStart(rest) == [] && (n == 0 || IsLineTerminator(rest[n - 1]))
    ensures forall k :: !MatchesAt(line, tag, k)
  {
    var rest := line[|tag|..];
    var n := |rest| - |TrimStart(rest)|;
    assert |rest| == n;
    if n > 0 {
      assert rest[n - 1] == line[|tag| + n - 1];
      TerminatorBlocks(line, tag, |tag| + n - 1);
    }
  }

  /** One line of the loop body of `parseConversationText`: trimmed, then matched against "User:" and "AI:". */
  function ParseLine(line: string): (r: Option<ChatMessage>)
    ensures r.Some? ==> IsTrimmed(r.value.content)
    ensures r.Some? && r.value.role == User ==> StartsWithIgnoringCase(Trim(line), "user:")
  {
    var trimmedLine := Trim(line);
    match MatchTagged(trimmedLine, "user:")
    case Some(c) => Some(ChatMessage(User, Trim(c)))
    case None =>
      match MatchTagged(trimmedLine, "ai:")
      case Some(c) => Some(ChatMessage(Ai, Trim(c)))
      case None => None
  }

  /** `lines.filter((line) => line.trim())`: the lines that are not blank. */
  function NonBlank(lines: seq<string>): (r: seq<string>)
    ensures |r| <= |lines|
  {
    if |lines| == 0 then []
    else
      var last := lines[|lines| - 1];
      NonBlank(lines[..|lines| - 1]) + (if Trim(last) != [] then [last] else [])
  }

  /** The messages of `lines`, in line order; a line that does not parse adds nothing. */
  function ParseLines(lines: seq<string>): (r: seq<ChatMessage>)
    ensures |r| <= |lines|
  {
    if |lines| == 0 then []
    else
      var m := ParseLine(lines[|lines| - 1]);
      ParseLines(lines[..|lines| - 1]) + (if m.Some? then [m.value] else [])
  }

  /** What `parseConversationText(rawText)` returns. */
  function ParsedMessages(rawText: string): seq<ChatMessage> {
    ParseLines(NonBlank(Split(rawText, '\n')))
  }

  /** `parseConversationText`: the loop that pushes one message per matching line. */
  method ParseConversationText(rawText: string) returns (messages: seq<ChatMessage>)
    ensures messages == ParsedMessages(rawText)
  {
    var lines := NonBlank(Split(rawText, '\n'));
    messages := [];
    for i := 0 to |lines|
      invariant messages == ParseLines(lines[..i])
    {
      ParseLinesPrefix(lines, i);
      var trimmedLine := Trim(lines[i]);
      var userMatch := MatchTagged(trimmedLine, "user:");
      var aiMatch := MatchTagged(trimmedLine, "ai:");
      if userMatch.Some? {
        messages := messages + [ChatMessage(User, Trim(userMatch.value))];
      } else if aiMatch.Some? {
        messages := messages + [ChatMessage(Ai, Trim(aiMatch.value))];
      }
    }
    assert lines[..|lines|] == lines;
  }

  /** The messages of the first `i + 1` lines: those of the first `i`, then line `i`'s own, if any. */
  lemma ParseLinesPrefix(lines: seq<string>, i: nat)
    requires i < |lines|
    ensures ParseLines(lines[..i + 1]) ==
      ParseLines(lines[..i]) + (if ParseLine(lines[i]).Some? then [ParseLine(lines[i]).value] else [])
  {
    assert lines[..i + 1][..i] == lines[..i];
  }

  /** Parsing keeps line order: the messages of two runs of lines are those of each run, in turn. */
  lemma {:induction false} ParseLinesAppend(a: seq<string>, b: seq<string>)
    ensures ParseLines(a + b) == ParseLines(a) + ParseLines(b)
    decreases |b|
  {
    if |b| == 0 {
      assert a + b == a;
    } else {
      var b', last := b[..|b| - 1], b[|b| - 1];
      assert b == b' + [last];
      assert a + b == (a + b') + [last];
      ParseLinesSnoc(a + b', last);
      ParseLinesSnoc(b', last);
      ParseLinesAppend(a, b');
    }
  }

  /** The messages of some lines and one more: those of the lines, then the last line's own, if any. */
  lemma ParseLinesSnoc(lines: seq<string>, line: string)
    ensures var m := ParseLine(line);
      ParseLines(lines + [line]) == ParseLines(lines) + (if m.Some? then [m.value] else [])
  {
    assert (lines + [line])[..|lines|] == lines;
  }

  /** A blank line never parses, so filtering the blank lines out changes nothing. */
  lemma {:induction false} ParseLinesNonBlank(lines: seq<string>)
    ensures ParseLines(NonBlank(lines)) == ParseLines(lines)
    decreases |lines|
  {
    if |lines| > 0 {
      var init, last := lines[..|lines| - 1], lines[|lines| - 1];
      ParseLinesNonBlank(init);
      ParseLinesAppend(NonBlank(init), if Trim(last) != [] then [last] else []);
      if Trim(last) != [] {
        assert ParseLines([last]) == ParseLines([last][..0]) + (if ParseLine(last).Some? then [ParseLine(last).value] else []);
      }
    }
  }

  /** A message content is clean: non-empty, no white space at either end, no line terminator. */
  predicate CleanContent(c: string) {
    c != [] && IsTrimmed(c) && NoLineTerminator(c)
  }

  /** Matching a tag on a trimmed line captures clean text: the fallback of `\s*` cannot arise there. */
  lemma {:induction false} MatchTaggedOnTrimmed(line: string, tag: string)
    requires IsTrimmed(line) && tag != []
    requires MatchTagged(line, tag).Some?
    ensures CleanContent(MatchTagged(line, tag).value)
  {
    var rest := line[|tag|..];
    var tail := TrimStart(rest);
    assert |rest| > 0;
    assert rest[|rest| - 1] == line[|line| - 1];
    assert tail != [];
    assert tail[|tail| - 1] == line[|line| - 1];
  }

  /** Each parsed line yields non-empty trimmed content with no line terminator. */
  lemma ParseLineClean(line: string)
    requires ParseLine(line).Some?
    ensures CleanContent(ParseLine(line).value.content)
  {
    var t := Trim(line);
    if MatchTagged(t, "user:").Some? {
      MatchTaggedOnTrimmed(t, "user:");
    } else {
      MatchTaggedOnTrimmed(t, "ai:");
    }
  }

  /**
   * The role follows the tag whatever its letter case: "user:" gives the user,
   * "ai:" the AI; a line starting with neither, or blank, yields nothing.
   */
  lemma ParseLineRole(line: string)
    ensures ParseLine(line).Some? ==>
      (ParseLine(line).value.role == User <==> StartsWithIgnoringCase(Trim(line), "user:"))
    ensures ParseLine(line).Some? && ParseLine(line).value.role == Ai ==> StartsWithIgnoringCase(Trim(line), "ai:")
    ensures !StartsWithIgnoringCase(Trim(line), "user:") && !StartsWithIgnoringCase(Trim(line), "ai:") ==> ParseLine(line) == None
    ensures Trim(line) == [] ==> ParseLine(line) == None
  {
  }

  /** Every parsed message has clean content. */
  lemma {:induction false} ParseLinesClean(lines: seq<string>)
    ensures forall m :: m in ParseLines(lines) ==> CleanContent(m.content)
    decreases |lines|
  {
    if |lines| > 0 {
      ParseLinesClean(lines[..|lines| - 1]);
      if ParseLine(lines[|lines| - 1]).Some? {
        ParseLineClean(lines[|lines| - 1]);
      }
    }
  }

  /** Whatever text is pasted, every message parsed from it has clean content. */
  lemma ParsedMessagesClean(rawText: string)
    ensures forall m :: m in ParsedMessages(rawText) ==> CleanContent(m.content)
  {
    ParseLinesClean(NonBlank(Split(rawText, '\n')));
  }

  /** A tag followed by one space and clean content captures exactly that content. */
  lemma MatchAfterTag(line: string, tag: string, c: string)
    requires StartsWithIgnoringCase(line, tag)
    requires line[|tag|..] == " " + c
    requires CleanContent(c)
    ensures MatchTagged(line, tag) == Some(c)
  {
    var rest := line[|tag|..];
    assert rest[1..] == c;
    assert TrimStart(c) == c;
    assert TrimStart(rest) == c;
  }

  /** A rendered user message starts with "user:" and an AI message does not. */
  lemma RenderedTag(m: ChatMessage)
    ensures StartsWithIgnoringCase(RenderMessage(m), "user:") <==> m.role == User
    ensures m.role == User ==> RenderMessage(m)[5..] == " " + m.content
    ensures m.role == Ai ==> StartsWithIgnoringCase(RenderMessage(m), "ai:")
    ensures m.role == Ai ==> RenderMessage(m)[3..] == " " + m.content
  {
    var line := RenderMessage(m);
    if m.role == User {
      assert line == "User: " + m.content;
    } else {
      assert line == "AI: " + m.content;
      assert LowerChar(line[0]) == 'a';
    }
  }

  /** A rendered message parses back to itself when its content is clean. */
  lemma ParseRenderedMessage(m: ChatMessage)
    requires CleanContent(m.content)
    ensures ParseLine(RenderMessage(m)) == Some(m)
  {
    var line := RenderMessage(m);
    RenderedTag(m);
    assert line[0] == Speaker(m.role)[0];
    assert line[|line| - 1] == m.content[|m.content| - 1];
    assert IsTrimmed(line);
    assert Trim(line) == line;
    if m.role == User {
      MatchAfterTag(line, "user:", m.content);
    } else {
      MatchAfterTag(line, "ai:", m.content);
    }
  }

  /** A rendered message with clean content is one line, and that line parses back to the message. */
  lemma RenderedLine(m: ChatMessage)
    requires CleanContent(m.content)
    ensures Split(RenderMessage(m), '\n') == [RenderMessage(m)]
    ensures ParseLines([RenderMessage(m)]) == [m]
  {
    var r := RenderMessage(m);
    SplitNoSeparator(r, '\n');
    ParseRenderedMessage(m);
    assert [r][..0] == [];
  }

  /** The conversation block of two or more messages: the first, a blank line, then the block of the rest. */
  lemma ConversationTextCons(messages: seq<ChatMessage>)
    requires |messages| > 1
    ensures ConversationText(messages) ==
      RenderMessage(messages[0]) + ['\n'] + ([] + ['\n'] + ConversationText(messages[1..]))
  {
    assert RenderAll(messages)[1..] == RenderAll(messages[1..]);
  }

  /** The lines of the block `r + "\n\n" + j`: those of `r`, one empty line, then those of `j`. */
  lemma SplitBlankLine(r: string, j: string)
    ensures Split(r + ['\n'] + ([] + ['\n'] + j), '\n') == Split(r, '\n') + [""] + Split(j, '\n')
  {
    SplitAtSeparator(r, [] + ['\n'] + j, '\n');
    SplitAtSeparator([], j, '\n');
  }

  /** The lines of a block of two or more messages: the first message's, an empty line, then the rest's. */
  lemma ConversationLinesSplit(messages: seq<ChatMessage>)
    requires |messages| > 1
    ensures Split(ConversationText(messages), '\n') ==
      Split(RenderMessage(messages[0]), '\n') + [""] + Split(ConversationText(messages[1..]), '\n')
  {
    ConversationTextCons(messages);
    SplitBlankLine(RenderMessage(messages[0]), ConversationText(messages[1..]));
  }

  /** A line that parses to `m`, then an empty line, then more lines: `m` and what the rest parse to. */
  lemma ParseLinesAfterBlank(line: string, m: ChatMessage, rest: seq<string>)
    requires ParseLines([line]) == [m]
    ensures ParseLines([line] + [""] + rest) == [m] + ParseLines(rest)
  {
    var head := [line] + [""];
    ParseLinesAppend(head, rest);
    ParseLinesAppend([line], [""]);
    BlankLineParsesToNothing();
    assert ParseLines(head) == [m];
  }

  /** An empty line gives no message. */
  lemma BlankLineParsesToNothing()
    ensures ParseLines([""]) == []
  {
    assert ParseLine("") == None;
    assert [""][..0] == [];
  }

  /** The lines of a block of two or more messages parse to the first message, then to what the rest's lines parse to. */
  lemma ConversationLinesCons(messages: seq<ChatMessage>)
    requires |messages| > 1 && CleanContent(messages[0].content)
    ensures ParseLines(Split(ConversationText(messages), '\n')) ==
      [messages[0]] + ParseLines(Split(ConversationText(messages[1..]), '\n'))
  {
    RenderedLine(messages[0]);
    ConversationLinesSplit(messages);
    ParseLinesAfterBlank(RenderMessage(messages[0]), messages[0], Split(ConversationText(messages[1..]), '\n'));
  }

  /** The lines of a conversation block parse back to its messages. */
  lemma {:induction false} ConversationLinesRoundTrip(messages: seq<ChatMessage>)
    requires forall k :: 0 <= k < |messages| ==> CleanContent(messages[k].content)
    ensures ParseLines(Split(ConversationText(messages), '\n')) == messages
    decreases |messages|
  {
    if |messages| == 0 {
      EmptyConversationLines();
    } else if |messages| == 1 {
      SingleConversationLines(messages);
    } else {
      var rest := messages[1..];
      ConversationLinesCons(messages);
      forall k | 0 <= k < |rest| ensures CleanContent(rest[k].content) {
        assert rest[k] == messages[k + 1];
      }
      ConversationLinesRoundTrip(rest);
      assert messages == [messages[0]] + rest;
    }
  }

  /** The empty block is one empty line, which parses to nothing. */
  lemma EmptyConversationLines()
    ensures ParseLines(Split(ConversationText([]), '\n')) == []
  {
    assert Split(ConversationText([]), '\n') == [""];
    assert [""][..0] == [];
  }

  /** The block of one message is its rendered line, which parses back to it. */
  lemma SingleConversationLines(messages: seq<ChatMessage>)
    requires |messages| == 1 && CleanContent(messages[0].content)
    ensures ParseLines(Split(ConversationText(messages), '\n')) == messages
  {
    RenderedLine(messages[0]);
    assert ConversationText(messages) == RenderMessage(messages[0]);
  }

  /**
   * Round trip: rendering messages with clean contents as the conversation block
   * and parsing that block gives back the identical messages.
   */
  lemma ParseConversationText_RoundTrip(messages: seq<ChatMessage>)
    requires forall k :: 0 <= k < |messages| ==> CleanContent(messages[k].content)
    ensures ParsedMessages(ConversationText(messages)) == messages
  {
    ParseLinesNonBlank(Split(ConversationText(messages), '\n'));
    ConversationLinesRoundTrip(messages);
  }

  /** The extraction prompt determines its transcript: parsing its conversation block gives the messages back. */
  lemma ExtractionPromptRecoversMessages(messages: seq<ChatMessage>)
    requires forall k :: 0 <= k < |messages| ==> CleanContent(messages[k].content)
    ensures var p := CreateMemoryExtractionPrompt(messages);
            ParsedMessages(p[|PromptPrefix|..|p| - |PromptSuffix|]) == messages
  {
    ParseConversationText_RoundTrip(messages);
  }

  // ===== Validation =====

  /** `messages.filter((m) => m.role === role).length`. */
  function CountRole(messages: seq<ChatMessage>, role: Role): (r: nat)
    ensures r <= |messages|
  {
    if |messages| == 0 then 0
    else CountRole(messages[..|messages| - 1], role) + (if messages[|messages| - 1].role == role then 1 else 0)
  }

  /** A message shorter than 10 characters counts as very short. */
  predicate IsShort(m: ChatMessage) {
    |m.content| < 10
  }

  /** `messages.filter((m) => m.content.length < 10).length`. */
  function CountShort(messages: seq<ChatMessage>): (r: nat)
    ensures r <= |messages|
  {
    if |messages| == 0 then 0
    else CountShort(messages[..|messages| - 1]) + (if IsShort(messages[|messages| - 1]) then 1 else 0)
  }

  /** Every message is the user's or the AI's, so the two role counts add up to the number of messages. */
  lemma {:induction false} CountRolesSum(messages: seq<ChatMessage>)
    ensures CountRole(messages, User) + CountRole(messages, Ai) == |messages|
    decreases |messages|
  {
    if |messages| > 0 {
      CountRolesSum(messages[..|messages| - 1]);
    }
  }

  /** The count of a role is the number of positions holding a message of that role. */
  lemma {:induction false} CountRoleIsCardinality(messages: seq<ChatMessage>, role: Role)
    ensures CountRole(messages, role) == |set i | 0 <= i < |messages| && messages[i].role == role|
    decreases |messages|
  {
    if |messages| > 0 {
      var n := |messages| - 1;
      var init := messages[..n];
      CountRoleIsCardinality(init, role);
      var before := set i | 0 <= i < n && init[i].role == role;
      var after := set i | 0 <= i < |messages| && messages[i].role == role;
      if messages[n].role == role {
        assert after == before + {n};
      } else {
        assert after == before;
      }
    }
  }

  /** The count of short messages is the number of positions holding a message shorter than 10 characters. */
  lemma {:induction false} CountShortIsCardinality(messages: seq<ChatMessage>)
    ensures CountShort(messages) == |set i | 0 <= i < |messages| && |messages[i].content| < 10|
    decreases |messages|
  {
    if |messages| > 0 {
      var n := |messages| - 1;
      var init := messages[..n];
      CountShortIsCardinality(init);
      var before := set i | 0 <= i < n && |init[i].content| < 10;
      var after := set i | 0 <= i < |messages| && |messages[i].content| < 10;
      if IsShort(messages[n]) {
        assert after == before + {n};
      } else {
        assert after == before;
      }
    }
  }

  /** The warnings of `validateMessages`, each one kind of message. */
  datatype Warning =
    | NoMessages
    | NoUserMessages
    | TooFew(count: nat)
    | TooMany(count: nat)
    | Unbalanced
    | TooShort

  /**
   * The text `validateMessages` pushes for each warning. Each fixed text is
   * split after the opening that `FirstCharacters` reads, so that the
   * injectivity proofs compare short prefixes rather than whole literals.
   */
  function WarningText(w: Warning): string {
    match w
    case NoMessages => "No messages" + " found in the conversation"
    case NoUserMessages => "No user" + " messages found in the conversation"
    case TooFew(n) => "Only " + DecimalString(n) + " messages found. Recommended: 30 messages for optimal memory extraction."
    case TooMany(n) => DecimalString(n) + " messages found. Using more than 50 messages may not improve extraction quality."
    case Unbalanced => "Conversation" + " seems unbalanced (significant difference between user and AI messages)"
    case TooShort => "Many messages" + " are very short. Longer, more detailed messages provide better memory extraction."
  }

  /** The text of each warning in a list, in order. */
  function WarningTexts(ws: seq<Warning>): (r: seq<string>)
    ensures |r| == |ws|
    ensures forall i :: 0 <= i < |ws| ==> r[i] == WarningText(ws[i])
  {
    seq(|ws|, i requires 0 <= i < |ws| => WarningText(ws[i]))
  }

  /** The result of `validateMessages`: a validity flag and the warnings, in the order they were pushed. */
  datatype Validation = Validation(isValid: bool, warnings: seq<Warning>)

  function Abs(x: int): nat {
    if x < 0 then -x else x
  }

  function Keep(condition: bool, w: Warning): seq<Warning> {
    if condition then [w] else []
  }

  /**
   * What `validateMessages` returns. An empty list, and a list without user
   * messages, are invalid with that single warning; otherwise the list is valid
   * and carries, in this order, the count warning, the balance warning and the
   * short-message warning whose rule applies. The 30% rule is the exact integer
   * form of `short > n * 0.3`.
   */
  function Validate(messages: seq<ChatMessage>): (v: Validation)
    ensures v.isValid <==> |messages| > 0 && CountRole(messages, User) > 0
    ensures |messages| == 0 ==> v.warnings == [NoMessages]
    ensures |messages| > 0 && CountRole(messages, User) == 0 ==> v.warnings == [NoUserMessages]
    ensures v.isValid ==>
      && NoMessages !in v.warnings && NoUserMessages !in v.warnings
      && (TooFew(|messages|) in v.warnings <==> |messages| < 30)
      && (TooMany(|messages|) in v.warnings <==> |messages| > 50)
      && (Unbalanced in v.warnings <==> Abs(CountRole(messages, User) - CountRole(messages, Ai)) > 5)
      && (TooShort in v.warnings <==> 10 * CountShort(messages) > 3 * |messages|)
    ensures v.isValid ==> forall w :: w in v.warnings ==>
      w == TooFew(|messages|) || w == TooMany(|messages|) || w == Unbalanced || w == TooShort
  {
    var n := |messages|;
    var users := CountRole(messages, User);
    var ais := CountRole(messages, Ai);
    if n == 0 then Validation(false, [NoMessages])
    else if users == 0 then Validation(false, [NoUserMessages])
    else
      var few, many := n < 30, n > 50;
      var unbalanced, short := Abs(users - ais) > 5, 10 * CountShort(messages) > 3 * n;
      KeptWarnings(few, TooFew(n), many, TooMany(n), unbalanced, Unbalanced, short, TooShort);
      Validation(true,
        Keep(few, TooFew(n)) + Keep(many, TooMany(n)) + Keep(unbalanced, Unbalanced) + Keep(short, TooShort))
  }

  /** A warning is in the four kept lists iff its own rule fired. */
  lemma KeptWarnings(c1: bool, w1: Warning, c2: bool, w2: Warning, c3: bool, w3: Warning, c4: bool, w4: Warning)
    ensures forall w :: w in Keep(c1, w1) + Keep(c2, w2) + Keep(c3, w3) + Keep(c4, w4) <==>
      (c1 && w == w1) || (c2 && w == w2) || (c3 && w == w3) || (c4 && w == w4)
  {
  }

  /** `validateMessages`: pushes warnings as the rules fire, with two early returns that drop them. */
  method ValidateMessages(messages: seq<ChatMessage>) returns (result: Validation)
    ensures result == Validate(messages)
  {
    var warnings: seq<Warning> := [];
    if |messages| == 0 {
      return Validation(false, [NoMessages]);
    }
    if |messages| < 30 {
      warnings := warnings + [TooFew(|messages|)];
    }
    if |messages| > 50 {
      warnings := warnings + [TooMany(|messages|)];
    }
    var userMessages := CountRole(messages, User);
    var aiMessages := CountRole(messages, Ai);
    if userMessages == 0 {
      return Validation(false, [NoUserMessages]);
    }
    if Abs(userMessages as int - aiMessages) > 5 {
      warnings := warnings + [Unbalanced];
    }
    var shortMessages := CountShort(messages);
    if 10 * shortMessages > 3 * |messages| {
      warnings := warnings + [TooShort];
    }
    return Validation(true, warnings);
  }

  /** The position of a warning's rule in `validateMessages`; both count warnings share the first. */
  function Rank(w: Warning): nat {
    match w
    case TooFew(_) => 0
    case TooMany(_) => 0
    case Unbalanced => 1
    case TooShort => 2
    case _ => 0
  }

  /** A valid result's warnings follow the rules' order, one per rule at most, so there are at most three. */
  lemma ValidWarningsOrdered(messages: seq<ChatMessage>)
    requires Validate(messages).isValid
    ensures var ws := Validate(messages).warnings;
      && |ws| <= 3
      && forall i, j :: 0 <= i < j < |ws| ==> Rank(ws[i]) < Rank(ws[j])
  {
  }

  /** A transcript of 30 to 50 messages, balanced, with some user message and few short messages draws no warning. */
  lemma IdealTranscript(messages: seq<ChatMessage>)
    requires 30 <= |messages| <= 50
    requires CountRole(messages, User) > 0
    requires Abs(CountRole(messages, User) - CountRole(messages, Ai)) <= 5
    requires 10 * CountShort(messages) <= 3 * |messages|
    ensures Validate(messages) == Validation(true, [])
  {
  }

  /** The count warning is dropped when there is no user message: 60 AI messages draw only that warning. */
  lemma NoUserDropsCountWarning(messages: seq<ChatMessage>)
    requires |messages| > 50
    requires forall i :: 0 <= i < |messages| ==> messages[i].role == Ai
    ensures Validate(messages) == Validation(false, [NoUserMessages])
  {
    NoRoleCount(messages, User);
  }

  lemma {:induction false} NoRoleCount(messages: seq<ChatMessage>, role: Role)
    requires forall i :: 0 <= i < |messages| ==> messages[i].role != role
    ensures CountRole(messages, role) == 0
    decreases |messages|
  {
    if |messages| > 0 {
      NoRoleCount(messages[..|messages| - 1], role);
    }
  }

  /** Distinct warnings have distinct texts, so the text list says which rules fired. */
  lemma WarningTextInjective(w1: Warning, w2: Warning)
    requires WarningText(w1) == WarningText(w2)
    ensures w1 == w2
  {
    if w1.TooFew? && w2.TooFew? {
      TooFewInjective(w1.count, w2.count);
    } else if w1.TooMany? && w2.TooMany? {
      TooManyInjective(w1.count, w2.count);
    } else {
      FirstCharacters(w1);
      FirstCharacters(w2);
    }
  }

  lemma TooFewInjective(n1: nat, n2: nat)
    requires WarningText(TooFew(n1)) == WarningText(TooFew(n2))
    ensures n1 == n2
  {
    var t1, t2 := WarningText(TooFew(n1)), WarningText(TooFew(n2));
    assert DecimalString(n1) == t1[5..|t1| - 72];
    assert DecimalString(n2) == t2[5..|t2| - 72];
    DecimalRoundTrip(n1);
    DecimalRoundTrip(n2);
  }

  lemma TooManyInjective(n1: nat, n2: nat)
    requires WarningText(TooMany(n1)) == WarningText(TooMany(n2))
    ensures n1 == n2
  {
    var t1, t2 := WarningText(TooMany(n1)), WarningText(TooMany(n2));
    assert DecimalString(n1) == t1[..|t1| - 80];
    assert DecimalString(n2) == t2[..|t2| - 80];
    DecimalRoundTrip(n1);
    DecimalRoundTrip(n2);
  }

  /** The first four characters of a warning's text, which tell the kinds apart; a count warning starts with a digit instead. */
  function Opening(w: Warning): string {
    match w
    case NoMessages => "No m"
    case NoUserMessages => "No u"
    case TooFew(_) => "Only"
    case TooMany(_) => "0"
    case Unbalanced => "Conv"
    case TooShort => "Many"
  }

  /** Each text starts with its kind's opening; a count is any digit. */
  lemma FirstCharacters(w: Warning)
    ensures |WarningText(w)| >= 4
    ensures w.TooMany? ==> '0' <= WarningText(w)[0] <= '9'
    ensures !w.TooMany? ==> WarningText(w)[..4] == Opening(w)
  {
    if w.TooMany? {
      assert WarningText(w)[0] == DecimalString(w.count)[0];
    }
  }

  // ===== Statistics =====

  datatype PreferenceCounts = PreferenceCounts(hobbies: nat, likes: nat, dislikes: nat, habits: nat)
  datatype EmotionCounts = EmotionCounts(commonEmotions: nat, stressTriggers: nat, joySources: nat)
  datatype FactCounts = FactCounts(personalDetails: nat, relationships: nat, goals: nat, values: nat)
  datatype CategoryCounts = CategoryCounts(preferences: PreferenceCounts, emotionalPatterns: EmotionCounts, facts: FactCounts)

  /** The object `getMemoryStats` returns. */
  datatype MemoryStats = MemoryStats(
    totalPreferences: nat,
    totalEmotionalPatterns: nat,
    totalFacts: nat,
    byCategory: CategoryCounts)

  /**
   * `getMemoryStats`: the length of every list, and per group the sum of its
   * counts; the emotional total adds one for the communication style, even an
   * empty one.
   */
  function GetMemoryStats(m: ExtractedMemory): (r: MemoryStats)
    ensures r.byCategory.preferences == PreferenceCounts(|m.preferences.hobbies|, |m.preferences.likes|, |m.preferences.dislikes|, |m.preferences.habits|)
    ensures r.byCategory.emotionalPatterns == EmotionCounts(|m.emotionalPatterns.commonEmotions|, |m.emotionalPatterns.stressTriggers|, |m.emotionalPatterns.joySources|)
    ensures r.byCategory.facts == FactCounts(|m.facts.personalDetails|, |m.facts.relationships|, |m.facts.goals|, |m.facts.values|)
    ensures var c := r.byCategory.preferences; r.totalPreferences == c.hobbies + c.likes + c.dislikes + c.habits
    ensures var c := r.byCategory.emotionalPatterns; r.totalEmotionalPatterns == c.commonEmotions + c.stressTriggers + c.joySources + 1
    ensures var c := r.byCategory.facts; r.totalFacts == c.personalDetails + c.relationships + c.goals + c.values
  {
    var p, e, f := m.preferences, m.emotionalPatterns, m.facts;
    MemoryStats(
      |p.hobbies| + |p.likes| + |p.dislikes| + |p.habits|,
      |e.commonEmotions| + |e.stressTriggers| + |e.joySources| + 1,
      |f.personalDetails| + |f.relationships| + |f.goals| + |f.values|,
      CategoryCounts(
        PreferenceCounts(|p.hobbies|, |p.likes|, |p.dislikes|, |p.habits|),
        EmotionCounts(|e.commonEmotions|, |e.stressTriggers|, |e.joySources|),
        FactCounts(|f.personalDetails|, |f.relationships|, |f.goals|, |f.values|)))
  }

  /** The example profile has three items in each of its eleven lists: totals 12, 10 and 12. */
  lemma ExampleStats()
    ensures var s := GetMemoryStats(ExampleExtraction);
      s.totalPreferences == 12 && s.totalEmotionalPatterns == 10 && s.totalFacts == 12
  {
  }

  /** An empty profile still counts its communication style: totals 0, 1 and 0. */
  lemma EmptyProfileStats(style: string)
    ensures var s := GetMemoryStats(ExtractedMemory(Preferences([], [], [], []), EmotionalPatterns([], [], [], style), Facts([], [], [], [])));
      s.totalPreferences == 0 && s.totalEmotionalPatterns == 1 && s.totalFacts == 0
  {
  }

  // ===== Extraction =====

  /** The options of the extraction call: temperature 0.3, up to 4096 tokens. */
  const ExtractionOptions: GenerationOptions := GenerationOptions(3, 4096, ModelName)

  const ExtractionFailed: string := "Memory extraction failed: "

  /**
   * `extractMemories`: refuse an empty list, send the extraction prompt to the
   * model, and check its JSON against the schema. `generateJson` is the model
   * call; `schemaError` is the message zod throws on a non-conforming value.
   * Every error is rethrown with the prefix "Memory extraction failed: ".
   */
  function ExtractMemories(
    messages: seq<ChatMessage>,
    generateJson: (string, GenerationOptions) -> Result<Json>,
    schemaError: string): (r: Result<ExtractedMemory>)
    ensures |messages| == 0 ==> r == Failure(ExtractionFailed + "No messages provided for memory extraction")
    ensures r.Failure? ==> ExtractionFailed <= r.error
    ensures r.Success? ==>
      && |messages| > 0
      && var reply := generateJson(CreateMemoryExtractionPrompt(messages), ExtractionOptions);
         reply.Success? && Describes(reply.value, r.value)
  {
    if |messages| == 0 then Failure(ExtractionFailed + "No messages provided for memory extraction")
    else
      match generateJson(CreateMemoryExtractionPrompt(messages), ExtractionOptions)
      case Failure(e) => Failure(ExtractionFailed + e)
      case Success(j) =>
        match ParseExtractedMemory(j)
        case Some(m) =>
          ParseExtractedMemoryIff(j, m);
          Success(m)
        case None => Failure(ExtractionFailed + schemaError)
  }

  /**
   * A model reply that describes a profile is accepted, whatever other members
   * it carries, and the profile is exactly the one described.
   */
  lemma ExtractMemoriesAccepts(
    messages: seq<ChatMessage>,
    generateJson: (string, GenerationOptions) -> Result<Json>,
    schemaError: string,
    j: Json,
    m: ExtractedMemory)
    requires |messages| > 0
    requires generateJson(CreateMemoryExtractionPrompt(messages), ExtractionOptions) == Success(j)
    requires Describes(j, m)
    ensures ExtractMemories(messages, generateJson, schemaError) == Success(m)
  {
    ParseExtractedMemoryIff(j, m);
  }
}
