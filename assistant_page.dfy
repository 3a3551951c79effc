/**
 * The anti-waste chat assistant: the send guard, the streamed reply read line by line,
 * the `<think>` block shown apart and removed from the displayed answer, and the
 * per-id update of the reply bubble.
 */
module AssistantPage {

  import opened Wrappers
  import opened Text

  const ThinkOpen: string := "<think>"
  const ThinkClose: string := "</think>"

  // ---- Searching ----

  /** A match found in a string is still the first one once the string is extended. */
  lemma {:induction false} IndexOfExtend(s: string, u: string, pat: string, from: nat)
    requires from <= |s| && IndexOf(s, pat, from).Some?
    ensures IndexOf(s + u, pat, from) == IndexOf(s, pat, from)
    decreases |s| - from
  {
    var k := IndexOf(s, pat, from).value;
    assert (s + u)[from..] == s[from..] + u;
    if StartsWith(s[from..], pat) {
      assert StartsWith((s + u)[from..], pat);
    } else {
      assert from + |pat| < |s|;
      assert (s + u)[from..][..|pat|] == s[from..][..|pat|];
      IndexOfExtend(s, u, pat, from + 1);
    }
  }

  // ---- Lines ----

  /** The position of the first newline. */
  function FirstNewline(s: string): (i: nat)
    requires '\n' in s
    ensures i < |s| && s[i] == '\n' && '\n' !in s[..i]
  {
    if s[0] == '\n' then 0
    else
      assert '\n' in s[1..];
      var j := FirstNewline(s[1..]);
      assert s[..j + 1] == [s[0]] + s[1..][..j];
      j + 1
  }

  /** `chunk.split("\n")`: the pieces between newlines, empty ones included. */
  function SplitLines(s: string): (r: seq<string>)
    ensures |r| >= 1
    ensures forall i :: 0 <= i < |r| ==> '\n' !in r[i]
    ensures Join(r, "\n") == s
    decreases |s|
  {
    if '\n' !in s then [s]
    else
      var i := FirstNewline(s);
      var rest := SplitLines(s[i + 1..]);
      assert s == s[..i] + "\n" + s[i + 1..];
      [s[..i]] + rest
  }

  /** A pattern whose first character does not recur, appended to a prefix that lacks it, is first found where it was appended. */
  lemma FoundFirst(a: string, pat: string, rest: string)
    requires FirstCharUnique(pat) && !Contains(a, pat)
    ensures IndexOf(a + pat + rest, pat, 0) == Some(|a|)
  {
    var s := a + pat + rest;
    assert s[0..|a|] == a;
    assert s[|a|..][..|pat|] == pat;
    FirstMatchAt(s, pat, a, 0, 0, |a|);
  }

  /** The first character of `pat` does not occur again in it, so two matches cannot overlap. */
  predicate FirstCharUnique(pat: string)
  {
    |pat| > 0 && forall i :: 0 < i < |pat| ==> pat[i] != pat[0]
  }

  lemma TagsStartUniquely()
    ensures FirstCharUnique(ThinkOpen) && FirstCharUnique(ThinkClose)
  {
  }

  // ---- Think blocks ----

  /**
   * `.replace(/<think>[\s\S]*?<\/think>/g, "")`, for any pair of tags: from the left, each
   * opening tag with the nearest closing tag after it is removed, and the scan resumes after
   * the removed block. An opening tag with no closing tag after it ends the scan.
   */
  function StripBlocks(s: string, open: string, close: string): (r: string)
    requires open != ""
    ensures |r| <= |s|
    decreases |s|
  {
    match IndexOf(s, open, 0)
    case None => s
    case Some(p) =>
      var t := s[p + |open|..];
      match IndexOf(t, close, 0)
      case None => s
      case Some(q) => s[..p] + StripBlocks(t[q + |close|..], open, close)
  }

  /** `.match(/<think>([\s\S]*?)<\/think>/)`, for any pair of tags: the inner text of the first complete block. */
  function ExtractBlock(s: string, open: string, close: string): (r: Option<string>)
    ensures r.Some? ==> |open| + |r.value| + |close| <= |s|
    ensures IndexOf(s, open, 0).None? ==> r.None?
  {
    match IndexOf(s, open, 0)
    case None => None
    case Some(p) =>
      var t := s[p + |open|..];
      match IndexOf(t, close, 0)
      case None => None
      case Some(q) => Some(t[..q])
  }

  /** The displayed answer: the response with its `<think>` blocks removed. */
  function StripThink(s: string): string
  {
    StripBlocks(s, ThinkOpen, ThinkClose)
  }

  /** The thinking part of the response. */
  function ExtractThink(s: string): Option<string>
  {
    ExtractBlock(s, ThinkOpen, ThinkClose)
  }

  /** Text without an opening tag is displayed unchanged and has no thinking part. */
  lemma NoBlockPassesThrough(s: string, open: string, close: string)
    requires open != "" && !Contains(s, open)
    ensures StripBlocks(s, open, close) == s && ExtractBlock(s, open, close) == None
  {
    IndexOfFindsContains(s, open);
  }

  /** An opening tag that is never closed is kept, with all that follows it. */
  lemma UnclosedIsKept(a: string, open: string, rest: string, close: string)
    requires FirstCharUnique(open) && !Contains(a, open) && !Contains(rest, close)
    ensures StripBlocks(a + open + rest, open, close) == a + open + rest
    ensures ExtractBlock(a + open + rest, open, close) == None
  {
    FoundFirst(a, open, rest);
    var s := a + open + rest;
    assert s[|a| + |open|..] == rest;
    IndexOfFindsContains(rest, close);
  }

  /** A stretch without matches followed by a copy of the pattern: the search from its start stops at that copy. */
  lemma FoundAfter(s: string, pat: string, seg: string, from: nat)
    requires FirstCharUnique(pat) && !Contains(seg, pat)
    requires from + |seg| <= |s| && s[from..from + |seg|] == seg && StartsWith(s[from + |seg|..], pat)
    ensures IndexOf(s, pat, from) == Some(from + |seg|)
  {
    FirstMatchAt(s, pat, seg, from, from, from + |seg|);
  }

  /**
   * Between `from` and a copy of a pattern at `p` whose first character does not recur, there
   * is no match when `s[from..p]` lacks one: it would lie inside that stretch, or overlap the copy.
   */
  lemma NoEarlyMatch(s: string, pat: string, from: nat, p: nat, j: nat)
    requires FirstCharUnique(pat) && from <= j < p <= |s|
    requires StartsWith(s[p..], pat) && !Contains(s[from..p], pat)
    ensures !StartsWith(s[j..], pat)
  {
    if j + |pat| <= p {
      assert s[j..][..|pat|] == s[from..p][j - from..][..|pat|];
      assert !StartsWith(s[from..p][j - from..], pat);
    } else {
      var m := p - j;
      assert s[j..][m] == s[p..][0] == pat[0] != pat[m];
    }
  }

  /** Searching from anywhere in `[from, p]` finds that copy at `p`. */
  lemma {:induction false} FirstMatchAt(s: string, pat: string, seg: string, from: nat, lo: nat, p: nat)
    requires FirstCharUnique(pat) && from <= lo <= p <= |s|
    requires StartsWith(s[p..], pat) && s[from..p] == seg && !Contains(seg, pat)
    ensures IndexOf(s, pat, lo) == Some(p)
    decreases p - lo
  {
    if lo < p {
      NoEarlyMatch(s, pat, from, p, lo);
      FirstMatchAt(s, pat, seg, from, lo + 1, p);
    }
  }

  /**
   * The first block is removed and its inner text is the thinking part: when the opening tag
   * first occurs at `p` and the closing tag first occurs `q` characters after it, the text
   * before `p` is kept and the scan resumes after the closing tag. The block may span newlines.
   */
  lemma FirstBlockRemoved(s: string, open: string, close: string, p: nat, q: nat)
    requires FirstCharUnique(open) && FirstCharUnique(close)
    requires p + |open| <= |s| && q <= |s| - p - |open|
    requires !Contains(s[..p], open) && StartsWith(s[p..], open)
    requires var t := s[p + |open|..]; !Contains(t[..q], close) && StartsWith(t[q..], close)
    ensures var t := s[p + |open|..];
      StripBlocks(s, open, close) == s[..p] + StripBlocks(t[q + |close|..], open, close) &&
      ExtractBlock(s, open, close) == Some(t[..q])
  {
    var t := s[p + |open|..];
    assert s[0..|s[..p]|] == s[..p];
    FoundAfter(s, open, s[..p], 0);
    assert t[0..|t[..q]|] == t[..q];
    FoundAfter(t, close, t[..q], 0);
    StripAt(s, open, close, p, q);
    ExtractAt(s, open, close, p, q);
  }

  /** The stripped text read off the two searches. */
  lemma StripAt(s: string, open: string, close: string, p: nat, q: nat)
    requires open != "" && p + |open| <= |s|
    requires IndexOf(s, open, 0) == Some(p) && IndexOf(s[p + |open|..], close, 0) == Some(q)
    ensures StripBlocks(s, open, close) == s[..p] + StripBlocks(s[p + |open|..][q + |close|..], open, close)
  {
  }

  /** The inner text read off the two searches. */
  lemma ExtractAt(s: string, open: string, close: string, p: nat, q: nat)
    requires p + |open| <= |s|
    requires IndexOf(s, open, 0) == Some(p) && IndexOf(s[p + |open|..], close, 0) == Some(q)
    ensures ExtractBlock(s, open, close) == Some(s[p + |open|..][..q])
  {
  }

  /** Once the response holds a complete block, more tokens never change its inner text. */
  lemma ExtractBlockStable(s: string, u: string, open: string, close: string)
    requires ExtractBlock(s, open, close).Some?
    ensures ExtractBlock(s + u, open, close) == ExtractBlock(s, open, close)
  {
    var p := IndexOf(s, open, 0).value;
    var t := s[p + |open|..];
    var q := IndexOf(t, close, 0).value;
    IndexOfExtend(s, u, open, 0);
    assert (s + u)[p + |open|..] == t + u;
    IndexOfExtend(t, u, close, 0);
    assert q <= |t|;
    assert (t + u)[..q] == t[..q];
    ExtractAt(s, open, close, p, q);
    ExtractAt(s + u, open, close, p, q);
  }

  /** The thinking text the page ends up with: the first block's inner text, when it is not empty. */
  function ThinkingOf(response: string): (t: Option<string>)
    ensures t.Some? ==> t.value != "" && ExtractThink(response) == t
    ensures t.None? ==> ExtractThink(response).None? || ExtractThink(response) == Some("")
  {
    match ExtractThink(response)
    case Some(inner) => if inner != "" then Some(inner) else None
    case None => None
  }

  /** The page's update rule after a token (set only for a non-empty inner text) keeps `ThinkingOf` of the whole response. */
  lemma ThinkingUpdate(response: string, token: string)
    ensures var m := ExtractThink(response + token);
      (if m.Some? && m.value != "" then m else ThinkingOf(response)) == ThinkingOf(response + token)
  {
    if ExtractThink(response).Some? {
      ExtractBlockStable(response, token, ThinkOpen, ThinkClose);
    }
  }

  // ---- The stream ----

  /** The token a line contributes: `JSON.parse(line).response`, or nothing when parsing fails or it is missing. */
  function TokenOf(line: string, parse: string -> Option<string>): (r: string)
    ensures r == "" <==> parse(line).None? || parse(line).value == ""
  {
    match parse(line)
    case Some(token) => token
    case None => ""
  }

  /** The text the given lines add to the response, in order. */
  function LinesResponse(lines: seq<string>, parse: string -> Option<string>): string
    decreases |lines|
  {
    if lines == [] then ""
    else LinesResponse(lines[..|lines| - 1], parse) + TokenOf(lines[|lines| - 1], parse)
  }

  lemma LinesResponseStep(lines: seq<string>, j: nat, parse: string -> Option<string>)
    requires j < |lines|
    ensures LinesResponse(lines[..j + 1], parse) == LinesResponse(lines[..j], parse) + TokenOf(lines[j], parse)
  {
    assert lines[..j + 1][..j] == lines[..j];
  }

  /** The whole response after the given chunks: each chunk is split on newlines on its own. */
  function Response(chunks: seq<string>, parse: string -> Option<string>): string
    decreases |chunks|
  {
    if chunks == [] then ""
    else Response(chunks[..|chunks| - 1], parse) + LinesResponse(SplitLines(chunks[|chunks| - 1]), parse)
  }

  datatype Sender = User | Assistant

  datatype Message = Message(id: string, content: string, sender: Sender, suggestions: Option<seq<string>>)

  /** `prev.map(msg => msg.id === assistantId ? { ...msg, content: display } : msg)`. */
  function SetContent(messages: seq<Message>, id: string, content: string): (r: seq<Message>)
    ensures |r| == |messages|
    ensures forall i :: 0 <= i < |r| ==>
              (messages[i].id == id ==> r[i] == messages[i].(content := content)) &&
              (messages[i].id != id ==> r[i] == messages[i])
  {
    seq(|messages|, i requires 0 <= i < |messages| =>
      if messages[i].id == id then messages[i].(content := content) else messages[i])
  }

  /** A later update of the same bubble overrides an earlier one. */
  lemma SetContentTwice(messages: seq<Message>, id: string, c1: string, c2: string)
    ensures SetContent(SetContent(messages, id, c1), id, c2) == SetContent(messages, id, c2)
  {
  }

  /** The messages on screen once `response` has been received: untouched until the first token arrives. */
  function Display(base: seq<Message>, id: string, response: string): (r: seq<Message>)
    ensures |r| == |base|
    ensures forall i :: 0 <= i < |r| ==> (base[i].id != id || response == "" ==> r[i] == base[i])
    ensures response != "" ==> forall i :: 0 <= i < |r| && base[i].id == id ==> r[i].content == StripThink(response)
  {
    if response == "" then base else SetContent(base, id, StripThink(response))
  }

  /** A proof-performance aid for ReadChunk, not a property of the model: it regroups three appends. */
  lemma Associative(x: string, y: string, z: string)
    ensures x + y + z == x + (y + z)
  {
  }

  /** One chunk of the read loop: its lines parsed in order, empty or failed tokens skipped. */
  method ReadChunk(base: seq<Message>, assistantId: string, lines: seq<string>, parse: string -> Option<string>,
                   messages0: seq<Message>, thinking0: Option<string>, response0: string)
    returns (messages: seq<Message>, thinkingText: Option<string>, response: string)
    requires messages0 == Display(base, assistantId, response0)
    requires thinking0 == ThinkingOf(response0)
    ensures response == response0 + LinesResponse(lines, parse)
    ensures messages == Display(base, assistantId, response)
    ensures thinkingText == ThinkingOf(response)
  {
    messages, thinkingText, response := messages0, thinking0, response0;
    var j := 0;
    while j < |lines|
      invariant 0 <= j <= |lines|
      invariant response == response0 + LinesResponse(lines[..j], parse)
      invariant messages == Display(base, assistantId, response)
      invariant thinkingText == ThinkingOf(response)
    {
      LinesResponseStep(lines, j, parse);
      messages, thinkingText, response := OnLine(base, assistantId, lines[j], parse, messages, thinkingText, response);
      Associative(response0, LinesResponse(lines[..j], parse), TokenOf(lines[j], parse));
      j := j + 1;
    }
    assert lines[..|lines|] == lines;
  }

  /** One line of a chunk: `JSON.parse(line).response`, skipped when parsing fails or the token is empty. */
  method OnLine(base: seq<Message>, assistantId: string, line: string, parse: string -> Option<string>,
                messages0: seq<Message>, thinking0: Option<string>, response0: string)
    returns (messages: seq<Message>, thinkingText: Option<string>, response: string)
    requires messages0 == Display(base, assistantId, response0)
    requires thinking0 == ThinkingOf(response0)
    ensures response == response0 + TokenOf(line, parse)
    ensures messages == Display(base, assistantId, response)
    ensures thinkingText == ThinkingOf(response)
  {
    var parsed := parse(line);
    if parsed.Some? && parsed.value != "" {
      messages, thinkingText, response := OnToken(base, assistantId, parsed.value, messages0, thinking0, response0);
    } else {
      messages, thinkingText, response := messages0, thinking0, response0;
      assert response0 + TokenOf(line, parse) == response0;
    }
  }

  /** The body run for one non-empty token. */
  method OnToken(base: seq<Message>, assistantId: string, token: string,
                 messages0: seq<Message>, thinking0: Option<string>, response0: string)
    returns (messages: seq<Message>, thinkingText: Option<string>, response: string)
    requires messages0 == Display(base, assistantId, response0)
    requires thinking0 == ThinkingOf(response0)
    requires token != ""
    ensures response == response0 + token
    ensures messages == Display(base, assistantId, response)
    ensures thinkingText == ThinkingOf(response)
  {
    ThinkingUpdate(response0, token);
    if response0 != "" {
      SetContentTwice(base, assistantId, StripThink(response0), StripThink(response0 + token));
    }
    response := response0 + token;
    thinkingText := thinking0;
    var match_ := ExtractThink(response);
    if match_.Some? && match_.value != "" {
      thinkingText := match_;
    }
    var display := StripThink(response);
    messages := SetContent(messages0, assistantId, display);
  }

  /** Before the first token the bubble shows the placeholder and there is no thinking part. */
  lemma NothingReadYet(base: seq<Message>, assistantId: string)
    ensures Display(base, assistantId, "") == base && ThinkingOf("") == None
  {
  }

  /**
   * The read loop: every chunk split into lines, each line parsed, empty or failed tokens
   * skipped, and after every token the thinking part and the reply bubble refreshed.
   */
  method ReadStream(base: seq<Message>, assistantId: string, chunks: seq<string>, parse: string -> Option<string>)
    returns (messages: seq<Message>, thinkingText: Option<string>, response: string)
    ensures response == Response(chunks, parse)
    ensures messages == Display(base, assistantId, response)
    ensures thinkingText == ThinkingOf(response)
  {
    messages := base;
    thinkingText := None;
    response := "";
    NothingReadYet(base, assistantId);
    var i := 0;
    while i < |chunks|
      invariant 0 <= i <= |chunks|
      invariant response == Response(chunks[..i], parse)
      invariant messages == Display(base, assistantId, response)
      invariant thinkingText == ThinkingOf(response)
    {
      messages, thinkingText, response :=
        ReadChunk(base, assistantId, SplitLines(chunks[i]), parse, messages, thinkingText, response);
      assert chunks[..i + 1][..i] == chunks[..i];
      i := i + 1;
    }
    assert chunks[..|chunks|] == chunks;
  }

  // ---- The page ----

  const ErrorText := "Une erreur est survenue lors de la communication avec le chatbot."

  /** The assistant's greeting the conversation starts with. */
  const Greeting := Message("1",
    "Bonjour! Je suis votre assistant anti-gaspillage. Comment puis-je vous aider aujourd'hui?",
    Assistant,
    Some(["Que cuisiner avec mes restes?", "Comment conserver le pain?", "Astuces anti-gaspi"]))

  /**
   * How the request went: no stream at all (the request failed or returned no body), or a
   * stream of decoded chunks, possibly interrupted by an error after the last one.
   */
  datatype StreamOutcome = NoStream | Streamed(chunks: seq<string>, failsAfter: bool)

  function ErrorMessage(id: string): Message
  {
    Message(id, ErrorText, Assistant, None)
  }

  /** The response text the stream delivered. */
  function Delivered(outcome: StreamOutcome, parse: string -> Option<string>): string
  {
    match outcome
    case NoStream => ""
    case Streamed(chunks, _) => Response(chunks, parse)
  }

  predicate Fails(outcome: StreamOutcome)
  {
    outcome.NoStream? || outcome.failsAfter
  }

  /** The messages once the request is over: the reply bubble updated, then the error notice if the request failed. */
  function AfterRequest(base: seq<Message>, replyId: string, errorId: string,
                        outcome: StreamOutcome, parse: string -> Option<string>): (r: seq<Message>)
    ensures |r| == |base| + (if Fails(outcome) then 1 else 0)
    ensures r[..|base|] == Display(base, replyId, Delivered(outcome, parse))
    ensures Fails(outcome) ==> r[|base|] == ErrorMessage(errorId)
  {
    var shown := Display(base, replyId, Delivered(outcome, parse));
    if Fails(outcome) then shown + [ErrorMessage(errorId)] else shown
  }

  /** The messages after one send: the question, then the reply bubble, then the error notice if the request failed. */
  function Conversation(messages: seq<Message>, input: string, userId: string, replyId: string, errorId: string,
                        outcome: StreamOutcome, parse: string -> Option<string>): seq<Message>
  {
    AfterRequest(messages + [Message(userId, input, User, None), Message(replyId, "", Assistant, Some([]))],
                 replyId, errorId, outcome, parse)
  }

  /** Ids made from readings of a clock that does not go back never collide with the reply's id, which is one past. */
  lemma ClockIdsDiffer(t: nat, u: nat)
    requires t <= u
    ensures NatToString(t) != NatToString(u + 1)
  {
    NatToStringRoundTrip(t);
    NatToStringRoundTrip(u + 1);
  }

  /**
   * When no earlier message has the reply's id: the earlier messages are kept, the question
   * follows them, the reply bubble shows the delivered text without its think blocks, and
   * the error notice comes last exactly when the request failed.
   */
  lemma ConversationShape(messages: seq<Message>, input: string, userId: string, replyId: string, errorId: string,
                          outcome: StreamOutcome, parse: string -> Option<string>)
    requires forall i :: 0 <= i < |messages| ==> messages[i].id != replyId
    requires userId != replyId
    ensures var r := Conversation(messages, input, userId, replyId, errorId, outcome, parse);
      var n := |messages|;
      |r| == n + 2 + (if Fails(outcome) then 1 else 0) &&
      r[..n] == messages &&
      r[n] == Message(userId, input, User, None) &&
      r[n + 1] == Message(replyId, StripThink(Delivered(outcome, parse)), Assistant, Some([])) &&
      (Fails(outcome) ==> r[n + 2] == ErrorMessage(errorId))
  {
    var base := messages + [Message(userId, input, User, None), Message(replyId, "", Assistant, Some([]))];
    var response := Delivered(outcome, parse);
    var shown := Display(base, replyId, response);
    var n := |messages|;
    assert base[n + 1].id == replyId && base[n].id != replyId;
    forall i | 0 <= i < n
      ensures shown[i] == messages[i]
    {
      assert base[i] == messages[i];
    }
    if response == "" {
      assert StripThink(response) == "";
    }
    assert shown[..n] == messages;
  }

  /** The request and its stream, run on the messages that already hold the question and the empty reply bubble. */
  method Request(base: seq<Message>, assistantId: string, errorId: string, outcome: StreamOutcome,
                 parse: string -> Option<string>)
    returns (messages: seq<Message>, thinkingText: Option<string>)
    ensures messages == AfterRequest(base, assistantId, errorId, outcome, parse)
    ensures thinkingText == ThinkingOf(Delivered(outcome, parse))
  {
    match outcome {
      case NoStream =>
        messages := base + [ErrorMessage(errorId)];
        thinkingText := None;
      case Streamed(chunks, failsAfter) =>
        var response;
        messages, thinkingText, response := ReadStream(base, assistantId, chunks, parse);
        if failsAfter {
          messages := messages + [ErrorMessage(errorId)];
        }
    }
  }

  /** The text the simulated voice input always produces. */
  const RecordedQuestion := "Comment réduire le gaspillage de pain?"

  class Chat {
    var messages: seq<Message>
    var inputValue: string
    var isLoading: bool
    var thinkingText: Option<string>
    var userMemory: seq<Message>
    var isRecording: bool

    constructor()
      ensures messages == [Greeting] && inputValue == "" && !isLoading
      ensures thinkingText == None && userMemory == [] && !isRecording
    {
      messages := [Greeting];
      inputValue := "";
      isLoading := false;
      thinkingText := None;
      userMemory := [];
      isRecording := false;
    }

    /** Typing in the input field. */
    method SetInput(value: string)
      modifies this
      ensures inputValue == value
      ensures messages == old(messages) && isLoading == old(isLoading)
      ensures thinkingText == old(thinkingText) && userMemory == old(userMemory)
      ensures isRecording == old(isRecording)
    {
      inputValue := value;
    }

    /**
     * `handleSendMessage`. `userClock` and `replyClock` are the two readings of `Date.now()`
     * that name the question and the reply, `errorClock` the one that names the error notice;
     * `outcome` is what the request produced and `parse` stands for `JSON.parse(line).response`.
     */
    method SendMessage(userClock: nat, replyClock: nat, errorClock: nat, outcome: StreamOutcome, parse: string -> Option<string>)
      modifies this
      ensures IsBlank(old(inputValue)) ==>
                messages == old(messages) && inputValue == old(inputValue) && isLoading == old(isLoading) &&
                thinkingText == old(thinkingText) && userMemory == old(userMemory)
      ensures !IsBlank(old(inputValue)) ==>
                messages == Conversation(old(messages), old(inputValue), NatToString(userClock),
                                         NatToString(replyClock + 1), NatToString(errorClock), outcome, parse) &&
                userMemory == old(userMemory) + [Message(NatToString(userClock), old(inputValue), User, None)] &&
                inputValue == "" && !isLoading &&
                thinkingText == ThinkingOf(Delivered(outcome, parse))
      ensures isRecording == old(isRecording)
    {
      if IsBlank(inputValue) {
        return;
      }
      var userMessage := Message(NatToString(userClock), inputValue, User, None);
      messages := messages + [userMessage];
      inputValue := "";
      isLoading := true;
      thinkingText := None;
      userMemory := userMemory + [userMessage];
      var assistantId := NatToString(replyClock + 1);
      var placeholder := Message(assistantId, "", Assistant, Some([]));
      assert old(messages) + [userMessage] + [placeholder] == old(messages) + [userMessage, placeholder];
      messages := messages + [placeholder];
      messages, thinkingText := Request(messages, assistantId, NatToString(errorClock), outcome, parse);
      isLoading := false;
    }

    /** `toggleRecording`: flips the microphone state; starting a recording arms the 3-second timer. */
    method ToggleRecording() returns (timerArmed: bool)
      modifies this
      ensures isRecording == !old(isRecording)
      ensures timerArmed <==> !old(isRecording)
      ensures messages == old(messages) && inputValue == old(inputValue) && isLoading == old(isLoading)
      ensures thinkingText == old(thinkingText) && userMemory == old(userMemory)
    {
      timerArmed := !isRecording;
      isRecording := !isRecording;
    }

    /** The recording timer: recording stops and the input receives the fixed transcription. */
    method RecordingTimerFires()
      modifies this
      ensures !isRecording && inputValue == RecordedQuestion
      ensures messages == old(messages) && isLoading == old(isLoading)
      ensures thinkingText == old(thinkingText) && userMemory == old(userMemory)
    {
      isRecording := false;
      inputValue := RecordedQuestion;
    }

    /** `handleKeyPress`: Enter without Shift sends. */
    method KeyPress(key: string, shift: bool, userClock: nat, replyClock: nat, errorClock: nat,
                    outcome: StreamOutcome, parse: string -> Option<string>)
      modifies this
      ensures !(key == "Enter" && !shift) ==>
                messages == old(messages) && inputValue == old(inputValue) && isLoading == old(isLoading) &&
                thinkingText == old(thinkingText) && userMemory == old(userMemory)
      ensures key == "Enter" && !shift && IsBlank(old(inputValue)) ==>
                messages == old(messages) && inputValue == old(inputValue) && isLoading == old(isLoading) &&
                thinkingText == old(thinkingText) && userMemory == old(userMemory)
      ensures key == "Enter" && !shift && !IsBlank(old(inputValue)) ==>
                messages == Conversation(old(messages), old(inputValue), NatToString(userClock),
                                         NatToString(replyClock + 1), NatToString(errorClock), outcome, parse) &&
                userMemory == old(userMemory) + [Message(NatToString(userClock), old(inputValue), User, None)] &&
                inputValue == "" && !isLoading &&
                thinkingText == ThinkingOf(Delivered(outcome, parse))
      ensures isRecording == old(isRecording)
    {
      if key == "Enter" && !shift {
        SendMessage(userClock, replyClock, errorClock, outcome, parse);
      }
    }
  }
}
