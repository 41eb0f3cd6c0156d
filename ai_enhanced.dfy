/**
 * The text rules of src/lib/ai-enhanced.ts: keyword sentiment, action-item
 * collection, and the request shaping, defaulting and fallbacks around the
 * two completion calls. The completion service is an oracle
 * (`complete: Request -> Outcome`); so are `JSON.parse` and the regular
 * expressions of `extractActionItems`.
 */
module AiEnhanced {
  import opened Wrappers
  import opened Strings
  import opened Js
  import opened OpenAi
  import opened ChatStore

  // ---------------------------------------------------------------------
  // analyzeSentiment

  const PositiveWords: seq<string> :=
    ["great", "awesome", "excellent", "thanks", "love", "perfect", "wonderful", "happy", "good"]

  const NegativeWords: seq<string> :=
    ["bad", "terrible", "hate", "problem", "issue", "wrong", "error", "fail", "disappointing"]

  predicate NoDuplicates(s: seq<string>) {
    forall i, j :: 0 <= i < j < |s| ==> s[i] != s[j]
  }

  /** `words.filter(word => text.includes(word))`. */
  function Occurring(words: seq<string>, text: string): (r: seq<string>)
    ensures |r| <= |words|
    ensures forall w :: w in r <==> w in words && Contains(text, w)
    ensures NoDuplicates(words) ==> NoDuplicates(r)
  {
    if words == [] then []
    else
      var rest := Occurring(words[1..], text);
      assert forall w :: w in words <==> w == words[0] || w in words[1..];
      if Contains(text, words[0]) then [words[0]] + rest else rest
  }

  /** `analyzeSentiment`: compares how many listed positive and negative
      words occur in the lower-cased text. */
  function AnalyzeSentiment(text: string): (r: Sentiment)
    ensures var lower := Lower(text);
            var p := |Occurring(PositiveWords, lower)|;
            var n := |Occurring(NegativeWords, lower)|;
            && (r == Positive <==> p > n)
            && (r == Negative <==> n > p)
            && (r == Neutral <==> p == n)
  {
    var lower := Lower(text);
    var positiveCount := |Occurring(PositiveWords, lower)|;
    var negativeCount := |Occurring(NegativeWords, lower)|;
    if positiveCount > negativeCount then Positive
    else if negativeCount > positiveCount then Negative
    else Neutral
  }

  lemma {:induction false} DistinctCount(s: seq<string>)
    requires NoDuplicates(s)
    ensures |set w | w in s| == |s|
  {
    if s != [] {
      DistinctCount(s[1..]);
      assert (set w | w in s) == {s[0]} + (set w | w in s[1..]);
      assert s[0] !in (set w | w in s[1..]);
    }
  }

  /** Each count is the number of distinct listed keywords that occur, so a
      keyword counts once however often it appears, and a count is at most 9. */
  lemma SentimentCountsDistinctKeywords(text: string)
    ensures |Occurring(PositiveWords, Lower(text))|
            == |set w | w in PositiveWords && Contains(Lower(text), w)| <= 9
    ensures |Occurring(NegativeWords, Lower(text))|
            == |set w | w in NegativeWords && Contains(Lower(text), w)| <= 9
  {
    var lower := Lower(text);
    assert NoDuplicates(PositiveWords) && NoDuplicates(NegativeWords);
    var pos := Occurring(PositiveWords, lower);
    var neg := Occurring(NegativeWords, lower);
    DistinctCount(pos);
    DistinctCount(neg);
    assert (set w | w in pos) == set w | w in PositiveWords && Contains(lower, w);
    assert (set w | w in neg) == set w | w in NegativeWords && Contains(lower, w);
  }

  /** Text that contains none of the eighteen keywords is neutral. */
  lemma NeutralWithoutKeywords(text: string)
    requires forall w :: w in PositiveWords + NegativeWords ==> !Contains(Lower(text), w)
    ensures AnalyzeSentiment(text) == Neutral
  {
    var lower := Lower(text);
    NoneOccurring(PositiveWords, lower);
    NoneOccurring(NegativeWords, lower);
  }

  lemma {:induction false} NoneOccurring(words: seq<string>, text: string)
    requires forall w :: w in words ==> !Contains(text, w)
    ensures Occurring(words, text) == []
  {
    if words != [] {
      assert words[0] in words;
      NoneOccurring(words[1..], text);
    }
  }

  lemma EmptyTextIsNeutral()
    ensures AnalyzeSentiment("") == Neutral
  {
    forall w | w in PositiveWords + NegativeWords ensures !Contains(Lower(""), w) {
      EmptyContainsOnlyEmpty(w);
    }
    NeutralWithoutKeywords("");
  }

  /** The verdict does not depend on letter case. */
  lemma SentimentIgnoresCase(text: string)
    ensures AnalyzeSentiment(Lower(text)) == AnalyzeSentiment(text)
  {
    LowerIdempotent(text);
  }

  // ---------------------------------------------------------------------
  // extractActionItems

  /** The three patterns, in the order the source tries them:
      "need to|should|must|have to|will|going to", "action item(s):", "todo(s):". */
  datatype ActionPattern = Commitment | ActionItemLabel | TodoLabel

  const ActionPatterns: seq<ActionPattern> := [Commitment, ActionItemLabel, TodoLabel]

  predicate IsTerminator(c: char) {
    c == '.' || c == '!' || c == '?'
  }

  predicate NoTerminator(s: string) {
    forall i :: 0 <= i < |s| ==> !IsTerminator(s[i])
  }

  /** What the capture group `([^.!?]+)` always yields: at least one
      character, none of them a sentence terminator. */
  predicate IsCapture(s: string) {
    s != "" && NoTerminator(s)
  }

  /** The items one pattern contributes: each non-empty capture, trimmed, in match order. */
  function Kept(captures: seq<string>): seq<string> {
    if captures == [] then []
    else
      var last := captures[|captures| - 1];
      Kept(captures[..|captures| - 1]) + if last != "" then [Trim(last)] else []
  }

  /** Trimming keeps only characters of the capture, so no terminator appears. */
  lemma TrimKeepsNoTerminator(s: string)
    requires NoTerminator(s)
    ensures NoTerminator(Trim(s))
  {
    forall i | 0 <= i < |Trim(s)| ensures !IsTerminator(Trim(s)[i]) {
      assert Trim(s)[i] in s;
    }
  }

  /** Every kept item is trimmed; no item gains a terminator; no non-empty capture is dropped. */
  lemma {:induction false} KeptItems(captures: seq<string>)
    ensures |Kept(captures)| <= |captures|
    ensures (forall c :: c in captures ==> c != "") ==> |Kept(captures)| == |captures|
    ensures forall x :: x in Kept(captures) ==> IsTrimmed(x)
    ensures (forall c :: c in captures ==> NoTerminator(c)) ==>
              forall x :: x in Kept(captures) ==> NoTerminator(x)
  {
    if captures != [] {
      var init := captures[..|captures| - 1];
      var last := captures[|captures| - 1];
      assert forall c :: c in init ==> c in captures;
      assert last in captures;
      KeptItems(init);
      if last != "" && NoTerminator(last) {
        TrimKeepsNoTerminator(last);
      }
    }
  }

  /** The items of the patterns in `ps`, pattern by pattern. */
  function Grouped(ps: seq<ActionPattern>, text: string, matchAll: (ActionPattern, string) -> seq<string>)
    : seq<string>
  {
    if ps == [] then [] else Grouped(ps[..|ps| - 1], text, matchAll) + Kept(matchAll(ps[|ps| - 1], text))
  }

  lemma KeptPush(captures: seq<string>, c: string)
    ensures Kept(captures + [c]) == Kept(captures) + if c != "" then [Trim(c)] else []
  {
    assert (captures + [c])[..|captures|] == captures;
  }

  /** One step of the capture loop: the kept items of one more capture. */
  lemma KeptStep(items: seq<string>, captures: seq<string>, i: nat)
    requires i < |captures|
    ensures items + Kept(captures[..i + 1])
         == (items + Kept(captures[..i])) + if captures[i] != "" then [Trim(captures[i])] else []
  {
    var prefix, c := captures[..i], captures[i];
    assert captures[..i + 1] == prefix + [c];
    KeptPush(prefix, c);
    var tail := if c != "" then [Trim(c)] else [];
    assert items + (Kept(prefix) + tail) == (items + Kept(prefix)) + tail;
  }

  lemma GroupedPush(ps: seq<ActionPattern>, p: ActionPattern, text: string,
                    matchAll: (ActionPattern, string) -> seq<string>)
    ensures Grouped(ps + [p], text, matchAll) == Grouped(ps, text, matchAll) + Kept(matchAll(p, text))
  {
    assert (ps + [p])[..|ps|] == ps;
  }

  /** Adds the items of one pattern's captures, in match order. */
  method CollectCaptures(items: seq<string>, captures: seq<string>) returns (result: seq<string>)
    ensures result == items + Kept(captures)
  {
    result := items;
    var i := 0;
    while i < |captures|
      invariant 0 <= i <= |captures|
      invariant result == items + Kept(captures[..i])
    {
      KeptStep(items, captures, i);
      if captures[i] != "" {
        result := result + [Trim(captures[i])];
      }
      i := i + 1;
    }
    assert captures[..i] == captures;
  }

  /** `extractActionItems`. `matchAll(p, text)` lists the first capture group
      of each successive match of pattern `p` in `text`. */
  method ExtractActionItems(text: string, matchAll: (ActionPattern, string) -> seq<string>)
    returns (items: seq<string>)
    ensures items == Kept(matchAll(Commitment, text)) + Kept(matchAll(ActionItemLabel, text))
                     + Kept(matchAll(TodoLabel, text))
  {
    items := [];
    var p := 0;
    while p < |ActionPatterns|
      invariant 0 <= p <= |ActionPatterns|
      invariant items == Grouped(ActionPatterns[..p], text, matchAll)
    {
      items := CollectCaptures(items, matchAll(ActionPatterns[p], text));
      GroupedPush(ActionPatterns[..p], ActionPatterns[p], text, matchAll);
      assert ActionPatterns[..p + 1] == ActionPatterns[..p] + [ActionPatterns[p]];
      p := p + 1;
    }
    assert ActionPatterns[..p] == ActionPatterns;
    GroupedByPattern(text, matchAll);
  }

  lemma GroupedByPattern(text: string, matchAll: (ActionPattern, string) -> seq<string>)
    ensures Grouped(ActionPatterns, text, matchAll)
            == Kept(matchAll(Commitment, text)) + Kept(matchAll(ActionItemLabel, text))
               + Kept(matchAll(TodoLabel, text))
  {
    var ps := ActionPatterns;
    assert ps[..2] == [Commitment, ActionItemLabel];
    assert ps[..2][..1] == [Commitment];
    assert [Commitment][..0] == [];
    assert Grouped([Commitment], text, matchAll) == Kept(matchAll(Commitment, text));
  }

  /** With captures as the expressions produce them, every collected item is
      trimmed and free of '.', '!' and '?', and no capture is dropped. */
  lemma ActionItemsClean(captures: seq<string>)
    requires forall c :: c in captures ==> IsCapture(c)
    ensures |Kept(captures)| == |captures|
    ensures forall x :: x in Kept(captures) ==> IsTrimmed(x) && NoTerminator(x)
  {
    KeptItems(captures);
  }

  // ---------------------------------------------------------------------
  // Rendering history for the two completion calls

  /** `${m.senderName || 'User'}: ${m.text}`. */
  function SpeakerLine(m: Message): string {
    OrElse(m.senderName, "User") + ": " + m.text
  }

  function Lines(ms: seq<Message>): (r: seq<string>)
    ensures |r| == |ms|
    ensures forall i :: 0 <= i < |ms| ==> r[i] == SpeakerLine(ms[i])
  {
    seq(|ms|, i requires 0 <= i < |ms| => SpeakerLine(ms[i]))
  }

  /** `.map(SpeakerLine).join('\n')`. */
  function Transcript(ms: seq<Message>): string {
    Join(Lines(ms), "\n")
  }

  const ContextSize := 10

  /** `messages.slice(-10)`: the last min(10, n) messages in their order. */
  function RecentWindow(ms: seq<Message>): (r: seq<Message>)
    ensures |r| == if |ms| <= ContextSize then |ms| else ContextSize
    ensures r == ms[|ms| - |r|..]
  {
    if |ms| <= ContextSize then ms else ms[|ms| - ContextSize..]
  }

  /** The context of `generateSmartReply`. */
  function SmartReplyContext(ms: seq<Message>): string {
    Transcript(RecentWindow(ms))
  }

  /** The smart-reply context is the tail of the full transcript that
      `analyzeConversation` sends: the whole of it for up to ten messages,
      otherwise what follows the older messages' lines and a newline. */
  lemma {:induction false} ContextIsTranscriptTail(ms: seq<Message>)
    ensures |ms| <= ContextSize ==> SmartReplyContext(ms) == Transcript(ms)
    ensures |ms| > ContextSize ==>
      Transcript(ms) == Transcript(ms[..|ms| - ContextSize]) + "\n" + SmartReplyContext(ms)
  {
    if |ms| > ContextSize {
      var older, recent := ms[..|ms| - ContextSize], ms[|ms| - ContextSize..];
      assert ms == older + recent;
      assert Lines(ms) == Lines(older) + Lines(recent);
      JoinAppend(Lines(older), Lines(recent), "\n");
    }
  }

  // ---------------------------------------------------------------------
  // The completion response

  /** `await response.json()` then `data.choices[0].message.content`, after the
      `response.ok` check: the content, or the error thrown on the way. */
  function ReplyContent(o: Outcome): (r: Result<Value, Error>)
    ensures o.Unreachable? ==> r == Failure(TypeError)
    ensures o.Responded? && !Ok(o) ==> r == Failure(Raised("OpenAI API error: " + o.statusText))
  {
    if o.Unreachable? then Failure(TypeError)
    else if !Ok(o) then Failure(Raised("OpenAI API error: " + o.statusText))
    else if o.json.None? then Failure(SyntaxError)
    else
      var choices :- Member(o.json.value, "choices");
      var first :- Index0(choices);
      var message :- Member(first, "message");
      Member(message, "content")
  }

  // ---------------------------------------------------------------------
  // generateSmartReply

  const SmartReplyPrompt :=
    "You are a helpful AI assistant participating in a group chat. \n            \n"
    + "Your role is to:\n- Provide helpful, concise responses\n"
    + "- Extract and summarize action items when asked\n- Offer suggestions and insights\n"
    + "- Be professional but friendly\n"
    + "- When appropriate, format your response with bullet points or numbered lists\n\n"
    + "Keep responses focused and actionable."

  const Apology :=
    "I apologize, but I'm having trouble generating a response right now. Please try again."

  function SmartReplyRequest(ms: seq<Message>, userPrompt: string, apiKey: string): Request {
    var user := "Recent conversation:\n" + SmartReplyContext(ms) + "\n\nNew message: " + userPrompt
                + "\n\nProvide a helpful response:";
    Request("Bearer " + apiKey, DefaultModel,
            [Msg("system", Str(SmartReplyPrompt)), Msg("user", Str(user))], 7, Some(500), false)
  }

  /** `generateSmartReply`: never fails. Without a key it calls nothing and
      apologises; otherwise it returns the content of the answer, or the
      apology when the call, the status or the body fails. */
  function GenerateSmartReply(ms: seq<Message>, userPrompt: string, apiKey: Option<string>,
                              complete: Request -> Outcome): (r: Value)
    ensures !Filled(apiKey) ==> r == Str(Apology)
    ensures Filled(apiKey) ==>
      var content := ReplyContent(complete(SmartReplyRequest(ms, userPrompt, apiKey.value)));
      r == if content.Success? then content.value else Str(Apology)
  {
    if !Filled(apiKey) then Str(Apology)
    else
      match ReplyContent(complete(SmartReplyRequest(ms, userPrompt, apiKey.value)))
      case Success(content) => content
      case Failure(_) => Str(Apology)
  }

  /** Without a key the reply is the same whatever the service would answer. */
  lemma SmartReplyWithoutKeyIgnoresService(ms: seq<Message>, userPrompt: string, apiKey: Option<string>,
                                           c1: Request -> Outcome, c2: Request -> Outcome)
    requires !Filled(apiKey)
    ensures GenerateSmartReply(ms, userPrompt, apiKey, c1) == GenerateSmartReply(ms, userPrompt, apiKey, c2)
  {
  }

  // ---------------------------------------------------------------------
  // analyzeConversation

  const AnalysisPrompt :=
    "You are an AI assistant that analyzes group conversations and provides actionable insights.\n"
    + "            \nYour task is to analyze the conversation and return a JSON object with:\n"
    + "- summary: A concise 2-3 sentence summary of the conversation\n"
    + "- actionItems: Array of action items mentioned (with assignedTo if mentioned)\n"
    + "- sentiment: Overall sentiment (positive/negative/neutral)\n"
    + "- keyTopics: Array of main topics discussed (max 5)\n"
    + "- suggestedReplies: 3 contextually appropriate reply suggestions\n"
    + "- detectedMeetings: Any meetings mentioned with date/time/topic\n\n"
    + "Return ONLY valid JSON, no markdown formatting."

  /** The `AIInsights` object; its fields hold whatever the parsed answer held. */
  datatype AiInsights = AiInsights(
    summary: Value,
    actionItems: Value,
    sentiment: Value,
    keyTopics: Value,
    suggestedReplies: Value,
    detectedMeetings: Value)

  const FallbackReplies: seq<Value> :=
    [Str("Thanks for the update!"), Str("I agree, let's proceed."), Str("Can you clarify?")]

  const FallbackInsights :=
    AiInsights(Str("Conversation in progress"), Array([]), Str("neutral"), Array([]),
               Array(FallbackReplies), Undefined)

  /** The request carries the whole history, with no window. The key is
      interpolated as it is, `undefined` included. */
  function AnalysisRequest(ms: seq<Message>, apiKey: Option<string>): Request {
    Request("Bearer " + apiKey.GetOr("undefined"), DefaultModel,
            [Msg("system", Str(AnalysisPrompt)), Msg("user", Str(Transcript(ms)))], 3, None, false)
  }

  /** The returned object built from the parsed answer, each missing (falsy)
      field replaced by its default. */
  function WithDefaults(parsed: Value): (r: Result<AiInsights, Error>)
    ensures r.Failure? <==> Nullish(parsed)
    ensures r.Success? ==>
      && (Truthy(OptMember(parsed, "summary")) <==> r.value.summary == OptMember(parsed, "summary"))
      && (!Truthy(OptMember(parsed, "summary")) ==> r.value.summary == Str("No summary available"))
      && (Truthy(OptMember(parsed, "sentiment")) ==> r.value.sentiment == OptMember(parsed, "sentiment"))
      && (!Truthy(OptMember(parsed, "sentiment")) ==> r.value.sentiment == Str("neutral"))
      && (Truthy(OptMember(parsed, "actionItems")) ==> r.value.actionItems == OptMember(parsed, "actionItems"))
      && (!Truthy(OptMember(parsed, "actionItems")) ==> r.value.actionItems == Array([]))
      && (Truthy(OptMember(parsed, "keyTopics")) ==> r.value.keyTopics == OptMember(parsed, "keyTopics"))
      && (!Truthy(OptMember(parsed, "keyTopics")) ==> r.value.keyTopics == Array([]))
      && (Truthy(OptMember(parsed, "suggestedReplies")) ==>
            r.value.suggestedReplies == OptMember(parsed, "suggestedReplies"))
      && (!Truthy(OptMember(parsed, "suggestedReplies")) ==> r.value.suggestedReplies == Array([]))
      && r.value.detectedMeetings == OptMember(parsed, "detectedMeetings")
  {
    var summary :- Member(parsed, "summary");
    // Once `parsed.summary` has been read, the other reads cannot throw.
    Success(AiInsights(
      Or(summary, Str("No summary available")),
      Or(OptMember(parsed, "actionItems"), Array([])),
      Or(OptMember(parsed, "sentiment"), Str("neutral")),
      Or(OptMember(parsed, "keyTopics"), Array([])),
      Or(OptMember(parsed, "suggestedReplies"), Array([])),
      OptMember(parsed, "detectedMeetings")))
  }

  /** The try block of `analyzeConversation`. */
  function Analysis(o: Outcome, parseJson: Value -> Option<Value>): Result<AiInsights, Error> {
    var content :- ReplyContent(o);
    var parsed :- if parseJson(content).Some? then Success(parseJson(content).value) else Failure(SyntaxError);
    WithDefaults(parsed)
  }

  /** `analyzeConversation`: the insights from the answer, or the fallback on
      any failure. Either way every field but `detectedMeetings` is truthy. */
  function AnalyzeConversation(ms: seq<Message>, apiKey: Option<string>,
                               complete: Request -> Outcome, parseJson: Value -> Option<Value>)
    : (r: AiInsights)
    ensures Truthy(r.summary) && Truthy(r.actionItems) && Truthy(r.sentiment)
    ensures Truthy(r.keyTopics) && Truthy(r.suggestedReplies)
    ensures var o := complete(AnalysisRequest(ms, apiKey));
            (o.Unreachable? || !Ok(o)) ==> r == FallbackInsights
    ensures var a := Analysis(complete(AnalysisRequest(ms, apiKey)), parseJson);
            (a.Success? ==> r == a.value) && (a.Failure? ==> r == FallbackInsights)
  {
    match Analysis(complete(AnalysisRequest(ms, apiKey)), parseJson)
    case Success(insights) => insights
    case Failure(_) => FallbackInsights
  }

  /** The fallback offers exactly three replies and no action items or topics. */
  lemma FallbackShape()
    ensures FallbackInsights.summary == Str("Conversation in progress")
    ensures FallbackInsights.sentiment == Str("neutral")
    ensures FallbackInsights.actionItems == Array([]) && FallbackInsights.keyTopics == Array([])
    ensures |FallbackInsights.suggestedReplies.items| == 3
  {
  }
}
