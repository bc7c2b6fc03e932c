/** The chat API route (src/app/api/chat/route.ts): answers one exchange of the
    survey conversation, either from a three-entry canned table (no API key) or
    from the external completion service, and decides whether the conversation
    is complete. */
module ChatRoute {
  import opened Types
  import opened Text

  /** The completion sentinel the assistant text may carry. */
  const Marker := "[COMPLETE]"

  // The three canned texts, each written as the concatenation of three
  // pieces; the concatenation is the literal of route.ts:25-27.
  const AskWhy := "เข้าใจความกังวลของคุณ " + "คุณสามารถอธิบายเพิ่มเติม" + "ได้ไหมว่าอะไรที่ทำให้คุณรู้สึกแบบนี้?"
  const AskImpact := "นั่นเป็นความกังวลที่เข้าใจได้ " + "คุณคิดว่าจะส่งผลกระทบ" + "ต่อการทำงานอย่างไร?"
  const ThankAndAskMore := "ขอบคุณที่แบ่งปันความคิดเห็น " + "มีอะไรอื่นที่คุณต้องการ" + "พูดคุยเพิ่มเติมหรือไม่?"

  /** The canned replies for exchanges 1, 2 and 3; the third one ends with a
      space and the sentinel. */
  const FallbackResponses: seq<string> := [AskWhy, AskImpact, ThankAndAskMore + " " + Marker]

  /** Used for an empty completion and, before the third exchange, on any error. */
  const DefaultReply := "เข้าใจ คุณสามารถอธิบายเพิ่มเติมได้ไหม?"

  /** Used on any error from the third exchange on. */
  const ErrorThanks := "ขอบคุณที่แบ่งปันความคิดเห็น"

  /** How many of the most recent transcript messages go to the completion service. */
  const HistoryWindow: nat := 5

  /** The source's `exchangeCount >= 3`; an absent count is `undefined`, and
      `undefined >= 3` is false. */
  predicate AtLeastThree(n: Option<int>) {
    n.Some? && n.value >= 3
  }

  /** The exchange number the error branch sees: the route starts from 1 and
      overwrites it with the body's field once the body has parsed. */
  function ExchangeOf(body: Option<ChatBody>): Option<int> {
    match body
    case None => Some(1)
    case Some(b) => b.exchangeCount
  }

  /** `Math.min(n - 1, fallbackResponses.length - 1)` when it names an entry of
      the table; `None` when the lookup yields `undefined` (a negative index, or
      `NaN` from an absent count), on which `.includes` throws. */
  function FallbackIndex(n: Option<int>): (r: Option<nat>)
    ensures r.Some? <==> n.Some? && n.value >= 1
    ensures r.Some? ==> r.value < |FallbackResponses|
    ensures r.Some? && n.value <= 3 ==> r.value == n.value - 1
    ensures r.Some? && n.value >= 3 ==> r.value == |FallbackResponses| - 1
  {
    if n.None? then None
    else
      var k := if n.value - 1 < |FallbackResponses| - 1 then n.value - 1 else |FallbackResponses| - 1;
      if k < 0 then None else Some(k)
  }

  /** `text.replace('[COMPLETE]', '').trim()`: a text without the sentinel is
      only trimmed. */
  function Clean(text: string): (r: string)
    ensures Trimmed(r)
    ensures !Contains(text, Marker) ==> r == Trim(text)
  {
    Trim(RemoveFirst(text, Marker))
  }

  /** Removes sentinels until none is left. */
  function StripMarkers(text: string): (r: string)
    ensures !Contains(r, Marker)
    ensures !Contains(text, Marker) ==> r == text
    decreases |text|
  {
    if Find(text, Marker).Some? then StripMarkers(RemoveFirst(text, Marker)) else text
  }

  /** The response built from an assistant text: the completion flag is the
      sentinel's presence OR the third exchange; the message is trimmed, and a
      text without the sentinel is shown as it is, trimmed. */
  function Reply(text: string, n: Option<int>, stripAll: bool): (r: ChatResponse)
    ensures r.isComplete <==> Contains(text, Marker) || AtLeastThree(n)
    ensures Trimmed(r.message)
    ensures !Contains(text, Marker) ==> r.message == Trim(text)
    ensures stripAll ==> !Contains(r.message, Marker)
  {
    TrimKeepsNoMarker(StripMarkers(text));
    ChatResponse(
      if stripAll then Trim(StripMarkers(text)) else Clean(text),
      Contains(text, Marker) || AtLeastThree(n))
  }

  /** The catch branch (route.ts:82-94). */
  function ErrorReply(n: Option<int>): (r: ChatResponse)
    ensures r.isComplete == AtLeastThree(n)
    ensures r.message == ErrorThanks <==> r.isComplete
    ensures r.message == DefaultReply <==> !r.isComplete
  {
    ChatResponse(if AtLeastThree(n) then ErrorThanks else DefaultReply, AtLeastThree(n))
  }

  /** The system prompt, reduced to the values it interpolates. */
  datatype SystemPrompt = SystemPrompt(personalRating: int, teamRating: int, exchange: Option<int>)

  /** What the live path hands to the completion service. */
  datatype GatewayRequest = GatewayRequest(system: SystemPrompt, history: seq<ChatMessage>)

  /** `ms.slice(-k)`: the last `k` messages, all of them when there are fewer. */
  function LastMessages(ms: seq<ChatMessage>, k: nat): (r: seq<ChatMessage>)
    ensures |r| == if |ms| < k then |ms| else k
    ensures r == ms[|ms| - |r|..]
  {
    if |ms| <= k then ms else ms[|ms| - k..]
  }

  /** The request the live path sends, or `None` when building it throws
      because `surveyData` or `messages` is missing. */
  function LiveRequest(b: ChatBody): (r: Option<GatewayRequest>)
    ensures r.None? <==> b.surveyData.None? || b.messages.None?
    ensures r.Some? ==> r.value.system.exchange == b.exchangeCount
    ensures r.Some? ==> r.value.system.personalRating == b.surveyData.value.personalRating
    ensures r.Some? ==> r.value.system.teamRating == b.surveyData.value.teamRating
    ensures r.Some? ==> |r.value.history| <= HistoryWindow && |r.value.history| <= |b.messages.value|
    ensures r.Some? ==> r.value.history == b.messages.value[|b.messages.value| - |r.value.history|..]
    ensures r.Some? && |b.messages.value| <= HistoryWindow ==> r.value.history == b.messages.value
    ensures r.Some? && |b.messages.value| >= HistoryWindow ==> |r.value.history| == HistoryWindow
  {
    if b.surveyData.None? || b.messages.None? then None
    else
      var s := b.surveyData.value;
      Some(GatewayRequest(
        SystemPrompt(s.personalRating, s.teamRating, b.exchangeCount),
        LastMessages(b.messages.value, HistoryWindow)))
  }

  /** The handler, with the sentinel removal as a switch: `stripAll` false is
      the source's single `replace`. */
  function Respond(live: bool, body: Option<ChatBody>, completion: Completion, stripAll: bool): (r: ChatResponse)
    ensures AtLeastThree(ExchangeOf(body)) ==> r.isComplete
    ensures body.None? ==> r == ChatResponse(DefaultReply, false)
    ensures body.Some? && live && (LiveRequest(body.value).None? || completion.Threw?) ==>
      r == ErrorReply(body.value.exchangeCount)
    ensures stripAll ==> !Contains(r.message, Marker)
  {
    CannedTextsHaveNoMarker();
    match body
    case None => ErrorReply(Some(1))
    case Some(b) =>
      if !live then
        match FallbackIndex(b.exchangeCount)
        case None => ErrorReply(b.exchangeCount)
        case Some(k) => Reply(FallbackResponses[k], b.exchangeCount, stripAll)
      else if LiveRequest(b).None? then ErrorReply(b.exchangeCount)
      else
        match completion
        case Threw => ErrorReply(b.exchangeCount)
        case Returned(c) => Reply(ContentOr(c, DefaultReply), b.exchangeCount, stripAll)
  }

  /** The visible texts of the three canned replies, sentinel removed. */
  const FallbackMessages: seq<string> := [AskWhy, AskImpact, ThankAndAskMore]

  /** The route handler as written: one `replace` removes the first sentinel only. */
  function Post(live: bool, body: Option<ChatBody>, completion: Completion): (r: ChatResponse)
    ensures AtLeastThree(ExchangeOf(body)) ==> r.isComplete
    ensures !live ==> r.isComplete == AtLeastThree(ExchangeOf(body))
    ensures !live ==> !Contains(r.message, Marker)
  {
    CannedTextsHaveNoMarker();
    FallbackEntries();
    Respond(live, body, completion, false)
  }

  /** The handler with every sentinel removed before display (the corrected
      form of the `replace` at route.ts:75). */
  function PostStrippingAll(live: bool, body: Option<ChatBody>, completion: Completion): (r: ChatResponse)
    ensures !Contains(r.message, Marker)
    ensures r.isComplete == Post(live, body, completion).isComplete
    ensures !live ==> r == Post(live, body, completion)
  {
    CannedTextsHaveNoMarker();
    FallbackEntries();
    var r := Respond(live, body, completion, true);
    TrimKeepsNoMarker(StripMarkers(ReplyText(live, body, completion)));
    r
  }

  /** No key, a count n of at least 1: the reply is canned text min(n, 3) with
      its sentinel removed, and the exchange is complete exactly from the third
      on; the transcript, ratings and completion service play no part. */
  lemma NoKeyReply(b: ChatBody, n: int, completion: Completion)
    requires b.exchangeCount == Some(n) && n >= 1
    ensures Post(false, Some(b), completion) == ChatResponse(FallbackMessages[if n < 3 then n - 1 else 2], n >= 3)
  {
    var k := if n < 3 then n - 1 else 2;
    NoKeyUsesTable(b, completion);
    FallbackEntry(k);
  }

  /** The corrected handler gives the same canned answers. */
  lemma NoKeyReplyStrippingAll(b: ChatBody, n: int, completion: Completion)
    requires b.exchangeCount == Some(n) && n >= 1
    ensures PostStrippingAll(false, Some(b), completion)
      == ChatResponse(FallbackMessages[if n < 3 then n - 1 else 2], n >= 3)
  {
    NoKeyReply(b, n, completion);
  }

  lemma NoKeyUsesTable(b: ChatBody, completion: Completion)
    requires b.exchangeCount.Some? && b.exchangeCount.value >= 1
    ensures Post(false, Some(b), completion) == Reply(FallbackResponses[FallbackIndex(b.exchangeCount).value], b.exchangeCount, false)
  {
  }

  lemma FallbackEntry(k: nat)
    requires k < |FallbackResponses|
    ensures Clean(FallbackResponses[k]) == FallbackMessages[k]
    ensures Trim(StripMarkers(FallbackResponses[k])) == FallbackMessages[k]
    ensures Contains(FallbackResponses[k], Marker) <==> k == 2
  {
    if k == 0 {
      FirstEntry();
    } else if k == 1 {
      SecondEntry();
    } else {
      ThirdEntry();
    }
  }

  /** The visible table, entry by entry. */
  lemma FallbackMessagesAre()
    ensures FallbackMessages[0] == AskWhy && FallbackMessages[1] == AskImpact && FallbackMessages[2] == ThankAndAskMore
  {
  }

  /** No key and a count below 1 or absent: the table lookup yields nothing,
      the catch branch answers with the "please elaborate" text, incomplete. */
  lemma NoKeyBadExchange(b: ChatBody, completion: Completion)
    requires b.exchangeCount.None? || b.exchangeCount.value <= 0
    ensures Post(false, Some(b), completion) == ChatResponse(DefaultReply, false)
  {
  }

  /** No key: the same exchange number always yields the same response. */
  lemma NoKeyDeterministic(b1: ChatBody, b2: ChatBody, c1: Completion, c2: Completion)
    requires b1.exchangeCount == b2.exchangeCount
    ensures Post(false, Some(b1), c1) == Post(false, Some(b2), c2)
  {
  }

  /** Live path, missing or empty completion: the fixed default text is shown,
      and completion is decided by the exchange number alone. */
  lemma LiveEmptyCompletion(b: ChatBody, c: Option<string>)
    requires LiveRequest(b).Some? && (c.None? || c.value == "")
    ensures Post(true, Some(b), Returned(c)) == ChatResponse(DefaultReply, AtLeastThree(b.exchangeCount))
  {
    CannedTextsHaveNoMarker();
  }

  /** Live path, a completion carrying the sentinel: the exchange is complete,
      and the text around the first sentinel is shown, trimmed. */
  lemma LiveMarkedCompletion(b: ChatBody, before: string, after: string)
    requires LiveRequest(b).Some? && !Contains(before, Marker)
    ensures Post(true, Some(b), Returned(Some(before + Marker + after))) == ChatResponse(Trim(before + after), true)
  {
    LiveNonEmpty(b, before + Marker + after);
    AroundMarker(before, after);
  }

  lemma LiveNonEmpty(b: ChatBody, t: string)
    requires LiveRequest(b).Some? && t != ""
    ensures Post(true, Some(b), Returned(Some(t))) == Reply(t, b.exchangeCount, false)
  {
  }

  lemma AroundMarker(before: string, after: string)
    requires !Contains(before, Marker)
    ensures Clean(before + Marker + after) == Trim(before + after)
    ensures Contains(before + Marker + after, Marker)
  {
    var t := before + Marker + after;
    assert Marker[0] !in Marker[1..];
    NoEarlierOccurrence(before, Marker, after);
    RemoveFirstSplit(before, Marker, after);
    assert OccursAt(t, Marker, |before|) by {
      assert t[|before|..|before| + |Marker|] == Marker;
    }
  }

  /** Live path, a non-empty completion without the sentinel: it is shown
      trimmed, and completion is decided by the exchange number alone. */
  lemma LiveUnmarkedCompletion(b: ChatBody, text: string)
    requires LiveRequest(b).Some? && text != "" && !Contains(text, Marker)
    ensures Post(true, Some(b), Returned(Some(text))) == ChatResponse(Trim(text), AtLeastThree(b.exchangeCount))
  {
    assert ContentOr(Some(text), DefaultReply) == text;
    assert RemoveFirst(text, Marker) == text;
  }

  /** Every failure lands in the catch branch: completion iff the exchange
      number is at least 3, with the "thanks" text exactly then and the
      "please elaborate" text otherwise; an unparsed body counts as exchange 1. */
  lemma ErrorFallback(live: bool, body: Option<ChatBody>, completion: Completion)
    requires body.None? || (live && (LiveRequest(body.value).None? || completion.Threw?))
    ensures Post(live, body, completion).isComplete == AtLeastThree(ExchangeOf(body))
    ensures Post(live, body, completion).message == (if AtLeastThree(ExchangeOf(body)) then ErrorThanks else DefaultReply)
    ensures body.None? ==> Post(live, body, completion) == ChatResponse(DefaultReply, false)
  {
  }

  lemma SecondMarkerLeaks(b: ChatBody, before: string, rest: string)
    requires LiveRequest(b).Some? && !Contains(before, Marker)
    requires Trimmed(before + rest) && Contains(rest, Marker)
    ensures var r := Post(true, Some(b), Returned(Some(before + Marker + rest)));
      r.isComplete && r.message == before + rest && Contains(r.message, Marker)
  {
    LiveMarkedCompletion(b, before, rest);
    ContainsPrefixed(before, rest, Marker);
  }

  /** The assistant text a response is built from, on the paths that build one. */
  function ReplyText(live: bool, body: Option<ChatBody>, completion: Completion): string {
    match body
    case None => ""
    case Some(b) =>
      if !live then
        match FallbackIndex(b.exchangeCount)
        case None => ""
        case Some(k) => FallbackResponses[k]
      else
        match completion
        case Threw => ""
        case Returned(c) => ContentOr(c, DefaultReply)
  }

  lemma TrimKeepsNoMarker(s: string)
    requires !Contains(s, Marker)
    ensures !Contains(Trim(s), Marker)
  {
    TrimSlice(s);
    if Contains(Trim(s), Marker) {
      ContainsTransitive(s, Trim(s), Marker);
    }
  }

  lemma CannedTextsHaveNoMarker()
    ensures !Contains(ErrorThanks, Marker) && !Contains(DefaultReply, Marker)
    ensures forall k :: 0 <= k < |FallbackMessages| ==> !Contains(FallbackMessages[k], Marker)
    ensures Clean(DefaultReply) == DefaultReply && Trim(StripMarkers(DefaultReply)) == DefaultReply
  {
    NoBracketInErrorTexts();
    NoBracketInAskWhy();
    NoBracketInAskImpact();
    NoBracketInThankAndAskMore();
    AbsentLead(ErrorThanks, Marker);
    AbsentLead(DefaultReply, Marker);
    AbsentLead(AskWhy, Marker);
    AbsentLead(AskImpact, Marker);
    AbsentLead(ThankAndAskMore, Marker);
    EdgesOfCannedTexts();
  }

  /** Each canned entry, cleaned, is the matching visible text, and only the
      third carries the sentinel. */
  lemma FallbackEntries()
    ensures forall k :: 0 <= k < |FallbackResponses| ==>
      && Clean(FallbackResponses[k]) == FallbackMessages[k]
      && Trim(StripMarkers(FallbackResponses[k])) == FallbackMessages[k]
      && (Contains(FallbackResponses[k], Marker) <==> k == 2)
  {
    forall k | 0 <= k < |FallbackResponses|
      ensures Clean(FallbackResponses[k]) == FallbackMessages[k]
      ensures Trim(StripMarkers(FallbackResponses[k])) == FallbackMessages[k]
      ensures Contains(FallbackResponses[k], Marker) <==> k == 2
    {
      FallbackEntry(k);
    }
  }

  lemma FirstEntry()
    ensures Clean(FallbackResponses[0]) == FallbackMessages[0]
    ensures Trim(StripMarkers(FallbackResponses[0])) == FallbackMessages[0]
    ensures !Contains(FallbackResponses[0], Marker)
  {
    NoBracketInAskWhy();
    EdgesOfCannedTexts();
    PlainEntry(AskWhy);
  }

  lemma SecondEntry()
    ensures Clean(FallbackResponses[1]) == FallbackMessages[1]
    ensures Trim(StripMarkers(FallbackResponses[1])) == FallbackMessages[1]
    ensures !Contains(FallbackResponses[1], Marker)
  {
    NoBracketInAskImpact();
    EdgesOfCannedTexts();
    PlainEntry(AskImpact);
  }

  lemma ThirdEntry()
    ensures Clean(FallbackResponses[2]) == FallbackMessages[2]
    ensures Trim(StripMarkers(FallbackResponses[2])) == FallbackMessages[2]
    ensures Contains(FallbackResponses[2], Marker)
  {
    MarkedEntry();
  }

  lemma PlainEntry(text: string)
    requires '[' !in text && Trimmed(text)
    ensures Clean(text) == text && Trim(StripMarkers(text)) == text && !Contains(text, Marker)
  {
    AbsentLead(text, Marker);
  }

  lemma MarkedEntry()
    ensures Clean(ThankAndAskMore + " " + Marker) == ThankAndAskMore
    ensures Trim(StripMarkers(ThankAndAskMore + " " + Marker)) == ThankAndAskMore
    ensures Contains(ThankAndAskMore + " " + Marker, Marker)
  {
    NoBracketInThankAndAskMore();
    EdgesOfCannedTexts();
    MarkedText(ThankAndAskMore);
  }

  /** A trimmed text without brackets, followed by a space and the sentinel,
      cleans back to itself. */
  lemma MarkedText(a: string)
    requires '[' !in a && Trimmed(a)
    ensures Clean(a + " " + Marker) == a
    ensures Trim(StripMarkers(a + " " + Marker)) == a
    ensures Contains(a + " " + Marker, Marker)
  {
    var a' := a + " ";
    var t := a' + Marker;
    assert t == a' + Marker + "";
    AbsentLeadNoEarlier(a', Marker, "");
    RemoveFirstSplit(a', Marker, "");
    assert a' + "" == a';
    TrimTrailingSpace(a);
    assert OccursAt(t, Marker, |a'|) by {
      assert t[|a'|..|a'| + |Marker|] == Marker;
    }
    AbsentLead(a', Marker);
  }

  // Facts about the literal texts. Each literal piece gets its own small
  // lemma, which keeps every proof obligation short.
  lemma NoBracketInAskWhy() ensures '[' !in AskWhy {
    NoBracketInAskWhy0(); NoBracketInAskWhy1(); NoBracketInAskWhy2();
    NotInThree('[', "เข้าใจความกังวลของคุณ ", "คุณสามารถอธิบายเพิ่มเติม", "ได้ไหมว่าอะไรที่ทำให้คุณรู้สึกแบบนี้?");
  }
  lemma NoBracketInAskWhy0() ensures '[' !in "เข้าใจความกังวลของคุณ " {}
  lemma NoBracketInAskWhy1() ensures '[' !in "คุณสามารถอธิบายเพิ่มเติม" {}
  lemma NoBracketInAskWhy2() ensures '[' !in "ได้ไหมว่าอะไรที่ทำให้คุณรู้สึกแบบนี้?" {}

  lemma NoBracketInAskImpact() ensures '[' !in AskImpact {
    NoBracketInAskImpact0(); NoBracketInAskImpact1(); NoBracketInAskImpact2();
    NotInThree('[', "นั่นเป็นความกังวลที่เข้าใจได้ ", "คุณคิดว่าจะส่งผลกระทบ", "ต่อการทำงานอย่างไร?");
  }
  lemma NoBracketInAskImpact0() ensures '[' !in "นั่นเป็นความกังวลที่เข้าใจได้ " {}
  lemma NoBracketInAskImpact1() ensures '[' !in "คุณคิดว่าจะส่งผลกระทบ" {}
  lemma NoBracketInAskImpact2() ensures '[' !in "ต่อการทำงานอย่างไร?" {}

  lemma NoBracketInThankAndAskMore() ensures '[' !in ThankAndAskMore {
    NoBracketInThanks0(); NoBracketInThanks1(); NoBracketInThanks2();
    NotInThree('[', "ขอบคุณที่แบ่งปันความคิดเห็น ", "มีอะไรอื่นที่คุณต้องการ", "พูดคุยเพิ่มเติมหรือไม่?");
  }
  lemma NoBracketInThanks0() ensures '[' !in "ขอบคุณที่แบ่งปันความคิดเห็น " {}
  lemma NoBracketInThanks1() ensures '[' !in "มีอะไรอื่นที่คุณต้องการ" {}
  lemma NoBracketInThanks2() ensures '[' !in "พูดคุยเพิ่มเติมหรือไม่?" {}

  lemma NotInThree(c: char, x: string, y: string, z: string)
    requires c !in x && c !in y && c !in z
    ensures c !in x + y + z
  {
  }

  lemma NoBracketInErrorTexts() ensures '[' !in ErrorThanks && '[' !in DefaultReply {
    NoBracketInErrorThanks();
    NoBracketInDefaultReply();
  }
  lemma NoBracketInErrorThanks() ensures '[' !in ErrorThanks {}
  lemma NoBracketInDefaultReply() ensures '[' !in DefaultReply {}

  lemma EdgesOfCannedTexts()
    ensures Trimmed(AskWhy) && Trimmed(AskImpact) && Trimmed(ThankAndAskMore)
    ensures Trimmed(ErrorThanks) && Trimmed(DefaultReply) && ErrorThanks != DefaultReply
  {
  }
}
