/** A whole survey session: the page handing its survey data to the chat
    widget, the widget talking to the chat route as written, and the page
    receiving the widget's transcript and summary and submitting them. */
module Session {
  import opened Types
  import opened Text
  import ChatRoute
  import ChatBot
  import SurveyPage

  /** The JSON body the widget's request becomes on the route's side. */
  function ToBody(q: ChatBot.ChatRequest): (b: ChatBody)
    ensures b.messages == Some(q.messages) && b.surveyData == Some(q.survey)
    ensures b.exchangeCount == Some(q.exchangeCount)
  {
    ChatBody(Some(q.messages), Some(q.survey), Some(q.exchangeCount))
  }

  /** The chat route's answer to a request of the widget. */
  function Serve(q: ChatBot.ChatRequest, live: bool, completion: Completion): ChatResponse {
    ChatRoute.Post(live, Some(ToBody(q)), completion)
  }

  /** One exchange: the user types `text` and sends it; the route answers with
      the given key setting and completion outcome. The route's answer is
      returned beside the new widget state. */
  function Exchange(st: ChatBot.ChatState, text: string, live: bool, completion: Completion)
    : (ChatBot.ChatState, Option<ChatResponse>)
  {
    var (st1, request) := ChatBot.BeginSend(ChatBot.SetInput(st, text));
    match request
    case None => (st1, None)
    case Some(q) =>
      var answer := Serve(q, live, completion);
      (ChatBot.FinishSend(st1, Some(answer.message)), Some(answer))
  }

  /** The request the widget sends when `text` is typed into a settled widget. */
  function Sent(st: ChatBot.ChatState, text: string): ChatBot.ChatRequest {
    ChatBot.ChatRequest(st.messages + [ChatMessage(User, text)], st.survey, st.exchangeCount + 1)
  }

  /** The route's answer to the request for the next exchange. */
  function Answer(st: ChatBot.ChatState, text: string, live: bool, completion: Completion): ChatResponse {
    Serve(Sent(st, text), live, completion)
  }

  lemma BeginsSend(st: ChatBot.ChatState, text: string)
    requires !st.loading && |Trim(text)| > 0
    ensures ChatBot.BeginSend(ChatBot.SetInput(st, text))
      == (st.(messages := st.messages + [ChatMessage(User, text)], input := "", loading := true), Some(Sent(st, text)))
  {
  }

  /** A non-blank message typed into a settled widget is sent: the user message
      is appended, the route answers, and its message is appended in turn. */
  lemma ExchangeSends(st: ChatBot.ChatState, text: string, live: bool, completion: Completion)
    requires !st.loading && |Trim(text)| > 0
    ensures var answer := Answer(st, text, live, completion);
      Exchange(st, text, live, completion) ==
        (st.(messages := st.messages + [ChatMessage(User, text), ChatMessage(Assistant, answer.message)],
             input := "", exchangeCount := st.exchangeCount + 1),
         Some(answer))
  {
    BeginsSend(st, text);
    var u := ChatMessage(User, text);
    var st1 := st.(messages := st.messages + [u], input := "", loading := true);
    var answer := Serve(Sent(st, text), live, completion);
    assert Exchange(st, text, live, completion) == (ChatBot.FinishSend(st1, Some(answer.message)), Some(answer));
    FinishAppends(st, u, answer.message);
  }

  lemma FinishAppends(st: ChatBot.ChatState, u: ChatMessage, m: string)
    requires !st.loading
    ensures ChatBot.FinishSend(st.(messages := st.messages + [u], input := "", loading := true), Some(m))
      == st.(messages := st.messages + [u, ChatMessage(Assistant, m)], input := "", exchangeCount := st.exchangeCount + 1)
  {
    assert st.messages + [u] + [ChatMessage(Assistant, m)] == st.messages + [u, ChatMessage(Assistant, m)];
  }

  /** Without a key the route answers exchange n with canned text min(n, 3),
      complete from the third exchange on. */
  lemma NoKeyAnswer(st: ChatBot.ChatState, text: string, completion: Completion)
    ensures var n := st.exchangeCount + 1;
      Answer(st, text, false, completion)
        == ChatResponse(ChatRoute.FallbackMessages[if n < 3 then n - 1 else 2], n >= 3)
  {
    ChatRoute.NoKeyReply(ToBody(Sent(st, text)), st.exchangeCount + 1, completion);
  }

  /** Without a key, an exchange sent from a settled widget shows canned text
      min(n, 3) for exchange n, and the route reports completion from the
      third exchange on. */
  lemma NoKeyExchange(st: ChatBot.ChatState, text: string, completion: Completion)
    requires !st.loading && |Trim(text)| > 0
    ensures var n := st.exchangeCount + 1;
      var reply := ChatRoute.FallbackMessages[if n < 3 then n - 1 else 2];
      Exchange(st, text, false, completion) ==
        (st.(messages := st.messages + [ChatMessage(User, text), ChatMessage(Assistant, reply)],
             input := "", exchangeCount := n),
         Some(ChatResponse(reply, n >= 3)))
  {
    ExchangeSends(st, text, false, completion);
    NoKeyAnswer(st, text, completion);
  }

  /** Three exchanges without a key: the three canned questions in order, the
      route's completion flag false, false, true, and the finish button shown
      after the third. */
  lemma NoKeyConversation(s: SurveyData, t1: string, t2: string, t3: string, c1: Completion, c2: Completion, c3: Completion)
    requires |Trim(t1)| > 0 && |Trim(t2)| > 0 && |Trim(t3)| > 0
    ensures var st0 := ChatBot.Init(s);
      var (st1, r1) := Exchange(st0, t1, false, c1);
      var (st2, r2) := Exchange(st1, t2, false, c2);
      var (st3, r3) := Exchange(st2, t3, false, c3);
      && r1 == Some(ChatResponse(ChatRoute.AskWhy, false))
      && r2 == Some(ChatResponse(ChatRoute.AskImpact, false))
      && r3 == Some(ChatResponse(ChatRoute.ThankAndAskMore, true))
      && st3.messages == st0.messages + [
           ChatMessage(User, t1), ChatMessage(Assistant, ChatRoute.AskWhy),
           ChatMessage(User, t2), ChatMessage(Assistant, ChatRoute.AskImpact),
           ChatMessage(User, t3), ChatMessage(Assistant, ChatRoute.ThankAndAskMore)]
      && st3.exchangeCount == 3 && ChatBot.ShowFinish(st3)
  {
    var st0 := ChatBot.Init(s);
    var u1, u2, u3 := ChatMessage(User, t1), ChatMessage(User, t2), ChatMessage(User, t3);
    var a1 := ChatMessage(Assistant, ChatRoute.AskWhy);
    var a2 := ChatMessage(Assistant, ChatRoute.AskImpact);
    var a3 := ChatMessage(Assistant, ChatRoute.ThankAndAskMore);
    ChatRoute.FallbackMessagesAre();
    NoKeyExchange(st0, t1, c1);
    var st1 := st0.(messages := st0.messages + [u1, a1], input := "", exchangeCount := 1);
    assert Exchange(st0, t1, false, c1) == (st1, Some(ChatResponse(ChatRoute.AskWhy, false)));
    NoKeyExchange(st1, t2, c2);
    var st2 := st1.(messages := st1.messages + [u2, a2], input := "", exchangeCount := 2);
    assert Exchange(st1, t2, false, c2) == (st2, Some(ChatResponse(ChatRoute.AskImpact, false)));
    NoKeyExchange(st2, t3, c3);
    var st3 := st2.(messages := st2.messages + [u3, a3], input := "", exchangeCount := 3);
    assert Exchange(st2, t3, false, c3) == (st3, Some(ChatResponse(ChatRoute.ThankAndAskMore, true)));
    ThreePairs(st0.messages, u1, a1, u2, a2, u3, a3);
  }

  // A regrouping step of the proof above, kept apart to keep that proof small.
  lemma ThreePairs<T>(m: seq<T>, x1: T, y1: T, x2: T, y2: T, x3: T, y3: T)
    ensures m + [x1, y1] + [x2, y2] + [x3, y3] == m + [x1, y1, x2, y2, x3, y3]
  {
  }

  /** An exchange keeps the widget well formed and settled. */
  lemma ExchangeKeepsWellFormed(st: ChatBot.ChatState, text: string, live: bool, completion: Completion)
    requires ChatBot.WellFormed(st) && !st.loading
    ensures ChatBot.WellFormed(Exchange(st, text, live, completion).0)
    ensures !Exchange(st, text, live, completion).0.loading
  {
    var st0 := ChatBot.SetInput(st, text);
    ChatBot.BeginSendKeepsWellFormed(st0);
    var (st1, request) := ChatBot.BeginSend(st0);
    if request.Some? {
      var reply := Some(Serve(request.value, live, completion).message);
      assert Exchange(st, text, live, completion).0 == ChatBot.FinishSend(st1, reply);
      ChatBot.FinishSendKeepsWellFormed(st1, reply);
    } else {
      assert Exchange(st, text, live, completion).0 == st1;
    }
  }

  /** The widget never reads the route's completion flag: with a key, a first
      answer carrying the sentinel reports the conversation complete, yet the
      finish button stays hidden, since it waits for three exchanges. */
  lemma CompletionFlagIgnored(st: ChatBot.ChatState, text: string, answer: string)
    requires ChatBot.Init(st.survey) == st && |Trim(text)| > 0
    ensures var (st1, r) := Exchange(st, text, true, Returned(Some(ChatRoute.Marker + answer)));
      r.Some? && r.value.isComplete && !ChatBot.ShowFinish(st1)
  {
    var st0 := ChatBot.SetInput(st, text);
    var q := ChatBot.BeginSend(st0).1.value;
    SentinelCompletes(ToBody(q), answer);
  }

  lemma SentinelCompletes(b: ChatBody, answer: string)
    requires ChatRoute.LiveRequest(b).Some?
    ensures ChatRoute.Post(true, Some(b), Returned(Some(ChatRoute.Marker + answer))).isComplete
  {
    var t := ChatRoute.Marker + answer;
    assert t[..|ChatRoute.Marker|] == ChatRoute.Marker;
    assert OccursAt(t, ChatRoute.Marker, 0);
    ChatRoute.LiveNonEmpty(b, t);
  }

  /** The chat route with every sentinel removed (the corrected handler). */
  function ServeFixed(q: ChatBot.ChatRequest, live: bool, completion: Completion): ChatResponse {
    ChatRoute.PostStrippingAll(live, Some(ToBody(q)), completion)
  }

  /** With a key, a completion with a second sentinel puts that sentinel into
      the widget's transcript; the corrected route answers without it and with
      the same completion flag. */
  lemma TranscriptShowsSecondMarker(st: ChatBot.ChatState, text: string, before: string, rest: string)
    requires !st.loading && |Trim(text)| > 0
    requires !Contains(before, ChatRoute.Marker) && Trimmed(before + rest) && Contains(rest, ChatRoute.Marker)
    ensures var c := Returned(Some(before + ChatRoute.Marker + rest));
      var ms := Exchange(st, text, true, c).0.messages;
      && ms[|ms| - 1] == ChatMessage(Assistant, before + rest)
      && Contains(ms[|ms| - 1].content, ChatRoute.Marker)
      && !Contains(ServeFixed(Sent(st, text), true, c).message, ChatRoute.Marker)
      && ServeFixed(Sent(st, text), true, c).isComplete
  {
    var c := Returned(Some(before + ChatRoute.Marker + rest));
    ExchangeSends(st, text, true, c);
    ChatRoute.SecondMarkerLeaks(ToBody(Sent(st, text)), before, rest);
  }

  /** Three exchanges typed into the widget, without a key. */
  function ThreeExchanges(st: ChatBot.ChatState, t1: string, t2: string, t3: string,
                          c1: Completion, c2: Completion, c3: Completion): ChatBot.ChatState
  {
    Exchange(Exchange(Exchange(st, t1, false, c1).0, t2, false, c2).0, t3, false, c3).0
  }

  /** The events that take the page into the chat with ratings 4 and 2. */
  const ToChat := [SurveyPage.RatePersonal(4), SurveyPage.RateTeam(2), SurveyPage.OpenChat]

  /** The whole session: ratings 4 and 2 open the chat; the widget starts from
      the page's survey data and holds three exchanges without a key; its
      finish click hands the rendered transcript and the summary to the page,
      and the submission carries "4", "2", that transcript (holding all three
      typed messages) and that summary, and ends on the final step. */
  lemma SurveyFlow(t1: string, t2: string, t3: string, c1: Completion, c2: Completion, c3: Completion,
                   api: Option<string>, fixed: bool, postThrew: bool)
    requires |Trim(t1)| > 0 && |Trim(t2)| > 0 && |Trim(t3)| > 0
    ensures var p3 := SurveyPage.Run(SurveyPage.Init(), ToChat, fixed);
      var st := ThreeExchanges(ChatBot.Init(p3.data), t1, t2, t3, c1, c2, c3);
      var finish := ChatBot.Finish(st, api);
      && p3.step == SurveyPage.Chat
      && finish.Some?
      && var p4 := SurveyPage.Apply(p3, SurveyPage.ChatDone(finish.value.0, finish.value.1), fixed);
         var (done, payload) := SurveyPage.Submit(p4, postThrew);
         && done.step == SurveyPage.Complete
         && payload.Some?
         && payload.value[0].value == "4" && payload.value[1].value == "2"
         && payload.value[2].value == ChatBot.ChatHistory(st.messages)
         && payload.value[3].value == ChatBot.GenerateSummary(st.messages, api)
         && Contains(payload.value[2].value, t1) && Contains(payload.value[2].value, t2)
         && Contains(payload.value[2].value, t3)
  {
    var p3 := SurveyPage.Run(SurveyPage.Init(), ToChat, fixed);
    PageReachesChat(fixed);
    var st0 := ChatBot.Init(p3.data);
    var st := ThreeExchanges(st0, t1, t2, t3, c1, c2, c3);
    ChatHolds(p3.data, t1, t2, t3, c1, c2, c3);
    var h := ChatBot.ChatHistory(st.messages);
    var sm := ChatBot.GenerateSummary(st.messages, api);
    assert ChatBot.Finish(st, api) == Some((h, sm));
    SurveyPage.ChatReturn(p3, h, sm, fixed);
    var p4 := SurveyPage.Apply(p3, SurveyPage.ChatDone(h, sm), fixed);
    assert p4.step == SurveyPage.Survey && p4.showSubmit;
    assert p4.data.personalRating == 4 && p4.data.teamRating == 2;
    assert p4.data.concerns == h && p4.data.chatSummary == Some(sm);
    assert Decimal(4) == "4" && Decimal(2) == "2";
  }

  /** The page reaches the chat with ratings 4 and 2 and nothing else set. */
  lemma PageReachesChat(fixed: bool)
    ensures var p := SurveyPage.Run(SurveyPage.Init(), ToChat, fixed);
      p.step == SurveyPage.Chat && p.data.personalRating == 4 && p.data.teamRating == 2
  {
    var es := ToChat;
    var p0 := SurveyPage.Init();
    var p1 := SurveyPage.Apply(p0, es[0], fixed);
    var p2 := SurveyPage.Apply(p1, es[1], fixed);
    var p3 := SurveyPage.Apply(p2, es[2], fixed);
    assert es[1..][0] == es[1] && es[2..][0] == es[2];
    assert es[1..][1..] == es[2..] && es[2..][1..] == [];
    assert SurveyPage.Run(p0, es, fixed) == SurveyPage.Run(p1, es[1..], fixed);
    assert SurveyPage.Run(p1, es[1..], fixed) == SurveyPage.Run(p2, es[2..], fixed);
    assert SurveyPage.Run(p2, es[2..], fixed) == p3;
  }

  /** Three exchanges without a key reach the finish button, and the typed
      messages sit at positions 1, 3 and 5 of the transcript. */
  lemma ChatHolds(d: SurveyData, t1: string, t2: string, t3: string, c1: Completion, c2: Completion, c3: Completion)
    requires |Trim(t1)| > 0 && |Trim(t2)| > 0 && |Trim(t3)| > 0
    ensures var st := ThreeExchanges(ChatBot.Init(d), t1, t2, t3, c1, c2, c3);
      && ChatBot.ShowFinish(st) && |st.messages| == 7
      && st.messages[1].content == t1 && st.messages[3].content == t2 && st.messages[5].content == t3
  {
    var st0 := ChatBot.Init(d);
    var st1 := Exchange(st0, t1, false, c1).0;
    var st2 := Exchange(st1, t2, false, c2).0;
    var st3 := Exchange(st2, t3, false, c3).0;
    assert ThreeExchanges(st0, t1, t2, t3, c1, c2, c3) == st3;
    var ms := ChatBot.Init(d).messages;
    var a1 := ChatMessage(Assistant, ChatRoute.AskWhy);
    var a2 := ChatMessage(Assistant, ChatRoute.AskImpact);
    var a3 := ChatMessage(Assistant, ChatRoute.ThankAndAskMore);
    var u1, u2, u3 := ChatMessage(User, t1), ChatMessage(User, t2), ChatMessage(User, t3);
    NoKeyConversation(d, t1, t2, t3, c1, c2, c3);
    assert st3.messages == ms + [u1, a1, u2, a2, u3, a3] && st3.exchangeCount == 3;
    SixAfterOne(ms, u1, a1, u2, a2, u3, a3);
  }

  // An indexing step of the proof above, kept apart to keep that proof small.
  lemma SixAfterOne<T>(m: seq<T>, x1: T, y1: T, x2: T, y2: T, x3: T, y3: T)
    requires |m| == 1
    ensures var r := m + [x1, y1, x2, y2, x3, y3];
      |r| == 7 && r[1] == x1 && r[3] == x2 && r[5] == x3
  {
  }
}
