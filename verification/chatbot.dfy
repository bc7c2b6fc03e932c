/** The chat widget (src/components/ChatBot.tsx): the client side of the
    conversation. It keeps the transcript, sends each user message with the
    exchange number to the chat route, counts the answered exchanges, shows the
    finish button from the third on, and on finish hands the rendered
    transcript and a summary to the page. */
module ChatBot {
  import opened Types
  import opened Text
  import Transcript

  // The opening message, in the pieces around its two interpolated ratings.
  const GreetingHead := "จากคะแนนที่คุณให้ (ความต้องการส่วนตัว: "
  const GreetingMiddle := "/5, ความพร้อมของทีม: "
  const GreetingTail := "/5) ผมอยากเข้าใจความกังวลของคุณเพิ่มเติม อะไรที่ทำให้คุณรู้สึกกังวลเกี่ยวกับการเปลี่ยนแปลงนี้?"

  /** The summary when the user said nothing after the greeting. */
  const NoDetails := "มีความกังวลเรื่อง Slack " + "แต่ยังไม่ได้เล่าละเอียด"

  /** Prefixes of the local summary for one and for several user messages. */
  const OneConcern := "กังวลเรื่อง: "
  const SeveralConcerns := "กังวลหลายเรื่อง เช่น: "

  /** The exchange from which the finish button is offered, and the number of
      progress dots. */
  const FinishAt: nat := 3

  /** The assistant's opening message, quoting both ratings out of 5. */
  function Greeting(s: SurveyData): (r: string)
    ensures Contains(r, Decimal(s.personalRating as nat)) && Contains(r, Decimal(s.teamRating as nat))
  {
    var p := Decimal(s.personalRating as nat);
    var t := Decimal(s.teamRating as nat);
    GreetingQuotes(p, t);
    GreetingHead + p + GreetingMiddle + t + GreetingTail
  }

  lemma GreetingQuotes(p: string, t: string)
    ensures Contains(GreetingHead + p + GreetingMiddle + t + GreetingTail, p)
    ensures Contains(GreetingHead + p + GreetingMiddle + t + GreetingTail, t)
  {
    var g := GreetingHead + p + GreetingMiddle + t + GreetingTail;
    assert g[|GreetingHead|..|GreetingHead| + |p|] == p;
    assert OccursAt(g, p, |GreetingHead|);
    var j := |GreetingHead + p + GreetingMiddle|;
    assert g[j..j + |t|] == t;
    assert OccursAt(g, t, j);
  }

  /** The widget's state once its effect has put the greeting in place. */
  datatype ChatState = ChatState(
    survey: SurveyData,
    messages: seq<ChatMessage>,
    input: string,
    loading: bool,
    exchangeCount: nat)

  /** What the widget posts to the chat route. */
  datatype ChatRequest = ChatRequest(messages: seq<ChatMessage>, survey: SurveyData, exchangeCount: int)

  /** The widget once its effect has run: the greeting alone, an empty input,
      nothing answered and nothing in flight. */
  function Init(s: SurveyData): (st: ChatState)
    ensures WellFormed(st) && st.exchangeCount == 0 && !st.loading
    ensures st.messages == [ChatMessage(Assistant, Greeting(s))] && st.input == "" && st.survey == s
  {
    ChatState(s, [ChatMessage(Assistant, Greeting(s))], "", false, 0)
  }

  /** The state the rest of the widget relies on: the greeting comes first;
      there is one assistant message per answered exchange besides it; every
      answered exchange had its user message, and so has the one in flight,
      which is the last message. */
  predicate WellFormed(st: ChatState) {
    && |st.messages| > 0
    && st.messages[0] == ChatMessage(Assistant, Greeting(st.survey))
    && CountRole(st.messages, Assistant) == st.exchangeCount + 1
    && st.exchangeCount + (if st.loading then 1 else 0) <= CountRole(st.messages, User)
    && (st.loading ==> st.messages[|st.messages| - 1].role == User)
  }

  /** Typing; the input field is disabled while a request is in flight. */
  function SetInput(st: ChatState, text: string): (r: ChatState)
    ensures st.loading ==> r == st
    ensures !st.loading ==> r.input == text && r == st.(input := text)
  {
    if st.loading then st else st.(input := text)
  }

  /** The guard of `sendMessage`: a non-blank input and no request in flight. */
  predicate CanSend(st: ChatState) {
    |Trim(st.input)| > 0 && !st.loading
  }

  /** The synchronous half of `sendMessage`: append the user message, clear the
      input, mark the request in flight, and build the request. */
  function BeginSend(st: ChatState): (r: (ChatState, Option<ChatRequest>))
    ensures !CanSend(st) ==> r == (st, None)
    ensures CanSend(st) ==> r.1.Some?
    ensures CanSend(st) ==> r.0.messages == st.messages + [ChatMessage(User, st.input)]
    ensures CanSend(st) ==> r.0.input == "" && r.0.loading && r.0.exchangeCount == st.exchangeCount
    ensures CanSend(st) ==> r.1.value.messages == r.0.messages && r.1.value.survey == st.survey
  {
    if !CanSend(st) then (st, None)
    else
      var sent := st.messages + [ChatMessage(User, st.input)];
      (st.(messages := sent, input := "", loading := true),
       Some(ChatRequest(sent, st.survey, st.exchangeCount + 1)))
  }

  /** The asynchronous half: `reply` is the `message` of the route's answer, or
      `None` when the fetch or the JSON decoding threw. */
  function FinishSend(st: ChatState, reply: Option<string>): (r: ChatState)
    ensures !r.loading && r.survey == st.survey && r.input == st.input
    ensures reply.None? ==> r.messages == st.messages && r.exchangeCount == st.exchangeCount
    ensures reply.Some? ==> r.messages == st.messages + [ChatMessage(Assistant, reply.value)]
    ensures reply.Some? ==> r.exchangeCount == st.exchangeCount + 1
  {
    match reply
    case None => st.(loading := false)
    case Some(m) =>
      st.(messages := st.messages + [ChatMessage(Assistant, m)],
          exchangeCount := st.exchangeCount + 1,
          loading := false)
  }

  /** One whole `sendMessage`, with the route's reply given. */
  function SendMessage(st: ChatState, reply: Option<string>): (r: ChatState)
    ensures !CanSend(st) ==> r == st
    ensures CanSend(st) ==> !r.loading && r.input == "" && r.survey == st.survey
    ensures CanSend(st) ==> |st.messages| < |r.messages| && r.messages[..|st.messages|] == st.messages
  {
    var (st1, request) := BeginSend(st);
    if request.None? then st1 else FinishSend(st1, reply)
  }

  /** A send is a no-op when the input is blank or a request is in flight. */
  lemma SendGuard(st: ChatState, reply: Option<string>)
    requires !CanSend(st)
    ensures SendMessage(st, reply) == st
  {
  }

  /** A send that passes the guard appends exactly one user message (the input
      as typed) and clears the input; a reply appends exactly one assistant
      message and counts the exchange, a failure leaves the count alone. */
  lemma SendEffect(st: ChatState, reply: Option<string>)
    requires CanSend(st)
    ensures var r := SendMessage(st, reply);
      && r.input == "" && !r.loading && r.survey == st.survey
      && (reply.None? ==> r.messages == st.messages + [ChatMessage(User, st.input)]
                           && r.exchangeCount == st.exchangeCount)
      && (reply.Some? ==> r.messages == st.messages + [ChatMessage(User, st.input), ChatMessage(Assistant, reply.value)]
                           && r.exchangeCount == st.exchangeCount + 1)
  {
    var u := ChatMessage(User, st.input);
    var st1 := BeginSend(st).0;
    assert st1.messages == st.messages + [u] && st1.input == "" && st1.survey == st.survey;
    assert SendMessage(st, reply) == FinishSend(st1, reply);
    if reply.Some? {
      assert st.messages + [u] + [ChatMessage(Assistant, reply.value)]
        == st.messages + [u, ChatMessage(Assistant, reply.value)];
    }
  }

  /** The request carries the 1-based number of the exchange being sent: the
      number of assistant messages (greeting included) in what it sends. */
  lemma RequestNumbersTheExchange(st: ChatState)
    requires WellFormed(st) && CanSend(st)
    ensures var request := BeginSend(st).1.value;
      && request.exchangeCount == st.exchangeCount + 1
      && request.exchangeCount == CountRole(request.messages, Assistant)
      && request.exchangeCount <= CountRole(request.messages, User)
  {
    var u := ChatMessage(User, st.input);
    CountRoleAppend(st.messages, [u], Assistant);
    CountRoleAppend(st.messages, [u], User);
    assert [u][..0] == [];
  }

  lemma BeginSendKeepsWellFormed(st: ChatState)
    requires WellFormed(st)
    ensures WellFormed(BeginSend(st).0)
  {
    if CanSend(st) {
      var u := ChatMessage(User, st.input);
      CountRoleAppend(st.messages, [u], Assistant);
      CountRoleAppend(st.messages, [u], User);
      assert [u][..0] == [];
      assert (st.messages + [u])[0] == st.messages[0];
    }
  }

  lemma FinishSendKeepsWellFormed(st: ChatState, reply: Option<string>)
    requires WellFormed(st) && st.loading
    ensures WellFormed(FinishSend(st, reply))
  {
    if reply.Some? {
      var a := ChatMessage(Assistant, reply.value);
      CountRoleAppend(st.messages, [a], Assistant);
      CountRoleAppend(st.messages, [a], User);
      assert [a][..0] == [];
      assert (st.messages + [a])[0] == st.messages[0];
    }
  }

  /** A whole send keeps the state well formed, and only ever appends to the
      transcript. */
  lemma SendKeepsWellFormed(st: ChatState, reply: Option<string>)
    requires WellFormed(st)
    ensures WellFormed(SendMessage(st, reply))
    ensures SendMessage(st, reply).messages[..|st.messages|] == st.messages
  {
    BeginSendKeepsWellFormed(st);
    if CanSend(st) {
      var st1 := BeginSend(st).0;
      FinishSendKeepsWellFormed(st1, reply);
      SendEffect(st, reply);
    }
  }

  /** `generateChatHistory`: one `User: `/`AI: ` block per message. */
  function ChatHistory(ms: seq<ChatMessage>): (r: string)
    ensures |ms| == 0 ==> r == ""
    ensures forall i :: 0 <= i < |ms| ==> Contains(r, ms[i].content)
  {
    Transcript.RenderContainsAll(ms, "User", "AI");
    Transcript.Render(ms, "User", "AI")
  }

  /** An answered exchange extends the history by a blank line and the user's
      block, then a blank line and the assistant's block. */
  lemma HistoryGrows(ms: seq<ChatMessage>, question: string, answer: string)
    requires |ms| > 0
    ensures ChatHistory(ms + [ChatMessage(User, question), ChatMessage(Assistant, answer)])
      == ChatHistory(ms) + Transcript.BlankLine + "User: " + question + Transcript.BlankLine + "AI: " + answer
  {
    var u := ChatMessage(User, question);
    var a := ChatMessage(Assistant, answer);
    Transcript.RenderSnoc(ms, u, "User", "AI");
    Transcript.RenderSnoc(ms + [u], a, "User", "AI");
    assert ms + [u] + [a] == ms + [u, a];
    assert Transcript.Block(u, "User", "AI") == "User: " + question;
    assert Transcript.Block(a, "User", "AI") == "AI: " + answer;
    Regroup(ChatHistory(ms), Transcript.BlankLine, "User: ", question, "AI: ", answer);
  }

  // A regrouping step of the proof above, kept apart to keep that proof small.
  lemma Regroup(h: string, sep: string, p: string, q: string, p': string, a: string)
    ensures h + sep + (p + q) + sep + (p' + a) == h + sep + p + q + sep + p' + a
  {
  }

  /** The messages after the greeting, which the summary is about
      (`messages.slice(1)`). */
  function AfterGreeting(ms: seq<ChatMessage>): (r: seq<ChatMessage>)
    ensures |ms| > 0 ==> r == ms[1..]
    ensures |ms| == 0 ==> r == []
  {
    if |ms| == 0 then [] else ms[1..]
  }

  /** The local summary built from the user messages when the summarize route
      cannot be used. */
  function LocalSummary(us: seq<string>): string {
    if |us| == 1 then OneConcern + us[0] else SeveralConcerns + Join(us, ", ")
  }

  /** What `generateSummary` posts to the summarize route, if anything: the
      conversation after the greeting, when it is not empty. */
  function SummaryRequest(ms: seq<ChatMessage>): (r: Option<seq<ChatMessage>>)
    ensures r.None? <==> |ms| <= 1
    ensures r.Some? ==> ms == [ms[0]] + r.value
  {
    var rest := AfterGreeting(ms);
    if |rest| == 0 then None else Some(rest)
  }

  /** `generateSummary`; `api` is the summary of an OK response from the
      summarize route, `None` when the call threw or the status was not OK. */
  function GenerateSummary(ms: seq<ChatMessage>, api: Option<string>): (r: string)
    ensures |ms| <= 1 ==> r == NoDetails
    ensures |ms| > 1 && api.Some? ==> r == api.value
    ensures |ms| > 1 && api.None? && CountRole(ms[1..], User) == 1 ==> r == OneConcern + UserContents(ms[1..])[0]
  {
    match SummaryRequest(ms)
    case None => NoDetails
    case Some(rest) =>
      match api
      case Some(s) => s
      case None => LocalSummary(UserContents(rest))
  }

  /** With nothing said after the greeting the summary is the fixed "no details"
      text, whatever the route would have answered. */
  lemma SummaryOfNothing(ms: seq<ChatMessage>, api: Option<string>)
    requires |ms| <= 1
    ensures GenerateSummary(ms, api) == NoDetails
  {
  }

  /** The greeting plays no part in the summary. */
  lemma SummaryIgnoresGreeting(g1: ChatMessage, g2: ChatMessage, rest: seq<ChatMessage>, api: Option<string>)
    ensures GenerateSummary([g1] + rest, api) == GenerateSummary([g2] + rest, api)
    ensures SummaryRequest([g1] + rest) == SummaryRequest([g2] + rest)
  {
    assert ([g1] + rest)[1..] == rest;
    assert ([g2] + rest)[1..] == rest;
  }

  /** Without the route, exactly one user message gives the one-concern
      template with that message; any other number gives the several-concerns
      template, which holds every user message. */
  lemma LocalSummaryTemplates(ms: seq<ChatMessage>, k: nat)
    requires |ms| > 1
    ensures var us := UserContents(ms[1..]);
      && (|us| == 1 ==> GenerateSummary(ms, None) == OneConcern + us[0])
      && (|us| != 1 ==> GenerateSummary(ms, None) == SeveralConcerns + Join(us, ", "))
      && (k < |us| ==> Contains(GenerateSummary(ms, None), us[k]))
  {
    var us := UserContents(ms[1..]);
    if k < |us| {
      if |us| == 1 {
        ContainsSelf(us[0]);
        ContainsPrefixed(OneConcern, us[0], us[0]);
      } else {
        JoinContainsEach(us, ", ", k);
        ContainsPrefixed(SeveralConcerns, Join(us, ", "), us[k]);
      }
    }
  }

  /** The finish button is shown from the third answered exchange on. */
  predicate ShowFinish(st: ChatState) {
    st.exchangeCount >= FinishAt
  }

  /** The three progress dots; dot k (from 1) is filled once k exchanges are
      answered. */
  function ProgressDots(exchangeCount: nat): (r: seq<bool>)
    ensures |r| == FinishAt as int
    ensures forall k :: 0 <= k < FinishAt ==> (r[k] <==> k < exchangeCount)
  {
    seq(FinishAt, k requires 0 <= k < FinishAt => exchangeCount >= k + 1)
  }

  /** The filled dots are the first min(count, 3), and all three are filled
      exactly when the finish button shows. */
  lemma DotsTrackExchanges(st: ChatState)
    ensures forall k :: 0 <= k < FinishAt ==> (ProgressDots(st.exchangeCount)[k] <==> k < st.exchangeCount)
    ensures ShowFinish(st) <==> forall k :: 0 <= k < FinishAt ==> ProgressDots(st.exchangeCount)[k]
  {
    var dots := ProgressDots(st.exchangeCount);
    if !ShowFinish(st) {
      assert !dots[st.exchangeCount];
    }
  }

  /** The finish click: the rendered history and the summary for the page, or
      nothing when the button is not shown. */
  function Finish(st: ChatState, api: Option<string>): (r: Option<(string, string)>)
    ensures r.Some? <==> ShowFinish(st)
    ensures r.Some? ==> r.value.0 == ChatHistory(st.messages)
    ensures r.Some? ==> r.value.1 == GenerateSummary(st.messages, api)
  {
    if ShowFinish(st) then Some((ChatHistory(st.messages), GenerateSummary(st.messages, api))) else None
  }
}
