/** The survey page (src/app/page.tsx): two ratings, a gate into the chat,
    the return from the chat with the transcript and its summary, and the
    submission to the survey form. */
module SurveyPage {
  import opened Types
  import opened Text

  datatype Step = Survey | Chat | Complete

  /** The page's state: the survey data, the visible step, and whether the
      submit button is offered. */
  datatype Page = Page(data: SurveyData, step: Step, showSubmit: bool)

  /** The form fields of the survey form, in the order they are appended. */
  const PersonalEntry := "entry.621446036"
  const TeamEntry := "entry.1650073458"
  const ConcernsEntry := "entry.674544202"
  const SummaryEntry := "entry.1902844599"

  datatype FormField = FormField(name: string, value: string)

  /** The first screen: no rating chosen (both 0), no transcript, no summary. */
  function Init(): (p: Page)
    ensures p.step == Survey && !p.showSubmit && !CanProceedToChat(p.data)
    ensures p.data.personalRating == 0 && p.data.teamRating == 0 && p.data.concerns == ""
    ensures p.data.chatHistory.None? && p.data.chatSummary.None? && p.data.isGeneratingSummary.None?
  {
    Page(SurveyData(0, 0, "", None, None, None), Survey, false)
  }

  /** `canProceedToChat`: both ratings chosen. */
  predicate CanProceedToChat(d: SurveyData) {
    d.personalRating > 0 && d.teamRating > 0
  }

  /** The first rating widget's `onChange`; the widget is on screen in the
      survey step only. */
  function SelectPersonal(p: Page, v: Score): (r: Page)
    ensures p.step == Survey ==> r == p.(data := p.data.(personalRating := v))
    ensures p.step != Survey ==> r == p
  {
    if p.step == Survey then p.(data := p.data.(personalRating := v)) else p
  }

  /** The second rating widget's `onChange`. */
  function SelectTeam(p: Page, v: Score): (r: Page)
    ensures p.step == Survey ==> r == p.(data := p.data.(teamRating := v))
    ensures p.step != Survey ==> r == p
  {
    if p.step == Survey then p.(data := p.data.(teamRating := v)) else p
  }

  /** `handleConcernsClick`: into the chat only with both ratings chosen. */
  function ConcernsClick(p: Page): (r: Page)
    ensures r.data == p.data && r.showSubmit == p.showSubmit
    ensures r.step == Chat <==> p.step == Chat || (p.step == Survey && CanProceedToChat(p.data))
    ensures r != p ==> p.step == Survey && r.step == Chat
  {
    if p.step == Survey && CanProceedToChat(p.data) then p.(step := Chat) else p
  }

  /** The back button of the chat step. */
  function Back(p: Page): (r: Page)
    ensures p.step == Chat ==> r == p.(step := Survey)
    ensures p.step != Chat ==> r == p
  {
    if p.step == Chat then p.(step := Survey) else p
  }

  /** `handleChatComplete` as written: the transcript goes to `concerns` and the
      summary to `chatSummary`, but `chatHistory` is never set. Its two state
      updates are applied together, so only the final value of
      `isGeneratingSummary` is seen. */
  function ChatCompleteAsWritten(p: Page, history: string, summary: string): (r: Page)
    ensures p.step == Chat ==> r.data.chatHistory == p.data.chatHistory
    ensures p.step != Chat ==> r == p
  {
    if p.step != Chat then p
    else
      p.(data := p.data.(concerns := history, chatSummary := Some(summary), isGeneratingSummary := Some(false)),
         step := Survey, showSubmit := true)
  }

  /** `handleChatComplete` storing the transcript in `chatHistory` as well, so
      that the summary preview it guards appears. */
  function ChatComplete(p: Page, history: string, summary: string): (r: Page)
    ensures p.step == Chat ==> r == ChatCompleteAsWritten(p, history, summary).(data := r.data)
    ensures p.step == Chat ==> r.data == ChatCompleteAsWritten(p, history, summary).data.(chatHistory := Some(history))
    ensures p.step != Chat ==> r == p
  {
    if p.step != Chat then p
    else
      p.(data := p.data.(concerns := history, chatHistory := Some(history), chatSummary := Some(summary),
                         isGeneratingSummary := Some(false)),
         step := Survey, showSubmit := true)
  }

  /** The summary preview is on screen: the survey step with a non-empty
      `chatHistory`. */
  predicate ShowsPreview(p: Page) {
    p.step == Survey && p.data.chatHistory.Some? && p.data.chatHistory.value != ""
  }

  /** The form payload: both ratings in decimal, the transcript, and the
      summary or the empty string. */
  function Payload(d: SurveyData): (r: seq<FormField>)
    ensures |r| == 4
    ensures r[0].name == PersonalEntry && Denotes(r[0].value, d.personalRating)
    ensures r[1].name == TeamEntry && Denotes(r[1].value, d.teamRating)
    ensures r[2] == FormField(ConcernsEntry, d.concerns)
    ensures r[3].name == SummaryEntry
    ensures d.chatSummary.Some? ==> r[3].value == d.chatSummary.value
    ensures d.chatSummary.None? ==> r[3].value == ""
  {
    ParseDecimalInverse(d.personalRating as nat);
    ParseDecimalInverse(d.teamRating as nat);
    [FormField(PersonalEntry, Decimal(d.personalRating as nat)),
     FormField(TeamEntry, Decimal(d.teamRating as nat)),
     FormField(ConcernsEntry, d.concerns),
     FormField(SummaryEntry, d.chatSummary.GetOr(""))]
  }

  /** `submitToGoogleForms`, offered by the submit button of the survey step:
      the payload sent, and the page moved to the final step whether or not
      the post threw. */
  function Submit(p: Page, postThrew: bool): (r: (Page, Option<seq<FormField>>))
    ensures p.step == Survey && p.showSubmit ==> r == (p.(step := Complete), Some(Payload(p.data)))
    ensures !(p.step == Survey && p.showSubmit) ==> r == (p, None)
  {
    if p.step == Survey && p.showSubmit then (p.(step := Complete), Some(Payload(p.data))) else (p, None)
  }

  lemma SubmitIgnoresOutcome(p: Page)
    requires p.step == Survey && p.showSubmit
    ensures Submit(p, true) == Submit(p, false)
    ensures Submit(p, true).0.step == Complete
  {
  }

  /** The four form fields have distinct names. */
  lemma PayloadFieldsDistinct(d: SurveyData)
    ensures forall i, j :: 0 <= i < j < 4 ==> Payload(d)[i].name != Payload(d)[j].name
  {
    var r := Payload(d);
    assert PersonalEntry[7] == '2' && TeamEntry[7] == '6' && ConcernsEntry[7] == '7' && SummaryEntry[7] == '9';
  }

  /** What the user can do on the page. */
  datatype Event =
    | RatePersonal(score: Score)
    | RateTeam(score: Score)
    | OpenChat
    | GoBack
    | ChatDone(history: string, summary: string)
    | SubmitForm(postThrew: bool)

  /** One event; `fixed` selects the corrected `handleChatComplete`. The final
      step is entered only by submitting from the survey step with the submit
      button offered, and never left; only the return from the chat offers
      the submit button. */
  function Apply(p: Page, e: Event, fixed: bool): (r: Page)
    ensures p.step == Complete ==> r == p
    ensures r.step == Complete <==> p.step == Complete || (e.SubmitForm? && p.step == Survey && p.showSubmit)
    ensures r.showSubmit && !p.showSubmit ==> e.ChatDone? && p.step == Chat
  {
    match e
    case RatePersonal(v) => SelectPersonal(p, v)
    case RateTeam(v) => SelectTeam(p, v)
    case OpenChat => ConcernsClick(p)
    case GoBack => Back(p)
    case ChatDone(h, s) => if fixed then ChatComplete(p, h, s) else ChatCompleteAsWritten(p, h, s)
    case SubmitForm(x) => Submit(p, x).0
  }

  /** A sequence of events, in order. A page reaches the final step only if it
      starts there or some event submits it. */
  function Run(p: Page, es: seq<Event>, fixed: bool): (r: Page)
    ensures p.step == Complete ==> r == p
    ensures r.step == Complete ==> p.step == Complete || exists i :: 0 <= i < |es| && es[i].SubmitForm?
    decreases |es|
  {
    if |es| == 0 then p else Run(Apply(p, es[0], fixed), es[1..], fixed)
  }

  /** What every reachable page satisfies: the chat step and the submit button
      both need the two ratings; the final step is reached only through the
      submit button; the corrected page has the transcript whenever it offers
      the submit button, the page as written never has it. */
  predicate Invariant(p: Page, fixed: bool) {
    && (p.step == Chat ==> CanProceedToChat(p.data))
    && (p.showSubmit ==> CanProceedToChat(p.data))
    && (p.step == Complete ==> p.showSubmit)
    && (fixed && p.showSubmit ==> p.data.chatHistory.Some? && p.data.chatHistory.value == p.data.concerns)
    && (!fixed ==> p.data.chatHistory.None?)
  }

  lemma ApplyKeepsInvariant(p: Page, e: Event, fixed: bool)
    requires Invariant(p, fixed)
    ensures Invariant(Apply(p, e, fixed), fixed)
  {
  }

  lemma {:induction false} RunKeepsInvariant(p: Page, es: seq<Event>, fixed: bool)
    requires Invariant(p, fixed)
    ensures Invariant(Run(p, es, fixed), fixed)
    decreases |es|
  {
    if |es| > 0 {
      ApplyKeepsInvariant(p, es[0], fixed);
      RunKeepsInvariant(Apply(p, es[0], fixed), es[1..], fixed);
    }
  }

  /** From the first screen, the chat step is only ever entered with both
      ratings chosen, and the submit button only ever offered then. */
  lemma ReachableGated(es: seq<Event>, fixed: bool)
    ensures var p := Run(Init(), es, fixed);
      (p.step == Chat || p.showSubmit) ==> CanProceedToChat(p.data)
  {
    RunKeepsInvariant(Init(), es, fixed);
  }

  /** As written, the summary preview never appears, whatever the user does;
      corrected, it appears on return from a chat with a non-empty transcript. */
  lemma {:induction false} PreviewNeverShown(es: seq<Event>)
    ensures !ShowsPreview(Run(Init(), es, false))
  {
    RunKeepsInvariant(Init(), es, false);
  }

  lemma PreviewShownWhenFixed(p: Page, history: string, summary: string)
    requires p.step == Chat && history != ""
    ensures ShowsPreview(ChatComplete(p, history, summary))
  {
  }

  /** Once submitted the page stays in the final step. */
  lemma {:induction false} CompleteIsFinal(p: Page, es: seq<Event>, fixed: bool)
    requires p.step == Complete
    ensures Run(p, es, fixed) == p
    decreases |es|
  {
    if |es| > 0 {
      RunFromComplete(p, es[0], fixed);
      CompleteIsFinal(p, es[1..], fixed);
    }
  }

  lemma RunFromComplete(p: Page, e: Event, fixed: bool)
    requires p.step == Complete
    ensures Apply(p, e, fixed) == p
  {
  }

  /** Choosing a rating touches that rating only. */
  lemma RatingTouchesOnlyItself(p: Page, v: Score)
    requires p.step == Survey
    ensures var r := SelectPersonal(p, v);
      r.data.personalRating == v && r.data.(personalRating := p.data.personalRating) == p.data
      && r.step == p.step && r.showSubmit == p.showSubmit
    ensures var r := SelectTeam(p, v);
      r.data.teamRating == v && r.data.(teamRating := p.data.teamRating) == p.data
      && r.step == p.step && r.showSubmit == p.showSubmit
  {
  }

  /** The chat gate: the step changes only with both ratings chosen. */
  lemma ChatGate(p: Page)
    requires p.step == Survey
    ensures CanProceedToChat(p.data) ==> ConcernsClick(p).step == Chat
    ensures !CanProceedToChat(p.data) ==> ConcernsClick(p) == p
  {
  }

  /** The return from the chat: transcript in `concerns`, summary in
      `chatSummary`, no summary in progress, back to the survey step with the
      submit button. */
  lemma ChatReturn(p: Page, history: string, summary: string, fixed: bool)
    requires p.step == Chat
    ensures var r := Apply(p, ChatDone(history, summary), fixed);
      && r.data.concerns == history && r.data.chatSummary == Some(summary)
      && r.data.isGeneratingSummary == Some(false)
      && r.step == Survey && r.showSubmit
      && r.data.personalRating == p.data.personalRating && r.data.teamRating == p.data.teamRating
  {
  }
}
