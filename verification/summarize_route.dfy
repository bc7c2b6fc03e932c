/** The summarize API route (src/app/api/summarize/route.ts): turns either a
    list of concerns (the old body shape) or a chat transcript (the new one)
    into a one-line summary, from fixed templates when no API key is set, from
    the external completion service otherwise, and from fallback templates when
    anything throws. */
module SummarizeRoute {
  import opened Types
  import opened Text
  import Transcript

  /** The summary when nothing better is available. */
  const DefaultSummary := "ผู้ใช้แสดงความกังวล" + "เกี่ยวกับการเปลี่ยนจาก Line ไป Slack"

  /** Prefix of the single-concern template (old shape, no key or error). */
  const MainConcern := "ความกังวลหลัก: "

  /** Prefix of the several-concerns template without a key (old shape). */
  const ManyConcerns := "ผู้ใช้แสดงความกังวลหลายประการเกี่ยวกับการเปลี่ยนจาก Line ไป Slack: "

  /** Prefix of the several-concerns template on the error path (old shape). */
  const ManyConcernsIncluding := "ผู้ใช้แสดงความกังวลหลายประการเกี่ยวกับการเปลี่ยนจาก Line ไป Slack รวมถึง: "

  /** Prefix of the transcript template (new shape), with and without a key. */
  const FromTranscript := DefaultSummary + ": "

  /** Separator of the error-path templates ("and"). */
  const And := " และ "

  /** Labels of the transcript handed to the completion service. */
  const UserTag := "ผู้ใช้"
  const AssistantTag := "AI"

  /** `concerns && !conversation`: the old body shape. Any array, even an
      empty one, is truthy. */
  predicate IsOldFormat(b: SummarizeBody) {
    b.concerns.Some? && b.conversation.None?
  }

  /** At most the first two items (`xs.slice(0, 2)`). */
  function FirstTwo<T>(xs: seq<T>): (r: seq<T>)
    ensures |r| == if |xs| <= 2 then |xs| else 2
    ensures r == xs[..|r|]
  {
    if |xs| <= 2 then xs else xs[..2]
  }

  /** The no-key summary of the old shape (route.ts:20-25): the single-concern
      template for exactly one concern; every concern appears in it. */
  function ConcernsSummary(cs: seq<string>): (r: string)
    ensures |cs| == 1 ==> r == MainConcern + cs[0]
    ensures forall k :: 0 <= k < |cs| ==> Contains(r, cs[k])
  {
    if |cs| == 1 then
      JoinShowsAll(MainConcern, cs, ", ");
      MainConcern + cs[0]
    else
      JoinShowsAll(ManyConcerns, cs, ", ");
      ManyConcerns + Join(cs, ", ")
  }

  /** The no-key summary of the new shape (route.ts:28-31): every user message
      appears in it. */
  function TranscriptSummary(conversation: seq<ChatMessage>): (r: string)
    ensures forall k :: 0 <= k < |UserContents(conversation)| ==> Contains(r, UserContents(conversation)[k])
  {
    JoinShowsAll(FromTranscript, UserContents(conversation), ", ");
    FromTranscript + Join(UserContents(conversation), ", ")
  }

  /** The no-key branch; `None` when `conversation.filter` runs on an absent
      conversation and throws. */
  function NoKeySummary(b: SummarizeBody): (r: Option<string>)
    ensures r.None? <==> !IsOldFormat(b) && b.conversation.None?
  {
    if IsOldFormat(b) then Some(ConcernsSummary(b.concerns.value))
    else if b.conversation.None? then None
    else Some(TranscriptSummary(b.conversation.value))
  }

  /** The error-path summary (route.ts:85-92); an absent conversation makes the
      inner `filter` throw too, which yields the default. */
  function ErrorSummary(b: SummarizeBody): (r: string)
    ensures !IsOldFormat(b) && b.conversation.None? ==> r == DefaultSummary
    ensures IsOldFormat(b) ==> forall k :: 0 <= k < |FirstTwo(b.concerns.value)| ==> Contains(r, FirstTwo(b.concerns.value)[k])
    ensures !IsOldFormat(b) && b.conversation.Some? ==>
      var us := FirstTwo(UserContents(b.conversation.value));
      forall k :: 0 <= k < |us| ==> Contains(r, us[k])
  {
    if IsOldFormat(b) then
      var cs := b.concerns.value;
      if |cs| == 1 then
        JoinShowsAll(MainConcern, cs, And);
        MainConcern + cs[0]
      else
        JoinShowsAll(ManyConcernsIncluding, FirstTwo(cs), And);
        ManyConcernsIncluding + Join(FirstTwo(cs), And)
    else if b.conversation.None? then DefaultSummary
    else
      JoinShowsAll(FromTranscript, FirstTwo(UserContents(b.conversation.value)), And);
      FromTranscript + Join(FirstTwo(UserContents(b.conversation.value)), And)
  }

  /** The old-shape prompt's list: `${i + 1}. ${concern}` per concern, one per line. */
  function NumberedLines(cs: seq<string>): (r: seq<string>)
    ensures |r| == |cs|
    ensures forall i :: 0 <= i < |cs| ==> r[i] == Decimal(i + 1) + ". " + cs[i]
  {
    seq(|cs|, i requires 0 <= i < |cs| => Decimal(i + 1) + ". " + cs[i])
  }

  function ConcernList(cs: seq<string>): string {
    Join(NumberedLines(cs), "\n")
  }

  /** The prompt, reduced to the part it interpolates. */
  datatype Prompt = ConcernsPrompt(list: string) | TranscriptPrompt(transcript: string)

  /** The prompt of the live path; `None` when `conversation.map` runs on an
      absent conversation and throws. */
  function LivePrompt(b: SummarizeBody): (r: Option<Prompt>)
    ensures r.None? <==> !IsOldFormat(b) && b.conversation.None?
    ensures r.Some? ==> (r.value.ConcernsPrompt? <==> IsOldFormat(b))
  {
    if IsOldFormat(b) then Some(ConcernsPrompt(ConcernList(b.concerns.value)))
    else if b.conversation.None? then None
    else Some(TranscriptPrompt(Transcript.Render(b.conversation.value, UserTag, AssistantTag)))
  }

  /** The outer `try` block (route.ts:9-74): the summary, or `None` when it
      throws. A body that did not parse is `None`. */
  function Attempt(live: bool, body: Option<SummarizeBody>, completion: Completion): (r: Option<string>)
    ensures body.None? ==> r.None?
    ensures body.Some? && !live ==> (r.None? <==> !IsOldFormat(body.value) && body.value.conversation.None?)
    ensures body.Some? && live && completion.Threw? ==> r.None?
    ensures body.Some? && live && completion.Returned? ==> (r.None? <==> LivePrompt(body.value).None?)
    ensures live && r.Some? ==> Trimmed(r.value)
  {
    match body
    case None => None
    case Some(b) =>
      if !live then NoKeySummary(b)
      else if LivePrompt(b).None? then None
      else
        match completion
        case Threw => None
        case Returned(c) => Some(Trim(ContentOr(c, DefaultSummary)))
  }

  /** The request as the handler sees it: a payload that parses or not, and
      whether its body stream has been read. */
  datatype Request = Request(payload: Option<SummarizeBody>, bodyUsed: bool)

  /** `request.json()`: reading marks the body used; a body that was read
      before cannot be read again, so the second read rejects (the Fetch
      Standard's "consume body" algorithm). */
  function ReadJson(req: Request): (r: (Option<SummarizeBody>, Request))
    ensures r.1.bodyUsed && r.1.payload == req.payload
    ensures !req.bodyUsed ==> r.0 == req.payload
    ensures req.bodyUsed ==> r.0.None?
  {
    if req.bodyUsed then (None, req) else (req.payload, req.(bodyUsed := true))
  }

  /** The handler as written: the `catch` block reads the request body a
      second time. */
  function PostAsWritten(live: bool, req: Request, completion: Completion): (r: string)
    ensures !req.bodyUsed && Attempt(live, req.payload, completion).Some? ==> r == Attempt(live, req.payload, completion).value
    ensures !req.bodyUsed && Attempt(live, req.payload, completion).None? ==> r == DefaultSummary
    ensures req.bodyUsed ==> r == DefaultSummary
  {
    var (first, req1) := ReadJson(req);
    match Attempt(live, first, completion)
    case Some(s) => s
    case None =>
      var (second, _) := ReadJson(req1);
      match second
      case None => DefaultSummary
      case Some(b) => ErrorSummary(b)
  }

  /** The handler with the `catch` block reusing the body parsed by the `try`
      block; this is the handler the rest of the model uses. */
  function Post(live: bool, body: Option<SummarizeBody>, completion: Completion): (r: string)
    ensures body.None? ==> r == DefaultSummary
    ensures Attempt(live, body, completion).Some? ==> r == Attempt(live, body, completion).value
  {
    match Attempt(live, body, completion)
    case Some(s) => s
    case None =>
      match body
      case None => DefaultSummary
      case Some(b) => ErrorSummary(b)
  }

  /** As written, whenever the `try` block throws the summary is the default:
      the re-read in the `catch` block always rejects, so the error templates
      are never reached. When the `try` block succeeds both handlers agree. */
  lemma AsWrittenErrorIsDefault(live: bool, payload: Option<SummarizeBody>, completion: Completion)
    ensures Attempt(live, payload, completion).None? ==>
      PostAsWritten(live, Request(payload, false), completion) == DefaultSummary
    ensures Attempt(live, payload, completion).Some? ==>
      PostAsWritten(live, Request(payload, false), completion) == Post(live, payload, completion)
  {
  }

  /** An old-shape body with one concern whose completion call throws: the
      corrected handler answers with the single-concern template, the handler
      as written with the default. */
  lemma ErrorTemplateUnreachable(concern: string)
    ensures var b := SummarizeBody(None, Some([concern]));
      && Post(true, Some(b), Threw) == MainConcern + concern
      && PostAsWritten(true, Request(Some(b), false), Threw) == DefaultSummary
      && Post(true, Some(b), Threw) != PostAsWritten(true, Request(Some(b), false), Threw)
  {
    var b := SummarizeBody(None, Some([concern]));
    assert (MainConcern + concern)[0] == MainConcern[0];
    assert MainConcern[0] != DefaultSummary[0];
  }

  /** Corrected, a `try` block that throws on a parsed body falls back to the
      error templates, which show the body's first concern or user message. */
  lemma ErrorPathUsesBody(live: bool, b: SummarizeBody, completion: Completion)
    requires Attempt(live, Some(b), completion).None?
    ensures Post(live, Some(b), completion) == ErrorSummary(b)
    ensures IsOldFormat(b) && |b.concerns.value| > 0 ==>
      Contains(Post(live, Some(b), completion), b.concerns.value[0])
    ensures !IsOldFormat(b) && b.conversation.Some? && CountRole(b.conversation.value, User) > 0 ==>
      Contains(Post(live, Some(b), completion), UserContents(b.conversation.value)[0])
    ensures !IsOldFormat(b) && b.conversation.None? ==> Post(live, Some(b), completion) == DefaultSummary
  {
    if IsOldFormat(b) && |b.concerns.value| > 0 {
      ErrorSummaryShowsFirstTwo(b, 0);
    } else if !IsOldFormat(b) && b.conversation.Some? && CountRole(b.conversation.value, User) > 0 {
      ErrorSummaryShowsFirstTwo(b, 0);
    }
  }

  /** The shape is decided by the body alone: with a conversation present the
      concerns play no part on any path. */
  lemma ConversationWins(live: bool, b1: SummarizeBody, b2: SummarizeBody, completion: Completion)
    requires b1.conversation.Some? && b1.conversation == b2.conversation
    ensures !IsOldFormat(b1) && !IsOldFormat(b2)
    ensures Post(live, Some(b1), completion) == Post(live, Some(b2), completion)
  {
  }

  /** No key, old shape, exactly one concern: the single-concern template. */
  lemma NoKeySingleConcern(c: string, completion: Completion)
    ensures Post(false, Some(SummarizeBody(None, Some([c]))), completion) == MainConcern + c
  {
  }

  /** No key, old shape, any other number of concerns: the several-concerns
      template followed by every concern, in order, separated by commas. */
  lemma NoKeyManyConcerns(cs: seq<string>, completion: Completion, k: nat)
    requires |cs| != 1 && k < |cs|
    ensures var r := Post(false, Some(SummarizeBody(None, Some(cs))), completion);
      r == ManyConcerns + Join(cs, ", ") && Contains(r, cs[k])
  {
    NoKeyConcerns(cs, completion);
    JoinContainsEach(cs, ", ", k);
    ContainsPrefixed(ManyConcerns, Join(cs, ", "), cs[k]);
  }

  lemma NoKeyConcerns(cs: seq<string>, completion: Completion)
    ensures Post(false, Some(SummarizeBody(None, Some(cs))), completion) == ConcernsSummary(cs)
  {
  }

  /** No key, new shape: every user message appears in the summary, and the
      assistant's messages do not matter: adding one anywhere in the
      conversation leaves the summary unchanged. */
  lemma NoKeyTranscript(conversation: seq<ChatMessage>, concerns: Option<seq<string>>, completion: Completion, k: nat)
    requires k < CountRole(conversation, User)
    ensures var r := Post(false, Some(SummarizeBody(Some(conversation), concerns)), completion);
      r == TranscriptSummary(conversation) && Contains(r, UserContents(conversation)[k])
  {
  }

  lemma NoKeyIgnoresAssistant(before: seq<ChatMessage>, text: string, after: seq<ChatMessage>)
    ensures TranscriptSummary(before + [ChatMessage(Assistant, text)] + after) == TranscriptSummary(before + after)
  {
    AssistantInsertIgnored(before, text, after);
  }

  /** The error templates use at most the first two concerns or user
      messages: two bodies that agree on those (and on the shape and, for the
      old shape, on whether there is exactly one concern) get the same summary. */
  lemma ErrorSummaryFirstTwo(b1: SummarizeBody, b2: SummarizeBody)
    requires IsOldFormat(b1) == IsOldFormat(b2)
    requires IsOldFormat(b1) ==>
      FirstTwo(b1.concerns.value) == FirstTwo(b2.concerns.value) &&
      (|b1.concerns.value| == 1 <==> |b2.concerns.value| == 1)
    requires !IsOldFormat(b1) ==> (b1.conversation.None? <==> b2.conversation.None?)
    requires !IsOldFormat(b1) && b1.conversation.Some? && b2.conversation.Some? ==>
      FirstTwo(UserContents(b1.conversation.value)) == FirstTwo(UserContents(b2.conversation.value))
    ensures ErrorSummary(b1) == ErrorSummary(b2)
  {
    if IsOldFormat(b1) && |b1.concerns.value| == 1 {
      assert b1.concerns.value[0] == FirstTwo(b1.concerns.value)[0];
      assert b2.concerns.value[0] == FirstTwo(b2.concerns.value)[0];
    }
  }

  /** The error template shows the first concern (or user message) and, when
      there is one, the second. */
  lemma ErrorSummaryShowsFirstTwo(b: SummarizeBody, k: nat)
    requires IsOldFormat(b) ==> k < |b.concerns.value| && k < 2
    requires !IsOldFormat(b) ==> b.conversation.Some? && k < CountRole(b.conversation.value, User) && k < 2
    ensures IsOldFormat(b) ==> Contains(ErrorSummary(b), b.concerns.value[k])
    ensures !IsOldFormat(b) ==> Contains(ErrorSummary(b), UserContents(b.conversation.value)[k])
  {
    if IsOldFormat(b) {
      var cs := b.concerns.value;
      if |cs| == 1 {
        ContainsSelf(cs[0]);
        ContainsPrefixed(MainConcern, cs[0], cs[0]);
      } else {
        JoinContainsEach(FirstTwo(cs), And, k);
        ContainsPrefixed(ManyConcernsIncluding, Join(FirstTwo(cs), And), cs[k]);
      }
    } else {
      var us := UserContents(b.conversation.value);
      JoinContainsEach(FirstTwo(us), And, k);
      ContainsPrefixed(FromTranscript, Join(FirstTwo(us), And), us[k]);
    }
  }

  /** A body that does not parse, on either path, gets the default summary. */
  lemma UnparsedBody(live: bool, completion: Completion)
    ensures Post(live, None, completion) == DefaultSummary
    ensures PostAsWritten(live, Request(None, false), completion) == DefaultSummary
  {
  }

  /** Live path: the completion text trimmed, or the default when the
      completion is missing or empty. */
  lemma LiveSummary(b: SummarizeBody, c: Option<string>)
    requires LivePrompt(b).Some?
    ensures c.Some? && c.value != "" ==> Post(true, Some(b), Returned(c)) == Trim(c.value)
    ensures c.None? || c.value == "" ==> Post(true, Some(b), Returned(c)) == DefaultSummary
  {
    DefaultIsTrimmed();
  }

  lemma DefaultIsTrimmed()
    ensures Trimmed(DefaultSummary)
  {
  }

  /** The old-shape prompt lists the concerns one per line, numbered from 1 in
      input order: splitting the list at line breaks gives back line i as the
      number i + 1, a dot, a space and concern i, provided no concern holds a
      line break itself. */
  lemma NumberedListLines(cs: seq<string>, i: nat)
    requires |cs| > 0 && i < |cs|
    requires forall k :: 0 <= k < |cs| ==> '\n' !in cs[k]
    ensures |Split(ConcernList(cs), '\n')| == |cs|
    ensures Split(ConcernList(cs), '\n')[i] == Decimal(i + 1) + ". " + cs[i]
    ensures ParseDecimal(Decimal(i + 1)) == i + 1
  {
    var lines := NumberedLines(cs);
    forall k | 0 <= k < |lines| ensures '\n' !in lines[k] {
      var d := Decimal(k + 1);
      assert lines[k] == d + ". " + cs[k];
      assert '\n' !in d by {
        forall j | 0 <= j < |d| ensures d[j] != '\n' {
          assert IsDigit(d[j]);
        }
      }
    }
    SplitJoin(lines, '\n');
    ParseDecimalInverse(i + 1);
  }
}
