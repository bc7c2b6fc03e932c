/** The records exchanged between the survey page, the chat widget and the two
    API routes (src/types/index.ts), plus the wire bodies of the two routes and
    the outcome of a call to the external completion service. */
module Types {

  /** A JSON field that may be absent (`undefined`/`null` in the source). */
  datatype Option<+T> = None | Some(value: T) {

    /** The value, or `default` when absent (the source's `x || default`
        and `x ?? default` on non-empty values). */
    function GetOr(default: T): T {
      match this
      case Some(v) => v
      case None => default
    }
  }

  datatype Role = User | Assistant

  datatype ChatMessage = ChatMessage(role: Role, content: string)

  /** A stored rating: 0 means "not chosen yet" (page.tsx:9-13), 1..5 are the
      values the rating widget produces (RatingScale.tsx:18-21). */
  type Rating = r: int | 0 <= r <= 5

  /** A value the rating widget can hand to its `onChange`. */
  type Score = r: int | 1 <= r <= 5 witness 1

  datatype SurveyData = SurveyData(
    personalRating: Rating,
    teamRating: Rating,
    concerns: string,
    chatHistory: Option<string>,
    chatSummary: Option<string>,
    isGeneratingSummary: Option<bool>)

  datatype ChatResponse = ChatResponse(message: string, isComplete: bool)

  /** The JSON body of a request to the chat route; every field may be missing. */
  datatype ChatBody = ChatBody(
    messages: Option<seq<ChatMessage>>,
    surveyData: Option<SurveyData>,
    exchangeCount: Option<int>)

  /** The JSON body of a request to the summarize route. */
  datatype SummarizeBody = SummarizeBody(
    conversation: Option<seq<ChatMessage>>,
    concerns: Option<seq<string>>)

  /** What the external chat-completion call did: it threw, or it returned a
      first choice whose content may be missing. */
  datatype Completion = Threw | Returned(content: Option<string>)

  /** The content of a returned completion, with the source's `content || fallback`:
      a missing or empty content is replaced by `fallback`. */
  function ContentOr(content: Option<string>, fallback: string): (r: string)
    ensures content.Some? && content.value != "" ==> r == content.value
    ensures content.None? || content.value == "" ==> r == fallback
  {
    if content.Some? && content.value != "" then content.value else fallback
  }

  /** Number of messages of the given role. */
  function CountRole(ms: seq<ChatMessage>, role: Role): (n: nat)
    ensures n <= |ms|
  {
    if |ms| == 0 then 0
    else CountRole(ms[..|ms| - 1], role) + (if ms[|ms| - 1].role == role then 1 else 0)
  }

  lemma {:induction false} CountRoleAppend(a: seq<ChatMessage>, b: seq<ChatMessage>, role: Role)
    ensures CountRole(a + b, role) == CountRole(a, role) + CountRole(b, role)
    decreases |b|
  {
    if |b| == 0 {
      assert a + b == a;
    } else {
      var b' := b[..|b| - 1];
      assert (a + b)[..|a + b| - 1] == a + b';
      CountRoleAppend(a, b', role);
    }
  }

  /** The contents of the user-role messages, in order (the source's
      `filter(m => m.role === 'user').map(m => m.content)`). */
  function UserContents(ms: seq<ChatMessage>): (r: seq<string>)
    ensures |r| == CountRole(ms, User)
  {
    if |ms| == 0 then []
    else UserContents(ms[..|ms| - 1]) + (if ms[|ms| - 1].role == User then [ms[|ms| - 1].content] else [])
  }

  lemma {:induction false} UserContentsAppend(a: seq<ChatMessage>, b: seq<ChatMessage>)
    ensures UserContents(a + b) == UserContents(a) + UserContents(b)
    decreases |b|
  {
    if |b| == 0 {
      assert a + b == a;
    } else {
      var b' := b[..|b| - 1];
      assert (a + b)[..|a + b| - 1] == a + b';
      UserContentsAppend(a, b');
    }
  }

  /** Assistant messages contribute nothing to the user contents: inserting one
      anywhere leaves them unchanged, and each user message contributes exactly
      its own content at its place. */
  lemma AssistantInsertIgnored(a: seq<ChatMessage>, text: string, b: seq<ChatMessage>)
    ensures UserContents(a + [ChatMessage(Assistant, text)] + b) == UserContents(a + b)
    ensures UserContents(a + [ChatMessage(User, text)] + b) == UserContents(a) + [text] + UserContents(b)
  {
    InsertOne(a, ChatMessage(Assistant, text), b);
    UserContentsAppend(a, b);
    InsertOne(a, ChatMessage(User, text), b);
  }

  lemma InsertOne(a: seq<ChatMessage>, m: ChatMessage, b: seq<ChatMessage>)
    ensures UserContents(a + [m] + b)
      == UserContents(a) + (if m.role == User then [m.content] else []) + UserContents(b)
  {
    UserContentsAppend(a + [m], b);
    UserContentsAppend(a, [m]);
    assert [m][..0] == [];
  }
}
