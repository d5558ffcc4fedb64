/**
 * Event and message shapes (src/conversation/types.ts).
 *
 * A timestamp is the integer number of milliseconds its ISO text names; the source compares the
 * fixed-width texts, which orders them the same way.
 */
module ConversationTypes {
  import opened Prelude

  /**
   * A content part. `meta` is the provider metadata of a streamed part, `opts` the provider options of
   * a prompt part.
   */
  datatype Part =
    | Text(text: string, meta: Option<string>, opts: Option<string>)
    | Reasoning(text: string, meta: Option<string>, opts: Option<string>)
    | File(data: string, meta: Option<string>, opts: Option<string>)
    | ToolCall(id: string, name: string, input: string, meta: Option<string>, opts: Option<string>)
    | ToolResult(id: string, name: string, output: string)
    | ResourceLink(uri: string, mimeType: string, name: string)
    | OtherPart(kind: string)

  function PlainText(text: string): Part {
    Text(text, None, None)
  }

  datatype FinishReason = Stop | Length | ContentFilter | ToolCalls | Error | Other

  datatype Usage = Usage(inputTokens: nat, outputTokens: nat)

  const NO_USAGE := Usage(0, 0)

  datatype Event =
    | UserMessage(ts: int, content: seq<Part>, userId: Option<string>, files: Option<seq<string>>)
    | RunStart(ts: int, runId: string, model: string)
    | LlmResponse(ts: int, runId: string, model: string, content: seq<Part>, usage: Usage, llmMs: nat,
      finishReason: FinishReason)
    | ToolStart(ts: int, runId: string, id: string, input: Option<string>)
    | ToolDone(ts: int, runId: string, id: string, ok: bool, ms: nat, output: string, modelOutput: Option<string>)
    | RunDone(ts: int, runId: string, stopReason: string)
    | RunError(ts: int, runId: string)
    | ConnectorSkillInjected(ts: int, skillName: string, scope: string, skillBody: string,
      heldToolCallId: Option<string>)
    | SkillActivated(ts: int, runId: string, toolCallId: string, skillName: string)
    | MetadataTitle(ts: int, title: Option<string>)
    | HistoryCompacted(ts: int, summary: string, compactedThroughTs: int, summarizedMessageCount: nat)
    | OtherEvent(ts: int, kind: string)

  type UserMessageEvent = e: Event | e.UserMessage? witness UserMessage(0, [], None, None)
  type LlmResponseEvent = e: Event | e.LlmResponse? witness LlmResponse(0, "", "", [], NO_USAGE, 0, Stop)
  type ToolDoneEvent = e: Event | e.ToolDone? witness ToolDone(0, "", "", true, 0, "", None)
  type OverlayEvent = e: Event | e.ConnectorSkillInjected? witness ConnectorSkillInjected(0, "", "", "", None)
  type ActivationEvent = e: Event | e.SkillActivated? witness SkillActivated(0, "", "", "")
  type CompactionEvent = e: Event | e.HistoryCompacted? witness HistoryCompacted(0, "", 0, 0)

  datatype Role = User | Assistant | Tool

  datatype ToolCallMeta = ToolCallMeta(id: string, name: string, input: string, output: string, ok: bool, ms: nat)

  datatype Metadata = Metadata(
    synthetic: Option<string>,
    skill: Option<string>,
    connectorSkills: seq<string>,
    toolCalls: seq<ToolCallMeta>,
    usage: Option<Usage>,
    model: Option<string>,
    llmMs: Option<nat>,
    iterations: Option<nat>,
    finishReason: Option<FinishReason>,
    files: Option<seq<string>>)

  const NO_METADATA := Metadata(None, None, [], [], None, None, None, None, None, None)

  datatype Message = Message(role: Role, content: seq<Part>, timestamp: int, userId: Option<string>, metadata: Metadata)

  const CONNECTOR_SKILL_SYNTHETIC := "connector_skill_injected"
  const SKILL_ACTIVATED_SYNTHETIC := "skill_activated"

  /** A user-role message that carries a connector overlay rather than a user turn. */
  predicate IsOverlay(m: Message) {
    m.metadata.synthetic == Some(CONNECTOR_SKILL_SYNTHETIC)
  }

  /** The ids of the tool calls of an assistant message's content, in order. */
  function CallIds(content: seq<Part>): seq<string> {
    if content == [] then []
    else if content[0].ToolCall? then [content[0].id] + CallIds(content[1..])
    else CallIds(content[1..])
  }

  lemma {:induction false} CallIdsConcat(a: seq<Part>, b: seq<Part>)
    ensures CallIds(a + b) == CallIds(a) + CallIds(b)
  {
    if a == [] {
      assert a + b == b;
    } else {
      assert (a + b)[1..] == a[1..] + b;
      CallIdsConcat(a[1..], b);
    }
  }

  predicate HasToolUse(m: Message) {
    CallIds(m.content) != []
  }

  predicate AnyToolResult(content: seq<Part>) {
    content != [] && (content[0].ToolResult? || AnyToolResult(content[1..]))
  }

  predicate HasToolResult(m: Message) {
    AnyToolResult(m.content)
  }

  lemma {:induction false} CallIdsEmpty(content: seq<Part>)
    ensures CallIds(content) == [] <==> forall i :: 0 <= i < |content| ==> !content[i].ToolCall?
  {
    if content != [] {
      CallIdsEmpty(content[1..]);
      assert forall i :: 0 < i < |content| ==> content[i] == content[1..][i - 1];
    }
  }

  /** `m` is the tool message that answers call `id`. */
  predicate Answers(m: Message, id: string) {
    m.role == Tool && |m.content| == 1 && m.content[0].ToolResult? && m.content[0].id == id
  }

  /** The messages answer the calls one for one, in order. */
  predicate AnswersAll(ms: seq<Message>, ids: seq<string>) {
    |ms| == |ids| && forall i :: 0 <= i < |ms| ==> Answers(ms[i], ids[i])
  }

  /**
   * Every assistant message's tool calls are answered, in order, by exactly the tool messages that
   * directly follow it, and no tool message stands anywhere else.
   */
  predicate Paired(ms: seq<Message>) {
    if ms == [] then true
    else match ms[0].role
      case Tool => false
      case User => Paired(ms[1..])
      case Assistant =>
        var ids := CallIds(ms[0].content);
        |ids| < |ms| && AnswersAll(ms[1..|ids| + 1], ids) && Paired(ms[|ids| + 1..])
  }

  /** How many messages the leading unit of a paired history takes. */
  function UnitLength(ms: seq<Message>): nat
    requires ms != []
  {
    if ms[0].role == Assistant then |CallIds(ms[0].content)| + 1 else 1
  }

  lemma {:induction false} PairedConcat(a: seq<Message>, b: seq<Message>)
    requires Paired(a) && Paired(b)
    ensures Paired(a + b)
  {
    if a == [] {
      assert a + b == b;
    } else {
      var n := UnitLength(a);
      assert (a + b)[n..] == a[n..] + b;
      assert (a + b)[1..n] == a[1..n];
      PairedConcat(a[n..], b);
    }
  }

  lemma {:induction false} UnitTailIsTool(ms: seq<Message>, k: nat)
    requires Paired(ms) && ms != [] && 0 < k < UnitLength(ms)
    ensures k < |ms| && ms[k].role == Tool
  {
    var ids := CallIds(ms[0].content);
    assert Answers(ms[1..|ids| + 1][k - 1], ids[k - 1]);
  }

  /** A paired history cut before any message that is not a tool message is paired on both sides. */
  lemma {:induction false} PairedCut(ms: seq<Message>, k: nat)
    requires Paired(ms) && k <= |ms|
    requires k < |ms| ==> ms[k].role != Tool
    ensures Paired(ms[..k]) && Paired(ms[k..])
    decreases k, 1
  {
    if k == 0 {
      assert ms[..k] == [] && ms[k..] == ms;
    } else if k < UnitLength(ms) {
      UnitTailIsTool(ms, k);
    } else {
      PairedCutPast(ms, k, UnitLength(ms));
    }
  }

  lemma {:induction false} PairedCutPast(ms: seq<Message>, k: nat, n: nat)
    requires ms != [] && n == UnitLength(ms) <= k <= |ms|
    requires Paired(ms)
    requires k < |ms| ==> ms[k].role != Tool
    ensures Paired(ms[..k]) && Paired(ms[k..])
    decreases k, 0
  {
    var rest := ms[n..];
    assert k < |ms| ==> rest[k - n] == ms[k];
    PairedCut(rest, k - n);
    assert rest[k - n..] == ms[k..] && rest[..k - n] == ms[n..k];
    PairedPrefix(ms, k, n);
  }

  lemma {:induction false} PairedPrefix(ms: seq<Message>, k: nat, n: nat)
    requires ms != [] && n == UnitLength(ms) <= k <= |ms|
    requires Paired(ms) && Paired(ms[n..k])
    ensures Paired(ms[..k])
  {
    var pre := ms[..k];
    assert pre[n..] == ms[n..k] && pre[1..n] == ms[1..n] && pre[0] == ms[0];
    PairedUnit(pre, n);
  }

  /** A leading unit followed by a paired history is paired. */
  lemma {:induction false} PairedUnit(ms: seq<Message>, n: nat)
    requires ms != [] && n == UnitLength(ms) <= |ms| && ms[0].role != Tool
    requires ms[0].role == Assistant ==> AnswersAll(ms[1..n], CallIds(ms[0].content))
    requires Paired(ms[n..])
    ensures Paired(ms)
  {
  }
}
