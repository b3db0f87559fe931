/**
 * The deterministic part of the backend's `DiagramAgent`: pulling a mermaid
 * block out of the agent's reply (`_extract_mermaid_code`) and shaping the
 * `/chat` answer from the agent's output or from the error it raised
 * (`chat`). The agent itself is not modelled: its output text, or the text of
 * the exception it raised, is the input.
 */
module AiService {
  import opened Wrappers
  import opened Text
  import opened MermaidFence

  /** The six values `diagram_type` can take. */
  datatype DiagramKind = Flowchart | Sequence | Class | Er | Gantt | Pie

  /** The string the backend sends as `diagram_type`. */
  function KindName(k: DiagramKind): string {
    match k
    case Flowchart => "flowchart"
    case Sequence => "sequence"
    case Class => "class"
    case Er => "er"
    case Gantt => "gantt"
    case Pie => "pie"
  }

  /** `DiagramResponse` as extraction builds it: all three fields set. */
  datatype DiagramResponse = DiagramResponse(diagramCode: string, diagramType: DiagramKind, explanation: string)

  /**
   * The kind named by the code's leading keyword. The five keywords start
   * with different letters, so at most one applies and the order of the tests
   * does not matter; code led by any other word is a flowchart.
   */
  function DetectDiagramKind(code: string): (k: DiagramKind)
    ensures k == Sequence <==> StartsWith(code, "sequenceDiagram")
    ensures k == Class <==> StartsWith(code, "classDiagram")
    ensures k == Er <==> StartsWith(code, "erDiagram")
    ensures k == Gantt <==> StartsWith(code, "gantt")
    ensures k == Pie <==> StartsWith(code, "pie")
  {
    LeadingLetter(code, "sequenceDiagram");
    LeadingLetter(code, "classDiagram");
    LeadingLetter(code, "erDiagram");
    LeadingLetter(code, "gantt");
    LeadingLetter(code, "pie");
    if StartsWith(code, "sequenceDiagram") then Sequence
    else if StartsWith(code, "classDiagram") then Class
    else if StartsWith(code, "erDiagram") then Er
    else if StartsWith(code, "gantt") then Gantt
    else if StartsWith(code, "pie") then Pie
    else Flowchart
  }

  /** A text that starts with a word starts with that word's first letter. */
  lemma LeadingLetter(code: string, word: string)
    requires word != []
    ensures StartsWith(code, word) ==> |code| > 0 && code[0] == word[0]
  {
    if StartsWith(code, word) {
      assert code[0] == code[..|word|][0];
    }
  }

  /** The extraction result for the block at `f`. */
  function ResponseAt(text: string, f: Fence): DiagramResponse
    requires IsFencePair(text, f.start, f.close)
  {
    var code := PyStrip(Body(text, f));
    DiagramResponse(code, DetectDiagramKind(code), PyStrip(ReplaceAll(text, Block(text, f))))
  }

  /**
   * `_extract_mermaid_code`: nothing when the text holds no fenced mermaid
   * block; otherwise, for the block a search reports, its body stripped, the
   * kind that body names, and the text with every copy of the block removed,
   * stripped.
   */
  function ExtractMermaidCode(text: string): (r: Option<DiagramResponse>)
    ensures r.None? <==> !HasFence(text)
    ensures forall i, j | IsSearchMatch(text, i, j) :: r == Some(ResponseAt(text, Fence(i, j)))
  {
    match FindFence(text)
    case None => None
    case Some(f) =>
      forall i, j | IsSearchMatch(text, i, j) ensures i == f.start && j == f.close {
        SearchMatchUnique(text, i, j, f.start, f.close);
      }
      Some(ResponseAt(text, f))
  }

  /** Every copy of the block starts with an opener, so none starts before the first opener. */
  lemma BlockOnlyAtOpener(text: string, f: Fence, k: int)
    requires FindFence(text) == Some(f)
    requires OccursAt(text, Block(text, f), k)
    ensures f.start <= k
  {
    var b := Block(text, f);
    assert b[..|Opener|] == Opener;
    assert text[k..k + |Opener|] == text[k..k + |b|][..|Opener|];
    assert OccursAt(text, Opener, k);
    assert IsSearchMatch(text, f.start, f.close);
    assert k < f.start ==> IsFencePair(text, k, f.close);
  }

  /**
   * With a single copy of the block, the explanation is the text in front of
   * the block joined to the text after it, stripped.
   */
  lemma ExplanationJoinsSurroundingText(text: string)
    requires FindFence(text).Some?
    requires var f := FindFence(text).value;
             forall k :: f.close + |Closer| <= k ==> !OccursAt(text, Block(text, f), k)
    ensures var f := FindFence(text).value;
            ExtractMermaidCode(text).value.explanation
              == PyStrip(text[..f.start] + text[f.close + |Closer|..])
  {
    var f := FindFence(text).value;
    var b := Block(text, f);
    var e := f.close + |Closer|;
    forall k | 0 <= k < f.start ensures !OccursAt(text, b, k) {
      if OccursAt(text, b, k) { BlockOnlyAtOpener(text, f, k); }
    }
    RemoveFromKeeps(text, b, 0, f.start);
    RemoveFromSkips(text, b, f.start);
    RemoveFromKeeps(text, b, e, |text|);
    assert ReplaceAll(text, b) == text[..f.start] + text[e..];
    assert IsSearchMatch(text, f.start, f.close);
  }

  /** A reply whose block reappears once its copies are removed (see ExplanationMayRepeatBlock). */
  const RepeatBlock: string := "```mermaid\nx\n```"
  const RepeatText: string := RepeatBlock + "```mermaid\n" + RepeatBlock + "x\n```"

  lemma RepeatTextFence()
    ensures FindFence(RepeatText) == Some(Fence(0, 12))
    ensures Block(RepeatText, Fence(0, 12)) == RepeatBlock
    ensures Body(RepeatText, Fence(0, 12)) == "x"
  {
    var text := RepeatText;
    assert text[..11] == Opener;
    assert OccursAt(text, Opener, 0);
    assert text[11] == 'x';
    assert !OccursAt(text, Closer, 11);
    assert text[12..16] == Closer;
    assert OccursAt(text, Closer, 12);
  }

  lemma RepeatTextLayout()
    ensures |RepeatText| == 48 && |RepeatBlock| == 16
    ensures RepeatText[..16] == RepeatBlock && RepeatText[27..43] == RepeatBlock
    ensures RepeatText[16..27] + RepeatText[43..] == RepeatBlock
  {
    var text, m := RepeatText, RepeatBlock;
    var o, t := "```mermaid\n", "x\n```";
    assert text == m + o + m + t;
    assert text[16..27] == o;
    assert text[43..] == t;
  }

  lemma RepeatTextGap(k: int)
    requires 16 <= k < 27
    ensures !OccursAt(RepeatText, RepeatBlock, k)
  {
    var text, m := RepeatText, RepeatBlock;
    var o, t := "```mermaid\n", "x\n```";
    assert text == m + o + m + t;
    if k == 16 {
      assert text[27] != m[11];
    } else if k == 17 {
      assert text[19] != m[2];
    } else if k == 18 {
      assert text[19] != m[1];
    } else {
      assert text[k] != m[0];
    }
  }

  lemma RepeatTextRemoval()
    ensures ReplaceAll(RepeatText, RepeatBlock) == RepeatBlock
  {
    var text, m := RepeatText, RepeatBlock;
    RepeatTextLayout();
    RemoveFromSkips(text, m, 0);
    forall k | 16 <= k < 27 ensures !OccursAt(text, m, k) {
      RepeatTextGap(k);
    }
    RemoveFromKeeps(text, m, 16, 27);
    RemoveFromSkips(text, m, 27);
  }

  /**
   * Removing every copy of the block does not leave the explanation free of
   * it: deleting the second copy joins the text around it into a new one.
   */
  lemma ExplanationMayRepeatBlock()
    ensures var r := ExtractMermaidCode(RepeatText);
            r.Some? && r.value.diagramCode == "x" && r.value.explanation == RepeatBlock
            && Contains(r.value.explanation, r.value.diagramCode)
            && StartsWith(r.value.explanation, Opener)
  {
    RepeatTextFence();
    RepeatTextRemoval();
    assert IsSearchMatch(RepeatText, 0, 12);
    assert PyStrip("x") == "x";
    assert PyStrip(RepeatBlock) == RepeatBlock;
    assert OccursAt(RepeatBlock, "x", 11);
    assert RepeatBlock[..11] == Opener;
  }

  // ---------------------------------------------------------------------------
  // The /chat answer
  // ---------------------------------------------------------------------------

  datatype Status = Success | Error

  /** The `status` string of the answer. */
  function StatusName(s: Status): string {
    match s
    case Success => "success"
    case Error => "error"
  }

  /** The `diagram` object of a successful answer. */
  datatype Diagram = Diagram(code: string, kind: DiagramKind)

  /** The answer `chat` returns: `diagram` is `None` where the dictionary has no `diagram` key. */
  datatype ChatReply = ChatReply(response: string, diagram: Option<Diagram>, status: Status)

  /** What the agent did: produced output text, or raised an exception with this text. */
  datatype AgentOutcome = Output(text: string) | Raised(message: string)

  const ApiKeyMarker: string := "MISTRAL_API_KEY"
  const RateLimitPhrase: string := "rate limit"
  const ApiKeyMessage: string := "API key configuration error. Please contact support."
  const RetryMessage: string := "Too many requests. Please try again in a moment."

  /**
   * The answer built from the agent's output: with a block, the explanation
   * and the block's code and kind; without, the output as it is.
   */
  function ShapeOutput(output: string): (r: ChatReply)
    ensures r.status == Success
    ensures r.diagram.None? <==> !HasFence(output)
    ensures r.diagram.None? ==> r.response == output
    ensures forall i, j | IsSearchMatch(output, i, j) ::
              var d := ResponseAt(output, Fence(i, j));
              r.diagram == Some(Diagram(d.diagramCode, d.diagramType)) && r.response == d.explanation
  {
    match ExtractMermaidCode(output)
    case Some(d) => ChatReply(d.explanation, Some(Diagram(d.diagramCode, d.diagramType)), Success)
    case None => ChatReply(output, None, Success)
  }

  /**
   * The user-facing text for an exception: a missing-key error wins over a
   * rate-limit error, which is recognised in any letter case; anything else
   * is passed through.
   */
  function ClassifyError(message: string): (r: string)
    ensures Contains(message, ApiKeyMarker) ==> r == ApiKeyMessage
    ensures !Contains(message, ApiKeyMarker) && Contains(AsciiLower(message), RateLimitPhrase) ==>
              r == RetryMessage
    ensures !Contains(message, ApiKeyMarker) && !Contains(AsciiLower(message), RateLimitPhrase) ==>
              r == message
  {
    if Contains(message, ApiKeyMarker) then ApiKeyMessage
    else if Contains(AsciiLower(message), RateLimitPhrase) then RetryMessage
    else message
  }

  /** The answer built from an exception: the classified text behind `Error: `. */
  function ShapeError(message: string): (r: ChatReply)
    ensures r.status == Error && r.diagram.None?
    ensures r.response == "Error: " + ClassifyError(message)
  {
    ChatReply("Error: " + ClassifyError(message), None, Error)
  }

  /** `chat`, given what the agent did. */
  function Chat(outcome: AgentOutcome): (r: ChatReply)
    ensures r.status == Error <==> outcome.Raised?
    ensures r.diagram.Some? ==> outcome.Output? && HasFence(outcome.text)
    ensures outcome.Output? && !HasFence(outcome.text) ==> r.response == outcome.text
    ensures outcome.Raised? ==> StartsWith(r.response, "Error: ")
    ensures outcome.Raised? ==>
              r.response == "Error: " + ClassifyError(outcome.message) && r.diagram.None?
    ensures outcome.Output? ==> r.status == Success && (r.diagram.Some? <==> HasFence(outcome.text))
    ensures outcome.Output? ==>
              forall i, j | IsSearchMatch(outcome.text, i, j) ::
                var d := ResponseAt(outcome.text, Fence(i, j));
                r.diagram == Some(Diagram(d.diagramCode, d.diagramType)) && r.response == d.explanation
  {
    match outcome
    case Output(text) => ShapeOutput(text)
    case Raised(message) =>
      var r := ShapeError(message);
      assert r.response[..7] == "Error: ";
      r
  }

  /** "Rate limit" in any mix of capitals and small letters yields the retry message. */
  lemma RateLimitInAnyCase(message: string, q: string, k: int)
    requires AsciiLower(q) == RateLimitPhrase
    requires OccursAt(message, q, k)
    requires !Contains(message, ApiKeyMarker)
    ensures ClassifyError(message) == RetryMessage
  {
    LowerKeepsOccurrence(message, q, k);
    assert OccursAt(AsciiLower(message), RateLimitPhrase, k);
  }
}
