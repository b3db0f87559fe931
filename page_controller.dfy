/**
 * The page controller (`Home` in frontend/pages/index.tsx): the message list,
 * the loading flag and the current diagram, and how one send updates them.
 * The awaited call to the backend is the `SendOutcome` argument; clock
 * readings (`Date.now()`, `new Date()`) are arguments too.
 */
module PageController {
  import opened Wrappers
  import opened Text
  import opened MermaidFence
  import AiService

  datatype Sender = User | Assistant

  /**
   * A chat turn. `id` and `timestamp` are millisecond clock readings; the
   * page renders the id as the reading's decimal string (the welcome id "0" is 0).
   */
  datatype Message = Message(id: nat, content: string, sender: Sender, timestamp: nat)

  /** How the call to the backend ended: with the `response` field of its answer, or by throwing. */
  datatype SendOutcome = Replied(response: string) | Failed

  const WelcomeText: string :=
    "Hello! I'm your AI diagram assistant. I can help you create and modify diagrams using natural language. Try asking me to create a flowchart, sequence diagram, or any other type of diagram!"
  const ApologyText: string := "Sorry, there was an error processing your request."

  /**
   * Group 1 of the page's own search for a mermaid block in a reply: the body
   * of the block a search reports, not stripped.
   */
  function CaptureMermaid(reply: string): (r: Option<string>)
    ensures r.None? <==> !HasFence(reply)
    ensures forall i, j | IsSearchMatch(reply, i, j) :: r == Some(reply[i + |Opener|..j])
  {
    match FindFence(reply)
    case None => None
    case Some(f) =>
      forall i, j | IsSearchMatch(reply, i, j) ensures i == f.start && j == f.close {
        SearchMatchUnique(reply, i, j, f.start, f.close);
      }
      Some(Body(reply, f))
  }

  /** The current diagram after a reply: the reply's block body if it has one, else the old diagram. */
  function NextDiagram(current: string, reply: string): (d: string)
    ensures !HasFence(reply) ==> d == current
    ensures forall i, j | IsSearchMatch(reply, i, j) :: d == reply[i + |Opener|..j]
  {
    match CaptureMermaid(reply)
    case Some(body) => body
    case None => current
  }

  /** The assistant turn a send appends: the reply's text, or the apology when the call threw. */
  function ReplyMessage(outcome: SendOutcome, now: nat): (m: Message)
    ensures m.sender == Assistant && m.id == now + 1 && m.timestamp == now
    ensures m.content == if outcome.Replied? then outcome.response else ApologyText
  {
    match outcome
    case Replied(response) => Message(now + 1, response, Assistant, now)
    case Failed => Message(now + 1, ApologyText, Assistant, now)
  }

  /**
   * On one and the same text, the page's capture and the backend's extraction
   * find the same block: one succeeds exactly when the other does, and the
   * backend's code is the page's capture, stripped. In the running system the
   * two do not see the same text: the page searches the answer's `response`
   * field (frontend/pages/index.tsx:69), which for a reply with a block is
   * the explanation with the block removed, so for an ordinary one-block
   * reply the page captures nothing.
   */
  lemma CaptureAgreesWithBackend(text: string)
    ensures CaptureMermaid(text).Some? <==> AiService.ExtractMermaidCode(text).Some?
    ensures CaptureMermaid(text).Some? ==>
              AiService.ExtractMermaidCode(text).value.diagramCode == PyStrip(CaptureMermaid(text).value)
  {
    if FindFence(text).Some? {
      var f := FindFence(text).value;
      assert IsSearchMatch(text, f.start, f.close);
    }
  }

  class Home {
    var messages: seq<Message>
    var mermaidCode: string
    var isLoading: bool

    /** The state before any effect has run. */
    constructor ()
      ensures messages == [] && mermaidCode == "" && !isLoading
    {
      messages := [];
      mermaidCode := "";
      isLoading := false;
    }

    /** The mount effect: the list becomes the single welcome message. */
    method ShowWelcome(now: nat)
      modifies this
      ensures messages == [Message(0, WelcomeText, Assistant, now)]
      ensures mermaidCode == old(mermaidCode) && isLoading == old(isLoading)
    {
      messages := [Message(0, WelcomeText, Assistant, now)];
    }

    /** The start of a send: loading is raised, then the user's turn is appended. */
    method BeginSend(content: string, now: nat)
      modifies this
      ensures isLoading
      ensures messages == old(messages) + [Message(now, content, User, now)]
      ensures mermaidCode == old(mermaidCode)
    {
      isLoading := true;
      messages := messages + [Message(now, content, User, now)];
    }

    /** A reply arrived: its turn is appended, and a block in it becomes the current diagram. */
    method ReceiveReply(response: string, now: nat)
      modifies this
      ensures messages == old(messages) + [ReplyMessage(Replied(response), now)]
      ensures mermaidCode == NextDiagram(old(mermaidCode), response)
      ensures isLoading == old(isLoading)
    {
      messages := messages + [Message(now + 1, response, Assistant, now)];
      var capture := CaptureMermaid(response);
      if capture.Some? {
        mermaidCode := capture.value;
      }
    }

    /** The call threw: the apology is appended and nothing else changes. */
    method RecordFailure(now: nat)
      modifies this
      ensures messages == old(messages) + [ReplyMessage(Failed, now)]
      ensures mermaidCode == old(mermaidCode) && isLoading == old(isLoading)
    {
      messages := messages + [Message(now + 1, ApologyText, Assistant, now)];
    }

    /** The `finally` step: loading is cleared. */
    method Settle()
      modifies this
      ensures !isLoading
      ensures messages == old(messages) && mermaidCode == old(mermaidCode)
    {
      isLoading := false;
    }

    /**
     * `handleSendMessage`: the list grows by the user's turn and then exactly
     * one assistant turn, existing turns are kept in place, the diagram
     * changes only to the body of a block in a reply, and loading ends false
     * whatever the outcome.
     */
    method HandleSendMessage(content: string, outcome: SendOutcome, sentAt: nat, repliedAt: nat)
      modifies this
      ensures !isLoading
      ensures messages == old(messages) + [Message(sentAt, content, User, sentAt), ReplyMessage(outcome, repliedAt)]
      ensures mermaidCode == match outcome
                             case Replied(response) => NextDiagram(old(mermaidCode), response)
                             case Failed => old(mermaidCode)
    {
      BeginSend(content, sentAt);
      match outcome {
        case Replied(response) => ReceiveReply(response, repliedAt);
        case Failed => RecordFailure(repliedAt);
      }
      assert isLoading;  // the reply is in the list before loading clears
      Settle();
    }
  }
}
