/**
 The handoff state of one worker and its tool calls (handoff.go): calls admitted and not yet known to have
 succeeded, and the checkpoint that turns their answers into unknown outcomes.
 */
module Handoff {
  import opened Common
  import opened Order
  import opened Replay

  datatype ToolCheckpoint = ToolCheckpoint(name: string, callId: string, arguments: string)

  datatype WorkerHandoff = WorkerHandoff(requested: bool, read: bool, cancelled: bool, inFlight: map<string, ToolCheckpoint>)

  const NO_HANDOFF := WorkerHandoff(false, false, false, map[])

  /** A worker's conversation and its handoff state. */
  datatype Work = Work(handoff: WorkerHandoff, history: seq<Message>)

  const IDLE_WORK := Work(NO_HANDOFF, [])

  /** The locked sections a running worker's model and tool callbacks go through. */
  datatype ToolAction =
    | BeginTool(name: string, callId: string, arguments: string)
    | FinishTool(name: string, callId: string, result: string, failed: bool, problem: string)
    | ReadRequest                          // injectHandoff
    | SetHistory(history: seq<Message>)

  function Recorded(requested: bool, result: string, failed: bool, problem: string): Body {
    if requested && failed then UNKNOWN_OUTCOME else Text(if failed && result == "" then problem else result)
  }

  /** handingOff refuses a tool call; only a call's own success takes it out of inFlight. */
  function Act(handingOff: bool, w: Work, a: ToolAction): Work {
    var h := w.handoff;
    match a
    case BeginTool(name, callId, arguments) =>
      if handingOff then w
      else w.(handoff := h.(inFlight := h.inFlight[callId := ToolCheckpoint(name, callId, arguments)]))
    case FinishTool(name, callId, result, failed, problem) =>
      w.(handoff := if failed then h else h.(inFlight := h.inFlight - {callId}),
         history := w.history + [ToolMessage(Recorded(h.requested, result, failed, problem), callId, name)])
    case ReadRequest => if h.requested then w.(handoff := h.(read := true)) else w
    case SetHistory(history) => w.(history := history)
  }

  lemma ActKeeps(handingOff: bool, w: Work, a: ToolAction)
    ensures Act(handingOff, w, a).handoff.cancelled == w.handoff.cancelled
    ensures Act(handingOff, w, a).handoff.requested == w.handoff.requested
  {
  }

  // ---------- the checkpoint ----------

  function Unconfirmed(w: WorkerHandoff, m: Message): bool { m.role == Tool && w.requested && m.callId in w.inFlight }

  /** The history a checkpoint stores. */
  function Checkpoint(w: Work): (out: seq<Message>)
    ensures |out| == |w.history|
  {
    seq(|w.history|, k requires 0 <= k < |w.history| =>
      if Unconfirmed(w.handoff, w.history[k]) then w.history[k].(content := UNKNOWN_OUTCOME) else w.history[k])
  }

  /**
   What the end of a call leaves, for the next model turn and for a checkpoint taken at once. A call that
   succeeded is confirmed: its own output, word for word, in both. One that failed once the handoff was asked
   for is unknown, whatever it printed. One that failed before keeps its output, or its error if it had none,
   and stays in flight.
   */
  lemma AnswerOfACall(handingOff: bool, w: Work, name: string, callId: string, result: string, failed: bool, problem: string)
    ensures var w', n := Act(handingOff, w, FinishTool(name, callId, result, failed, problem)), |w.history|;
            && |w'.history| == n + 1 && w'.history[..n] == w.history
            && w'.history[n].role == Tool && w'.history[n].callId == callId && w'.history[n].toolName == name && w'.history[n].calls == []
            && (!failed ==> w'.history[n].content == Text(result) && Checkpoint(w')[n] == w'.history[n])
            && (failed && w.handoff.requested ==> w'.history[n].content == UNKNOWN_OUTCOME && Checkpoint(w')[n] == w'.history[n])
            && (failed && !w.handoff.requested && result != "" ==> w'.history[n].content == Text(result))
            && (failed && !w.handoff.requested && result == "" ==> w'.history[n].content == Text(problem))
            && (forall c :: c in w'.handoff.inFlight <==> c in w.handoff.inFlight && (failed || c != callId))
            && (forall c :: c in w'.handoff.inFlight ==> w'.handoff.inFlight[c] == w.handoff.inFlight[c])
            && w'.handoff == w.handoff.(inFlight := w'.handoff.inFlight)
  {
  }

  /** A checkpoint changes nothing of a conversation but what the answers to calls in flight say, once the handoff was asked for. */
  lemma CheckpointChangesOnlyUnconfirmed(w: Work, k: nat)
    requires k < |w.history|
    ensures var m, stored := w.history[k], Checkpoint(w)[k];
            && stored == m.(content := stored.content)
            && stored.content == if m.role == Tool && w.handoff.requested && m.callId in w.handoff.inFlight then UNKNOWN_OUTCOME else m.content
  {
  }

  method CheckpointHistory(w: Work) returns (out: seq<Message>)
    ensures out == Checkpoint(w)
  {
    out := [];
    for k := 0 to |w.history|
      invariant |out| == k && out == Checkpoint(w)[..k]
    {
      var m := w.history[k];
      if m.role == Tool && w.handoff.requested && m.callId in w.handoff.inFlight { m := m.(content := UNKNOWN_OUTCOME); }
      out := out + [m];
    }
  }
}
