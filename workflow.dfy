/** The workflow driver: a fresh state record is taken from the entry node
    along the graph's edges, one stage handler per step, until the end. On
    the way from refinement back to generation the retry counter is
    incremented, as the graph's retry helper intends.

    The clock and the exception oracle are indexed by step: the handler of
    step `k` (from 0) reads `clock(k + 1)` and fails when `fault(k)`; the
    initial state is stamped `clock(0)`. */
module Workflow {
  import opened Py
  import opened State
  import opened Graph
  import Nodes
  import Utils

  /** `increment_retry_and_generate`: one more retry, nothing else changes. */
  method IncrementRetry(st: SupportTicketState)
    modifies st`retries
    ensures st.retries == old(st.retries) + 1
  {
    st.retries := st.retries + 1;
  }

  /** Each review entry carries its 1-based position as its attempt number. */
  predicate Numbered(reviews: seq<ReviewFeedback>) {
    forall i :: 0 <= i < |reviews| ==> reviews[i].attempt == i + 1
  }

  /** Every review before the latest rejected its draft. */
  predicate EarlierRejected(reviews: seq<ReviewFeedback>) {
    forall i :: 0 <= i < |reviews| - 1 ==> reviews[i].status == Rejected
  }

  function Last<T>(s: seq<T>): T
    requires s != []
  {
    s[|s| - 1]
  }

  /** What holds of the state whenever control is at `node`. */
  predicate Phase(st: SupportTicketState, node: Node)
    reads st
  {
    st.retries <= MaxRetries && Numbered(st.reviewFeedback) && EarlierRejected(st.reviewFeedback) &&
    match node
    case ClassifyTicket =>
      st.drafts == [] && st.reviewFeedback == [] && st.retries == 0 && !st.escalated
    case RetrieveContext =>
      st.drafts == [] && st.reviewFeedback == [] && st.retries == 0 && !st.escalated
    case GenerateResponse =>
      |st.drafts| == st.retries && |st.reviewFeedback| == st.retries && !st.escalated &&
      (st.reviewFeedback != [] ==> Last(st.reviewFeedback).status == Rejected)
    case ReviewResponse =>
      |st.drafts| == st.retries + 1 && |st.reviewFeedback| == st.retries && !st.escalated &&
      (st.reviewFeedback != [] ==> Last(st.reviewFeedback).status == Rejected) &&
      st.currentDraft == Some(Last(st.drafts))
    case RefineContext =>
      |st.drafts| == st.retries + 1 && |st.reviewFeedback| == st.retries + 1 && !st.escalated &&
      st.retries < MaxRetries && Last(st.reviewFeedback).status == Rejected
    case FinalizeResponse =>
      |st.drafts| == st.retries + 1 && |st.reviewFeedback| == st.retries + 1 && !st.escalated &&
      Last(st.reviewFeedback).status == Approved && st.currentDraft == Some(Last(st.drafts))
    case EscalateTicket =>
      |st.drafts| == st.retries + 1 && |st.reviewFeedback| == st.retries + 1 && !st.escalated &&
      st.retries == MaxRetries && Last(st.reviewFeedback).status == Rejected
    case End =>
      |st.drafts| == st.retries + 1 && |st.reviewFeedback| == st.retries + 1 &&
      Finished(st)
  }

  /** How a run ends: resolved with the last, approved draft as its output,
      or escalated with a fixed message after the last allowed retry was
      rejected. */
  predicate Finished(st: SupportTicketState)
    reads st
    requires st.drafts != [] && st.reviewFeedback != []
  {
    (st.status == Resolved && !st.escalated && Last(st.reviewFeedback).status == Approved &&
     st.finalOutput == Some(Last(st.drafts))) ||
    (st.status == Escalated && st.escalated && st.retries == MaxRetries &&
     Last(st.reviewFeedback).status == Rejected &&
     st.finalOutput in {Some(Nodes.EscalationMessage), Some(Nodes.ForwardedMessage)})
  }

  /** The routing control the state stands for at `node`. */
  function ControlOf(st: SupportTicketState, node: Node): Control
    reads st
  {
    Control(node, st.retries, |st.drafts|)
  }

  lemma PhaseWellFormed(st: SupportTicketState, node: Node)
    requires Phase(st, node)
    ensures WellFormed(ControlOf(st, node))
  {
  }

  /** Runs the workflow on a ticket to the end. */
  method RunWorkflow(t: TicketInfo, c: Nodes.Components, sink: Utils.EscalationLog, writable: bool,
                     fault: nat -> bool, clock: nat -> Timestamp) returns (st: SupportTicketState, steps: nat)
    modifies sink
    ensures fresh(st) && st.ticket == t
    ensures st.status == Resolved || st.status == Escalated
    ensures st.escalated <==> st.status == Escalated
    ensures st.retries <= MaxRetries && |st.drafts| == st.retries + 1 && |st.reviewFeedback| == |st.drafts|
    ensures Numbered(st.reviewFeedback) && EarlierRejected(st.reviewFeedback)
    ensures Finished(st)
    ensures st.status == Resolved ==> sink.rows == old(sink.rows)
    ensures |old(sink.rows)| <= |sink.rows| <= |old(sink.rows)| + 1
    ensures steps <= 11 && st.nodeExecutionLog.Some? && |st.LogEntries()| == steps
  {
    st := new SupportTicketState(t, clock(0));
    var node := EntryPoint;
    steps := 0;
    while node != End
      invariant fresh(st) && st.ticket == t
      invariant Phase(st, node)
      invariant WellFormed(ControlOf(st, node))
      invariant steps + Remaining(ControlOf(st, node)) <= 11
      invariant st.nodeExecutionLog.Some? && |st.LogEntries()| == steps
      invariant node != End ==> sink.rows == old(sink.rows)
      invariant node == End ==> (st.status == Resolved ==> sink.rows == old(sink.rows)) &&
                                |old(sink.rows)| <= |sink.rows| <= |old(sink.rows)| + 1
      decreases Remaining(ControlOf(st, node))
    {
      ghost var before := ControlOf(st, node);
      node := Advance(st, node, c, sink, writable, fault(steps), clock(steps + 1));
      StepProgress(before, VerdictsOf(st.reviewFeedback));
      PhaseWellFormed(st, node);
      steps := steps + 1;
    }
  }

  /** The reviews' verdicts by position, for relating a run to the routing
      control (positions not yet reviewed read as approved). */
  function VerdictsOf(reviews: seq<ReviewFeedback>): nat -> Verdict {
    (k: nat) => if k < |reviews| then reviews[k].status else Approved
  }

  /** After one step from a control `before`, the state is in the phase of
      `next` and stands for the control the graph steps to. */
  predicate Stepped(st: SupportTicketState, before: Control, next: Node)
    reads st
  {
    Phase(st, next) && WellFormed(before) &&
    ControlOf(st, next) == Step(before, VerdictsOf(st.reviewFeedback), true)
  }

  /** One step: the handler of `node`, then the edge out of it. */
  method Advance(st: SupportTicketState, node: Node, c: Nodes.Components, sink: Utils.EscalationLog,
                 writable: bool, fault: bool, now: Timestamp) returns (next: Node)
    requires node != End && Phase(st, node) && st.nodeExecutionLog.Some?
    modifies st, sink
    ensures Stepped(st, old(ControlOf(st, node)), next)
    ensures st.nodeExecutionLog.Some? && |st.LogEntries()| == |old(st.LogEntries())| + 1
    ensures next != End ==> sink.rows == old(sink.rows)
    ensures next == End ==> (st.status == Resolved ==> sink.rows == old(sink.rows)) &&
                            |old(sink.rows)| <= |sink.rows| <= |old(sink.rows)| + 1
  {
    match node {
      case ClassifyTicket => next := ClassifyStep(st, c, fault, now);
      case RetrieveContext => next := RetrieveStep(st, c, fault, now);
      case GenerateResponse => next := GenerateStep(st, c, fault, now);
      case ReviewResponse => next := ReviewStep(st, c, fault, now);
      case RefineContext => next := RefineStep(st, c, fault, now);
      case EscalateTicket => next := EscalateStep(st, sink, writable, fault, now);
      case FinalizeResponse => next := FinalizeStep(st, fault, now);
    }
  }

  method ClassifyStep(st: SupportTicketState, c: Nodes.Components, fault: bool, now: Timestamp)
    returns (next: Node)
    requires Phase(st, ClassifyTicket) && st.nodeExecutionLog.Some?
    modifies st`category, st`status, st`nodeExecutionLog
    ensures next == RetrieveContext && Stepped(st, old(ControlOf(st, ClassifyTicket)), next)
    ensures st.nodeExecutionLog.Some? && |st.LogEntries()| == |old(st.LogEntries())| + 1
  {
    Nodes.ClassifyTicketNode(st, c, fault, now);
    next := RetrieveContext;
  }

  method RetrieveStep(st: SupportTicketState, c: Nodes.Components, fault: bool, now: Timestamp)
    returns (next: Node)
    requires Phase(st, RetrieveContext) && st.nodeExecutionLog.Some?
    modifies st`retrievedContext, st`status, st`nodeExecutionLog
    ensures next == GenerateResponse && Stepped(st, old(ControlOf(st, RetrieveContext)), next)
    ensures st.nodeExecutionLog.Some? && |st.LogEntries()| == |old(st.LogEntries())| + 1
  {
    Nodes.RetrieveContextNode(st, c, fault, now);
    next := GenerateResponse;
  }

  method GenerateStep(st: SupportTicketState, c: Nodes.Components, fault: bool, now: Timestamp)
    returns (next: Node)
    requires Phase(st, GenerateResponse) && st.nodeExecutionLog.Some?
    modifies st`drafts, st`currentDraft, st`status, st`nodeExecutionLog
    ensures next == ReviewResponse && Stepped(st, old(ControlOf(st, GenerateResponse)), next)
    ensures st.nodeExecutionLog.Some? && |st.LogEntries()| == |old(st.LogEntries())| + 1
  {
    GenerateDraft(st, c, fault, now);
    next := ReviewResponse;
  }

  /** The generation handler, seen only through the shape of its update: one
      draft more, which becomes the current one. */
  method GenerateDraft(st: SupportTicketState, c: Nodes.Components, fault: bool, now: Timestamp)
    modifies st`drafts, st`currentDraft, st`status, st`nodeExecutionLog
    ensures |st.drafts| == |old(st.drafts)| + 1 && st.currentDraft == Some(Last(st.drafts))
    ensures st.nodeExecutionLog.Some? && |st.LogEntries()| == |old(st.LogEntries())| + 1
  {
    Nodes.GenerateResponseNode(st, c, fault, now);
  }

  /** After review the router decides; a new review entry is numbered after
      the earlier ones. */
  method ReviewStep(st: SupportTicketState, c: Nodes.Components, fault: bool, now: Timestamp)
    returns (next: Node)
    requires Phase(st, ReviewResponse) && st.nodeExecutionLog.Some?
    modifies st`reviewFeedback, st`reviewStatus, st`latestFeedback, st`status, st`nodeExecutionLog
    ensures next == ReviewRouting(st.reviewStatus, st.retries)
    ensures Stepped(st, old(ControlOf(st, ReviewResponse)), next)
    ensures st.nodeExecutionLog.Some? && |st.LogEntries()| == |old(st.LogEntries())| + 1
  {
    ReviewDraft(st, c, fault, now);
    next := ReviewRouting(st.reviewStatus, st.retries);
  }

  /** The review handler, seen only through the shape of its update: one
      review more, numbered after the earlier ones, whose verdict is the
      review status. */
  method ReviewDraft(st: SupportTicketState, c: Nodes.Components, fault: bool, now: Timestamp)
    modifies st`reviewFeedback, st`reviewStatus, st`latestFeedback, st`status, st`nodeExecutionLog
    ensures |st.reviewFeedback| == |old(st.reviewFeedback)| + 1
    ensures st.reviewFeedback[..|old(st.reviewFeedback)|] == old(st.reviewFeedback)
    ensures Last(st.reviewFeedback).attempt == |st.reviewFeedback|
    ensures st.reviewStatus == Some(Last(st.reviewFeedback).status)
    ensures st.nodeExecutionLog.Some? && |st.LogEntries()| == |old(st.LogEntries())| + 1
  {
    Nodes.ReviewResponseNode(st, c, fault, now);
  }

  /** Refinement, then the retry increment on the edge back to generation. */
  method RefineStep(st: SupportTicketState, c: Nodes.Components, fault: bool, now: Timestamp)
    returns (next: Node)
    requires Phase(st, RefineContext) && st.nodeExecutionLog.Some?
    modifies st`retrievedContext, st`status, st`nodeExecutionLog, st`retries
    ensures next == GenerateResponse && Stepped(st, old(ControlOf(st, RefineContext)), next)
    ensures st.nodeExecutionLog.Some? && |st.LogEntries()| == |old(st.LogEntries())| + 1
  {
    Nodes.RefineContextNode(st, c, fault, now);
    IncrementRetry(st);
    next := GenerateResponse;
  }

  method EscalateStep(st: SupportTicketState, sink: Utils.EscalationLog, writable: bool, fault: bool,
                      now: Timestamp) returns (next: Node)
    requires Phase(st, EscalateTicket) && st.nodeExecutionLog.Some?
    modifies st`finalOutput, st`escalated, st`status, st`nodeExecutionLog, sink
    ensures next == End && Stepped(st, old(ControlOf(st, EscalateTicket)), next)
    ensures st.nodeExecutionLog.Some? && |st.LogEntries()| == |old(st.LogEntries())| + 1
    ensures |old(sink.rows)| <= |sink.rows| <= |old(sink.rows)| + 1
  {
    Nodes.EscalateTicketNode(st, sink, writable, fault, now);
    next := End;
  }

  method FinalizeStep(st: SupportTicketState, fault: bool, now: Timestamp) returns (next: Node)
    requires Phase(st, FinalizeResponse) && st.nodeExecutionLog.Some?
    modifies st`finalOutput, st`status, st`processingEndTime, st`nodeExecutionLog
    ensures next == End && Stepped(st, old(ControlOf(st, FinalizeResponse)), next)
    ensures st.nodeExecutionLog.Some? && |st.LogEntries()| == |old(st.LogEntries())| + 1
  {
    Nodes.FinalizeResponseNode(st, fault, now);
    next := End;
  }
}
