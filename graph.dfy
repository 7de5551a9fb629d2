/** The workflow graph: seven stage nodes and the end marker, the
    unconditional edges, the conditional branch after review, and the retry
    increment on the way from refinement back to generation.

    `Control` abstracts a run to the part of the state routing depends on:
    the current node, the retry count and the number of drafts generated.
    The reviewer's verdict for the k-th review is `verdicts(k)`. */
module Graph {
  import opened Py
  import opened State

  datatype Node =
    | ClassifyTicket | RetrieveContext | GenerateResponse | ReviewResponse
    | RefineContext | EscalateTicket | FinalizeResponse | End
  {
    /** The node's registered name. */
    function Name(): string {
      match this
      case ClassifyTicket => "classify_ticket"
      case RetrieveContext => "retrieve_context"
      case GenerateResponse => "generate_response"
      case ReviewResponse => "review_response"
      case RefineContext => "refine_context"
      case EscalateTicket => "escalate_ticket"
      case FinalizeResponse => "finalize_response"
      case End => "__end__"
    }
  }

  /** Reviews may fail this many times before a ticket is escalated. */
  const MaxRetries: nat := 2

  const EntryPoint: Node := ClassifyTicket
  const TerminalNodes: set<Node> := {FinalizeResponse, EscalateTicket}

  /** `review_routing`: an approved review finalises whatever the retry
      count; any other status (rejected or no review at all) refines while
      fewer than two retries were made and escalates after that. */
  function ReviewRouting(reviewStatus: Option<Verdict>, retries: nat): (next: Node)
    ensures next == FinalizeResponse <==> reviewStatus == Some(Approved)
    ensures next == RefineContext <==> reviewStatus != Some(Approved) && retries < MaxRetries
    ensures next == EscalateTicket <==> reviewStatus != Some(Approved) && retries >= MaxRetries
  {
    if reviewStatus == Some(Approved) then FinalizeResponse
    else if retries < MaxRetries then RefineContext
    else EscalateTicket
  }

  /** The node after `n`: the fixed edges, and the router after review. */
  function Successor(n: Node, reviewStatus: Option<Verdict>, retries: nat): (next: Node)
    ensures n == ReviewResponse ==> next == ReviewRouting(reviewStatus, retries)
    ensures next == End <==> n in TerminalNodes || n == End
    ensures next != EntryPoint
  {
    match n
    case ClassifyTicket => RetrieveContext
    case RetrieveContext => GenerateResponse
    case GenerateResponse => ReviewResponse
    case ReviewResponse => ReviewRouting(reviewStatus, retries)
    case RefineContext => GenerateResponse
    case FinalizeResponse => End
    case EscalateTicket => End
    case End => End
  }

  /** Every edge but the one out of review is unconditional. */
  lemma EdgesUnconditional(n: Node, s1: Option<Verdict>, r1: nat, s2: Option<Verdict>, r2: nat)
    requires n != ReviewResponse
    ensures Successor(n, s1, r1) == Successor(n, s2, r2)
  {
  }

  /** Every stage node is reached from the entry point along the edges:
      the review's three outcomes included. */
  lemma EveryStageReachable()
    ensures Successor(ClassifyTicket, None, 0) == RetrieveContext
    ensures Successor(RetrieveContext, None, 0) == GenerateResponse
    ensures Successor(GenerateResponse, None, 0) == ReviewResponse
    ensures Successor(ReviewResponse, Some(Approved), 0) == FinalizeResponse
    ensures Successor(ReviewResponse, Some(Rejected), 0) == RefineContext
    ensures Successor(ReviewResponse, Some(Rejected), MaxRetries) == EscalateTicket
    ensures Successor(RefineContext, None, 0) == GenerateResponse
  {
  }

  // ---------------------------------------------------------------------
  // Runs
  // ---------------------------------------------------------------------

  datatype Control = Control(node: Node, retries: nat, generations: nat)

  const Start: Control := Control(EntryPoint, 0, 0)

  /** One step. `incrementOnRefine` says whether the refinement→generation
      edge goes through the retry increment. */
  function Step(c: Control, verdicts: nat -> Verdict, incrementOnRefine: bool): (d: Control)
    ensures c.node == RefineContext ==>
              d == Control(GenerateResponse, if incrementOnRefine then c.retries + 1 else c.retries, c.generations)
    ensures c.node == GenerateResponse ==> d == Control(ReviewResponse, c.retries, c.generations + 1)
    ensures c.node == ReviewResponse && c.generations > 0 ==>
              d == Control(ReviewRouting(Some(verdicts(c.generations - 1)), c.retries), c.retries, c.generations)
    ensures c.node !in {RefineContext, GenerateResponse, ReviewResponse} ==>
              d == Control(Successor(c.node, None, 0), c.retries, c.generations)
  {
    match c.node
    case RefineContext =>
      Control(GenerateResponse, if incrementOnRefine then c.retries + 1 else c.retries, c.generations)
    case GenerateResponse => Control(ReviewResponse, c.retries, c.generations + 1)
    case ReviewResponse =>
      var status := if c.generations > 0 then Some(verdicts(c.generations - 1)) else None;
      Control(ReviewRouting(status, c.retries), c.retries, c.generations)
    case _ => Control(Successor(c.node, None, 0), c.retries, c.generations)
  }

  /** The control after `n` steps. */
  function Run(c: Control, n: nat, verdicts: nat -> Verdict, incrementOnRefine: bool): Control
    decreases n
  {
    if n == 0 then c else Run(Step(c, verdicts, incrementOnRefine), n - 1, verdicts, incrementOnRefine)
  }

  /** The controls a run from `Start` can be in when every review rejects
      and the increment is missing: never past review, never a retry. */
  predicate StuckLoop(c: Control) {
    c.retries == 0 && c.node in {ClassifyTicket, RetrieveContext, GenerateResponse, ReviewResponse, RefineContext} &&
    (c.node == ReviewResponse ==> c.generations > 0)
  }

  /** As registered, the refinement edge skips the increment: when every
      review rejects, the run never reaches the end, the retry count stays 0
      and drafts keep being generated. */
  lemma {:induction false} AsWrittenNeverEnds(n: nat)
    ensures var c := Run(Start, n, _ => Rejected, false);
            c.node != End && c.retries == 0 && StuckLoop(c)
  {
    StuckLoopForever(Start, n);
  }

  lemma {:induction false} StuckLoopForever(c: Control, n: nat)
    requires StuckLoop(c)
    ensures StuckLoop(Run(c, n, _ => Rejected, false))
    decreases n
  {
    if n > 0 {
      StuckLoopForever(Step(c, _ => Rejected, false), n - 1);
    }
  }

  /** In the as-registered graph the loop generates without bound: after
      `3 k + 3` steps from the start, `k + 1` drafts exist. */
  lemma {:induction false} AsWrittenGeneratesUnboundedly(k: nat)
    ensures Run(Start, 3 * k + 3, _ => Rejected, false) == Control(ReviewResponse, 0, k + 1)
  {
    if k == 0 {
      assert Run(Start, 3, _ => Rejected, false) == Control(ReviewResponse, 0, 1);
    } else {
      AsWrittenGeneratesUnboundedly(k - 1);
      RunSplit(Start, 3 * k, 3, _ => Rejected, false);
      assert Run(Control(ReviewResponse, 0, k), 3, _ => Rejected, false) == Control(ReviewResponse, 0, k + 1);
    }
  }

  lemma {:induction false} RunSplit(c: Control, m: nat, n: nat, verdicts: nat -> Verdict, inc: bool)
    ensures Run(c, m + n, verdicts, inc) == Run(Run(c, m, verdicts, inc), n, verdicts, inc)
    decreases m
  {
    if m > 0 {
      RunSplit(Step(c, verdicts, inc), m - 1, n, verdicts, inc);
    }
  }

  /** What holds of every control reached with the increment applied. */
  predicate WellFormed(c: Control) {
    c.retries <= MaxRetries &&
    (c.node in {ClassifyTicket, RetrieveContext} ==> c.retries == 0 && c.generations == 0) &&
    (c.node == GenerateResponse ==> c.generations == c.retries) &&
    (c.node !in {ClassifyTicket, RetrieveContext, GenerateResponse} ==> c.generations == c.retries + 1) &&
    (c.node == RefineContext ==> c.retries < MaxRetries)
  }

  /** Steps still to take before the end, at most. */
  function Remaining(c: Control): nat
    requires WellFormed(c)
  {
    var round := 3 * (MaxRetries - c.retries);
    match c.node
    case ClassifyTicket => 11
    case RetrieveContext => 10
    case GenerateResponse => round + 3
    case ReviewResponse => round + 2
    case RefineContext => round + 1
    case FinalizeResponse => 1
    case EscalateTicket => 1
    case End => 0
  }

  /** A step keeps a well-formed control well-formed and, until the end,
      brings it one step closer. */
  lemma StepProgress(c: Control, verdicts: nat -> Verdict)
    requires WellFormed(c)
    ensures WellFormed(Step(c, verdicts, true))
    ensures c.node != End ==> Remaining(Step(c, verdicts, true)) < Remaining(c)
    ensures c.node == End ==> Step(c, verdicts, true) == c
  {
    var d := Step(c, verdicts, true);
    match c.node {
      case ReviewResponse =>
        assert d.node in {FinalizeResponse, RefineContext, EscalateTicket};
      case RefineContext =>
        assert d == Control(GenerateResponse, c.retries + 1, c.generations);
      case _ =>
    }
  }

  /** With the increment applied, every run ends within eleven steps, after
      at most three generations and two retries, whatever the reviews say. */
  lemma {:induction false} IntendedRunEnds(verdicts: nat -> Verdict)
    ensures var c := Run(Start, 11, verdicts, true);
            c.node == End && c.retries <= MaxRetries && c.generations == c.retries + 1 && c.generations <= 3
  {
    RunToEnd(Start, 11, verdicts);
  }

  lemma {:induction false} RunToEnd(c: Control, n: nat, verdicts: nat -> Verdict)
    requires WellFormed(c) && Remaining(c) <= n
    ensures WellFormed(Run(c, n, verdicts, true)) && Run(c, n, verdicts, true).node == End
    decreases n
  {
    if n > 0 {
      var d := Step(c, verdicts, true);
      assert Run(c, n, verdicts, true) == Run(d, n - 1, verdicts, true);
      StepProgress(c, verdicts);
      RunToEnd(d, n - 1, verdicts);
    }
  }

  /** With the increment applied, three rejections in a row escalate after
      exactly two retries, and the run ends within eleven steps. */
  lemma AllRejectedEscalates()
    ensures Run(Start, 10, _ => Rejected, true) == Control(EscalateTicket, 2, 3)
    ensures Run(Start, 11, _ => Rejected, true) == Control(End, 2, 3)
  {
    assert Run(Start, 10, _ => Rejected, true) == Control(EscalateTicket, 2, 3);
  }
}
