/** The seven stage handlers of the support workflow. Each updates the
    shared `SupportTicketState` in place and appends one audit-log entry.

    The shared language-model client and retrieval system are either
    available or not (their construction may have failed at start-up). The
    model's answers are functions of the request the handler builds. An
    unexpected exception inside a handler is the `fault` flag: it is raised
    after the handler has read the state and before it has changed it, and
    the handler's `except` branch runs instead. `now` is the clock reading
    the handler takes. */
module Nodes {
  import opened Py
  import opened Text
  import opened State
  import GeminiClient
  import IntelligentResponse
  import RagSystem
  import Utils
  import Sorting

  /** What the response generator is given. */
  datatype GenerationRequest = GenerationRequest(
    subject: string, description: string, category: string,
    context: seq<ContextDocument>,
    profile: IntelligentResponse.UserProfile,
    analysis: IntelligentResponse.ContextAnalysis,
    complexity: IntelligentResponse.Complexity,
    previousFeedback: Option<string>)

  /** What the reviewer is given. */
  datatype ReviewRequest = ReviewRequest(
    subject: string, description: string, response: string, context: seq<ContextDocument>)

  /** The language-model service: the reply each kind of request gets. */
  datatype Gemini = Gemini(
    classify: (string, string) -> GeminiClient.ApiCall,
    generate: GenerationRequest -> GeminiClient.ApiCall,
    review: ReviewRequest -> GeminiClient.ApiCall)

  /** The shared components, each `None` when it failed to initialise. */
  datatype Components = Components(gemini: Option<Gemini>, rag: Option<RagSystem.Retriever>)

  // ---------------------------------------------------------------------
  // Fallbacks
  // ---------------------------------------------------------------------

  const BillingWords: seq<string> := ["bill", "payment", "charge", "refund", "price"]
  const TechnicalWords: seq<string> := ["api", "error", "bug", "technical", "integration"]
  const SecurityWords: seq<string> := ["security", "password", "login", "access", "authentication"]

  /** `_fallback_classify`: the first keyword group, in the order Billing,
      Technical, Security, with a word in the lower-cased ticket text. */
  function FallbackClassify(subject: string, description: string): (category: string)
    ensures category in Categories
    ensures var text := Lower(subject + " " + description);
            (category == "Billing" <==> IntelligentResponse.AnyPresent(BillingWords, text)) &&
            (category == "Technical" <==>
               !IntelligentResponse.AnyPresent(BillingWords, text) &&
               IntelligentResponse.AnyPresent(TechnicalWords, text)) &&
            (category == "Security" <==>
               !IntelligentResponse.AnyPresent(BillingWords, text) &&
               !IntelligentResponse.AnyPresent(TechnicalWords, text) &&
               IntelligentResponse.AnyPresent(SecurityWords, text))
  {
    var text := Lower(subject + " " + description);
    if IntelligentResponse.AnyPresent(BillingWords, text) then "Billing"
    else if IntelligentResponse.AnyPresent(TechnicalWords, text) then "Technical"
    else if IntelligentResponse.AnyPresent(SecurityWords, text) then "Security"
    else "General"
  }

  /** A word of the list that occurs in the text makes `any(...)` true. */
  lemma {:induction false} AnyPresentAt(words: seq<string>, text: string, k: nat)
    requires k < |words| && Contains(text, words[k])
    ensures IntelligentResponse.AnyPresent(words, text)
  {
    if k > 0 {
      AnyPresentAt(words[1..], text, k - 1);
    }
  }

  /** A billing word in the subject alone classifies the ticket as Billing,
      whatever the description says. */
  lemma BillingWordInSubject(subject: string, description: string, k: nat)
    requires k < |BillingWords| && Contains(Lower(subject), BillingWords[k])
    ensures FallbackClassify(subject, description) == "Billing"
  {
    LowerConcat(subject, " " + description);
    assert subject + " " + description == subject + (" " + description);
    ContainsInConcat(Lower(subject), Lower(" " + description), BillingWords[k]);
    AnyPresentAt(BillingWords, Lower(subject + " " + description), k);
  }

  /** A ticket without any keyword of the three groups is General. */
  lemma NoKeywordIsGeneral(subject: string, description: string)
    requires var text := Lower(subject + " " + description);
             forall w :: w in BillingWords + TechnicalWords + SecurityWords ==> !Contains(text, w)
    ensures FallbackClassify(subject, description) == "General"
  {
    var text := Lower(subject + " " + description);
    NoneFound(BillingWords, text, BillingWords + TechnicalWords + SecurityWords);
    NoneFound(TechnicalWords, text, BillingWords + TechnicalWords + SecurityWords);
    NoneFound(SecurityWords, text, BillingWords + TechnicalWords + SecurityWords);
  }

  lemma {:induction false} NoneFound(words: seq<string>, text: string, all: seq<string>)
    requires forall w :: w in words ==> w in all
    requires forall w :: w in all ==> !Contains(text, w)
    ensures !IntelligentResponse.AnyPresent(words, text)
  {
    if words != [] {
      assert words[0] in words;
      assert forall w :: w in words[1..] ==> w in words;
      NoneFound(words[1..], text, all);
    }
  }

  const FallbackOpening: string := "Thank you for contacting our "
  const FallbackRegarding: string := " support team.\n\nWe have received your inquiry regarding: "
  const FallbackBody: string :=
    "\n\nOur team is currently reviewing your request and will provide a detailed response within our standard response time. \n\n" +
    "If this is an urgent matter, please contact our priority support line.\n\nBest regards,\nSupport Team"

  /** `_fallback_response`: a fixed acknowledgement naming the lower-cased
      category and quoting the subject. */
  function FallbackResponse(subject: string, category: string): (text: string)
    ensures FallbackOpening + Lower(category) <= text
    ensures Contains(text, subject)
    ensures |text| == |FallbackOpening| + |category| + |FallbackRegarding| + |subject| + |FallbackBody|
  {
    var lead := FallbackOpening + Lower(category);
    var quoted := FallbackRegarding + subject;
    ContainsAt(subject, subject, 0);
    ContainsInConcat(FallbackRegarding, subject, subject);
    ContainsInConcat(quoted, FallbackBody, subject);
    ContainsInConcat(lead, quoted + FallbackBody, subject);
    lead + (quoted + FallbackBody)
  }

  const ApologyOpening: string :=
    "I apologize, but I'm experiencing technical difficulties. Please contact our support team directly for assistance with your "

  /** The draft written when generation raises. */
  function Apology(category: string): (text: string)
    ensures ApologyOpening + Lower(category) <= text
    ensures text[|ApologyOpening| + |category|..] == " inquiry."
    ensures |text| == |ApologyOpening| + |category| + |" inquiry."|
  {
    var text := ApologyOpening + Lower(category) + " inquiry.";
    assert text == ApologyOpening + (Lower(category) + " inquiry.");
    text
  }

  // ---------------------------------------------------------------------
  // What each handler computes
  // ---------------------------------------------------------------------

  /** The category the classification stage records. */
  function Classification(c: Components, t: TicketInfo, fault: bool): (category: string)
    ensures category in Categories
    ensures fault ==> category == "General"
    ensures !fault && c.gemini.None? ==> category == FallbackClassify(t.subject, t.description)
    ensures !fault && c.gemini.Some? ==>
              category == GeminiClient.ClassifyTicket(c.gemini.value.classify(t.subject, t.description))
  {
    if fault then "General"
    else match c.gemini
      case Some(g) => GeminiClient.ClassifyTicket(g.classify(t.subject, t.description))
      case None => FallbackClassify(t.subject, t.description)
  }

  /** The feedback handed to the generator: that of the latest review, and
      only when that review rejected the draft. */
  function PreviousFeedback(history: seq<ReviewFeedback>): (feedback: Option<string>)
    ensures feedback.Some? <==> history != [] && history[|history| - 1].status == Rejected
    ensures feedback.Some? ==> feedback.value == history[|history| - 1].feedback
  {
    if history != [] && history[|history| - 1].status == Rejected then Some(history[|history| - 1].feedback)
    else None
  }

  /** The generator's request for a ticket in its current state. */
  function RequestFor(t: TicketInfo, category: string, context: seq<ContextDocument>,
                      history: seq<ReviewFeedback>): (req: GenerationRequest)
    ensures req.previousFeedback == PreviousFeedback(history)
    ensures req.subject == t.subject && req.description == t.description
    ensures req.category == category && req.context == context
  {
    GenerationRequest(t.subject, t.description, category, context,
                      IntelligentResponse.AnalyzeUserProfile(t),
                      IntelligentResponse.ContextRelevance(context),
                      IntelligentResponse.AssessIssueComplexity(t, category),
                      PreviousFeedback(history))
  }

  /** The draft written from the generator's reply: the reply (or the
      fallback text when the call failed) wrapped with the confidence line
      and the personalised closing. */
  function ClientDraft(g: Gemini, req: GenerationRequest): (draft: string)
    ensures draft != []
    ensures Contains(draft, GeminiClient.GenerateIntelligentResponse(g.generate(req), req.profile,
                                                                     req.subject, req.description))
  {
    var reply := GeminiClient.GenerateIntelligentResponse(g.generate(req), req.profile, req.subject, req.description);
    IntelligentResponse.EnhanceResponseWithContext(reply, req.profile, req.analysis)
  }

  /** The draft the generation stage appends. */
  function GeneratedDraft(c: Components, t: TicketInfo, category: string, context: seq<ContextDocument>,
                          history: seq<ReviewFeedback>, fault: bool): (draft: string)
    ensures draft != []
    ensures fault ==> draft == Apology(category)
    ensures !fault && c.gemini.None? ==> draft == FallbackResponse(t.subject, category)
    ensures !fault && c.gemini.Some? ==> draft == ClientDraft(c.gemini.value, RequestFor(t, category, context, history))
  {
    if fault then Apology(category)
    else match c.gemini
      case None => FallbackResponse(t.subject, category)
      case Some(g) => ClientDraft(g, RequestFor(t, category, context, history))
  }

  const AutomatedReview: string := "Automated review completed"

  /** The verdict the review stage records. */
  function ReviewOutcome(c: Components, t: TicketInfo, draft: Option<string>, context: seq<ContextDocument>,
                         fault: bool): (r: GeminiClient.ReviewResult)
    ensures fault ==> r == GeminiClient.ReviewResult(Approved, GeminiClient.UnavailableFeedback)
    ensures !fault && (c.gemini.None? || draft.None? || draft.value == []) ==>
              r == GeminiClient.ReviewResult(Approved, AutomatedReview)
    ensures !fault && c.gemini.Some? && draft.Some? && draft.value != [] ==>
              r == GeminiClient.ReviewResponse(
                     c.gemini.value.review(ReviewRequest(t.subject, t.description, draft.value, context)))
  {
    if fault then GeminiClient.ReviewResult(Approved, GeminiClient.UnavailableFeedback)
    else if c.gemini.Some? && draft.Some? && draft.value != [] then
      GeminiClient.ReviewResponse(c.gemini.value.review(ReviewRequest(t.subject, t.description, draft.value, context)))
    else GeminiClient.ReviewResult(Approved, AutomatedReview)
  }

  /** A draft is rejected only by the reviewer itself: never when there is
      no client, no draft, or an exception, and only on a successful call
      whose reply says `REJECTED` without `APPROVED`. */
  lemma RejectionNeedsReviewer(c: Components, t: TicketInfo, draft: Option<string>,
                               context: seq<ContextDocument>, fault: bool)
    ensures ReviewOutcome(c, t, draft, context, fault).status == Rejected ==>
              !fault && c.gemini.Some? && draft.Some? && draft.value != [] &&
              var call := c.gemini.value.review(ReviewRequest(t.subject, t.description, draft.value, context));
              GeminiClient.Succeeded(call) &&
              Contains(Upper(Strip(call.content)), "REJECTED") &&
              !Contains(Upper(Strip(call.content)), "APPROVED")
  {
    if !fault && c.gemini.Some? && draft.Some? && draft.value != [] {
      GeminiClient.RejectedExactly(c.gemini.value.review(ReviewRequest(t.subject, t.description, draft.value, context)));
    }
  }

  /** `f"{subject} {description} {feedback}"`, where a missing feedback
      renders as `None`. */
  function RefineQuery(t: TicketInfo, feedback: Option<string>): (query: string)
    ensures t.subject + " " + t.description + " " <= query
    ensures feedback.Some? ==> EndsWithText(query, feedback.value)
  {
    var head := t.subject + " " + t.description + " ";
    var query := head + feedback.GetOr("None");
    assert query[..|head|] == head;
    query
  }

  predicate EndsWithText(s: string, suffix: string) {
    |suffix| <= |s| && s[|s| - |suffix|..] == suffix
  }

  /** The context the retrieval stage records. */
  function InitialContext(c: Components, t: TicketInfo, category: string, fault: bool): (docs: seq<ContextDocument>)
    ensures fault || c.rag.None? ==> docs == []
    ensures !fault && c.rag.Some? ==>
              docs == c.rag.value.Retrieved(RagSystem.EnhanceQuery(t.subject, t.description), category, 3, true, 0.1)
  {
    if fault || c.rag.None? then []
    else c.rag.value.Retrieved(RagSystem.EnhanceQuery(t.subject, t.description), category, 3, true, 0.1)
  }

  /** The initial context holds at most three documents, best first. */
  lemma InitialContextBounded(c: Components, t: TicketInfo, category: string, fault: bool)
    ensures |InitialContext(c, t, category, fault)| <= 3
    ensures Sorting.SortedDesc(InitialContext(c, t, category, fault), RagSystem.Score)
  {
    if !fault && c.rag.Some? {
      RagSystem.RetrievedFacts(c.rag.value, RagSystem.EnhanceQuery(t.subject, t.description), category, 3, true, 0.1);
    }
  }

  /** The context the refinement stage records: a wider search on success,
      the old context otherwise. */
  function RefinedContext(c: Components, t: TicketInfo, category: string, feedback: Option<string>,
                          old_: seq<ContextDocument>, fault: bool): (docs: seq<ContextDocument>)
    ensures fault || c.rag.None? ==> docs == old_
    ensures !fault && c.rag.Some? ==>
              docs == c.rag.value.Retrieved(RefineQuery(t, feedback), category, 5, true, 0.05)
  {
    if fault || c.rag.None? then old_
    else c.rag.value.Retrieved(RefineQuery(t, feedback), category, 5, true, 0.05)
  }

  /** A refined search returns at most five documents, each scoring at least
      0.05. */
  lemma RefinedContextBounded(c: Components, t: TicketInfo, category: string, feedback: Option<string>,
                              old_: seq<ContextDocument>, fault: bool)
    requires !fault && c.rag.Some?
    ensures var docs := RefinedContext(c, t, category, feedback, old_, fault);
            |docs| <= 5 && forall d :: d in docs ==> d.relevanceScore >= 0.05
  {
    var rv := c.rag.value;
    RagSystem.RetrievedFacts(rv, RefineQuery(t, feedback), category, 5, true, 0.05);
    forall d | d in rv.Retrieved(RefineQuery(t, feedback), category, 5, true, 0.05)
      ensures d.relevanceScore >= 0.05
    {
      assert RagSystem.Grounded(d, rv.index[d.category], RefineQuery(t, feedback), d.category, rv.similarity, 0.05);
    }
  }

  const EscalationMessage: string :=
    "This ticket has been escalated to our human support team for personalized assistance. " +
    "A support specialist will review your case and provide a detailed response within our " +
    "standard response time. Thank you for your patience."
  const ForwardedMessage: string := "Your ticket has been forwarded to our support team."

  /** The record handed to `save_escalation_log`. */
  function EscalationData(t: TicketInfo, category: string, retries: nat, reviews: seq<ReviewFeedback>,
                          drafts: seq<string>, now: Timestamp): (data: map<string, Value>)
    ensures forall k :: 0 <= k < |Utils.EscalationKeys| ==> Utils.EscalationKeys[k] in data
  {
    map["timestamp" := StrV(now),
        "ticket_subject" := StrV(t.subject),
        "ticket_description" := StrV(t.description),
        "category" := StrV(category),
        "retries" := IntV(retries),
        "review_feedback" := FeedbackListValue(reviews),
        "final_drafts" := StrList(drafts)]
  }

  /** The escalation record of a workflow state always flattens: the saved
      row counts exactly the reviews and drafts, and carries the retry
      count. */
  lemma EscalationRowBuilt(t: TicketInfo, category: string, retries: nat, reviews: seq<ReviewFeedback>,
                           drafts: seq<string>, now: Timestamp)
    ensures var row := Utils.SavedRow(EscalationData(t, category, retries, reviews, drafts, now));
            row.Some? && row.value.reviewCount == |reviews| && row.value.draftCount == |drafts| &&
            row.value.retries == IntV(retries) && row.value.category == StrV(category)
  {
    var data := EscalationData(t, category, retries, reviews, drafts, now);
    assert data["review_feedback"] == FeedbackListValue(reviews);
    assert data["final_drafts"] == StrList(drafts);
  }

  /** The audit-log text of a document count. */
  function Documents(n: nat): string {
    NatToString(n) + " documents"
  }

  // ---------------------------------------------------------------------
  // The handlers
  // ---------------------------------------------------------------------

  /** `classify_ticket_node`. */
  method ClassifyTicketNode(st: SupportTicketState, c: Components, fault: bool, now: Timestamp)
    modifies st`category, st`status, st`nodeExecutionLog
    ensures st.category == Classification(c, st.ticket, fault)
    ensures st.status == Classified
    ensures st.nodeExecutionLog == Some(old(st.LogEntries()) + [LogEntry(now, "classify_ticket",
              if fault then "Error occurred, defaulted to General" else "Classified as " + st.category)])
  {
    if fault {
      st.category := "General";
      st.status := Classified;
      st.LogTransition("classify_ticket", "Error occurred, defaulted to General", now);
      return;
    }
    var category;
    match c.gemini {
      case Some(g) => category := GeminiClient.ClassifyTicket(g.classify(st.ticket.subject, st.ticket.description));
      case None => category := FallbackClassify(st.ticket.subject, st.ticket.description);
    }
    st.category := category;
    st.status := Classified;
    st.LogTransition("classify_ticket", "Classified as " + category, now);
  }

  /** `retrieve_context_node`: the context is replaced, never extended. */
  method RetrieveContextNode(st: SupportTicketState, c: Components, fault: bool, now: Timestamp)
    modifies st`retrievedContext, st`status, st`nodeExecutionLog
    ensures st.retrievedContext == InitialContext(c, st.ticket, st.category, fault)
    ensures st.status == ContextRetrieved
    ensures st.nodeExecutionLog == Some(old(st.LogEntries()) + [LogEntry(now, "retrieve_context",
              if fault then "Error occurred, proceeding without context"
              else "Retrieved " + Documents(|st.retrievedContext|))])
  {
    if fault {
      st.retrievedContext := [];
      st.status := ContextRetrieved;
      st.LogTransition("retrieve_context", "Error occurred, proceeding without context", now);
      return;
    }
    var docs: seq<ContextDocument> := [];
    if c.rag.Some? {
      var query := RagSystem.EnhanceQuery(st.ticket.subject, st.ticket.description);
      docs := RagSystem.RetrieveContext(c.rag.value, query, st.category, 3, true, 0.1);
    }
    st.retrievedContext := docs;
    st.status := ContextRetrieved;
    st.LogTransition("retrieve_context", "Retrieved " + Documents(|docs|), now);
  }

  /** `generate_response_node`: exactly one draft is appended and becomes
      the current draft, on the normal and on the apology path alike. */
  method GenerateResponseNode(st: SupportTicketState, c: Components, fault: bool, now: Timestamp)
    modifies st`drafts, st`currentDraft, st`status, st`nodeExecutionLog
    ensures st.drafts == old(st.drafts) + [old(GeneratedDraft(c, st.ticket, st.category, st.retrievedContext,
                                                              st.reviewFeedback, fault))]
    ensures st.currentDraft == Some(st.drafts[|st.drafts| - 1])
    ensures st.status == ResponseGenerated
    ensures st.nodeExecutionLog == Some(old(st.LogEntries()) + [LogEntry(now, "generate_response",
              if fault then "Error occurred, generated fallback response" else "Response generated successfully")])
  {
    var t, category, context, history := st.ticket, st.category, st.retrievedContext, st.reviewFeedback;
    var draft := ComposeDraft(c, t, category, context, history, fault);
    RecordDraft(st, draft, if fault then "Error occurred, generated fallback response" else "Response generated successfully", now);
  }

  /** The state update of the generation stage. */
  method RecordDraft(st: SupportTicketState, draft: string, action: string, now: Timestamp)
    modifies st`drafts, st`currentDraft, st`status, st`nodeExecutionLog
    ensures st.drafts == old(st.drafts) + [draft]
    ensures st.currentDraft == Some(draft)
    ensures st.status == ResponseGenerated
    ensures st.nodeExecutionLog == Some(old(st.LogEntries()) + [LogEntry(now, "generate_response", action)])
  {
    st.drafts := st.drafts + [draft];
    st.currentDraft := Some(draft);
    st.status := ResponseGenerated;
    st.LogTransition("generate_response", action, now);
  }

  /** The body of the generation stage up to the state update: the
      analyses of the ticket and its context, the generator's request and
      the wrapped reply, or a fallback text. */
  method ComposeDraft(c: Components, t: TicketInfo, category: string, context: seq<ContextDocument>,
                      history: seq<ReviewFeedback>, fault: bool) returns (draft: string)
    ensures draft == GeneratedDraft(c, t, category, context, history, fault)
  {
    if fault {
      return Apology(category);
    }
    match c.gemini {
      case None =>
        draft := FallbackResponse(t.subject, category);
      case Some(g) =>
        var request := BuildRequest(t, category, context, history);
        draft := ClientDraft(g, request);
    }
  }

  /** The generator's request, with the context analysed in one pass. */
  method BuildRequest(t: TicketInfo, category: string, context: seq<ContextDocument>,
                      history: seq<ReviewFeedback>) returns (request: GenerationRequest)
    ensures request == RequestFor(t, category, context, history)
  {
    var previous := PreviousFeedback(history);
    var profile := IntelligentResponse.AnalyzeUserProfile(t);
    var analysis := IntelligentResponse.AnalyzeContextRelevance(context, t);
    var complexity := IntelligentResponse.AssessIssueComplexity(t, category);
    request := GenerationRequest(t.subject, t.description, category, context, profile, analysis, complexity, previous);
  }

  /** `review_response_node`: exactly one review is appended, numbered by
      its position, and the review status and latest feedback mirror it. */
  method ReviewResponseNode(st: SupportTicketState, c: Components, fault: bool, now: Timestamp)
    modifies st`reviewFeedback, st`reviewStatus, st`latestFeedback, st`status, st`nodeExecutionLog
    ensures var r := ReviewOutcome(c, st.ticket, st.currentDraft, st.retrievedContext, fault);
            st.reviewFeedback == old(st.reviewFeedback) +
              [ReviewFeedback(r.status, r.feedback, now, |old(st.reviewFeedback)| + 1)]
    ensures st.reviewStatus == Some(st.reviewFeedback[|st.reviewFeedback| - 1].status)
    ensures st.latestFeedback == Some(st.reviewFeedback[|st.reviewFeedback| - 1].feedback)
    ensures st.status == Reviewed
    ensures st.nodeExecutionLog == Some(old(st.LogEntries()) + [LogEntry(now, "review_response",
              if fault then "Error occurred, defaulted to approved"
              else "Review: " + st.reviewFeedback[|st.reviewFeedback| - 1].status.Name())])
  {
    var result;
    if fault {
      result := GeminiClient.ReviewResult(Approved, GeminiClient.UnavailableFeedback);
    } else if c.gemini.Some? && st.currentDraft.Some? && st.currentDraft.value != [] {
      var request := ReviewRequest(st.ticket.subject, st.ticket.description, st.currentDraft.value, st.retrievedContext);
      result := GeminiClient.ReviewResponse(c.gemini.value.review(request));
    } else {
      result := GeminiClient.ReviewResult(Approved, AutomatedReview);
    }
    var entry := ReviewFeedback(result.status, result.feedback, now, |st.reviewFeedback| + 1);
    st.reviewFeedback := st.reviewFeedback + [entry];
    st.reviewStatus := Some(result.status);
    st.latestFeedback := Some(result.feedback);
    st.status := Reviewed;
    st.LogTransition("review_response",
      if fault then "Error occurred, defaulted to approved" else "Review: " + result.status.Name(), now);
  }

  /** `refine_context_node`: a wider search (five documents, threshold
      0.05) with the latest feedback in the query; drafts, reviews and the
      retry count are untouched. */
  method RefineContextNode(st: SupportTicketState, c: Components, fault: bool, now: Timestamp)
    modifies st`retrievedContext, st`status, st`nodeExecutionLog
    ensures st.retrievedContext ==
              RefinedContext(c, st.ticket, st.category, st.latestFeedback, old(st.retrievedContext), fault)
    ensures st.status == ContextRefined
    ensures st.nodeExecutionLog == Some(old(st.LogEntries()) + [LogEntry(now, "refine_context",
              if fault then "Error occurred, keeping existing context"
              else "Refined to " + Documents(|st.retrievedContext|))])
  {
    if fault {
      st.status := ContextRefined;
      st.LogTransition("refine_context", "Error occurred, keeping existing context", now);
      return;
    }
    var refined := st.retrievedContext;
    if c.rag.Some? {
      refined := RagSystem.RetrieveContext(c.rag.value, RefineQuery(st.ticket, st.latestFeedback),
                                           st.category, 5, true, 0.05);
    }
    st.retrievedContext := refined;
    st.status := ContextRefined;
    st.LogTransition("refine_context", "Refined to " + Documents(|refined|), now);
  }

  /** `escalate_ticket_node`: the ticket always ends escalated with a fixed
      message; the escalation record is saved unless the handler fails
      first, and a failed write does not change the outcome. */
  method EscalateTicketNode(st: SupportTicketState, sink: Utils.EscalationLog, writable: bool,
                            fault: bool, now: Timestamp)
    modifies st`finalOutput, st`escalated, st`status, st`nodeExecutionLog, sink
    ensures st.escalated && st.status == Escalated
    ensures st.finalOutput == Some(if fault then ForwardedMessage else EscalationMessage)
    ensures fault || !writable ==> sink.rows == old(sink.rows)
    ensures !fault && writable ==>
              sink.rows == old(sink.rows) +
                [old(Utils.SavedRow(EscalationData(st.ticket, st.category, st.retries, st.reviewFeedback,
                                                   st.drafts, now))).value]
    ensures st.nodeExecutionLog == Some(old(st.LogEntries()) + [LogEntry(now, "escalate_ticket",
              if fault then "Error occurred during escalation" else "Ticket escalated to human agent")])
  {
    if fault {
      RecordEscalation(st, ForwardedMessage, "Error occurred during escalation", now);
      return;
    }
    var data := EscalationData(st.ticket, st.category, st.retries, st.reviewFeedback, st.drafts, now);
    EscalationRowBuilt(st.ticket, st.category, st.retries, st.reviewFeedback, st.drafts, now);
    var _ := sink.SaveEscalationLog(data, writable);
    RecordEscalation(st, EscalationMessage, "Ticket escalated to human agent", now);
  }

  /** The state update of the escalation stage. */
  method RecordEscalation(st: SupportTicketState, message: string, action: string, now: Timestamp)
    modifies st`finalOutput, st`escalated, st`status, st`nodeExecutionLog
    ensures st.escalated && st.status == Escalated && st.finalOutput == Some(message)
    ensures st.nodeExecutionLog == Some(old(st.LogEntries()) + [LogEntry(now, "escalate_ticket", action)])
  {
    st.finalOutput := Some(message);
    st.escalated := true;
    st.status := Escalated;
    st.LogTransition("escalate_ticket", action, now);
  }

  /** `finalize_response_node`: the current draft becomes the final output
      and the end time is stamped; `escalated` is untouched. */
  method FinalizeResponseNode(st: SupportTicketState, fault: bool, now: Timestamp)
    modifies st`finalOutput, st`status, st`processingEndTime, st`nodeExecutionLog
    ensures st.finalOutput == st.currentDraft
    ensures st.status == Resolved
    ensures st.processingEndTime == Some(now)
    ensures st.nodeExecutionLog == Some(old(st.LogEntries()) + [LogEntry(now, "finalize_response",
              if fault then "Error occurred during finalization" else "Workflow completed successfully")])
  {
    st.finalOutput := st.currentDraft;
    st.status := Resolved;
    st.processingEndTime := Some(now);
    st.LogTransition("finalize_response",
      if fault then "Error occurred during finalization" else "Workflow completed successfully", now);
  }
}
