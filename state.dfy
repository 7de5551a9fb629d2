/** The workflow state record threaded through every stage of the support
    ticket workflow, its initial value, its validator and the audit log. */
module State {
  import opened Py

  /** Timestamps (`datetime.now().isoformat()`) are opaque strings supplied by a clock. */
  type Timestamp = string

  /** The closed set of ticket categories. */
  const Categories: seq<string> := ["Billing", "Technical", "Security", "General"]

  /** The user's ticket: read-only once the workflow starts. */
  datatype TicketInfo = TicketInfo(subject: string, description: string)

  /** A retrieved knowledge-base excerpt; the score is the retriever's similarity. */
  datatype ContextDocument = ContextDocument(content: string, source: string, relevanceScore: real, category: string)

  datatype Verdict = Approved | Rejected {
    function Name(): string {
      match this
      case Approved => "approved"
      case Rejected => "rejected"
    }
  }

  /** One review result; `attempt` is its 1-based position in the review history. */
  datatype ReviewFeedback = ReviewFeedback(status: Verdict, feedback: string, timestamp: Timestamp, attempt: int)

  datatype WorkflowStatus =
    | Initialized | Classified | ContextRetrieved | ResponseGenerated | Reviewed
    | ContextRefined | Resolved | Escalated | Error
  {
    function Name(): string {
      match this
      case Initialized => "initialized"
      case Classified => "classified"
      case ContextRetrieved => "context_retrieved"
      case ResponseGenerated => "response_generated"
      case Reviewed => "reviewed"
      case ContextRefined => "context_refined"
      case Resolved => "resolved"
      case Escalated => "escalated"
      case Error => "error"
    }
  }

  /** The fields whose absence makes a state record invalid. */
  const RequiredFields: seq<string> :=
    ["ticket", "category", "retrieved_context", "drafts", "review_feedback",
     "final_output", "retries", "status", "escalated"]

  /** `validate_state` on a dictionary-shaped state record. */
  function ValidateState(state: map<string, Value>): (ok: bool)
    ensures (exists k :: 0 <= k < |RequiredFields| && RequiredFields[k] !in state) ==> !ok
    ensures ok ==> forall k :: 0 <= k < |RequiredFields| ==> RequiredFields[k] in state
    ensures ok ==> "ticket" in state && "retries" in state && "escalated" in state &&
                   "drafts" in state && "review_feedback" in state
    ensures ok ==> state["ticket"].DictV? && "subject" in state["ticket"].fields &&
                   "description" in state["ticket"].fields
    ensures ok ==> IsInt(state["retries"]) && IntOf(state["retries"]) >= 0
    ensures ok ==> state["escalated"].BoolV? && state["drafts"].ListV? && state["review_feedback"].ListV?
    ensures (forall k :: 0 <= k < |RequiredFields| ==> RequiredFields[k] in state) &&
            "ticket" in state && "retries" in state && "escalated" in state &&
            "drafts" in state && "review_feedback" in state &&
            state["ticket"].DictV? && "subject" in state["ticket"].fields &&
            "description" in state["ticket"].fields &&
            IsInt(state["retries"]) && IntOf(state["retries"]) >= 0 &&
            state["escalated"].BoolV? && state["drafts"].ListV? && state["review_feedback"].ListV?
            ==> ok
  {
    if exists k :: 0 <= k < |RequiredFields| && RequiredFields[k] !in state then false
    else
      assert forall k :: 0 <= k < |RequiredFields| ==> RequiredFields[k] in state;
      assert "ticket" == RequiredFields[0] && "retries" == RequiredFields[6];
      assert "escalated" == RequiredFields[8] && "drafts" == RequiredFields[3];
      assert "review_feedback" == RequiredFields[4];
      state["ticket"].DictV? &&
      "subject" in state["ticket"].fields && "description" in state["ticket"].fields &&
      IsInt(state["retries"]) && IntOf(state["retries"]) >= 0 &&
      state["escalated"].BoolV? &&
      state["drafts"].ListV? &&
      state["review_feedback"].ListV?
  }

  function DocumentValue(d: ContextDocument): Value {
    DictV(map["content" := StrV(d.content), "source" := StrV(d.source),
              "relevance_score" := FloatV(d.relevanceScore), "category" := StrV(d.category)])
  }

  function FeedbackValue(f: ReviewFeedback): Value {
    DictV(map["status" := StrV(f.status.Name()), "feedback" := StrV(f.feedback),
              "timestamp" := StrV(f.timestamp), "attempt" := IntV(f.attempt)])
  }

  function DocumentsValue(ds: seq<ContextDocument>): (v: Value)
    ensures v.ListV? && |v.items| == |ds|
  {
    ListV(seq(|ds|, i requires 0 <= i < |ds| => DocumentValue(ds[i])))
  }

  function FeedbackListValue(fs: seq<ReviewFeedback>): (v: Value)
    ensures v.ListV? && |v.items| == |fs|
  {
    ListV(seq(|fs|, i requires 0 <= i < |fs| => FeedbackValue(fs[i])))
  }

  /** `f"{timestamp} - {node_name}: {action}"`. */
  function LogEntry(now: Timestamp, nodeName: string, action: string): string {
    now + " - " + nodeName + ": " + action
  }

  /** The mutable state record of one workflow execution. */
  class SupportTicketState {
    const ticket: TicketInfo
    var category: string
    var retrievedContext: seq<ContextDocument>
    var drafts: seq<string>
    var currentDraft: Option<string>
    var reviewFeedback: seq<ReviewFeedback>
    var reviewStatus: Option<Verdict>
    var latestFeedback: Option<string>
    /** `None` only when finalisation copies a missing draft. */
    var finalOutput: Option<string>
    var retries: nat
    var status: WorkflowStatus
    var escalated: bool
    var processingStartTime: Option<Timestamp>
    var processingEndTime: Option<Timestamp>
    var nodeExecutionLog: Option<seq<string>>

    /** `create_initial_state`: empty histories, no retries, not escalated. */
    constructor (t: TicketInfo, now: Timestamp)
      ensures ticket == t
      ensures category == "" && finalOutput == Some("")
      ensures retrievedContext == [] && drafts == [] && reviewFeedback == []
      ensures nodeExecutionLog == Some([])
      ensures currentDraft == None && reviewStatus == None && latestFeedback == None
      ensures retries == 0 && status == Initialized && !escalated
      ensures processingStartTime == Some(now) && processingEndTime == None
      ensures ValidateState(Record())
    {
      ticket := t;
      category := "";
      retrievedContext := [];
      drafts := [];
      currentDraft := None;
      reviewFeedback := [];
      reviewStatus := None;
      latestFeedback := None;
      finalOutput := Some("");
      retries := 0;
      status := Initialized;
      escalated := false;
      processingStartTime := Some(now);
      processingEndTime := None;
      nodeExecutionLog := Some([]);
      new;
      RecordValidates(this);
    }

    /** The state as the dictionary the stages share. */
    function Record(): map<string, Value>
      reads this
    {
      map[
        "ticket" := DictV(map["subject" := StrV(ticket.subject), "description" := StrV(ticket.description)]),
        "category" := StrV(category),
        "retrieved_context" := DocumentsValue(retrievedContext),
        "drafts" := StrList(drafts),
        "current_draft" := OptStr(currentDraft),
        "review_feedback" := FeedbackListValue(reviewFeedback),
        "review_status" := (match reviewStatus case Some(v) => StrV(v.Name()) case None => NoneV),
        "latest_feedback" := OptStr(latestFeedback),
        "final_output" := OptStr(finalOutput),
        "retries" := IntV(retries),
        "status" := StrV(status.Name()),
        "escalated" := BoolV(escalated),
        "processing_start_time" := OptStr(processingStartTime),
        "processing_end_time" := OptStr(processingEndTime),
        "node_execution_log" := (match nodeExecutionLog case Some(l) => StrList(l) case None => NoneV)
      ]
    }

    /** The audit log, reading a missing log as empty. */
    function LogEntries(): seq<string>
      reads this
    {
      nodeExecutionLog.GetOr([])
    }

    /** `log_state_transition`: appends one entry, creating the log if it is missing. */
    method LogTransition(nodeName: string, action: string, now: Timestamp)
      modifies this`nodeExecutionLog
      ensures nodeExecutionLog == Some(old(LogEntries()) + [LogEntry(now, nodeName, action)])
    {
      if nodeExecutionLog.None? {
        nodeExecutionLog := Some([]);
      }
      nodeExecutionLog := Some(nodeExecutionLog.value + [LogEntry(now, nodeName, action)]);
    }
  }

  /** Every state record the typed state produces passes `validate_state`;
      in particular the record of a fresh initial state does. */
  lemma RecordValidates(st: SupportTicketState)
    ensures ValidateState(st.Record())
  {
    var r := st.Record();
    forall k | 0 <= k < |RequiredFields| ensures RequiredFields[k] in r {
    }
  }

  /** Removing any required field from a record makes it invalid. */
  lemma MissingFieldInvalid(state: map<string, Value>, field: string)
    requires field in RequiredFields
    ensures !ValidateState(state - {field})
  {
    var k :| 0 <= k < |RequiredFields| && RequiredFields[k] == field;
    assert RequiredFields[k] !in state - {field};
  }
}
