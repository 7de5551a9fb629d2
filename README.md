# Support-ticket resolution workflow, modelled in Dafny

The system is a customer-support agent. It takes a ticket (a subject and a
description) through a fixed graph of stages:

- `classify_ticket` picks one of four categories (Billing, Technical,
  Security, General).
- `retrieve_context` fetches knowledge-base excerpts.
- `generate_response` writes a draft.
- `review_response` approves or rejects the draft.

After review, a router decides what happens:

- an approved draft is finalised;
- a rejected draft goes to `refine_context` (a wider search) and back to
  generation, at most twice;
- after that the ticket is escalated to a human and a row is appended to an
  escalation log.

One record, `SupportTicketState`, is threaded through every stage. Every
handler updates it in place and appends one line to its audit log.

The project models this core:

- `graph.dfy` (`Graph`): the graph, its router and its runs.
- `workflow.dfy` (`Workflow`): a driver loop over the stage handlers.
- `nodes.dfy` (`Nodes`): the seven handlers and their fallbacks.
- `state.dfy` (`State`): the state record as a class, with its validator and
  its audit-log append.
- `knowledge_base.dfy` (`KnowledgeBase`): the document store as a class.
- `rag_system.dfy` (`RagSystem`): the retrieval layer. Similarity scores come
  from an oracle.
- `utils.dfy` (`Utils`): ticket validation, response formatting, text
  cleaning and escalation rows.
- `intelligent_response.dfy` (`IntelligentResponse`): keyword profiling,
  complexity rules and response assembly.
- `gemini_client.dfy` (`GeminiClient`): the language-model client's
  deterministic parts, namely category coercion, verdict parsing and the
  fallback text.

Three supporting modules hold Python's semantics:

- `text.dfy` (`Text`): `lower`, `upper` (ASCII letters only), `isspace`
  (Python's full whitespace set), `strip`, `in`, `count`, `replace`, `split`
  and `join`.
- `py.dfy` (`Py`): dictionary-shaped values and `Option`.
- `sorting.dfy` (`Sorting`): the stable descending `list.sort`.

The language model, the retriever's similarity, the clock and unexpected
exceptions are parameters:

- The model's replies are functions of the request a handler builds.
- A handler's exception is a `fault` flag. It fires after the handler has
  read the state and before it changes it.
- The driver indexes the clock and the faults by step.

The escalation log file is a class whose rows are a ghost sequence.

The graph registers a plain edge from refinement back to generation. It never
registers the helper that increments `retries`, so as written the retry bound
is never reached (see "## Findings"). `Graph` proves both halves of this.
`Workflow.RunWorkflow` applies the increment on every refine→generate step,
which is what the code evidently intends. It then proves these facts about
every run, whatever the reviewer answers:

- the run ends `resolved` or `escalated`;
- `retries <= 2`;
- `len(drafts) == retries + 1 == len(review_feedback)`;
- each review's `attempt` is its 1-based position;
- the run takes at most eleven steps.

Two details of the code shape the model:

- When the generator's API call fails, the client returns its own
  "intelligent fallback" text (support_agent/gemini_client.py:254-258), and
  that text becomes the draft. The apology draft is written only when the
  generation handler itself raises (support_agent/nodes.py:182-188).
- `final_output` starts as `""` (support_agent/state.py:170). Finalisation
  copies `current_draft`, which may be missing
  (support_agent/nodes.py:360, 369), so the field is an `Option` that is
  `Some("")` initially.

## Model

| member | source | states |
|---|---|---|
| Graph.ReviewRouting | support_agent/graph.py:128-158 | An approved review finalises whatever the retry count. Any other status, including no review, refines when `retries < 2` and escalates when `retries >= 2`. Each of the three is stated as an if-and-only-if. |
| Graph.Successor | support_agent/graph.py:116-125 | Review's successor is the router's choice. A node leads to END exactly when it is one of the two terminal nodes (or END itself). No edge leads back to the entry point. |
| Graph.EdgesUnconditional | support_agent/graph.py:116-125 | Every edge except the one out of review gives the same successor whatever the review status and retry count. |
| Graph.EveryStageReachable | support_agent/graph.py:116-125 | The entry node is followed by retrieve, generate and review. Review leads to finalize, refine or escalate according to the status and retries, and refine leads back to generate. |
| Graph.Step | support_agent/graph.py:172-181 | One step of a run. Refinement goes to generation and adds one retry only when the increment is applied. Generation counts one more draft. Review routes on the latest verdict. |
| Graph.AsWrittenNeverEnds | support_agent/graph.py:172-177 | With the edge as registered and a reviewer that always rejects, no run ever reaches END and `retries` stays 0. |
| Graph.AsWrittenGeneratesUnboundedly | support_agent/graph.py:172-177 | With the edge as registered and every review rejected, after `3k+3` steps the run is back at review with `k+1` drafts. |
| Graph.StepProgress | support_agent/graph.py:128-181 | With the increment, a step keeps the retry and draft bookkeeping well formed and strictly lowers the number of steps still to go. END is a fixed point. |
| Graph.IntendedRunEnds | support_agent/graph.py:5-11 | With the increment, every run is at END after eleven steps, whatever the reviews say. It has at most three drafts and `retries <= 2`, and `drafts == retries + 1`. |
| Graph.RunToEnd | support_agent/graph.py:128-181 | A well-formed control reaches END within its remaining-step bound. |
| Graph.AllRejectedEscalates | support_agent/graph.py:150-158 | With the increment and three rejections in a row, step 10 is escalation with two retries and three drafts, and step 11 is END. |
| Workflow.IncrementRetry | support_agent/graph.py:172-175 | `retries` goes up by exactly one, and nothing else in the state changes. |
| Workflow.RunWorkflow | support_agent/graph.py:44-205 | The driver from a fresh initial state. Every run ends `resolved` or `escalated`, and `escalated` holds exactly for the latter. It also states `retries <= 2`, `len(drafts) == retries + 1 == len(review_feedback)`, reviews numbered 1, 2, … with every review but the last rejected, and the final output set. A resolved run writes no escalation row and an escalated run at most one. The audit log holds one entry per step, at most eleven. |
| Workflow.Advance | support_agent/graph.py:116-181 | One step: the handler of the current node runs, and the new control is the graph's step (with the increment) from the old one. |
| Workflow.GenerateStep | support_agent/nodes.py:120-188 | Generation step: one more draft, which becomes the current draft, and the next node is review. |
| Workflow.ReviewStep | support_agent/graph.py:143-158 | Review step: the next node is the router's choice on the new `review_status` and `retries`. |
| Workflow.ReviewDraft | support_agent/nodes.py:215-252 | Review appends one entry, keeps earlier entries, numbers the new one by its position, and mirrors its status in `review_status`. |
| Workflow.RefineStep | support_agent/graph.py:172-177 | Refinement followed by the retry increment: the next node is generation, with one more retry. |
| Workflow.EscalateStep | support_agent/nodes.py:298-344 | Escalation ends the run and appends at most one escalation row. |
| Workflow.FinalizeStep | support_agent/nodes.py:346-372 | Finalisation ends the run. |
| Workflow.PhaseWellFormed | support_agent/graph.py:128-181 | The state at each node gives a well-formed control for the graph. |
| State.SupportTicketState.constructor | support_agent/state.py:142-181 | The initial state: the ticket copied, empty category, output, context, drafts, reviews and log, `retries == 0`, not escalated, status `initialized`, start time set. It passes `validate_state`. |
| State.SupportTicketState.LogTransition | support_agent/state.py:230-252 | Appends exactly one entry `"{now} - {node}: {action}"`, reading a missing log as empty. No other field changes. |
| State.ValidateState | support_agent/state.py:183-228 | False whenever one of the nine required fields is missing. True exactly when all nine are present, the ticket is a dict with a subject and a description, `retries` is a non-negative int, `escalated` is a bool, and `drafts` and `review_feedback` are lists (both directions). |
| State.RecordValidates | support_agent/state.py:142-228 | Every state the typed record can hold passes `validate_state`. |
| State.MissingFieldInvalid | support_agent/state.py:198-203 | Removing any required field makes a record invalid. |
| Nodes.ClassifyTicketNode | support_agent/nodes.py:42-77 | Sets `category` to the classification and status to `classified`, and logs one entry. |
| Nodes.Classification | support_agent/nodes.py:42-77 | The category is always one of the four. It is `General` when the handler raises. Without a client it is the keyword fallback, and otherwise the client's coerced answer. |
| Nodes.FallbackClassify | support_agent/nodes.py:376-387 | The result is one of the four categories: the first keyword group found in the lower-cased subject and description, in the order Billing, Technical, Security, otherwise General. |
| Nodes.BillingWordInSubject | support_agent/nodes.py:376-387 | A billing keyword in the subject alone classifies the ticket as Billing, whatever the description says. |
| Nodes.NoKeywordIsGeneral | support_agent/nodes.py:376-387 | A ticket with no keyword of the three groups is General. |
| Nodes.RetrieveContextNode | support_agent/nodes.py:79-118 | Replaces (never extends) `retrieved_context` with the search result, or `[]` when there is no retriever or the handler raises. Status becomes `context_retrieved`. |
| Nodes.InitialContext | support_agent/nodes.py:79-118 | The initial context is `[]` on failure and otherwise the retriever's three-document search on the enhanced query. |
| Nodes.InitialContextBounded | support_agent/nodes.py:95-103 | The initial context holds at most three documents, in descending score order. |
| Nodes.PreviousFeedback | support_agent/nodes.py:137-142 | Feedback is passed exactly when the last review was rejected, and it is that review's feedback. |
| Nodes.RequestFor | support_agent/nodes.py:131-164 | The generator gets the ticket, category, context and previous feedback unchanged. |
| Nodes.GenerateResponseNode | support_agent/nodes.py:120-188 | Appends exactly one draft, which becomes `current_draft`. Earlier drafts are kept. Status becomes `response_generated`. |
| Nodes.GeneratedDraft | support_agent/nodes.py:120-188 | The draft is never empty. It is the apology when the handler raises, the fixed fallback without a client, and the client's enhanced reply otherwise. |
| Nodes.ClientDraft | support_agent/nodes.py:150-167 | The enhanced draft contains the generator's answer (or its fallback text) and is non-empty. |
| Nodes.FallbackResponse | support_agent/nodes.py:389-399 | The text opens with the fixed acknowledgement and the lower-cased category, and it contains the subject. |
| Nodes.Apology | support_agent/nodes.py:182-188 | The apology is the fixed sentence, then the lower-cased category, then ` inquiry.`. |
| Nodes.ReviewResponseNode | support_agent/nodes.py:190-252 | Appends exactly one review with `attempt` equal to the new length. `review_status` and `latest_feedback` mirror that entry, and status becomes `reviewed`. |
| Nodes.ReviewOutcome | support_agent/nodes.py:190-252 | The review approves with the "unavailable" message when the handler raises, and approves by default without a client or without a draft. Otherwise it is the client's parsed verdict. |
| Nodes.RejectionNeedsReviewer | support_agent/nodes.py:215-252 | A rejection happens only when the handler did not raise, there is a client and a non-empty draft, and the reviewer's reply says REJECTED without APPROVED. |
| Nodes.RefineContextNode | support_agent/nodes.py:254-296 | Replaces the context by the wider search on success and keeps it on failure or without a retriever. Drafts, reviews and retries are untouched. Status becomes `context_refined`. |
| Nodes.RefineQuery | support_agent/nodes.py:272 | The refined query starts with the subject and description and ends with the latest feedback. |
| Nodes.RefinedContext | support_agent/nodes.py:254-296 | On failure the old context is kept. Otherwise it is the five-document search with threshold 0.05. |
| Nodes.RefinedContextBounded | support_agent/nodes.py:274-283 | A refined context that was replaced holds at most five documents, each scoring at least 0.05. |
| Nodes.EscalateTicketNode | support_agent/nodes.py:298-344 | The ticket always ends escalated with a fixed non-empty output, even when the log write fails. Exactly one row is written when the sink is writable and the handler does not raise, and none otherwise. |
| Nodes.EscalationData | support_agent/nodes.py:319-327 | The escalation record has every key the log writer indexes. |
| Nodes.EscalationRowBuilt | support_agent/nodes.py:319-331 | The record of a workflow state always flattens to a row whose counts are the lengths of the drafts and reviews, carrying the retry count and category. |
| Nodes.FinalizeResponseNode | support_agent/nodes.py:346-372 | `final_output` becomes `current_draft`, status becomes `resolved`, the end time is set, and `escalated` is unchanged. |
| Utils.ValidateTicketInput | support_agent/utils.py:236-277 | Valid exactly when the ticket is a dictionary whose subject and description are non-blank strings of at most 200 and 5000 characters. Otherwise the first failing check gives its own non-empty message, in the order dictionary, subject present, description present, type, blankness, length. |
| Utils.LengthLimits | support_agent/utils.py:268-274 | For a non-blank subject and description the limits are inclusive: 200 and 5000 characters pass with `(True, "")`, and a longer subject or description fails with its own length message. |
| Utils.ExtraFieldsIgnored | support_agent/utils.py:236-277 | Adding or changing a field other than subject and description never changes the verdict. |
| Utils.FormatResponse | support_agent/utils.py:198-234 | The stripped draft and a blank line come first. The category's closing fills the slot right after them, and the text ends with a blank line and the signature. Its length is the sum of the parts. |
| Utils.CategoryClosing | support_agent/utils.py:211-223 | Each known category has its closing sentence, and any other category gets General's. |
| Utils.FormatIgnoresOuterSpace | support_agent/utils.py:198-234 | Surrounding whitespace in the draft does not change the formatted response. |
| Utils.CleanText | support_agent/utils.py:342-364 | Anything but a string gives `""`. Otherwise the output is no longer than the input, every character is printable (code ≥ 32, newline or tab), and the only whitespace left is a single space. Apart from whitespace, the output holds exactly the input's printable characters, in their original order. |
| Utils.CleanTextKeepsCleanText | support_agent/utils.py:342-364 | Printable words joined by single spaces pass through cleaning unchanged. |
| Utils.KeepPrintable | support_agent/utils.py:362 | A character is in the output exactly when it is in the input and printable. The output is never longer. |
| Utils.KeepPrintableConcat | support_agent/utils.py:362 | The filter keeps order: filtering a concatenation is filtering each part, then concatenating. |
| Utils.KeepPrintableDropSpace | support_agent/utils.py:359-362 | Removing control characters and removing whitespace commute. |
| Utils.EscalationRow | support_agent/utils.py:68-120 | The `log_escalation` row. Each copied column is its key's value or the source's default (timestamp now, empty subject, description and category, 0 retry attempts). `final_drafts` and `review_feedback` are the `drafts` and `review_feedback` lists, and the draft count is the length of the drafts list. The counts are the list lengths, defaulting to 0. The context summary is the source of each document, one per document. Building fails exactly where the source raises. |
| Utils.CountOf | support_agent/utils.py:91-93 | A missing list counts 0 and a list counts its length. |
| Utils.ContextSummary | support_agent/utils.py:97 | One source name per retrieved document, `unknown` where it has none. It fails on a non-dictionary entry. |
| Utils.SavedRow | support_agent/utils.py:122-164 | The `save_escalation_log` row exists exactly when every directly indexed key is present and the lists have lengths. The timestamp, subject, description, category and retries are copied from their keys, and the counts are the list lengths. |
| Utils.EscalationLog.SaveEscalationLog | support_agent/utils.py:122-164 | Returns True exactly when the row builds and the file is writable. It then appends exactly that row, and otherwise the log is unchanged. |
| KnowledgeBase.ValidateDocument | support_agent/knowledge_base.py:62-75 | An entry is kept exactly when it is a dictionary with `content`. `source` defaults to `{name}_doc`, `tags` to `[]` and `priority` to `normal`, and `category` is the title-cased name. |
| KnowledgeBase.ValidatedDocsExact | support_agent/knowledge_base.py:62-75 | The kept documents are exactly the validated valid entries. |
| KnowledgeBase.ValidateDocuments | support_agent/knowledge_base.py:62-75 | The validation loop yields the validated entries in file order, each with the file's category. |
| KnowledgeBase.ReadCategory | support_agent/knowledge_base.py:49-84 | A missing or unreadable file, or one that is not a list, yields no documents. |
| KnowledgeBase.KnowledgeBase.constructor | support_agent/knowledge_base.py:30-41 | A new store holds exactly the four categories, each with its file's validated documents. |
| KnowledgeBase.KnowledgeBase.LoadDocuments | support_agent/knowledge_base.py:43-84 | Each category's documents are replaced by its file's validated documents, and other categories are unchanged. |
| KnowledgeBase.KnowledgeBase.CategoryDocuments | support_agent/knowledge_base.py:86-96 | A known category's list, and `[]` for an unknown one. |
| KnowledgeBase.KnowledgeBase.SearchDocuments | support_agent/knowledge_base.py:107-143 | The result of the search, or `None` exactly where lower-casing a non-string content raises. |
| KnowledgeBase.KnowledgeBase.SearchHitsMatch | support_agent/knowledge_base.py:121-143 | Every hit contains the query case-insensitively, with its occurrence count (at least 1) as `text_relevance`. Hits are in descending order of that count. |
| KnowledgeBase.KnowledgeBase.SearchComplete | support_agent/knowledge_base.py:127-138 | Every document of a searched category that contains the query is a hit. |
| KnowledgeBase.KnowledgeBase.SearchWithinCategory | support_agent/knowledge_base.py:125-129 | A search given a category finds only that category's documents, and nothing for a category the store lacks. |
| KnowledgeBase.KnowledgeBase.AddDocument | support_agent/knowledge_base.py:177-214 | Appends exactly one document to the category, creating it when new. Other categories are unchanged, and the result is True. |
| KnowledgeBase.NewDocumentRecord | support_agent/knowledge_base.py:194-205 | Extra metadata never overwrites content, source or category. Tags and priority come only from their own keys, and every other metadata key is kept. |
| KnowledgeBase.KnowledgeBase.ReloadDocuments | support_agent/knowledge_base.py:237-246 | The store is cleared and reloaded, so it holds exactly the four file categories and nothing added since. |
| KnowledgeBase.KnowledgeBase.GetDocumentStats | support_agent/knowledge_base.py:149-175 | The statistics over the categories in order, or `None` where a content has no length. |
| KnowledgeBase.DocumentStatsEntries | support_agent/knowledge_base.py:162-170 | Each category's entry holds its document count and content length, and the average is `length // max(count, 1)`. |
| KnowledgeBase.DocumentStatsTotals | support_agent/knowledge_base.py:172-173 | The total document count and total length are the sums of the per-category figures. |
| KnowledgeBase.DocumentStatsKeys | support_agent/knowledge_base.py:162-170 | There is exactly one entry per category. |
| RagSystem.RelatedCategories | support_agent/rag_system.py:233-253 | The related categories are distinct known categories other than the primary one. They include General for every non-General primary, and every other category for General. |
| RagSystem.EnhanceQuery | support_agent/rag_system.py:255-275 | The enhanced query has no leading or trailing whitespace. |
| RagSystem.EnhanceQueryWeightsSubject | support_agent/rag_system.py:270-275 | The subject is weighted double. Apart from whitespace, the enhanced query is the lower-cased subject, the lower-cased subject again, and then the lower-cased description. |
| RagSystem.EnhanceQueryLowered | support_agent/rag_system.py:270-275 | The enhanced query has no upper-case letter. |
| RagSystem.EnhanceQueryKeepsTicket | support_agent/rag_system.py:270-275 | The enhanced query contains the stripped, lower-cased subject and description. |
| RagSystem.InitializeIndexes | support_agent/rag_system.py:50-109 | One store per category, holding the knowledge base's documents of that category when there are some, all with string content, and the vectoriser fits; empty otherwise. |
| RagSystem.SearchCategory | support_agent/rag_system.py:179-231 | The category search computed by the loop equals its specification. |
| RagSystem.CategoryResultsFacts | support_agent/rag_system.py:203-227 | Empty for a category without documents. Otherwise at most `top_k` documents of the category, each scoring at least `min_relevance` and tagged with the category, in descending score order. |
| RagSystem.CategoryResultsBest | support_agent/rag_system.py:213-227 | A qualifying document left out of the result scores no higher than any document kept, and when at most `top_k` qualify, all of them are kept. |
| RagSystem.CandidatesComplete | support_agent/rag_system.py:213-223 | Every document scoring at least `min_relevance` is a candidate. |
| RagSystem.CandidatesGrounded | support_agent/rag_system.py:213-223 | Every candidate is a store document with its oracle score. |
| RagSystem.RetrieveContext | support_agent/rag_system.py:111-177 | The retrieval computed by the loops equals its specification. |
| RagSystem.SearchRelated | support_agent/rag_system.py:151-165 | The related-category pass computed by the loop equals its specification. |
| RagSystem.RetrievedFacts | support_agent/rag_system.py:141-169 | At most `top_k` documents in descending score order. Each scores at least `min_relevance` and is a document of the requested category, of General or of a related category. |
| RagSystem.RetrievedPrimaryOnly | support_agent/rag_system.py:141-169 | Without the related pass (not asked for, or the primary search already full), the result is the primary search unchanged: the category's own documents, or General's when the category has none. |
| RagSystem.RelatedFromGrounded | support_agent/rag_system.py:151-165 | The related pass only extends what was gathered, with documents from related categories' searches. |
| GeminiClient.ClassifyTicket | support_agent/gemini_client.py:109-163 | Always one of the four categories. It is the stripped answer when that is one of them, and `General` for any other answer, a non-200 status or an exception. |
| GeminiClient.ParseVerdict | support_agent/gemini_client.py:434-452 | APPROVED anywhere (case-insensitively) approves and wins over REJECTED. Otherwise REJECTED rejects, with the text minus `REJECTED:` as feedback, stripped. Anything else approves. |
| GeminiClient.ReviewResponse | support_agent/gemini_client.py:366-465 | A non-200 status or an exception approves with the "unavailable" message. Otherwise the stripped reply is parsed. |
| GeminiClient.RejectedExactly | support_agent/gemini_client.py:436-465 | The review rejects exactly when the call succeeded and its upper-cased reply contains REJECTED but not APPROVED. |
| GeminiClient.RejectionFeedbackRecovered | support_agent/gemini_client.py:441-446 | A reply `REJECTED:` followed by feedback is a rejection whose feedback is the stripped feedback. |
| GeminiClient.IntelligentFallback | support_agent/gemini_client.py:260-278 | The urgent text is chosen exactly when urgency is `high`. Otherwise the text quotes the description excerpt. |
| GeminiClient.Excerpt | support_agent/gemini_client.py:276 | The description itself when it has at most 100 characters, and otherwise its first 100 followed by `...`. |
| GeminiClient.UrgentFallback | support_agent/gemini_client.py:265-270 | The urgent text opens by quoting the subject in its fixed sentence, and contains the first 50 characters of the description followed by `..."` and the closing. |
| GeminiClient.StandardFallback | support_agent/gemini_client.py:272-278 | The non-urgent text opens with the greeting quoting the subject, names the user type with underscores turned into spaces followed by ` needs.`, and contains the excerpt. |
| GeminiClient.GenerateIntelligentResponse | support_agent/gemini_client.py:232-258 | The stripped reply on success, and the non-empty fallback text on a non-200 status or an exception. |
| IntelligentResponse.AnalyzeUserProfile | support_agent/intelligent_response.py:18-93 | The profile classifies the keyword counts in the lower-cased subject and description. Urgency is `Urgency` applied to: any urgency keyword, `urgent` or `critical` in the subject, any speed word. User type is `UserType` applied to: the technical-term count, any business word. The tone is empathetic, friendly or professional exactly when the sentiment is frustrated, polite or neutral. Personalisation is technical, simple or balanced exactly when the level is advanced, basic or intermediate. Style follows from the other fields. |
| IntelligentResponse.Sentiment | support_agent/intelligent_response.py:39-47 | `frustrated` exactly when negative > positive + 1. `polite` exactly when otherwise positive > negative. `neutral` otherwise. |
| IntelligentResponse.TechnicalLevel | support_agent/intelligent_response.py:50-64 | `advanced` exactly when the technical count is above 2. `basic` exactly when otherwise the basic count exceeds it. `intermediate` otherwise. |
| IntelligentResponse.Urgency | support_agent/intelligent_response.py:66-75 | `high` exactly when an urgency keyword occurs or the subject says `urgent` or `critical`. Otherwise `medium` exactly when a speed word occurs, and `low` exactly when none does. |
| IntelligentResponse.UserType | support_agent/intelligent_response.py:77-84 | `developer` exactly when more than one technical term appears. Otherwise `business_user` exactly when a business word occurs, and `end_user` exactly when none does. |
| IntelligentResponse.PersonalizedClosing | support_agent/intelligent_response.py:320-327 | Each of the three closings is chosen exactly when the profile's user type is `developer`, `business_user`, or anything else. |
| IntelligentResponse.UrgencyFromKeywords | support_agent/intelligent_response.py:66-75 | The separate subject tests for `urgent` and `critical` add nothing: a ticket's urgency is high exactly when an urgency keyword occurs in its lower-cased subject and description. |
| IntelligentResponse.DetermineResponseStyle | support_agent/intelligent_response.py:95-107 | High urgency takes precedence, then frustration, then an advanced level. |
| IntelligentResponse.AnalyzeContextRelevance | support_agent/intelligent_response.py:109-162 | Confidence is `low` for no documents. Otherwise it is `high` exactly when at least two documents score above 0.1, `medium` exactly when one does, and `low` exactly when none does. |
| IntelligentResponse.RelevantDocs | support_agent/intelligent_response.py:136-141 | The relevant documents are exactly those scoring above 0.1. |
| IntelligentResponse.PolicyDocs | support_agent/intelligent_response.py:194 | Exactly the documents whose lower-cased source mentions `policy`. |
| IntelligentResponse.ProcedureDocs | support_agent/intelligent_response.py:195-196 | Exactly the documents whose lower-cased source mentions `procedure`, `guide` or `steps`. |
| IntelligentResponse.GeneralDocsExact | support_agent/intelligent_response.py:197 | The general documents are exactly those neither policy nor procedure. |
| IntelligentResponse.Section | support_agent/intelligent_response.py:203-216 | An empty section has no lines. Otherwise there is a header and at most two documents, each quoted in order. |
| IntelligentResponse.SynthesisParts | support_agent/intelligent_response.py:181-218 | The synthesis has at most nine lines: three sections of at most two documents each. |
| IntelligentResponse.AssessIssueComplexity | support_agent/intelligent_response.py:220-269 | For Security and Technical tickets the level is bumped one step and never lowered, with reasoning and approach kept from before the bump. The step estimate matches the level. |
| IntelligentResponse.BaseComplexity | support_agent/intelligent_response.py:232-255 | Before the category bump, the level is `complex` exactly when a complex indicator occurs. It is `moderate` exactly when none does and the moderate indicators outnumber the simple ones, and `simple` otherwise. Each level comes with its own reasoning and approach strings. |
| IntelligentResponse.EstimatedSteps | support_agent/intelligent_response.py:271-277 | simple→2, moderate→4, complex→6, anything else→3. |
| IntelligentResponse.EnhanceResponseWithContext | support_agent/intelligent_response.py:279-318 | The result begins with the confidence line, contains the response and ends with the personalised closing. It contains the urgent line when urgency is high, and is never empty. |
| Sorting.SortPermutes | support_agent/knowledge_base.py:141 | The descending sort is a permutation of its input. |
| Sorting.SortSorted | support_agent/knowledge_base.py:141 | The descending sort's result is in descending key order. |
| Sorting.SortStable | support_agent/knowledge_base.py:141 | The sort is stable. For every key value, the elements with that key appear in the result in the same order as in the input. |
| Sorting.SortKeepsSorted | support_agent/rag_system.py:167-168 | Sorting an already descending list changes nothing. |
| Text.StripKeepsVisible | support_agent/utils.py:356 | `strip()` removes whitespace only: the non-whitespace characters survive, in order. |
| Text.WordsKeepVisible | support_agent/utils.py:359 | The words of `split()`, run together, are exactly the non-whitespace characters of the input, in order. |
| Text.JoinWordsKeepVisible | support_agent/utils.py:359 | `' '.join(s.split())` changes whitespace only. |
| Text.StripIsSlice | support_agent/rag_system.py:275 | `strip()` removes only leading and trailing whitespace: the result is a slice of the input with no whitespace at either end. |
| Text.CountPositiveIffContains | support_agent/knowledge_base.py:131-134 | A query occurs in a text exactly when its occurrence count is positive. |

## Left out

- HTTP calls and prompt text: the language model is an oracle whose replies are functions of the request.
- The first `_create_intelligent_fallback` (support_agent/gemini_client.py:35): it is replaced by the later definition of the same name.
- `GeminiClient.generate_response` (support_agent/gemini_client.py:280-364): the handlers never call it, and its fallback calls match no live definition.
- TF-IDF vectorisation and cosine similarity: floating-point library code. The score is an oracle, and whether the vectoriser fits a category is an input.
- `extract_key_concepts` (support_agent/intelligent_response.py:164-179): regular-expression semantics. Its concepts are not part of the model's context analysis.
- `create_personalized_fallback` and `create_intelligent_error_response`: no handler calls them.
- File reading, JSON parsing and CSV writing: file contents are an input, and the escalation file is a ghost sequence of rows.
- `get_all_documents`, `get_stats`, `save_documents`, `get_category_stats`, `load_escalation_log` and `backup_escalation_log`: reporting and file I/O outside the workflow.
- LangGraph compilation, checkpointing and async execution: the driver is a sequential loop.
- `datetime.now()`: timestamps are opaque strings from a clock, and each handler reads the clock once.
- Logging calls: they do not affect the state.
- Case mapping is ASCII: `lower` and `upper` change only the letters A-Z and a-z, where Python also maps non-ASCII letters.
- Exceptions inside the retrieval layer (support_agent/rag_system.py:175-177) and in the retrieval handler are one `fault` flag. Its audit-log text is the handler's error text, not "Retrieved 0 documents".
- Nodes.RefinedContext: on a fault it keeps the old context. When the exception is raised inside `retrieve_context` during refinement, the source instead catches it there and returns `[]`, and the handler stores that empty list (support_agent/nodes.py:276-287). The model does not distinguish the two kinds of exception, so it does not capture that case.
- RagSystem.SourceName: a document whose `source` is not a string is cited as `{category}_doc_{idx}`, where the source would copy the non-string value.
- Utils.CleanText: does not claim idempotence. Dropping a control character between two spaces leaves a double space, so cleaning twice can differ from cleaning once.
- Utils.FormatResponse and Utils.ValidateTicketInput: the source's `except` paths (a non-string draft, an unexpected exception) are not modelled, because the typed inputs cannot raise there.
- Workflow.GenerateDraft: states only the shape of the update (one more draft, which is current); Nodes.GenerateResponseNode states the draft's content.
- Workflow.ClassifyStep, Workflow.RetrieveStep: state only the graph step and the log growth; the handlers' own contracts state the fields.
- The UI's follow-up counter and the analytics pages are outside the workflow.

## Findings

| source | as written | input that shows it | evidently intended | confidence | as-written member | corrected member |
|---|---|---|---|---|---|---|
| support_agent/graph.py:172-177 | `increment_retry_and_generate` is never registered. Refinement goes back to generation by a plain edge, so `retries` stays 0 and the `retries < 2` test never fails. | A reviewer that rejects every draft: the run loops refine → generate → review forever, one draft per round, until the runtime's recursion limit. | Each refine→generate traversal increments `retries`, so the third rejection escalates after two retries. | not executed | Graph.AsWrittenNeverEnds | Graph.IntendedRunEnds |
