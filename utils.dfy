/** The pure helpers of the agent's utility module: ticket input validation,
    response formatting, text cleaning, and the rows written to the
    escalation logs. The CSV files themselves are outside the model; the
    escalation sink is a log of the rows it was given. */
module Utils {
  import opened Py
  import opened Text

  // ---------------------------------------------------------------------
  // validate_ticket_input
  // ---------------------------------------------------------------------

  /** The `(is_valid, error_message)` pair. */
  datatype Validation = Validation(valid: bool, message: string)

  const MaxSubjectLength: nat := 200
  const MaxDescriptionLength: nat := 5000

  /** A field value that passes the type and blankness check. */
  predicate NonBlankText(v: Value) {
    v.StrV? && Strip(v.s) != []
  }

  /** Everything the validator demands of a ticket, as one condition. */
  predicate AcceptableTicket(ticket: Value) {
    ticket.DictV? &&
    "subject" in ticket.fields && "description" in ticket.fields &&
    NonBlankText(ticket.fields["subject"]) && NonBlankText(ticket.fields["description"]) &&
    |ticket.fields["subject"].s| <= MaxSubjectLength &&
    |ticket.fields["description"].s| <= MaxDescriptionLength
  }

  /** `validate_ticket_input`: the checks run in a fixed order and the first
      that fails names the problem. */
  function ValidateTicketInput(ticket: Value): (r: Validation)
    ensures r.valid <==> AcceptableTicket(ticket)
    ensures r.valid ==> r.message == ""
    ensures !r.valid ==> r.message != ""
    ensures !ticket.DictV? ==> r.message == "Ticket must be a dictionary"
    ensures ticket.DictV? && "subject" !in ticket.fields ==>
              r.message == "Ticket must have a 'subject' field"
    ensures ticket.DictV? && "subject" in ticket.fields && "description" !in ticket.fields ==>
              r.message == "Ticket must have a 'description' field"
    ensures ticket.DictV? && "subject" in ticket.fields && "description" in ticket.fields &&
            !NonBlankText(ticket.fields["subject"]) ==>
              r.message == "Subject must be a non-empty string"
    ensures ticket.DictV? && "subject" in ticket.fields && "description" in ticket.fields &&
            NonBlankText(ticket.fields["subject"]) && !NonBlankText(ticket.fields["description"]) ==>
              r.message == "Description must be a non-empty string"
  {
    if !ticket.DictV? then Validation(false, "Ticket must be a dictionary")
    else if "subject" !in ticket.fields then Validation(false, "Ticket must have a 'subject' field")
    else if "description" !in ticket.fields then Validation(false, "Ticket must have a 'description' field")
    else
      var subject := ticket.fields["subject"];
      var description := ticket.fields["description"];
      if !NonBlankText(subject) then Validation(false, "Subject must be a non-empty string")
      else if !NonBlankText(description) then Validation(false, "Description must be a non-empty string")
      else if |subject.s| > MaxSubjectLength then Validation(false, "Subject must be 200 characters or less")
      else if |description.s| > MaxDescriptionLength then Validation(false, "Description must be 5000 characters or less")
      else Validation(true, "")
  }

  /** The length limits are inclusive: a well-formed subject and description
      of at most 200 and 5000 characters pass, one character more fails with
      the length message. */
  lemma LengthLimits(subject: string, description: string)
    requires Strip(subject) != [] && Strip(description) != []
    ensures var t := DictV(map["subject" := StrV(subject), "description" := StrV(description)]);
            (|subject| <= 200 && |description| <= 5000 ==> ValidateTicketInput(t) == Validation(true, "")) &&
            (|subject| > 200 ==> ValidateTicketInput(t) == Validation(false, "Subject must be 200 characters or less")) &&
            (|subject| <= 200 && |description| > 5000 ==>
               ValidateTicketInput(t) == Validation(false, "Description must be 5000 characters or less"))
  {
    var t := DictV(map["subject" := StrV(subject), "description" := StrV(description)]);
    assert t.fields["subject"] == StrV(subject) && t.fields["description"] == StrV(description);
  }

  /** Extra fields in the ticket dictionary never change the verdict. */
  lemma ExtraFieldsIgnored(fields: map<string, Value>, key: string, v: Value)
    requires key != "subject" && key != "description"
    ensures ValidateTicketInput(DictV(fields[key := v])) == ValidateTicketInput(DictV(fields))
  {
    var extended := fields[key := v];
    assert "subject" in extended <==> "subject" in fields;
    assert "description" in extended <==> "description" in fields;
    if "subject" in fields {
      assert extended["subject"] == fields["subject"];
    }
    if "description" in fields {
      assert extended["description"] == fields["description"];
    }
  }

  // ---------------------------------------------------------------------
  // format_response
  // ---------------------------------------------------------------------

  const BillingClosing: string := "If you have any additional billing questions, please don't hesitate to reach out."
  const TechnicalClosing: string := "If you continue to experience technical difficulties, please contact our technical support team."
  const SecurityClosing: string := "For any additional security concerns, please contact our security team immediately."
  const GeneralClosing: string := "If you need any further assistance, please feel free to contact us."
  const Signature: string := "Best regards,\nCustomer Support Team"

  /** The closing sentence of a category; an unknown category gets the
      General one. */
  function CategoryClosing(category: string): (closing: string)
    ensures category == "Billing" ==> closing == BillingClosing
    ensures category == "Technical" ==> closing == TechnicalClosing
    ensures category == "Security" ==> closing == SecurityClosing
    ensures category !in {"Billing", "Technical", "Security"} ==> closing == GeneralClosing
  {
    if category == "Billing" then BillingClosing
    else if category == "Technical" then TechnicalClosing
    else if category == "Security" then SecurityClosing
    else GeneralClosing
  }

  predicate EndsWith(s: string, suffix: string) {
    |suffix| <= |s| && s[|s| - |suffix|..] == suffix
  }

  /** `format_response`: the stripped draft, a blank line, the category's
      closing, a blank line and the signature. */
  function FormatResponse(draft: string, category: string): (text: string)
    ensures Strip(draft) + "\n\n" <= text
    ensures EndsWith(text, "\n\n" + Signature)
    ensures Contains(text, CategoryClosing(category))
    ensures |text| == |Strip(draft)| + |CategoryClosing(category)| + 4 + |Signature|
    ensures text[|Strip(draft)| + 2..|Strip(draft)| + 2 + |CategoryClosing(category)|] == CategoryClosing(category)
  {
    var head := Strip(draft) + "\n\n";
    var closing := CategoryClosing(category);
    var tail := "\n\n" + Signature;
    var text := head + closing + tail;
    assert |head| == |Strip(draft)| + 2;
    assert text == head + (closing + tail);
    assert text[..|head|] == head;
    assert text[|text| - |tail|..] == tail;
    assert text[|head|..|head| + |closing|] == closing;
    ContainsAt(text, closing, |head|);
    text
  }

  /** Formatting does not depend on surrounding whitespace in the draft. */
  lemma FormatIgnoresOuterSpace(draft: string, category: string)
    ensures FormatResponse(Strip(draft), category) == FormatResponse(draft, category)
  {
    StripIdempotent(draft);
  }

  /** `strip()` of an already stripped string changes nothing. */
  lemma StripIdempotent(s: string)
    ensures Strip(Strip(s)) == Strip(s)
  {
    var r := Strip(s);
    if r != [] {
      assert LeadingSpace(r) == 0;
      assert TrailingSpace(r) == 0;
    }
  }

  // ---------------------------------------------------------------------
  // clean_text
  // ---------------------------------------------------------------------

  /** The characters that survive the control-character filter. */
  predicate Printable(c: char) {
    c as int >= 32 || c == '\n' || c == '\t'
  }

  /** The comprehension that keeps only printable characters, in order. */
  function KeepPrintable(s: string): (r: string)
    ensures |r| <= |s|
    ensures forall i :: 0 <= i < |r| ==> Printable(r[i])
    ensures forall c :: c in r <==> c in s && Printable(c)
  {
    if s == [] then []
    else if Printable(s[0]) then [s[0]] + KeepPrintable(s[1..])
    else KeepPrintable(s[1..])
  }

  /** Text that is already printable passes the filter unchanged. */
  lemma {:induction false} KeepPrintableIdentity(s: string)
    requires forall i :: 0 <= i < |s| ==> Printable(s[i])
    ensures KeepPrintable(s) == s
  {
    if s != [] {
      KeepPrintableIdentity(s[1..]);
    }
  }

  /** The filter works character by character, so it keeps the order of
      its input: filtering a concatenation filters each part. */
  lemma {:induction false} KeepPrintableConcat(a: string, b: string)
    ensures KeepPrintable(a + b) == KeepPrintable(a) + KeepPrintable(b)
  {
    if a == [] {
      assert a + b == b;
    } else {
      assert (a + b)[0] == a[0] && (a + b)[1..] == a[1..] + b;
      KeepPrintableConcat(a[1..], b);
    }
  }

  /** Dropping control characters and dropping whitespace commute. */
  lemma {:induction false} KeepPrintableDropSpace(s: string)
    ensures DropSpace(KeepPrintable(s)) == KeepPrintable(DropSpace(s))
  {
    if s != [] {
      KeepPrintableDropSpace(s[1..]);
    }
  }

  /** `clean_text`: whitespace runs collapse to single spaces, the ends are
      stripped, then control characters other than newline and tab are
      dropped; anything but a string gives the empty string. */
  function CleanText(text: Value): (r: string)
    ensures !text.StrV? ==> r == ""
    ensures text.StrV? ==> |r| <= |text.s|
    ensures forall i :: 0 <= i < |r| ==> Printable(r[i])
    ensures forall c :: c in r ==> c == ' ' || !IsSpace(c)
    ensures text.StrV? ==> DropSpace(r) == KeepPrintable(DropSpace(text.s))
    ensures text.StrV? ==> forall c :: c in text.s && Printable(c) && !IsSpace(c) ==> c in r
  {
    if !text.StrV? then ""
    else
      var stripped := Strip(text.s);
      var words := Words(stripped);
      var joined := Join(" ", words);
      JoinWordsNoLonger(stripped);
      JoinWordsSpaces(words);
      StripKeepsVisible(text.s);
      JoinWordsKeepVisible(stripped);
      KeepPrintableDropSpace(joined);
      KeepPrintable(joined)
  }

  /** On printable text with no whitespace except single spaces between
      words, cleaning returns the text unchanged. */
  lemma CleanTextKeepsCleanText(ws: seq<string>)
    requires forall w :: w in ws ==> w != [] && forall c :: c in w ==> !IsSpace(c) && Printable(c)
    ensures CleanText(StrV(Join(" ", ws))) == Join(" ", ws)
  {
    var s := Join(" ", ws);
    JoinStripped(ws);
    JoinWordsRoundTrip(ws);
    JoinPrintable(ws);
    KeepPrintableIdentity(s);
  }

  lemma {:induction false} JoinPrintable(ws: seq<string>)
    requires forall w :: w in ws ==> forall c :: c in w ==> Printable(c)
    ensures forall i :: 0 <= i < |Join(" ", ws)| ==> Printable(Join(" ", ws)[i])
  {
    if ws != [] {
      assert ws[0] in ws;
    }
    if |ws| > 1 {
      assert forall w :: w in ws[1..] ==> w in ws;
      JoinPrintable(ws[1..]);
      var rest := Join(" ", ws[1..]);
      var s := Join(" ", ws);
      assert s == ws[0] + " " + rest;
      forall i | 0 <= i < |s| ensures Printable(s[i]) {
        if i < |ws[0]| {
          assert s[i] == ws[0][i];
          assert ws[0][i] in ws[0];
        } else if i > |ws[0]| {
          assert s[i] == rest[i - |ws[0]| - 1];
        }
      }
    } else if |ws| == 1 {
      forall i | 0 <= i < |ws[0]| ensures Printable(ws[0][i]) {
        assert ws[0][i] in ws[0];
      }
    }
  }

  /** Splitting the single-space join of non-empty space-free words gives
      the words back. */
  lemma {:induction false} JoinWordsRoundTrip(ws: seq<string>)
    requires forall w :: w in ws ==> w != [] && forall c :: c in w ==> !IsSpace(c)
    ensures Words(Join(" ", ws)) == ws
  {
    if ws != [] {
      var w := ws[0];
      assert w in ws;
      assert NoSpace(w) by {
        forall i | 0 <= i < |w| ensures !IsSpace(w[i]) {
          assert w[i] in w;
        }
      }
      if |ws| == 1 {
        WordLengthOfPrefix(w, w);
        assert w[..|w|] == w && w[|w|..] == [];
      } else {
        assert forall v :: v in ws[1..] ==> v in ws;
        JoinWordsRoundTrip(ws[1..]);
        JoinEnds(ws[1..]);
        WordsCons(w, Join(" ", ws[1..]));
      }
    }
  }

  predicate NoSpace(w: string) {
    forall i :: 0 <= i < |w| ==> !IsSpace(w[i])
  }

  /** A word followed by a space and more text splits into that word and the
      words of the rest. */
  lemma WordsCons(w: string, rest: string)
    requires w != [] && NoSpace(w)
    ensures Words(w + " " + rest) == [w] + Words(rest)
  {
    var s := w + " " + rest;
    WordLengthOfPrefix(s, w);
    assert s[..|w|] == w;
    assert s[|w|..] == " " + rest;
    assert (" " + rest)[1..] == rest;
  }

  /** The first word of `s` is exactly its non-space prefix `w`. */
  lemma {:induction false} WordLengthOfPrefix(s: string, w: string)
    requires w <= s && NoSpace(w)
    requires |w| < |s| ==> IsSpace(s[|w|])
    ensures WordLength(s) == |w|
    decreases |w|
  {
    if w != [] {
      assert s[1..][..|w| - 1] == w[1..];
      WordLengthOfPrefix(s[1..], w[1..]);
    }
  }

  /** The single-space join of non-empty space-free words has no outer
      whitespace. */
  lemma JoinStripped(ws: seq<string>)
    requires forall w :: w in ws ==> w != [] && forall c :: c in w ==> !IsSpace(c)
    ensures Strip(Join(" ", ws)) == Join(" ", ws)
  {
    if ws != [] {
      JoinEnds(ws);
      NoOuterSpaceStrip(Join(" ", ws));
    }
  }

  lemma JoinEnds(ws: seq<string>)
    requires ws != []
    requires forall w :: w in ws ==> w != [] && forall c :: c in w ==> !IsSpace(c)
    ensures var s := Join(" ", ws); s != [] && !IsSpace(s[0]) && !IsSpace(s[|s| - 1])
    decreases |ws|
  {
    assert ws[0] in ws;
    assert ws[0][0] in ws[0];
    if |ws| > 1 {
      assert forall v :: v in ws[1..] ==> v in ws;
      JoinEnds(ws[1..]);
      var rest := Join(" ", ws[1..]);
      assert Join(" ", ws) == ws[0] + " " + rest;
    } else {
      assert ws[0][|ws[0]| - 1] in ws[0];
    }
  }

  lemma NoOuterSpaceStrip(s: string)
    requires s != [] && !IsSpace(s[0]) && !IsSpace(s[|s| - 1])
    ensures Strip(s) == s
  {
    assert LeadingSpace(s) == 0;
    assert s[0..] == s;
    assert TrailingSpace(s) == 0;
  }

  // ---------------------------------------------------------------------
  // Escalation rows
  // ---------------------------------------------------------------------

  /** The row `log_escalation` writes; list-valued fields are serialised by
      the CSV layer, which is outside the model. */
  datatype EscalationRecord = EscalationRecord(
    timestamp: Value,
    ticketSubject: Value,
    ticketDescription: Value,
    category: Value,
    retryAttempts: Value,
    draftCount: nat,
    feedbackCount: nat,
    contextDocuments: nat,
    finalDrafts: Value,
    reviewFeedback: Value,
    contextSummary: seq<Value>)

  /** The `source` of each retrieved document, `'unknown'` where it has
      none; `None` where the comprehension raises (an element that is not a
      dictionary, or a value that cannot be iterated). */
  function ContextSummary(context: Value): (r: Option<seq<Value>>)
    ensures context.ListV? && (forall k :: 0 <= k < |context.items| ==> context.items[k].DictV?) ==>
              r.Some? && |r.value| == |context.items| &&
              forall k :: 0 <= k < |context.items| ==>
                r.value[k] == Get(context.items[k].fields, "source", StrV("unknown"))
    ensures context.ListV? && (exists k :: 0 <= k < |context.items| && !context.items[k].DictV?) ==> r.None?
  {
    match context
    case ListV(items) =>
      if forall k :: 0 <= k < |items| ==> items[k].DictV? then
        Some(seq(|items|, k requires 0 <= k < |items| => Get(items[k].fields, "source", StrV("unknown"))))
      else None
    case StrV(s) => if s == [] then Some([]) else None
    case DictV(m) => if m == map[] then Some([]) else None
    case _ => None
  }

  /** `len(data.get(key, []))`: 0 for a missing key, `None` where `len`
      raises. */
  function CountOf(data: map<string, Value>, key: string): (n: Option<nat>)
    ensures key !in data ==> n == Some(0)
    ensures key in data && data[key].ListV? ==> n == Some(|data[key].items|)
  {
    Len(Get(data, key, ListV([])))
  }

  /** The row built by `log_escalation`, or `None` where building it raises
      (the function then returns `False`). */
  function EscalationRow(data: map<string, Value>, now: string): (row: Option<EscalationRecord>)
    ensures row.Some? ==>
              Some(row.value.draftCount) == CountOf(data, "drafts") &&
              Some(row.value.feedbackCount) == CountOf(data, "review_feedback") &&
              Some(row.value.contextDocuments) == CountOf(data, "retrieved_context")
    ensures row.Some? ==> row.value.timestamp == Get(data, "timestamp", StrV(now))
    ensures row.Some? ==>
              row.value.ticketSubject == Get(data, "ticket_subject", StrV("")) &&
              row.value.ticketDescription == Get(data, "ticket_description", StrV("")) &&
              row.value.category == Get(data, "category", StrV("")) &&
              row.value.retryAttempts == Get(data, "retry_attempts", IntV(0))
    ensures row.Some? ==>
              row.value.finalDrafts == Get(data, "drafts", ListV([])) &&
              row.value.reviewFeedback == Get(data, "review_feedback", ListV([]))
    ensures row.Some? ==>
              Some(row.value.contextSummary) == ContextSummary(Get(data, "retrieved_context", ListV([])))
    ensures row.Some? && row.value.finalDrafts.ListV? ==> row.value.draftCount == |row.value.finalDrafts.items|
    ensures row.Some? ==> |row.value.contextSummary| == row.value.contextDocuments
    ensures row.None? <==>
              CountOf(data, "drafts").None? || CountOf(data, "review_feedback").None? ||
              CountOf(data, "retrieved_context").None? ||
              ContextSummary(Get(data, "retrieved_context", ListV([]))).None?
  {
    var drafts := CountOf(data, "drafts");
    var feedback := CountOf(data, "review_feedback");
    var documents := CountOf(data, "retrieved_context");
    var context := Get(data, "retrieved_context", ListV([]));
    var summary := ContextSummary(context);
    if drafts.None? || feedback.None? || documents.None? || summary.None? then None
    else
      assert |summary.value| == documents.value by {
        if !context.ListV? {
          assert summary.value == [];
        }
      }
      Some(EscalationRecord(
        Get(data, "timestamp", StrV(now)),
        Get(data, "ticket_subject", StrV("")),
        Get(data, "ticket_description", StrV("")),
        Get(data, "category", StrV("")),
        Get(data, "retry_attempts", IntV(0)),
        drafts.value, feedback.value, documents.value,
        Get(data, "drafts", ListV([])),
        Get(data, "review_feedback", ListV([])),
        summary.value))
  }

  /** The flattened row `save_escalation_log` writes. */
  datatype SavedEscalation = SavedEscalation(
    timestamp: Value,
    ticketSubject: Value,
    ticketDescription: Value,
    category: Value,
    retries: Value,
    reviewCount: nat,
    draftCount: nat)

  /** The keys `save_escalation_log` indexes directly. */
  const EscalationKeys: seq<string> := ["timestamp", "ticket_subject", "ticket_description", "category", "retries"]

  /** The row built by `save_escalation_log`, or `None` where building it
      raises: a missing mandatory key, or a count that is not a length. */
  function SavedRow(data: map<string, Value>): (row: Option<SavedEscalation>)
    ensures row.Some? ==> forall k :: 0 <= k < |EscalationKeys| ==> EscalationKeys[k] in data
    ensures (exists k :: 0 <= k < |EscalationKeys| && EscalationKeys[k] !in data) ==> row.None?
    ensures row.Some? ==>
              Some(row.value.reviewCount) == CountOf(data, "review_feedback") &&
              Some(row.value.draftCount) == CountOf(data, "final_drafts")
    ensures row.Some? ==>
              "timestamp" in data && "retries" in data && "category" in data &&
              row.value.timestamp == data["timestamp"] && row.value.retries == data["retries"] &&
              row.value.category == data["category"]
    ensures row.Some? ==>
              "ticket_subject" in data && "ticket_description" in data &&
              row.value.ticketSubject == data["ticket_subject"] &&
              row.value.ticketDescription == data["ticket_description"]
    ensures ((forall k :: 0 <= k < |EscalationKeys| ==> EscalationKeys[k] in data) &&
             CountOf(data, "review_feedback").Some? && CountOf(data, "final_drafts").Some?) ==> row.Some?
  {
    if exists k :: 0 <= k < |EscalationKeys| && EscalationKeys[k] !in data then None
    else
      assert "timestamp" == EscalationKeys[0] && "ticket_subject" == EscalationKeys[1];
      assert "ticket_description" == EscalationKeys[2] && "category" == EscalationKeys[3];
      assert "retries" == EscalationKeys[4];
      var reviews := CountOf(data, "review_feedback");
      var drafts := CountOf(data, "final_drafts");
      if reviews.None? || drafts.None? then None
      else
        Some(SavedEscalation(data["timestamp"], data["ticket_subject"], data["ticket_description"],
                             data["category"], data["retries"], reviews.value, drafts.value))
  }

  /** The escalation log file: the rows written so far. */
  class EscalationLog {
    ghost var rows: seq<SavedEscalation>

    constructor ()
      ensures rows == []
    {
      rows := [];
    }

    /** `save_escalation_log`: appends the flattened row and returns `True`,
        or returns `False` when the row cannot be built or the file cannot be
        written. */
    method SaveEscalationLog(data: map<string, Value>, writable: bool) returns (saved: bool)
      modifies this
      ensures saved <==> SavedRow(data).Some? && writable
      ensures saved ==> rows == old(rows) + [SavedRow(data).value]
      ensures !saved ==> rows == old(rows)
    {
      var row := SavedRow(data);
      if row.Some? && writable {
        rows := rows + [row.value];
        saved := true;
      } else {
        saved := false;
      }
    }
  }
}
