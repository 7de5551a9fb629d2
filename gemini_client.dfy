/** The deterministic part of the language-model client: coercion of the
    classifier's answer into the closed category set, parsing of the
    reviewer's verdict with its default-to-approved fallbacks, and the text
    used when response generation fails. The HTTP call itself is an input:
    `ApiCall` is what the chat-completions request produced. */
module GeminiClient {
  import opened Text
  import State
  import Sorting
  import IntelligentResponse

  /** The outcome of one HTTP request: a status code with the reply's message
      text, or an exception (network error, malformed reply). */
  datatype ApiCall = Responded(statusCode: int, content: string) | Raised

  /** The stripped message text of a successful (status 200) reply. */
  predicate Succeeded(call: ApiCall) {
    call.Responded? && call.statusCode == 200
  }

  /** `classify_ticket`: the stripped answer when it names a category,
      `General` for any other answer, a failed status or an exception. */
  function ClassifyTicket(call: ApiCall): (category: string)
    ensures category in State.Categories
    ensures Succeeded(call) && Strip(call.content) in State.Categories ==> category == Strip(call.content)
    ensures !(Succeeded(call) && Strip(call.content) in State.Categories) ==> category == "General"
  {
    if Succeeded(call) then
      var answer := Strip(call.content);
      if answer in State.Categories then answer else "General"
    else "General"
  }

  datatype ReviewResult = ReviewResult(status: State.Verdict, feedback: string)

  const UnavailableFeedback: string := "Review system unavailable, proceeding with response"

  /** The verdict read from the reviewer's stripped reply: `APPROVED`
      anywhere (in any case) approves and wins over `REJECTED`. */
  function ParseVerdict(text: string): (r: ReviewResult)
    ensures Contains(Upper(text), "APPROVED") ==>
              r == ReviewResult(State.Approved, "Response meets quality standards")
    ensures !Contains(Upper(text), "APPROVED") && Contains(Upper(text), "REJECTED") ==>
              r == ReviewResult(State.Rejected, Strip(Replace(text, "REJECTED:", "")))
    ensures !Contains(Upper(text), "APPROVED") && !Contains(Upper(text), "REJECTED") ==>
              r == ReviewResult(State.Approved, "Review completed successfully")
  {
    var upper := Upper(text);
    if Contains(upper, "APPROVED") then ReviewResult(State.Approved, "Response meets quality standards")
    else if Contains(upper, "REJECTED") then ReviewResult(State.Rejected, Strip(Replace(text, "REJECTED:", "")))
    else ReviewResult(State.Approved, "Review completed successfully")
  }

  /** `review_response`: a failed status or an exception approves. */
  function ReviewResponse(call: ApiCall): (r: ReviewResult)
    ensures !Succeeded(call) ==> r == ReviewResult(State.Approved, UnavailableFeedback)
    ensures Succeeded(call) ==> r == ParseVerdict(Strip(call.content))
  {
    if Succeeded(call) then ParseVerdict(Strip(call.content))
    else ReviewResult(State.Approved, UnavailableFeedback)
  }

  /** A review is rejected exactly when the call succeeded and its text, upper
      cased, mentions `REJECTED` but not `APPROVED`. */
  lemma RejectedExactly(call: ApiCall)
    ensures ReviewResponse(call).status == State.Rejected <==>
              Succeeded(call) &&
              !Contains(Upper(Strip(call.content)), "APPROVED") &&
              Contains(Upper(Strip(call.content)), "REJECTED")
  {
  }

  /** A reply of the form `REJECTED:<feedback>` hands back the feedback,
      stripped, when the feedback neither repeats the marker nor mentions
      approval. */
  lemma {:induction false} RejectionFeedbackRecovered(feedback: string)
    requires !Contains(feedback, "REJECTED:")
    requires !Contains(Upper(feedback), "APPROVED")
    ensures ParseVerdict("REJECTED:" + feedback) == ReviewResult(State.Rejected, Strip(feedback))
  {
    var text := "REJECTED:" + feedback;
    MarkedUpper(feedback);
    MarkedReplace(feedback);
    NoApprovalInMarkedText(Upper(feedback));
  }

  lemma MarkedUpper(feedback: string)
    ensures Upper("REJECTED:" + feedback) == "REJECTED:" + Upper(feedback)
    ensures Contains(Upper("REJECTED:" + feedback), "REJECTED")
  {
    var text := "REJECTED:" + feedback;
    var upper := Upper(text);
    var expected := "REJECTED:" + Upper(feedback);
    forall i | 0 <= i < |upper| ensures upper[i] == expected[i] {
      if i < 9 {
        assert text[i] == "REJECTED:"[i] && !('a' <= text[i] <= 'z');
      } else {
        assert text[i] == feedback[i - 9];
      }
    }
    assert upper == expected;
    assert upper[0..8] == "REJECTED";
    ContainsAt(upper, "REJECTED", 0);
  }

  lemma MarkedReplace(feedback: string)
    ensures Replace("REJECTED:" + feedback, "REJECTED:", "") == Replace(feedback, "REJECTED:", "")
  {
    var text := "REJECTED:" + feedback;
    assert "REJECTED:" <= text;
    assert text[9..] == feedback;
  }

  /** `APPROVED` cannot straddle the `REJECTED:` marker and a text that does
      not contain it. */
  lemma NoApprovalInMarkedText(rest: string)
    requires !Contains(rest, "APPROVED")
    ensures !Contains("REJECTED:" + rest, "APPROVED")
  {
    var s := "REJECTED:" + rest;
    assert s[..9] == "REJECTED:";
    forall i | 0 <= i < 9 ensures s[i] != 'A' {
      assert s[i] == s[..9][i];
    }
    if Contains(s, "APPROVED") {
      var i := ContainsWitness(s, "APPROVED");
      if i >= 9 {
        assert rest[i - 9..i - 9 + 8] == s[i..i + 8];
        ContainsAt(rest, "APPROVED", i - 9);
      }
    }
  }

  /** The description as quoted by the non-urgent fallback: its first 100
      characters, followed by `...` only when something was cut. */
  function Excerpt(description: string): (e: string)
    ensures |description| <= 100 ==> e == description
    ensures |description| > 100 ==> e == description[..100] + "..."
  {
    Sorting.Take(description, 100) + (if |description| > 100 then "..." else "")
  }

  const UrgentOpening: string := "I understand your urgent request regarding \""
  const UrgentMiddle: string :=
    "\" requires immediate attention.\n            \n" +
    "Due to a temporary system issue, I'm escalating this directly to our priority support team. You'll receive a comprehensive response within our expedited timeframe.\n\n" +
    "Your concern about \""
  const UrgentClosing: string :=
    "...\" is important to us, and our specialists have the tools and expertise to provide the detailed assistance you need."

  lemma PrefixOfConcat(a: string, b: string)
    ensures a <= a + b
  {
  }

  /** The text for a high-urgency profile: it quotes the subject, then the
      first 50 characters of the description, always followed by `...`. */
  function UrgentFallback(subject: string, description: string): (text: string)
    ensures UrgentOpening + subject + UrgentMiddle <= text
    ensures Contains(text, Sorting.Take(description, 50) + UrgentClosing)
  {
    var lead := UrgentOpening + subject + UrgentMiddle;
    var quote := Sorting.Take(description, 50) + UrgentClosing;
    ContainsAt(quote, quote, 0);
    ContainsInConcat(lead, quote, quote);
    PrefixOfConcat(lead, quote);
    lead + quote
  }

  const StandardMiddle: string := "While I'm experiencing a temporary processing issue, I want to ensure you receive the best possible assistance for your "
  const StandardRegarding: string := "I'm connecting you with a specialist who can provide comprehensive support for your specific situation regarding: "
  const StandardClosing: string := "\n\nYou can expect a detailed, personalized response that addresses your exact requirements."
  const StandardOpening: string := "Thank you for your inquiry about \""

  /** The text for any other profile: it quotes the subject, names the user
      type with its underscores turned into spaces, and quotes the excerpt of
      the description. */
  function StandardFallback(userType: string, subject: string, description: string): (text: string)
    ensures StandardOpening + subject + "\".\n\n" + StandardMiddle <= text
    ensures Contains(text, Replace(userType, "_", " ") + " needs.")
    ensures Contains(text, Excerpt(description))
  {
    var lead := StandardOpening + subject + "\".\n\n" + StandardMiddle;
    var needs := Replace(userType, "_", " ") + " needs.";
    var excerpt := Excerpt(description);
    var mid := "\n            \n" + StandardRegarding;
    var rest := mid + (excerpt + StandardClosing);
    ContainsAt(needs, needs, 0);
    ContainsInConcat(needs, rest, needs);
    ContainsInConcat(lead, needs + rest, needs);
    ContainsAt(excerpt, excerpt, 0);
    ContainsInConcat(excerpt, StandardClosing, excerpt);
    ContainsInConcat(mid, excerpt + StandardClosing, excerpt);
    ContainsInConcat(needs, rest, excerpt);
    ContainsInConcat(lead, needs + rest, excerpt);
    PrefixOfConcat(lead, needs + rest);
    lead + (needs + rest)
  }

  /** The effective `_create_intelligent_fallback` (the later of the two
      definitions of that name, which replaces the earlier one). */
  function IntelligentFallback(profile: IntelligentResponse.UserProfile, subject: string, description: string): (text: string)
    ensures UrgentOpening <= text <==> profile.urgency == "high"
    ensures profile.urgency != "high" ==> Contains(text, Excerpt(description))
  {
    if profile.urgency == "high" then UrgentFallback(subject, description)
    else
      var text := StandardFallback(profile.userType, subject, description);
      assert UrgentOpening[0] != StandardOpening[0];
      text
  }

  /** `generate_intelligent_response`: the stripped reply, or the fallback
      text when the request failed. */
  function GenerateIntelligentResponse(call: ApiCall, profile: IntelligentResponse.UserProfile,
                                       subject: string, description: string): (text: string)
    ensures Succeeded(call) ==> text == Strip(call.content)
    ensures !Succeeded(call) ==> text == IntelligentFallback(profile, subject, description) && text != []
  {
    if Succeeded(call) then Strip(call.content)
    else IntelligentFallback(profile, subject, description)
  }
}
