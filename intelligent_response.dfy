/** The deterministic analysis that shapes a generated response: keyword
    profiling of the customer, relevance analysis of the retrieved context,
    issue complexity, and the prefix/closing wrapped around the draft. */
module IntelligentResponse {
  import opened Text
  import opened State
  import Sorting

  const NegativeIndicators: seq<string> :=
    ["cant", "cannot", "broken", "failed", "error", "issue", "problem", "frustrated", "urgent", "immediately"]
  const PositiveIndicators: seq<string> := ["please", "thank", "help", "could", "would"]
  const TechnicalKeywords: seq<string> :=
    ["api", "database", "server", "configuration", "authentication", "integration", "sdk", "webhook"]
  const BasicKeywords: seq<string> := ["login", "password", "email", "account", "profile", "settings"]
  const UrgencyKeywords: seq<string> :=
    ["urgent", "immediately", "asap", "critical", "emergency", "production", "down", "broken"]
  const SpeedWords: seq<string> := ["soon", "quick", "fast"]
  const BusinessWords: seq<string> := ["business", "company", "team", "organization"]

  /** `sum(1 for word in words if word in text)`. */
  function CountPresent(words: seq<string>, text: string): (n: nat)
    ensures n <= |words|
  {
    if words == [] then 0
    else (if Contains(text, words[0]) then 1 else 0) + CountPresent(words[1..], text)
  }

  /** `any(word in text for word in words)`. */
  predicate AnyPresent(words: seq<string>, text: string) {
    words != [] && (Contains(text, words[0]) || AnyPresent(words[1..], text))
  }

  /** A keyword found in the text is counted. */
  lemma {:induction false} CountPresentPositive(words: seq<string>, text: string, k: nat)
    requires k < |words| && Contains(text, words[k])
    ensures CountPresent(words, text) > 0
  {
    if k > 0 {
      CountPresentPositive(words[1..], text, k - 1);
    }
  }

  /** `f"{subject.lower()} {description.lower()}"`. */
  function CombinedText(t: TicketInfo): string {
    Lower(t.subject) + " " + Lower(t.description)
  }

  datatype UserProfile = UserProfile(
    sentiment: string, technicalLevel: string, urgency: string, userType: string,
    preferredTone: string, personalizationLevel: string, responseStyle: string)

  /** `analyze_user_profile`: sentiment, technical level, urgency and user type
      from the keywords present in the lower-cased ticket text. */
  function AnalyzeUserProfile(t: TicketInfo): (p: UserProfile)
    ensures var text := CombinedText(t);
            var negative := CountPresent(NegativeIndicators, text);
            var positive := CountPresent(PositiveIndicators, text);
            (p.sentiment == "frustrated" <==> negative > positive + 1) &&
            (p.sentiment == "polite" <==> negative <= positive + 1 && positive > negative) &&
            (p.sentiment == "neutral" <==> negative <= positive + 1 && positive <= negative)
    ensures var text := CombinedText(t);
            var technical := CountPresent(TechnicalKeywords, text);
            var basic := CountPresent(BasicKeywords, text);
            (p.technicalLevel == "advanced" <==> technical > 2) &&
            (p.technicalLevel == "basic" <==> technical <= 2 && basic > technical) &&
            (p.technicalLevel == "intermediate" <==> technical <= 2 && basic <= technical) &&
            (p.userType == "developer" <==> technical > 1)
    ensures var text := CombinedText(t);
            var subject := Lower(t.subject);
            p.urgency == Urgency(CountPresent(UrgencyKeywords, text) > 0,
                                 Contains(subject, "urgent") || Contains(subject, "critical"),
                                 AnyPresent(SpeedWords, text))
    ensures var text := CombinedText(t);
            p.userType == UserType(CountPresent(TechnicalKeywords, text), AnyPresent(BusinessWords, text))
    ensures p.urgency in {"high", "medium", "low"}
    ensures p.userType in {"developer", "business_user", "end_user"}
    ensures (p.preferredTone == "empathetic and solution-focused" <==> p.sentiment == "frustrated") &&
            (p.preferredTone == "friendly and helpful" <==> p.sentiment == "polite") &&
            (p.preferredTone == "professional and direct" <==> p.sentiment == "neutral")
    ensures (p.personalizationLevel == "technical" <==> p.technicalLevel == "advanced") &&
            (p.personalizationLevel == "simple" <==> p.technicalLevel == "basic") &&
            (p.personalizationLevel == "balanced" <==> p.technicalLevel == "intermediate")
    ensures p.responseStyle == DetermineResponseStyle(p.sentiment, p.technicalLevel, p.urgency)
  {
    var subject := Lower(t.subject);
    var text := CombinedText(t);
    ProfileFromCounts(
      CountPresent(NegativeIndicators, text), CountPresent(PositiveIndicators, text),
      CountPresent(TechnicalKeywords, text), CountPresent(BasicKeywords, text),
      Urgency(CountPresent(UrgencyKeywords, text) > 0,
              Contains(subject, "urgent") || Contains(subject, "critical"),
              AnyPresent(SpeedWords, text)),
      AnyPresent(BusinessWords, text))
  }

  /** The profile for the given keyword counts, urgency and business flag. */
  function ProfileFromCounts(negative: nat, positive: nat, technical: nat, basic: nat,
                             urgency: string, business: bool): (p: UserProfile)
    ensures p.sentiment == Sentiment(negative, positive)
    ensures p.technicalLevel == TechnicalLevel(technical, basic)
    ensures p.urgency == urgency
    ensures p.userType == UserType(technical, business)
    ensures (p.preferredTone == "empathetic and solution-focused" <==> p.sentiment == "frustrated") &&
            (p.preferredTone == "friendly and helpful" <==> p.sentiment == "polite") &&
            (p.preferredTone == "professional and direct" <==> p.sentiment == "neutral")
    ensures (p.personalizationLevel == "technical" <==> p.technicalLevel == "advanced") &&
            (p.personalizationLevel == "simple" <==> p.technicalLevel == "basic") &&
            (p.personalizationLevel == "balanced" <==> p.technicalLevel == "intermediate")
    ensures p.responseStyle == DetermineResponseStyle(p.sentiment, p.technicalLevel, p.urgency)
  {
    var sentiment := Sentiment(negative, positive);
    var tone :=
      if negative > positive + 1 then "empathetic and solution-focused"
      else if positive > negative then "friendly and helpful"
      else "professional and direct";
    var level := TechnicalLevel(technical, basic);
    var personalization :=
      if technical > 2 then "technical" else if basic > technical then "simple" else "balanced";
    UserProfile(sentiment, level, urgency, UserType(technical, business), tone, personalization,
                DetermineResponseStyle(sentiment, level, urgency))
  }

  function Sentiment(negative: nat, positive: nat): (sentiment: string)
    ensures sentiment == "frustrated" <==> negative > positive + 1
    ensures sentiment == "polite" <==> negative <= positive + 1 && positive > negative
    ensures sentiment == "neutral" <==> negative <= positive + 1 && positive <= negative
  {
    if negative > positive + 1 then "frustrated"
    else if positive > negative then "polite"
    else "neutral"
  }

  function Urgency(keyword: bool, subjectUrgent: bool, speed: bool): (urgency: string)
    ensures urgency == "high" <==> keyword || subjectUrgent
    ensures urgency == "medium" <==> !keyword && !subjectUrgent && speed
    ensures urgency == "low" <==> !keyword && !subjectUrgent && !speed
    ensures urgency in {"high", "medium", "low"}
  {
    if keyword || subjectUrgent then "high" else if speed then "medium" else "low"
  }

  function UserType(technical: nat, business: bool): (userType: string)
    ensures userType == "developer" <==> technical > 1
    ensures userType == "business_user" <==> technical <= 1 && business
    ensures userType == "end_user" <==> technical <= 1 && !business
    ensures userType in {"developer", "business_user", "end_user"}
  {
    if technical > 1 then "developer" else if business then "business_user" else "end_user"
  }

  function TechnicalLevel(technical: nat, basic: nat): (level: string)
    ensures level == "advanced" <==> technical > 2
    ensures level == "basic" <==> technical <= 2 && basic > technical
    ensures level == "intermediate" <==> technical <= 2 && basic <= technical
  {
    if technical > 2 then "advanced" else if basic > technical then "basic" else "intermediate"
  }

  /** The subject tests for "urgent" and "critical" add nothing: urgency is high
      exactly when some urgency keyword occurs in the combined text. */
  lemma UrgencyFromKeywords(t: TicketInfo)
    ensures AnalyzeUserProfile(t).urgency == "high" <==>
            CountPresent(UrgencyKeywords, CombinedText(t)) > 0
  {
    var subject := Lower(t.subject);
    if Contains(subject, "urgent") || Contains(subject, "critical") {
      SubjectUrgencyCounted(t);
    }
  }

  /** "urgent" and "critical" are urgency keywords, so finding one in the
      subject finds it in the combined text. */
  lemma SubjectUrgencyCounted(t: TicketInfo)
    requires Contains(Lower(t.subject), "urgent") || Contains(Lower(t.subject), "critical")
    ensures CountPresent(UrgencyKeywords, CombinedText(t)) > 0
  {
    var subject := Lower(t.subject);
    var rest := " " + Lower(t.description);
    assert CombinedText(t) == subject + rest;
    if Contains(subject, "urgent") {
      ContainsInConcat(subject, rest, "urgent");
      CountPresentPositive(UrgencyKeywords, subject + rest, 0);
    } else {
      ContainsInConcat(subject, rest, "critical");
      CountPresentPositive(UrgencyKeywords, subject + rest, 3);
    }
  }

  /** `determine_response_style`: high urgency first, then frustration, then an advanced level. */
  function DetermineResponseStyle(sentiment: string, technicalLevel: string, urgency: string): (style: string)
    ensures urgency == "high" ==>
              style == (if technicalLevel == "advanced" then "direct_technical_immediate"
                        else "empathetic_immediate_simple")
    ensures urgency != "high" && sentiment == "frustrated" ==> style == "empathetic_solution_focused"
    ensures urgency != "high" && sentiment != "frustrated" ==>
              style == (if technicalLevel == "advanced" then "detailed_technical" else "friendly_comprehensive")
  {
    if urgency == "high" then
      if technicalLevel == "advanced" then "direct_technical_immediate" else "empathetic_immediate_simple"
    else if sentiment == "frustrated" then "empathetic_solution_focused"
    else if technicalLevel == "advanced" then "detailed_technical"
    else "friendly_comprehensive"
  }

  // ---------------------------------------------------------------------------
  // Context relevance and synthesis

  const RelevanceThreshold: real := 0.1
  const ActionWords: seq<string> := ["step", "follow", "click", "navigate", "contact", "submit"]

  datatype ContextAnalysis = ContextAnalysis(
    synthesizedKnowledge: string, confidenceLevel: string, actionItems: seq<string>,
    relevantDocumentCount: nat)

  /** The documents scoring above 0.1, in their original order. */
  function RelevantDocs(docs: seq<ContextDocument>): (r: seq<ContextDocument>)
    ensures |r| <= |docs|
    ensures forall d :: d in r <==> d in docs && d.relevanceScore > RelevanceThreshold
  {
    if docs == [] then []
    else
      var last := docs[|docs| - 1];
      assert docs == docs[..|docs| - 1] + [last];
      RelevantDocs(docs[..|docs| - 1]) + (if last.relevanceScore > RelevanceThreshold then [last] else [])
  }

  /** The contents of the relevant documents that mention an action word. */
  function ActionItems(docs: seq<ContextDocument>): (r: seq<string>)
    ensures |r| <= |docs|
  {
    if docs == [] then []
    else
      var last := docs[|docs| - 1];
      ActionItems(docs[..|docs| - 1]) +
        (if last.relevanceScore > RelevanceThreshold && AnyPresent(ActionWords, Lower(last.content))
         then [last.content] else [])
  }

  function Confidence(relevant: nat): string {
    if relevant >= 2 then "high" else if relevant > 0 then "medium" else "low"
  }

  /** The value `analyze_context_relevance` returns (its regex key concepts aside). */
  function ContextRelevance(docs: seq<ContextDocument>): ContextAnalysis {
    if docs == [] then
      ContextAnalysis("No specific policy documentation found for this issue.", "low", [], 0)
    else
      var relevant := RelevantDocs(docs);
      ContextAnalysis(SynthesizeDocuments(relevant), Confidence(|relevant|), ActionItems(docs), |relevant|)
  }

  /** `analyze_context_relevance`: one pass over the documents collecting the
      relevant ones and the action items. */
  method AnalyzeContextRelevance(docs: seq<ContextDocument>, t: TicketInfo) returns (a: ContextAnalysis)
    ensures a == ContextRelevance(docs)
    ensures docs == [] ==> a.confidenceLevel == "low"
    ensures a.confidenceLevel == "high" <==> |RelevantDocs(docs)| >= 2
    ensures a.confidenceLevel == "medium" <==> |RelevantDocs(docs)| == 1
    ensures a.confidenceLevel == "low" <==> |RelevantDocs(docs)| == 0
  {
    if docs == [] {
      return ContextAnalysis("No specific policy documentation found for this issue.", "low", [], 0);
    }
    var relevant: seq<ContextDocument> := [];
    var actions: seq<string> := [];
    var i := 0;
    while i < |docs|
      invariant 0 <= i <= |docs|
      invariant relevant == RelevantDocs(docs[..i])
      invariant actions == ActionItems(docs[..i])
    {
      var doc := docs[i];
      ContextStep(docs, i);
      if doc.relevanceScore > RelevanceThreshold {
        relevant := relevant + [doc];
        if AnyPresent(ActionWords, Lower(doc.content)) {
          actions := actions + [doc.content];
        }
      }
      i := i + 1;
    }
    assert docs[..i] == docs;
    var confidence := if |relevant| >= 2 then "high" else if |relevant| > 0 then "medium" else "low";
    a := ContextAnalysis(SynthesizeDocuments(relevant), confidence, actions, |relevant|);
  }

  lemma ContextStep(docs: seq<ContextDocument>, i: nat)
    requires i < |docs|
    ensures RelevantDocs(docs[..i + 1]) ==
              RelevantDocs(docs[..i]) + (if docs[i].relevanceScore > RelevanceThreshold then [docs[i]] else [])
    ensures ActionItems(docs[..i + 1]) ==
              ActionItems(docs[..i]) +
                (if docs[i].relevanceScore > RelevanceThreshold && AnyPresent(ActionWords, Lower(docs[i].content))
                 then [docs[i].content] else [])
  {
    assert docs[..i + 1][..i] == docs[..i];
  }

  predicate IsPolicy(d: ContextDocument) {
    Contains(Lower(d.source), "policy")
  }

  predicate IsProcedure(d: ContextDocument) {
    AnyPresent(["procedure", "guide", "steps"], Lower(d.source))
  }

  function PolicyDocs(docs: seq<ContextDocument>): (r: seq<ContextDocument>)
    ensures forall d :: d in r <==> d in docs && IsPolicy(d)
  {
    if docs == [] then []
    else (if IsPolicy(docs[0]) then [docs[0]] else []) + PolicyDocs(docs[1..])
  }

  function ProcedureDocs(docs: seq<ContextDocument>): (r: seq<ContextDocument>)
    ensures forall d :: d in r <==> d in docs && IsProcedure(d)
  {
    if docs == [] then []
    else (if IsProcedure(docs[0]) then [docs[0]] else []) + ProcedureDocs(docs[1..])
  }

  /** `[doc for doc in docs if doc not in policy_docs and doc not in procedure_docs]`. */
  function GeneralDocs(docs: seq<ContextDocument>, policy: seq<ContextDocument>, procedure: seq<ContextDocument>): seq<ContextDocument> {
    if docs == [] then []
    else
      (if docs[0] !in policy && docs[0] !in procedure then [docs[0]] else []) +
      GeneralDocs(docs[1..], policy, procedure)
  }

  /** The general section holds exactly the documents that are neither policy
      nor procedure documents. */
  lemma {:induction false} GeneralDocsExact(docs: seq<ContextDocument>, all: seq<ContextDocument>)
    requires forall d :: d in docs ==> d in all
    ensures forall d :: d in GeneralDocs(docs, PolicyDocs(all), ProcedureDocs(all)) <==>
                        d in docs && !IsPolicy(d) && !IsProcedure(d)
  {
    if docs != [] {
      GeneralDocsExact(docs[1..], all);
      assert docs == [docs[0]] + docs[1..];
    }
  }

  /** One section: its header followed by at most two bullet lines. */
  function Section(header: string, docs: seq<ContextDocument>): (lines: seq<string>)
    ensures docs == [] <==> lines == []
    ensures docs != [] ==> lines[0] == header && |lines| == 1 + |Sorting.Take(docs, 2)|
    ensures |lines| <= 3
    ensures forall i :: 1 <= i < |lines| ==> lines[i] == "- " + docs[i - 1].content
  {
    if docs == [] then []
    else
      var shown := Sorting.Take(docs, 2);
      [header] + seq(|shown|, i requires 0 <= i < |shown| => "- " + shown[i].content)
  }

  /** The lines of `synthesize_documents`: policy, procedure and general
      sections in that order. */
  function SynthesisParts(docs: seq<ContextDocument>): (parts: seq<string>)
    ensures |parts| <= 9
  {
    var policy := PolicyDocs(docs);
    var procedure := ProcedureDocs(docs);
    Section("**Policy Guidelines:**", policy) +
    Section("**Procedures:**", procedure) +
    Section("**General Information:**", GeneralDocs(docs, policy, procedure))
  }

  function SynthesizeDocuments(docs: seq<ContextDocument>): string {
    if docs == [] then "No relevant documentation found."
    else Join("\n", SynthesisParts(docs))
  }

  // ---------------------------------------------------------------------------
  // Complexity

  datatype Complexity = Complexity(level: string, reasoning: string, recommendedApproach: string, estimatedSteps: nat)

  const SimpleIndicators: seq<string> := ["password", "login", "forgot", "reset", "email", "profile"]
  const ModerateIndicators: seq<string> := ["setup", "configuration", "installation", "integration", "permission"]
  const ComplexIndicators: seq<string> := ["api", "webhook", "database", "custom", "advanced", "development"]

  function Rank(level: string): nat {
    if level == "complex" then 2 else if level == "moderate" then 1 else 0
  }

  /** The keyword-based assessment before the category adjustment. */
  function BaseComplexity(text: string): (c: Complexity)
    ensures c.level == "complex" <==> CountPresent(ComplexIndicators, text) > 0
    ensures c.level == "moderate" <==>
              CountPresent(ComplexIndicators, text) == 0 &&
              CountPresent(ModerateIndicators, text) > CountPresent(SimpleIndicators, text)
    ensures c.level == "simple" <==>
              CountPresent(ComplexIndicators, text) == 0 &&
              CountPresent(ModerateIndicators, text) <= CountPresent(SimpleIndicators, text)
    ensures c.level == "complex" ==>
              c.reasoning == "Technical issue requiring detailed analysis" &&
              c.recommendedApproach == "step_by_step_technical"
    ensures c.level == "moderate" ==>
              c.reasoning == "Configuration or setup related issue" &&
              c.recommendedApproach == "guided_resolution"
    ensures c.level == "simple" ==>
              c.reasoning == "Common user account or access issue" &&
              c.recommendedApproach == "direct_solution"
    ensures c.level in {"simple", "moderate", "complex"}
  {
    if CountPresent(ComplexIndicators, text) > 0 then
      Complexity("complex", "Technical issue requiring detailed analysis", "step_by_step_technical", 0)
    else if CountPresent(ModerateIndicators, text) > CountPresent(SimpleIndicators, text) then
      Complexity("moderate", "Configuration or setup related issue", "guided_resolution", 0)
    else
      Complexity("simple", "Common user account or access issue", "direct_solution", 0)
  }

  /** `assess_issue_complexity`: Security and Technical tickets move one level
      up (complex stays complex); reasoning and approach are those of the
      level before the adjustment. */
  function AssessIssueComplexity(t: TicketInfo, category: string): (c: Complexity)
    ensures var base := BaseComplexity(CombinedText(t));
            c.reasoning == base.reasoning && c.recommendedApproach == base.recommendedApproach &&
            Rank(c.level) >= Rank(base.level) &&
            (category !in {"Security", "Technical"} ==> c.level == base.level) &&
            (category in {"Security", "Technical"} ==> Rank(c.level) == if base.level == "complex" then 2 else Rank(base.level) + 1)
    ensures c.level in {"simple", "moderate", "complex"}
    ensures c.estimatedSteps == EstimatedSteps(c.level)
  {
    var base := BaseComplexity(CombinedText(t));
    var level :=
      if category in {"Security", "Technical"} then
        if base.level == "simple" then "moderate"
        else if base.level == "moderate" then "complex"
        else base.level
      else base.level;
    Complexity(level, base.reasoning, base.recommendedApproach, EstimatedSteps(level))
  }

  /** `get_estimated_steps`: simple 2, moderate 4, complex 6, anything else 3. */
  function EstimatedSteps(level: string): (n: nat)
    ensures level == "simple" ==> n == 2
    ensures level == "moderate" ==> n == 4
    ensures level == "complex" ==> n == 6
    ensures level !in {"simple", "moderate", "complex"} ==> n == 3
  {
    if level == "simple" then 2
    else if level == "moderate" then 4
    else if level == "complex" then 6
    else 3
  }

  // ---------------------------------------------------------------------------
  // Response wrapping

  const UrgentLine: string := "\U{1F6A8} I understand this is urgent and I'm prioritizing your request."

  function ConfidenceLine(confidence: string): string {
    if confidence == "high" then "Based on our comprehensive policy documentation, here's what I can help you with:"
    else if confidence == "medium" then "I found some relevant information that should help:"
    else "While I have limited specific documentation for this exact issue, I can provide general guidance:"
  }

  const DeveloperClosing: string :=
    "If you need additional API documentation or technical specifications, please let me know. I'm here to support your development work."
  const BusinessClosing: string :=
    "I'm committed to ensuring your business operations run smoothly. Please don't hesitate to reach out if you need further assistance."
  const EndUserClosing: string :=
    "I hope this helps resolve your issue. If you have any questions or need clarification on any of these steps, I'm here to help."

  /** `get_personalized_closing`: one closing per user type, the end-user
      closing for any type other than developer and business user. */
  function PersonalizedClosing(profile: UserProfile): (closing: string)
    ensures closing == DeveloperClosing <==> profile.userType == "developer"
    ensures closing == BusinessClosing <==> profile.userType == "business_user"
    ensures closing == EndUserClosing <==> profile.userType !in {"developer", "business_user"}
  {
    assert |DeveloperClosing| == 132 && |BusinessClosing| == 131 && |EndUserClosing| == 126;
    if profile.userType == "developer" then DeveloperClosing
    else if profile.userType == "business_user" then BusinessClosing
    else EndUserClosing
  }

  /** The enhanced response around `response`: `head`, then the optional
      `urgent` line, then the response, then `tail`, separated by blank lines. */
  function Layout(head: string, urgent: seq<string>, response: string, tail: string): (r: string)
    requires |urgent| <= 1
    ensures |head| <= |r| && r[..|head|] == head
    ensures |tail| <= |r| && r[|r| - |tail|..] == tail
    ensures Contains(r, response)
    ensures forall line :: line in urgent ==> Contains(r, line)
  {
    var prefix := if urgent == [] then head + "\n\n" else head + "\n\n" + urgent[0] + "\n\n";
    var r := prefix + response + tail;
    assert r[|prefix|..|prefix| + |response|] == response;
    ContainsAt(r, response, |prefix|);
    if urgent == [] then r
    else
      var at := |head| + 2;
      assert r[at..at + |urgent[0]|] == urgent[0];
      ContainsAt(r, urgent[0], at);
      r
  }

  /** `enhance_response_with_context`: the confidence line first, then the
      urgency line when urgency is high, then the response, then the closing. */
  function EnhanceResponseWithContext(response: string, profile: UserProfile, analysis: ContextAnalysis): (r: string)
    ensures var head := ConfidenceLine(analysis.confidenceLevel);
            |head| <= |r| && r[..|head|] == head
    ensures var tail := "\n\n" + PersonalizedClosing(profile);
            |tail| <= |r| && r[|r| - |tail|..] == tail
    ensures Contains(r, response)
    ensures profile.urgency == "high" ==> Contains(r, UrgentLine)
    ensures r != []
  {
    var enhancements :=
      (if profile.urgency == "high" then [UrgentLine] else []) + [ConfidenceLine(analysis.confidenceLevel)];
    // The last enhancement leads; an earlier one follows it.
    Layout(enhancements[|enhancements| - 1], enhancements[..|enhancements| - 1], response,
           "\n\n" + PersonalizedClosing(profile))
  }
}
