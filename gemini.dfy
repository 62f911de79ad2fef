/**
 * The Gemini client wrapper (internal/ai/gemini.go): the model-name default,
 * the final `{TEXT}` and `{LANGUAGE}` substitution, and the classification of
 * what the API gave back. The network call itself is not modelled: its
 * result is an input.
 */
module Gemini {
  import opened Wrappers
  import opened Text
  import opened Templates

  const DefaultModelName := "gemini-1.5-flash-latest"

  /** `NewGeminiClient`: an empty model name is replaced, any other is used as given. */
  function EffectiveModelName(name: string): (r: string)
    ensures name != [] ==> r == name
    ensures name == [] ==> r == DefaultModelName
    ensures r != []
  {
    if name == [] then DefaultModelName else name
  }

  /** The prompt `ProcessText` sends: `{TEXT}` is replaced first, then `{LANGUAGE}` in the result. */
  function FinalPrompt(template: string, text: string, language: string): string {
    ReplaceAll(ReplaceAll(template, TextToken, text), LanguageToken, language)
  }

  /** A template with neither placeholder is sent as it is. */
  lemma FinalPromptKeepsPlainTemplate(template: string, text: string, language: string)
    requires !Contains(template, TextToken) && !Contains(template, LanguageToken)
    ensures FinalPrompt(template, text, language) == template
  {
    ReplaceAllWithoutOccurrence(template, TextToken, text);
    ReplaceAllWithoutOccurrence(template, LanguageToken, language);
  }

  // ----- The substitution order -----

  /** A `{LANGUAGE}` typed by the user is replaced too, since it is in place before the second pass. */
  lemma LanguageInTextIsReplaced(text: string, language: string)
    ensures FinalPrompt(TextToken, text, language) == ReplaceAll(text, LanguageToken, language)
  {
    ReplaceAllAtPattern(TextToken, [], text);
    assert text + [] == text;
    assert TextToken + [] == TextToken;
  }

  /** A `{TEXT}` inside the language is never replaced: the text pass is already over. */
  lemma TextInLanguageSurvives(text: string, language: string)
    ensures FinalPrompt(LanguageToken, text, language) == language
  {
    PlaceholdersAreTokens();
    assert LanguageToken == [] + LanguageToken + [];
    ReplaceAllSkipsOtherToken(LanguageToken, [], TextToken, text);
    ReplaceAllAtPattern(LanguageToken, [], language);
    assert LanguageToken + [] == LanguageToken;
    assert language + [] == language;
  }

  /**
   * On a template whose plain text has no `{`, brace-free text and language
   * leave no `{TEXT}` and no `{LANGUAGE}` behind, and every other placeholder
   * is kept exactly where it was.
   */
  lemma FinalPromptFillsTemplate(segs: seq<Segment>, text: string, language: string)
    requires WellFormed(segs) && BraceFree(text) && BraceFree(language)
    ensures var outcome := Fill(Fill(segs, TextToken, text), LanguageToken, language);
            && FinalPrompt(Render(segs), text, language) == Render(outcome)
            && WellFormed(outcome)
            && forall t :: Slot(t) in outcome <==> Slot(t) in segs && t != TextToken && t != LanguageToken
  {
    PlaceholdersAreTokens();
    FillByReplaceAll(segs, TextToken, text);
    FillByReplaceAll(Fill(segs, TextToken, text), LanguageToken, language);
  }

  lemma FinalPromptHasNoPlaceholder(segs: seq<Segment>, text: string, language: string)
    requires WellFormed(segs) && BraceFree(text) && BraceFree(language)
    ensures !Contains(FinalPrompt(Render(segs), text, language), TextToken)
    ensures !Contains(FinalPrompt(Render(segs), text, language), LanguageToken)
  {
    PlaceholdersAreTokens();
    FinalPromptFillsTemplate(segs, text, language);
    var outcome := Fill(Fill(segs, TextToken, text), LanguageToken, language);
    ContainsIffSlot(outcome, TextToken);
    ContainsIffSlot(outcome, LanguageToken);
  }

  /**
   * For an arbitrary template the same claim fails even with empty text: the
   * two halves of `{TE{LANGUAGE}XT}` join up once `{LANGUAGE}` is removed.
   */
  lemma FinalPromptCanLeaveText()
    ensures FinalPrompt("{" + "TE" + LanguageToken + "XT}", [], []) == TextToken
  {
    PlaceholdersAreTokens();
    var template := "{" + "TE" + LanguageToken + "XT}";
    assert TextToken == "{" + "TE" + "XT}";
    assert ReplaceAll(template, TextToken, []) == template by {
      assert !StartsWith(template, TextToken) by {
        assert template[3] != TextToken[3];
      }
      assert template[1..] == "TE" + (LanguageToken + "XT}");
      ReplaceAllSkipsBraceFree("TE", LanguageToken + "XT}", TextToken, []);
      ReplaceAllSkipsOtherToken(LanguageToken, "XT}", TextToken, []);
      ReplaceAllSkipsBraceFree("XT}", [], TextToken, []);
      assert "XT}" + [] == "XT}";
    }
    assert !StartsWith(template, LanguageToken) by {
      assert template[1] != LanguageToken[1];
    }
    ReplaceAllJoinsUp("TE", "XT}", LanguageToken);
  }

  // ----- The response -----

  datatype BlockReason = Unspecified | Reason(name: string)

  datatype SafetyRating = SafetyRating(category: string, probability: string, blocked: bool)

  datatype PromptFeedback = PromptFeedback(blockReason: BlockReason, safetyRatings: seq<SafetyRating>)

  /** A content part: text, or a part of any other kind (inline data, a function call, ...). */
  datatype Part = TextPart(text: string) | OtherPart(kind: string)

  datatype Content = Content(parts: seq<Part>)

  datatype Candidate = Candidate(content: Option<Content>)

  datatype Response = Response(promptFeedback: Option<PromptFeedback>, candidates: seq<Candidate>)

  /** What `GenerateContent` gave: an error, or a possibly nil response. */
  type Reply = Result<Option<Response>, string>

  /** The failures `ProcessText` reports, one per check. */
  datatype AiError =
    | CallFailed(cause: string)
    | NilResponse
    | PromptBlocked(reason: string)
    | SafetyBlocked(category: string, probability: string)
    | NoContent
    | UnexpectedPart(kind: string)

  /** The first rating that blocked generation, if any. */
  function FirstBlocked(ratings: seq<SafetyRating>): (r: Option<SafetyRating>)
    ensures r.None? <==> forall i | 0 <= i < |ratings| :: !ratings[i].blocked
    ensures r.Some? ==> exists i | 0 <= i < |ratings| ::
              ratings[i] == r.value && r.value.blocked && forall j | 0 <= j < i :: !ratings[j].blocked
  {
    if ratings == [] then None
    else if ratings[0].blocked then Some(ratings[0])
    else
      var r := FirstBlocked(ratings[1..]);
      assert forall i | 1 <= i < |ratings| :: ratings[i] == ratings[1..][i - 1];
      r
  }

  /** The response passes the feedback checks: no block reason and no blocking rating. */
  predicate NotBlocked(resp: Response) {
    resp.promptFeedback.Some? ==>
      && resp.promptFeedback.value.blockReason == Unspecified
      && forall i | 0 <= i < |resp.promptFeedback.value.safetyRatings| :: !resp.promptFeedback.value.safetyRatings[i].blocked
  }

  /** The response has a first part of a first candidate to look at. */
  predicate HasContent(resp: Response) {
    |resp.candidates| > 0 && resp.candidates[0].content.Some? && |resp.candidates[0].content.value.parts| > 0
  }

  function FirstPart(resp: Response): Part
    requires HasContent(resp)
  {
    resp.candidates[0].content.value.parts[0]
  }

  /** `ProcessText` after the call: the checks in order, each with its own failure. */
  function Classify(reply: Reply): (r: Result<string, AiError>)
    ensures reply.Failure? ==> r == Failure(CallFailed(reply.error))
    ensures reply == Success(None) ==> r == Failure(NilResponse)
    ensures r.Success? <==>
              && reply.Success? && reply.value.Some? && NotBlocked(reply.value.value)
              && HasContent(reply.value.value) && FirstPart(reply.value.value).TextPart?
    ensures r.Success? ==> r.value == FirstPart(reply.value.value).text
    ensures reply.Success? && reply.value.Some? && !NotBlocked(reply.value.value) ==>
              r.Failure? && (r.error.PromptBlocked? || r.error.SafetyBlocked?)
    ensures reply.Success? && reply.value.Some? && reply.value.value.promptFeedback.Some?
            && reply.value.value.promptFeedback.value.blockReason.Reason? ==>
              r == Failure(PromptBlocked(reply.value.value.promptFeedback.value.blockReason.name))
    ensures reply.Success? && reply.value.Some? && reply.value.value.promptFeedback.Some?
            && reply.value.value.promptFeedback.value.blockReason == Unspecified
            && FirstBlocked(reply.value.value.promptFeedback.value.safetyRatings).Some? ==>
              var rating := FirstBlocked(reply.value.value.promptFeedback.value.safetyRatings).value;
              r == Failure(SafetyBlocked(rating.category, rating.probability))
    ensures reply.Success? && reply.value.Some? && NotBlocked(reply.value.value) && !HasContent(reply.value.value) ==>
              r == Failure(NoContent)
    ensures reply.Success? && reply.value.Some? && NotBlocked(reply.value.value) && HasContent(reply.value.value)
            && FirstPart(reply.value.value).OtherPart? ==>
              r == Failure(UnexpectedPart(FirstPart(reply.value.value).kind))
  {
    match reply
    case Failure(e) => Failure(CallFailed(e))
    case Success(None) => Failure(NilResponse)
    case Success(Some(resp)) =>
      if resp.promptFeedback.Some? && resp.promptFeedback.value.blockReason.Reason? then
        Failure(PromptBlocked(resp.promptFeedback.value.blockReason.name))
      else if resp.promptFeedback.Some? && FirstBlocked(resp.promptFeedback.value.safetyRatings).Some? then
        var rating := FirstBlocked(resp.promptFeedback.value.safetyRatings).value;
        Failure(SafetyBlocked(rating.category, rating.probability))
      else if !HasContent(resp) then
        Failure(NoContent)
      else
        match FirstPart(resp)
        case TextPart(t) => Success(t)
        case OtherPart(k) => Failure(UnexpectedPart(k))
  }

  /** A blocking rating is reported with the category and probability of the first one that blocked. */
  lemma SafetyBlockNamesFirstRating(resp: Response, k: nat)
    requires resp.promptFeedback.Some? && resp.promptFeedback.value.blockReason == Unspecified
    requires k < |resp.promptFeedback.value.safetyRatings|
    requires resp.promptFeedback.value.safetyRatings[k].blocked
    requires forall j | 0 <= j < k :: !resp.promptFeedback.value.safetyRatings[j].blocked
    ensures var rating := resp.promptFeedback.value.safetyRatings[k];
            Classify(Success(Some(resp))) == Failure(SafetyBlocked(rating.category, rating.probability))
  {
    var ratings := resp.promptFeedback.value.safetyRatings;
    assert FirstBlocked(ratings).Some? by {
      assert ratings[k].blocked;
    }
    var i :| 0 <= i < |ratings| && ratings[i] == FirstBlocked(ratings).value && ratings[i].blocked
             && forall j | 0 <= j < i :: !ratings[j].blocked;
    assert i == k;
  }

  /** Only the first part of the first candidate is read: any later parts or candidates change nothing. */
  lemma ClassifyReadsFirstPartOnly(resp: Response, more: seq<Part>, others: seq<Candidate>)
    requires HasContent(resp)
    ensures var c := Candidate(Some(Content([FirstPart(resp)] + more)));
            Classify(Success(Some(resp.(candidates := [c] + others)))) == Classify(Success(Some(resp)))
  {
  }
}
