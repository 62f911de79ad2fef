/**
 * The compiled-in prompt templates (`defaultPromptsConfig`, cmd/root.go),
 * one per task. Each template is a segment list: literal text, named line by
 * line, and the placeholder slots between the lines. `BuiltinPrompts` renders
 * them to the strings the program holds.
 */
module PromptStore {
  import opened Text
  import opened Templates
  import opened Config

  const ProofreaderRole: string :=
    "You are an "
    + "expert "
    + "proofreader and "
    + "linguistic "
    + "assistant.\n"

  const ReviewTask: string :=
    "Your primary "
    + "task is to "
    + "meticulously "
    + "review the "
    + "following text.\n"

  const CorrectErrors: string :=
    "Correct all "
    + "spelling and "
    + "grammatical "
    + "errors.\n"

  const ImproveFlow: string :=
    "Improve the "
    + "flow and "
    + "clarity of the "
    + "text, "
    + "rephrasing "
    + "sentences or "
    + "restructuring "
    + "paragraphs if "
    + "necessary to "
    + "make it sound "
    + "natural and "
    + "well-written.\n"

  const OutputLanguageLead: string :=
    "The final "
    + "output should "
    + "be in "

  const FixNoPreamble: string :=
    "Do NOT include "
    + "any preambles, "
    + "apologies, or "
    + "explanations in "
    + "your response. "
    + "Only return the "
    + "corrected and "
    + "refined text.\n"

  const OriginalTextHeading: string :=
    "Original text "
    + "to process:\n"

  const EnglishProofreaderRole: string :=
    "You are an "
    + "expert English "
    + "proofreader.\n"

  const EnglishReviewTask: string :=
    "Your primary "
    + "task is to "
    + "meticulously "
    + "review the "
    + "following "
    + "English text.\n"

  const NoTranslationNeeded: string :=
    "The text is "
    + "already in "
    + "English, so no "
    + "translation is "
    + "needed.\n"

  const SimplifierRole: string :=
    "You are an "
    + "expert at "
    + "simplifying "
    + "complex topics.\n"

  const ExplainTask: string :=
    "The user will "
    + "provide a piece "
    + "of text. Your "
    + "task is to "
    + "explain the "
    + "main concepts "
    + "or what the "
    + "person is "
    + "talking about "
    + "in that text.\n"

  const ExplanationCriteria: string :=
    "The explanation "
    + "should be:\n"

  const KeepSimple: string :=
    "1. Simple and "
    + "easy to "
    + "understand, "
    + "even for "
    + "someone not "
    + "familiar with "
    + "the topic.\n"

  const KeepConcise: string :=
    "2. Concise and "
    + "to the point. "
    + "Aim for a short "
    + "summary.\n"

  const ExplainLanguageLead: string :=
    "3. If a "
    + "specific output "
    + "language is "
    + "requested via "
    + "the "

  const ExplainLanguageRule: string :=
    " placeholder, "
    + "use that "
    + "language. "
    + "Otherwise, "
    + "attempt to "
    + "provide the "
    + "explanation in "
    + "the SAME "
    + "language as the "
    + "input text ("

  const ExplainNoPreamble: string :=
    "Do NOT include "
    + "any preambles, "
    + "apologies, or "
    + "phrases like "
    + "\"This text is "
    + "about...\". Just "
    + "provide the "
    + "explanation "
    + "directly.\n"

  const ExplainHeading: string :=
    "Text to "
    + "explain:\n"

  const AssistantRole: string :=
    "You are an "
    + "intelligent and "
    + "helpful "
    + "assistant.\n"

  const AnswerTask: string :=
    "The user will "
    + "provide a "
    + "question. Your "
    + "task is to "
    + "provide a "
    + "clear, concise, "
    + "and accurate "
    + "answer to that "
    + "question.\n"

  const AnswerCriteria: string :=
    "Consider the "
    + "following when "
    + "formulating "
    + "your response:\n"

  const AddressQuestion: string :=
    "1. Directly "
    + "address the "
    + "question asked.\n"

  const AnswerLanguageLead: string :=
    "2. Provide the "
    + "answer in the "

  const MoodLead: string :=
    "3. Adjust the "
    + "tone of your "
    + "answer "
    + "according to "
    + "the specified "
    + "mood: "

  const NeutralHint: string :=
    "   If no "
    + "specific mood "
    + "instruction is "
    + "given for "
    + "\"neutral\", "
    + "answer in a "
    + "helpful and "
    + "informative "
    + "default tone.\n"

  const AnswerNoPreamble: string :=
    "Do NOT include "
    + "any preambles "
    + "like \"Here is "
    + "the answer to "
    + "your question:\" "
    + "or \"The answer "
    + "is:\". Just "
    + "provide the "
    + "answer "
    + "directly.\n"

  const QuestionHeading: string :=
    "Question to "
    + "answer:\n"

  const DefaultSegments: seq<Segment> := [
    Lit(ProofreaderRole + ReviewTask + CorrectErrors + ImproveFlow + OutputLanguageLead),
    Slot(LanguageToken),
    Lit(".\n"),
    Slot(MoodToken),
    Lit("\n" + FixNoPreamble + "\n" + OriginalTextHeading + "---\n"),
    Slot(TextToken),
    Lit("\n---")
  ]

  /** The opening text of the English-only template, before its mood slot. */
  const EnglishFixOnlyLead: string := EnglishProofreaderRole + EnglishFixOnlyRest

  const EnglishFixOnlySegments: seq<Segment> := [
    Lit(EnglishFixOnlyLead),
    Slot(MoodToken),
    Lit("\n" + FixNoPreamble + "\n" + OriginalTextHeading + "---\n"),
    Slot(TextToken),
    Lit("\n---")
  ]

  const ExplainTextSegments: seq<Segment> := [
    Lit(SimplifierRole + ExplainTask + ExplanationCriteria + KeepSimple + KeepConcise + ExplainLanguageLead),
    Slot(LanguageToken),
    Lit(ExplainLanguageRule),
    Slot(TextToken),
    Lit(").\n" + ExplainNoPreamble + "\n" + ExplainHeading + "---\n"),
    Slot(TextToken),
    Lit("\n---")
  ]

  const AnswerQuestionSegments: seq<Segment> := [
    Lit(AssistantRole + AnswerTask + AnswerCriteria + AddressQuestion + AnswerLanguageLead),
    Slot(LanguageToken),
    Lit(" language.\n" + MoodLead),
    Slot(MoodToken),
    Lit("\n" + NeutralHint + AnswerNoPreamble + "\n" + QuestionHeading + "---\n"),
    Slot(TextToken),
    Lit("\n---")
  ]

  // No line of the built-in text contains a brace (one small proof per line).
  lemma ProofreaderRoleBraceFree() ensures BraceFree(ProofreaderRole) { }
  lemma ReviewTaskBraceFree() ensures BraceFree(ReviewTask) { }
  lemma CorrectErrorsBraceFree() ensures BraceFree(CorrectErrors) { }
  lemma ImproveFlowBraceFree() ensures BraceFree(ImproveFlow) { }
  lemma OutputLanguageLeadBraceFree() ensures BraceFree(OutputLanguageLead) { }
  lemma FixNoPreambleBraceFree() ensures BraceFree(FixNoPreamble) { }
  lemma OriginalTextHeadingBraceFree() ensures BraceFree(OriginalTextHeading) { }
  lemma EnglishProofreaderRoleBraceFree() ensures BraceFree(EnglishProofreaderRole) { }
  lemma EnglishReviewTaskBraceFree() ensures BraceFree(EnglishReviewTask) { }
  lemma NoTranslationNeededBraceFree() ensures BraceFree(NoTranslationNeeded) { }
  lemma SimplifierRoleBraceFree() ensures BraceFree(SimplifierRole) { }
  lemma ExplainTaskBraceFree() ensures BraceFree(ExplainTask) { }
  lemma ExplanationCriteriaBraceFree() ensures BraceFree(ExplanationCriteria) { }
  lemma KeepSimpleBraceFree() ensures BraceFree(KeepSimple) { }
  lemma KeepConciseBraceFree() ensures BraceFree(KeepConcise) { }
  lemma ExplainLanguageLeadBraceFree() ensures BraceFree(ExplainLanguageLead) { }
  lemma ExplainLanguageRuleBraceFree() ensures BraceFree(ExplainLanguageRule) { }
  lemma ExplainNoPreambleBraceFree() ensures BraceFree(ExplainNoPreamble) { }
  lemma ExplainHeadingBraceFree() ensures BraceFree(ExplainHeading) { }
  lemma AssistantRoleBraceFree() ensures BraceFree(AssistantRole) { }
  lemma AnswerTaskBraceFree() ensures BraceFree(AnswerTask) { }
  lemma AnswerCriteriaBraceFree() ensures BraceFree(AnswerCriteria) { }
  lemma AddressQuestionBraceFree() ensures BraceFree(AddressQuestion) { }
  lemma AnswerLanguageLeadBraceFree() ensures BraceFree(AnswerLanguageLead) { }
  lemma MoodLeadBraceFree() ensures BraceFree(MoodLead) { }
  lemma NeutralHintBraceFree() ensures BraceFree(NeutralHint) { }
  lemma AnswerNoPreambleBraceFree() ensures BraceFree(AnswerNoPreamble) { }
  lemma QuestionHeadingBraceFree() ensures BraceFree(QuestionHeading) { }

  /** The four built-in templates as the strings the program holds. */
  function BuiltinPrompts(): Prompts {
    Prompts(
      Render(DefaultSegments),
      Render(EnglishFixOnlySegments),
      Render(ExplainTextSegments),
      Render(AnswerQuestionSegments))
  }

  lemma BuiltinsWellFormed()
    ensures WellFormed(DefaultSegments) && WellFormed(EnglishFixOnlySegments)
    ensures WellFormed(ExplainTextSegments) && WellFormed(AnswerQuestionSegments)
  {
    DefaultWellFormed();
    EnglishFixOnlyWellFormed();
    ExplainTextWellFormed();
    AnswerQuestionWellFormed();
  }

  lemma DefaultWellFormed() ensures WellFormed(DefaultSegments) {
    PlaceholdersAreTokens();
    ProofreaderRoleBraceFree();
    ReviewTaskBraceFree();
    CorrectErrorsBraceFree();
    ImproveFlowBraceFree();
    OutputLanguageLeadBraceFree();
    FixNoPreambleBraceFree();
    OriginalTextHeadingBraceFree();
  }

  lemma EnglishFixOnlyWellFormed() ensures WellFormed(EnglishFixOnlySegments) {
    PlaceholdersAreTokens();
    EnglishProofreaderRoleBraceFree();
    EnglishReviewTaskBraceFree();
    CorrectErrorsBraceFree();
    ImproveFlowBraceFree();
    NoTranslationNeededBraceFree();
    FixNoPreambleBraceFree();
    OriginalTextHeadingBraceFree();
  }

  lemma ExplainTextWellFormed() ensures WellFormed(ExplainTextSegments) {
    PlaceholdersAreTokens();
    SimplifierRoleBraceFree();
    ExplainTaskBraceFree();
    ExplanationCriteriaBraceFree();
    KeepSimpleBraceFree();
    KeepConciseBraceFree();
    ExplainLanguageLeadBraceFree();
    ExplainLanguageRuleBraceFree();
    ExplainNoPreambleBraceFree();
    ExplainHeadingBraceFree();
  }

  lemma AnswerQuestionWellFormed() ensures WellFormed(AnswerQuestionSegments) {
    PlaceholdersAreTokens();
    AssistantRoleBraceFree();
    AnswerTaskBraceFree();
    AnswerCriteriaBraceFree();
    AddressQuestionBraceFree();
    AnswerLanguageLeadBraceFree();
    MoodLeadBraceFree();
    NeutralHintBraceFree();
    AnswerNoPreambleBraceFree();
    QuestionHeadingBraceFree();
  }

  // ----- Which placeholders each built-in template carries -----

  // The default template
  lemma DefaultHasText() ensures Contains(BuiltinPrompts().default, TextToken) {
    DefaultWellFormed();
    PlaceholdersAreTokens();
    ContainsIffSlot(DefaultSegments, TextToken);
  }

  lemma DefaultHasLanguage() ensures Contains(BuiltinPrompts().default, LanguageToken) {
    DefaultWellFormed();
    PlaceholdersAreTokens();
    ContainsIffSlot(DefaultSegments, LanguageToken);
  }

  lemma DefaultHasMood() ensures Contains(BuiltinPrompts().default, MoodToken) {
    DefaultWellFormed();
    PlaceholdersAreTokens();
    ContainsIffSlot(DefaultSegments, MoodToken);
  }

  // The englishFixOnly template
  lemma EnglishFixOnlyHasText() ensures Contains(BuiltinPrompts().englishFixOnly, TextToken) {
    EnglishFixOnlyWellFormed();
    PlaceholdersAreTokens();
    ContainsIffSlot(EnglishFixOnlySegments, TextToken);
  }

  lemma EnglishFixOnlyLacksLanguage() ensures !Contains(BuiltinPrompts().englishFixOnly, LanguageToken) {
    EnglishFixOnlyWellFormed();
    PlaceholdersAreTokens();
    assert Slot(LanguageToken) !in EnglishFixOnlySegments;
    ContainsIffSlot(EnglishFixOnlySegments, LanguageToken);
  }

  lemma EnglishFixOnlyHasMood() ensures Contains(BuiltinPrompts().englishFixOnly, MoodToken) {
    EnglishFixOnlyWellFormed();
    PlaceholdersAreTokens();
    ContainsIffSlot(EnglishFixOnlySegments, MoodToken);
  }

  /** Both fix templates have a slot for the input and one for the mood instruction. */
  lemma FixTemplateSlots()
    ensures Slot(TextToken) in DefaultSegments && Slot(MoodToken) in DefaultSegments
    ensures Slot(LanguageToken) in DefaultSegments
    ensures Slot(TextToken) in EnglishFixOnlySegments && Slot(MoodToken) in EnglishFixOnlySegments
  {
    assert DefaultSegments[5] == Slot(TextToken) && DefaultSegments[3] == Slot(MoodToken);
    assert DefaultSegments[1] == Slot(LanguageToken);
    assert EnglishFixOnlySegments[3] == Slot(TextToken) && EnglishFixOnlySegments[1] == Slot(MoodToken);
  }

  /** The English-only template has no language slot; it names English in its opening text. */
  lemma EnglishFixOnlyNamesEnglish()
    ensures Lit(EnglishFixOnlyLead) in EnglishFixOnlySegments
    ensures Contains(EnglishFixOnlyLead, "English")
  {
    assert EnglishFixOnlySegments[0] == Lit(EnglishFixOnlyLead);
    EnglishProofreaderRoleNamesEnglish();
    ContainsInAppend(EnglishProofreaderRole, EnglishFixOnlyRest, "English");
  }

  /** What follows the role line in the English-only template's opening text. */
  const EnglishFixOnlyRest: string := EnglishReviewTask + CorrectErrors + ImproveFlow + NoTranslationNeeded

  lemma EnglishProofreaderRoleNamesEnglish()
    ensures Contains(EnglishProofreaderRole, "English")
  {
    assert EnglishProofreaderRole[18..25] == "English";
    ContainsAt(EnglishProofreaderRole, "English", 18);
  }

  // The explainText template
  lemma ExplainTextHasText() ensures Contains(BuiltinPrompts().explainText, TextToken) {
    ExplainTextWellFormed();
    PlaceholdersAreTokens();
    ContainsIffSlot(ExplainTextSegments, TextToken);
  }

  lemma ExplainTextHasLanguage() ensures Contains(BuiltinPrompts().explainText, LanguageToken) {
    ExplainTextWellFormed();
    PlaceholdersAreTokens();
    ContainsIffSlot(ExplainTextSegments, LanguageToken);
  }

  lemma ExplainTextLacksMood() ensures !Contains(BuiltinPrompts().explainText, MoodToken) {
    ExplainTextWellFormed();
    PlaceholdersAreTokens();
    assert Slot(MoodToken) !in ExplainTextSegments;
    ContainsIffSlot(ExplainTextSegments, MoodToken);
  }

  // The answerQuestion template
  lemma AnswerQuestionHasText() ensures Contains(BuiltinPrompts().answerQuestion, TextToken) {
    AnswerQuestionWellFormed();
    PlaceholdersAreTokens();
    ContainsIffSlot(AnswerQuestionSegments, TextToken);
  }

  lemma AnswerQuestionHasLanguage() ensures Contains(BuiltinPrompts().answerQuestion, LanguageToken) {
    AnswerQuestionWellFormed();
    PlaceholdersAreTokens();
    ContainsIffSlot(AnswerQuestionSegments, LanguageToken);
  }

  lemma AnswerQuestionHasMood() ensures Contains(BuiltinPrompts().answerQuestion, MoodToken) {
    AnswerQuestionWellFormed();
    PlaceholdersAreTokens();
    ContainsIffSlot(AnswerQuestionSegments, MoodToken);
  }

  /**
   * All four built-in templates carry `{TEXT}`; the two fix templates carry
   * `{MOOD_INSTRUCTION}`; every template but the English-only one carries
   * `{LANGUAGE}`, and the explain template has no mood slot.
   */
  lemma BuiltinPlaceholders()
    ensures var p := BuiltinPrompts();
      && Contains(p.default, TextToken) && Contains(p.englishFixOnly, TextToken)
      && Contains(p.explainText, TextToken) && Contains(p.answerQuestion, TextToken)
      && Contains(p.default, MoodToken) && Contains(p.englishFixOnly, MoodToken)
      && Contains(p.answerQuestion, MoodToken) && !Contains(p.explainText, MoodToken)
      && Contains(p.default, LanguageToken) && Contains(p.explainText, LanguageToken)
      && Contains(p.answerQuestion, LanguageToken) && !Contains(p.englishFixOnly, LanguageToken)
  {
    DefaultHasText();
    DefaultHasLanguage();
    DefaultHasMood();
    EnglishFixOnlyHasText();
    EnglishFixOnlyLacksLanguage();
    EnglishFixOnlyHasMood();
    ExplainTextHasText();
    ExplainTextHasLanguage();
    ExplainTextLacksMood();
    AnswerQuestionHasText();
    AnswerQuestionHasLanguage();
    AnswerQuestionHasMood();
  }
}
