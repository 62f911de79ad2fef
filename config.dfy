/**
 * The configuration record every command reads (internal/config/config.go).
 * The keys are the names the persisted file uses for each field.
 */
module Config {
  import opened Wrappers

  /** One tone: a description for people, an instruction for the model. */
  datatype MoodInstruction = MoodInstruction(description: string, instruction: string)

  /** The four prompt templates, one per task. */
  datatype Prompts = Prompts(
    default: string,
    englishFixOnly: string,
    explainText: string,
    answerQuestion: string)

  /**
   * The whole configuration. `defaultMood` is meant to be a key of `moods`;
   * nothing enforces it. `geminiApiKey` is optional: it is the credential of
   * last resort.
   */
  datatype Config = Config(
    defaultLanguage: string,
    editor: string,
    geminiApiKey: string,
    geminiModel: string,
    defaultMood: string,
    moods: map<string, MoodInstruction>,
    prompts: Prompts)

  const DefaultKey := "default"
  const EnglishFixOnlyKey := "english_fix_only"
  const ExplainTextKey := "explain_text"
  const AnswerQuestionKey := "answer_question"

  /** The template a `prompts.<key>` entry of the persisted file sets. */
  function PromptByKey(p: Prompts, key: string): (r: Option<string>)
    ensures r.Some? <==> key in {DefaultKey, EnglishFixOnlyKey, ExplainTextKey, AnswerQuestionKey}
    ensures r.Some? ==> r.value in {p.default, p.englishFixOnly, p.explainText, p.answerQuestion}
  {
    if key == DefaultKey then Some(p.default)
    else if key == EnglishFixOnlyKey then Some(p.englishFixOnly)
    else if key == ExplainTextKey then Some(p.explainText)
    else if key == AnswerQuestionKey then Some(p.answerQuestion)
    else None
  }

  /** Each template is reachable under exactly one key: the four keys are a bijection onto the fields. */
  lemma PromptKeysAreDistinct(p: Prompts, q: Prompts)
    requires forall k | k in {DefaultKey, EnglishFixOnlyKey, ExplainTextKey, AnswerQuestionKey} ::
               PromptByKey(p, k) == PromptByKey(q, k)
    ensures p == q
  {
    assert PromptByKey(p, DefaultKey) == PromptByKey(q, DefaultKey);
    assert PromptByKey(p, EnglishFixOnlyKey) == PromptByKey(q, EnglishFixOnlyKey);
    assert PromptByKey(p, ExplainTextKey) == PromptByKey(q, ExplainTextKey);
    assert PromptByKey(p, AnswerQuestionKey) == PromptByKey(q, AnswerQuestionKey);
  }
}
