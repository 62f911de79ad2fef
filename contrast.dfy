/**
 * How the commands differ and what they share once the configuration has
 * been completed: statements that relate fix, answer and explain.
 */
module Contrast {
  import opened Config
  import opened Moods
  import Root
  import Fix
  import Answer
  import Explain

  /**
   * The same unknown mood under the built-in moods and a neutral default:
   * `fix` keeps the unknown key and injects nothing, `answer` rebinds the key
   * to "neutral" and injects its sentence. Both warn once.
   */
  lemma UnknownMoodFixVersusAnswer(cfg: Config, fixFlags: Fix.Flags, answerFlags: Answer.Flags)
    requires cfg.moods == DefaultMoods() && cfg.defaultMood == Neutral
    requires fixFlags.moodChanged && answerFlags.moodChanged && fixFlags.moodKey == answerFlags.moodKey
    requires fixFlags.moodKey != [] && fixFlags.moodKey !in DefaultMoods()
    ensures Fix.MoodKey(cfg, fixFlags) == fixFlags.moodKey && Answer.ResolvedKey(cfg, answerFlags) == Neutral
    ensures Fix.Instruction(cfg, fixFlags) == [] && Answer.Instruction(cfg, answerFlags) == Answer.NeutralSentence
    ensures Warnings(cfg.moods, cfg.defaultMood, Fix.MoodKey(cfg, fixFlags))
            == Warnings(cfg.moods, cfg.defaultMood, Answer.MoodKey(cfg, answerFlags))
  {
    Fix.UnknownMoodInjectsNothing(cfg, fixFlags);
    Answer.UnknownMoodGetsNeutralSentence(cfg, answerFlags);
  }

  /**
   * An empty `--language` falls back to the default for `fix`, but is used
   * as it is by `answer` and `explain`, which only ask whether it was given.
   */
  lemma EmptyLanguageFlag(cfg: Config, fixFlags: Fix.Flags, answerFlags: Answer.Flags, explainFlags: Explain.Flags)
    requires fixFlags.language == [] && fixFlags.promptKey == []
    requires answerFlags.languageChanged && answerFlags.language == []
    requires explainFlags.languageChanged && explainFlags.language == []
    ensures Fix.Choice(cfg, fixFlags).language == cfg.defaultLanguage
    ensures Answer.Language(cfg, answerFlags) == [] && Explain.Language(cfg, explainFlags) == []
  {
  }

  /** After the defaults are applied, no command can stop for want of a template. */
  lemma CompletedConfigHasEveryTemplate(c: Config, fixFlags: Fix.Flags)
    ensures Fix.Choice(Root.Normalized(c), fixFlags).template != []
    ensures Root.Normalized(c).prompts.answerQuestion != []
    ensures Root.Normalized(c).prompts.explainText != []
  {
    Fix.NormalizedAlwaysHasTemplate(Root.Normalized(c), fixFlags);
  }
}
