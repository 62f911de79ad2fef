/**
 * The program defaults that `initConfig` (cmd/root.go) applies to whatever
 * configuration was loaded: empty scalar fields get compiled-in values,
 * missing or outdated templates are replaced by the built-in ones, and an
 * empty mood map becomes the built-in registry. How the configuration was
 * found and decoded is not modelled: the loaded record is an input.
 */
module Root {
  import opened Text
  import opened Templates
  import opened Config
  import opened Moods
  import opened PromptStore

  const FallbackLanguage := "Norwegian"
  const FallbackEditor := "nvim"
  const FallbackModel := "gemini-1.5-flash-latest"
  const FallbackMood := Neutral

  /** The record `createDefaultConfig` writes for a first run (no API key). */
  function DefaultConfig(): Config {
    Config(FallbackLanguage, FallbackEditor, [], FallbackModel, FallbackMood, DefaultMoods(), BuiltinPrompts())
  }

  /** The record an empty configuration file yields. */
  const EmptyConfig := Config([], [], [], [], [], map[], Prompts([], [], [], []))

  /** A fix template is outdated when it cannot receive a mood instruction. */
  predicate FixTemplateUsable(t: string) {
    |t| > 0 && Contains(t, MoodToken)
  }

  /** What the rest of the program may rely on once the defaults are applied. */
  predicate Resolved(c: Config) {
    && c.defaultLanguage != [] && c.editor != [] && c.geminiModel != [] && c.defaultMood != []
    && FixTemplateUsable(c.prompts.default) && FixTemplateUsable(c.prompts.englishFixOnly)
    && |c.prompts.explainText| > 0 && |c.prompts.answerQuestion| > 0
    && |c.moods| > 0
  }

  /** A field's value, or the fallback when it is empty. */
  function OrElse(s: string, fallback: string): (r: string)
    ensures s != [] ==> r == s
    ensures s == [] ==> r == fallback
  {
    if s == [] then fallback else s
  }

  /** Built-in templates that would themselves pass every check of the defaults. */
  predicate TemplatesComplete(p: Prompts) {
    && FixTemplateUsable(p.default) && FixTemplateUsable(p.englishFixOnly)
    && |p.explainText| > 0 && |p.answerQuestion| > 0
  }

  /** Built-in values that would themselves pass every check of the defaults. */
  predicate Complete(builtins: Prompts, moods: map<string, MoodInstruction>) {
    TemplatesComplete(builtins) && |moods| > 0
  }

  /**
   * The configuration after the defaults of cmd/root.go:262-301, as one value,
   * for given built-in templates (`defaultPromptsConfig`) and moods
   * (`getDefaultMoods()`).
   */
  function NormalizedWith(c: Config, builtins: Prompts, moods: map<string, MoodInstruction>): (r: Config)
    ensures Complete(builtins, moods) ==> Resolved(r)
    ensures r.geminiApiKey == c.geminiApiKey
    ensures r.defaultLanguage == OrElse(c.defaultLanguage, FallbackLanguage)
    ensures r.editor == OrElse(c.editor, FallbackEditor)
    ensures r.geminiModel == OrElse(c.geminiModel, FallbackModel)
    ensures r.defaultMood == OrElse(c.defaultMood, FallbackMood)
    ensures r.prompts.default == if FixTemplateUsable(c.prompts.default) then c.prompts.default else builtins.default
    ensures r.prompts.englishFixOnly ==
              if FixTemplateUsable(c.prompts.englishFixOnly) then c.prompts.englishFixOnly else builtins.englishFixOnly
    ensures r.prompts.explainText == OrElse(c.prompts.explainText, builtins.explainText)
    ensures r.prompts.answerQuestion == OrElse(c.prompts.answerQuestion, builtins.answerQuestion)
    ensures r.moods == if |c.moods| == 0 then moods else c.moods
  {
    var p := c.prompts;
    Config(
      OrElse(c.defaultLanguage, FallbackLanguage),
      OrElse(c.editor, FallbackEditor),
      c.geminiApiKey,
      OrElse(c.geminiModel, FallbackModel),
      OrElse(c.defaultMood, FallbackMood),
      if |c.moods| == 0 then moods else c.moods,
      Prompts(
        if FixTemplateUsable(p.default) then p.default else builtins.default,
        if FixTemplateUsable(p.englishFixOnly) then p.englishFixOnly else builtins.englishFixOnly,
        OrElse(p.explainText, builtins.explainText),
        OrElse(p.answerQuestion, builtins.answerQuestion)))
  }

  /** The built-in templates pass the template checks. */
  lemma BuiltinTemplatesComplete()
    ensures TemplatesComplete(BuiltinPrompts())
  {
    BuiltinPlaceholders();
    ContainsLength(BuiltinPrompts().default, MoodToken);
    ContainsLength(BuiltinPrompts().englishFixOnly, MoodToken);
    ContainsLength(BuiltinPrompts().explainText, TextToken);
    ContainsLength(BuiltinPrompts().answerQuestion, TextToken);
  }

  /** The program's own built-in templates and moods pass every check. */
  lemma BuiltinsComplete()
    ensures Complete(BuiltinPrompts(), DefaultMoods())
  {
    BuiltinTemplatesComplete();
    DefaultMoodKeys();
  }

  /** The defaults with the program's own built-ins. */
  function Normalized(c: Config): (r: Config)
    ensures Resolved(r)
  {
    BuiltinsComplete();
    NormalizedWith(c, BuiltinPrompts(), DefaultMoods())
  }

  /**
   * The tail of `initConfig`: one field after another is checked and, when
   * missing, set. `defaultPrompts` and `defaultMoods` are the values of the
   * package variable `defaultPromptsConfig` and of `getDefaultMoods()`.
   */
  method ApplyProgramDefaults(loaded: Config, defaultPrompts: Prompts, defaultMoods: map<string, MoodInstruction>)
    returns (cfg: Config)
    ensures cfg == NormalizedWith(loaded, defaultPrompts, defaultMoods)
  {
    cfg := ApplyScalarDefaults(loaded);
    var prompts := ApplyPromptDefaults(cfg.prompts, defaultPrompts);
    cfg := cfg.(prompts := prompts);
    if |cfg.moods| == 0 {
      cfg := cfg.(moods := defaultMoods);
    }
  }

  /** The four scalar settings (cmd/root.go:262-277). */
  method ApplyScalarDefaults(loaded: Config) returns (cfg: Config)
    ensures cfg == loaded.(defaultLanguage := OrElse(loaded.defaultLanguage, FallbackLanguage),
                           editor := OrElse(loaded.editor, FallbackEditor),
                           geminiModel := OrElse(loaded.geminiModel, FallbackModel),
                           defaultMood := OrElse(loaded.defaultMood, FallbackMood))
  {
    cfg := loaded;
    if cfg.defaultLanguage == [] {
      cfg := cfg.(defaultLanguage := FallbackLanguage);
    }
    if cfg.editor == [] {
      cfg := cfg.(editor := FallbackEditor);
    }
    if cfg.geminiModel == [] {
      cfg := cfg.(geminiModel := FallbackModel);
    }
    if cfg.defaultMood == [] {
      cfg := cfg.(defaultMood := FallbackMood);
    }
  }

  /** The four templates (cmd/root.go:280-295): the fix templates must also take a mood. */
  method ApplyPromptDefaults(loaded: Prompts, defaultPrompts: Prompts) returns (p: Prompts)
    ensures p.default == if FixTemplateUsable(loaded.default) then loaded.default else defaultPrompts.default
    ensures p.englishFixOnly == if FixTemplateUsable(loaded.englishFixOnly) then loaded.englishFixOnly else defaultPrompts.englishFixOnly
    ensures p.explainText == OrElse(loaded.explainText, defaultPrompts.explainText)
    ensures p.answerQuestion == OrElse(loaded.answerQuestion, defaultPrompts.answerQuestion)
  {
    p := loaded;
    if |p.default| == 0 || !Contains(p.default, MoodToken) {
      p := p.(default := defaultPrompts.default);
    }
    if |p.englishFixOnly| == 0 || !Contains(p.englishFixOnly, MoodToken) {
      p := p.(englishFixOnly := defaultPrompts.englishFixOnly);
    }
    if |p.explainText| == 0 {
      p := p.(explainText := defaultPrompts.explainText);
    }
    if |p.answerQuestion| == 0 {
      p := p.(answerQuestion := defaultPrompts.answerQuestion);
    }
  }

  /** The defaults change nothing exactly when nothing is missing. */
  lemma NormalizedFixesResolved(c: Config, builtins: Prompts, moods: map<string, MoodInstruction>)
    requires Complete(builtins, moods)
    ensures NormalizedWith(c, builtins, moods) == c <==> Resolved(c)
  {
    if Resolved(c) {
      assert c.prompts == NormalizedWith(c, builtins, moods).prompts;
    }
  }

  /** Applying the defaults twice is applying them once, because the built-in values pass every test. */
  lemma NormalizedIdempotent(c: Config)
    ensures Normalized(Normalized(c)) == Normalized(c)
  {
    BuiltinsComplete();
    NormalizedFixesResolved(Normalized(c), BuiltinPrompts(), DefaultMoods());
  }

  /** An empty configuration becomes exactly the record of a first run, apart from having no API key. */
  lemma EmptyConfigBecomesDefault()
    ensures Normalized(EmptyConfig) == DefaultConfig()
  {
    assert !FixTemplateUsable([]);
  }

  /** The first-run record is itself complete. */
  lemma DefaultConfigResolved()
    ensures Resolved(DefaultConfig())
  {
    EmptyConfigBecomesDefault();
  }

  /** A user's mood map is kept whole, even one without "neutral", whatever the default mood names. */
  lemma UserMoodsKept(c: Config, builtins: Prompts, moods: map<string, MoodInstruction>)
    requires |c.moods| > 0
    ensures NormalizedWith(c, builtins, moods).moods == c.moods
  {
  }

  /** Explain and answer templates are only checked for presence: a placeholder-free user template survives. */
  lemma PlaceholderFreeTemplatesKept(c: Config, builtins: Prompts, moods: map<string, MoodInstruction>)
    requires c.prompts.explainText != [] && !Contains(c.prompts.explainText, TextToken)
    requires c.prompts.answerQuestion != [] && !Contains(c.prompts.answerQuestion, MoodToken)
    ensures NormalizedWith(c, builtins, moods).prompts.explainText == c.prompts.explainText
    ensures NormalizedWith(c, builtins, moods).prompts.answerQuestion == c.prompts.answerQuestion
  {
  }

  /** A fix template without a mood placeholder is discarded for the built-in, however much else it holds. */
  lemma OutdatedFixTemplateReplaced(c: Config, builtins: Prompts, moods: map<string, MoodInstruction>)
    requires !Contains(c.prompts.default, MoodToken)
    ensures NormalizedWith(c, builtins, moods).prompts.default == builtins.default
  {
  }
}
