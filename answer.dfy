/**
 * The `answer` command (cmd/answer.go): resolve language and mood, inject
 * the mood instruction into the answer template, send the question, print
 * the answer and optionally copy it.
 */
module Answer {
  import opened Wrappers
  import opened Text
  import opened Templates
  import opened Config
  import opened Moods
  import opened PromptStore
  import opened Gemini
  import opened ApiKey
  import opened Session

  /** What `answer` injects for a neutral mood whose instruction is empty. */
  const NeutralSentence := "Answer in a " + "standard, " + "helpful, and " + "informative tone."

  lemma NeutralSentenceBraceFree()
    ensures NeutralSentence != [] && BraceFree(NeutralSentence)
  {
  }

  /** The flags of `answer`; `--language` counts as given even when its value is empty. */
  datatype Flags = Flags(
    language: string,
    languageChanged: bool,
    moodKey: string,
    moodChanged: bool,
    copy: bool)

  /** cmd/answer.go:46-49: the flag's value whenever it was given, else the default language. */
  function Language(cfg: Config, flags: Flags): (r: string)
    ensures flags.languageChanged ==> r == flags.language
    ensures !flags.languageChanged ==> r == cfg.defaultLanguage
  {
    if flags.languageChanged then flags.language else cfg.defaultLanguage
  }

  function MoodKey(cfg: Config, flags: Flags): string {
    RequestedKey(flags.moodChanged, flags.moodKey, cfg.defaultMood)
  }

  /** The mood key after the lookup: on a fallback it becomes the default mood, the one actually used. */
  function ResolvedKey(cfg: Config, flags: Flags): (k: string)
    ensures Resolve(cfg.moods, cfg.defaultMood, MoodKey(cfg, flags)).FellBack? ==> k == cfg.defaultMood
    ensures !Resolve(cfg.moods, cfg.defaultMood, MoodKey(cfg, flags)).FellBack? ==> k == MoodKey(cfg, flags)
  {
    if Resolve(cfg.moods, cfg.defaultMood, MoodKey(cfg, flags)).FellBack? then cfg.defaultMood else MoodKey(cfg, flags)
  }

  /** The instruction injected: the resolved one, or the neutral sentence when that is empty and the key is neutral. */
  function Instruction(cfg: Config, flags: Flags): (r: string)
    ensures var looked := InstructionOf(Resolve(cfg.moods, cfg.defaultMood, MoodKey(cfg, flags)));
            && (looked != [] ==> r == looked)
            && (looked == [] ==> (r == NeutralSentence <==> ResolvedKey(cfg, flags) == Neutral))
            && (r == NeutralSentence || r == looked)
  {
    var looked := InstructionOf(Resolve(cfg.moods, cfg.defaultMood, MoodKey(cfg, flags)));
    if looked == [] && ResolvedKey(cfg, flags) == Neutral then NeutralSentence else looked
  }

  /** cmd/answer.go:89: the answer template with every `{MOOD_INSTRUCTION}` replaced; one without it is sent as it is. */
  function PromptWithMood(cfg: Config, flags: Flags): (r: string)
    ensures !Contains(cfg.prompts.answerQuestion, MoodToken) ==> r == cfg.prompts.answerQuestion
  {
    var template := cfg.prompts.answerQuestion;
    assert !Contains(template, MoodToken) ==> ReplaceAll(template, MoodToken, Instruction(cfg, flags)) == template by {
      if !Contains(template, MoodToken) {
        ReplaceAllWithoutOccurrence(template, MoodToken, Instruction(cfg, flags));
      }
    }
    ReplaceAll(template, MoodToken, Instruction(cfg, flags))
  }

  /** cmd/answer.go:51-79: the mood locals, as the command reassigns them. */
  method ChooseMood(cfg: Config, flags: Flags) returns (moodKey: string, instruction: string, notices: seq<Notice>)
    ensures moodKey == ResolvedKey(cfg, flags)
    ensures instruction == Instruction(cfg, flags)
    ensures notices == MoodNotices(Warnings(cfg.moods, cfg.defaultMood, MoodKey(cfg, flags)))
  {
    moodKey := cfg.defaultMood;
    if flags.moodChanged {
      moodKey := flags.moodKey;
    }
    instruction := [];
    notices := [];
    if moodKey in cfg.moods {
      instruction := cfg.moods[moodKey].instruction;
    } else {
      if moodKey != [] && moodKey != cfg.defaultMood {
        notices := notices + [MoodNotice(MoodNotFound(moodKey, cfg.defaultMood))];
      }
      if cfg.defaultMood in cfg.moods {
        instruction := cfg.moods[cfg.defaultMood].instruction;
        moodKey := cfg.defaultMood;
      } else {
        notices := notices + [MoodNotice(DefaultMoodMissing(cfg.defaultMood))];
      }
    }
    if instruction == [] && moodKey == Neutral {
      instruction := NeutralSentence;
    }
    assert notices == MoodNotices(Warnings(cfg.moods, cfg.defaultMood, MoodKey(cfg, flags)));
  }

  /**
   * `answerCmd.Run`: the key, language and mood, the template check, then
   * editor and model; the answer is printed trimmed and, under `--copy`,
   * copied untrimmed, where a clipboard failure only warns.
   */
  method Run(cfg: Config, flags: Flags, world: World) returns (run: Trace)
    ensures var cred := GetGeminiAPIKey(world.env, world.pass, cfg.geminiApiKey);
            cred.Failure? ==> run == Stopped([], KeyLookupFailed(cred.error))
    ensures GetGeminiAPIKey(world.env, world.pass, cfg.geminiApiKey).Success? && cfg.prompts.answerQuestion == [] ==>
              run == Stopped(MoodNotices(Warnings(cfg.moods, cfg.defaultMood, MoodKey(cfg, flags))), NoTemplate)
    ensures run.editor.Some? <==>
              GetGeminiAPIKey(world.env, world.pass, cfg.geminiApiKey).Success? && cfg.prompts.answerQuestion != []
    ensures run.editor.Some? ==>
              && run.editor.value == cfg.editor
              && run.notices == MoodNotices(Warnings(cfg.moods, cfg.defaultMood, MoodKey(cfg, flags)))
                                + (if run.end == Completed && flags.copy && world.clipboardFailure.Some?
                                   then [ClipboardWarning(world.clipboardFailure.value)] else [])
    ensures run.editor.Some? && world.editorInput.Failure? ==> run.end == Fatal(EditorFailed(world.editorInput.error))
    ensures run.end == Cancelled <==> run.editor.Some? && world.editorInput.Success? && AllSpace(world.editorInput.value)
    ensures run.editor.Some? && world.editorInput.Success? && !AllSpace(world.editorInput.value) && world.clientFailure.Some? ==>
              run.end == Fatal(ClientFailed(world.clientFailure.value))
    ensures run.request.Some? <==>
              run.editor.Some? && world.editorInput.Success? && !AllSpace(world.editorInput.value) && world.clientFailure.None?
    ensures run.request.Some? ==>
              run.request.value == Request(GetGeminiAPIKey(world.env, world.pass, cfg.geminiApiKey).value.key,
                                           EffectiveModelName(cfg.geminiModel),
                                           FinalPrompt(PromptWithMood(cfg, flags), world.editorInput.value, Language(cfg, flags)))
    ensures run.request.Some? && Classify(world.reply).Failure? ==> run.end == Fatal(ProcessingFailed(Classify(world.reply).error))
    ensures run.end == Completed <==> run.request.Some? && Classify(world.reply).Success?
    ensures run.end == Completed ==>
              && run.printed == Some(TrimSpace(Classify(world.reply).value))
              && (run.copied.Some? <==> flags.copy && world.clipboardFailure.None?)
              && (run.copied.Some? ==> run.copied.value == Classify(world.reply).value)
    ensures run.end != Completed ==> run.printed == None && run.copied == None
  {
    var cred := GetGeminiAPIKey(world.env, world.pass, cfg.geminiApiKey);
    if cred.Failure? {
      return Stopped([], KeyLookupFailed(cred.error));
    }
    var language := cfg.defaultLanguage;
    if flags.languageChanged {
      language := flags.language;
    }
    var moodKey, instruction, notices := ChooseMood(cfg, flags);
    var template := cfg.prompts.answerQuestion;
    if template == [] {
      return Stopped(notices, NoTemplate);
    }
    var promptWithMood := ReplaceAll(template, MoodToken, instruction);
    var x := Converse(world, cred.value.key, cfg.geminiModel, promptWithMood, language);
    match x
    case EditorError(cause) =>
      return Trace(notices, Some(cfg.editor), None, None, None, Fatal(EditorFailed(cause)));
    case BlankInput =>
      return Trace(notices, Some(cfg.editor), None, None, None, Cancelled);
    case ClientError(cause) =>
      return Trace(notices, Some(cfg.editor), None, None, None, Fatal(ClientFailed(cause)));
    case Rejected(request, error) =>
      return Trace(notices, Some(cfg.editor), Some(request), None, None, Fatal(ProcessingFailed(error)));
    case Answered(request, answer) =>
      var printed, copied, warnings := PrintAndCopy(answer, flags.copy, world.clipboardFailure);
      return Trace(notices + warnings, Some(cfg.editor), Some(request), Some(printed), copied, Completed);
  }

  // ----- What the mood resolution guarantees -----

  /** Whenever a mood was found, the resolved key names the very entry whose instruction was taken. */
  lemma ResolvedKeyNamesUsedMood(cfg: Config, flags: Flags)
    requires !Resolve(cfg.moods, cfg.defaultMood, MoodKey(cfg, flags)).Unresolved?
    ensures ResolvedKey(cfg, flags) in cfg.moods
    ensures cfg.moods[ResolvedKey(cfg, flags)].instruction == InstructionOf(Resolve(cfg.moods, cfg.defaultMood, MoodKey(cfg, flags)))
  {
  }

  /** The injected text is the looked-up instruction, or the neutral sentence standing in for an empty one. */
  lemma InstructionIsLookedUpOrSentence(cfg: Config, flags: Flags)
    ensures var looked := InstructionOf(Resolve(cfg.moods, cfg.defaultMood, MoodKey(cfg, flags)));
            && (Instruction(cfg, flags) == looked || (looked == [] && Instruction(cfg, flags) == NeutralSentence))
            && (Instruction(cfg, flags) == NeutralSentence && looked != NeutralSentence ==> ResolvedKey(cfg, flags) == Neutral)
  {
  }

  /** A neutral answer is never sent with an empty instruction. */
  lemma NeutralNeverEmpty(cfg: Config, flags: Flags)
    requires ResolvedKey(cfg, flags) == Neutral
    ensures Instruction(cfg, flags) != []
  {
    NeutralSentenceBraceFree();
  }

  /** An unknown mood with the built-in moods and a neutral default gets the neutral sentence, under the key "neutral". */
  lemma UnknownMoodGetsNeutralSentence(cfg: Config, flags: Flags)
    requires cfg.moods == DefaultMoods() && cfg.defaultMood == Neutral
    requires flags.moodChanged && flags.moodKey != [] && flags.moodKey !in DefaultMoods()
    ensures ResolvedKey(cfg, flags) == Neutral
    ensures Instruction(cfg, flags) == NeutralSentence
    ensures Warnings(cfg.moods, cfg.defaultMood, MoodKey(cfg, flags)) == [MoodNotFound(flags.moodKey, Neutral)]
  {
    UnknownKeyWithNeutralDefault(flags.moodKey);
  }

  /** With neither the key nor the default in the map, nothing is injected unless the key is "neutral"; both warnings are given. */
  lemma MissingDefaultInjectsNothing(cfg: Config, flags: Flags)
    requires MoodKey(cfg, flags) !in cfg.moods && cfg.defaultMood !in cfg.moods
    requires MoodKey(cfg, flags) != Neutral
    ensures Instruction(cfg, flags) == []
    ensures DefaultMoodMissing(cfg.defaultMood) in Warnings(cfg.moods, cfg.defaultMood, MoodKey(cfg, flags))
  {
  }

  /**
   * With an answer template whose plain text has no `{`, a brace-free mood
   * map, language and question, no placeholder reaches the model.
   */
  lemma AnswerPromptHasNoPlaceholder(cfg: Config, flags: Flags, text: string, segs: seq<Segment>)
    requires WellFormed(segs) && cfg.prompts.answerQuestion == Render(segs)
    requires BraceFree(InstructionOf(Resolve(cfg.moods, cfg.defaultMood, MoodKey(cfg, flags))))
    requires BraceFree(Language(cfg, flags)) && BraceFree(text)
    ensures var p := FinalPrompt(PromptWithMood(cfg, flags), text, Language(cfg, flags));
            !Contains(p, MoodToken) && !Contains(p, TextToken) && !Contains(p, LanguageToken)
  {
    NeutralSentenceBraceFree();
    PromptHasNoPlaceholder(segs, Instruction(cfg, flags), text, Language(cfg, flags));
  }

  /** The same for the program's own answer template and moods. */
  lemma BuiltinPromptHasNoPlaceholder(cfg: Config, flags: Flags, text: string)
    requires cfg.prompts == BuiltinPrompts() && cfg.moods == DefaultMoods()
    requires BraceFree(Language(cfg, flags)) && BraceFree(text)
    ensures var p := FinalPrompt(PromptWithMood(cfg, flags), text, Language(cfg, flags));
            !Contains(p, MoodToken) && !Contains(p, TextToken) && !Contains(p, LanguageToken)
  {
    BuiltinsWellFormed();
    BuiltinInstructionsBraceFree(cfg.defaultMood, MoodKey(cfg, flags));
    AnswerPromptHasNoPlaceholder(cfg, flags, text, AnswerQuestionSegments);
  }
}
