/**
 * The `fix` command (cmd/fix.go): choose a language and a fix template from
 * the flags and the configuration, inject the mood instruction, send the
 * edited text and copy the corrected text to the clipboard.
 */
module Fix {
  import opened Wrappers
  import opened Text
  import opened Templates
  import opened Config
  import opened Moods
  import opened PromptStore
  import opened Gemini
  import opened ApiKey
  import opened Session
  import Root

  const English := "English"

  const EnglishConflictMessage :=
    "--english flag " + "is incompatible " + "with --language " + "specifying a " + "different " + "language than " + English

  /**
   * The command-line flags of `fix`. The "changed" booleans say whether the
   * user gave `--prompt` and `--mood` at all, which cobra tells apart from an
   * empty value.
   */
  datatype Flags = Flags(
    language: string,
    promptKey: string,
    promptChanged: bool,
    english: bool,
    moodKey: string,
    moodChanged: bool)

  lemma EnglishIsAscii()
    ensures IsAscii(English)
  {
  }

  // ----- The --english shorthand (PersistentPreRunE) -----

  /** What `--english` does to the two flag variables, or why it refuses. */
  function EnglishShorthand(flags: Flags): (r: Result<Flags, string>)
    ensures !flags.english ==> r == Success(flags)
    ensures flags.english ==> (r.Failure? <==> flags.language != [] && !EqualFold(flags.language, English))
    ensures r.Failure? ==> r.error == EnglishConflictMessage
    ensures flags.english && r.Success? ==>
              && r.value.language == English
              && r.value.promptKey == (if flags.promptChanged then flags.promptKey else EnglishFixOnlyKey)
              && r.value.(language := flags.language, promptKey := flags.promptKey) == flags
  {
    EnglishIsAscii();
    if !flags.english then Success(flags)
    else if flags.language != [] && !EqualFold(flags.language, English) then Failure(EnglishConflictMessage)
    else Success(flags.(language := English, promptKey := if flags.promptChanged then flags.promptKey else EnglishFixOnlyKey))
  }

  /** `PersistentPreRunE`: overwrites the language and, unless `--prompt` was given, the prompt key. */
  method PersistentPreRun(flags: Flags) returns (r: Result<Flags, string>)
    ensures r == EnglishShorthand(flags)
  {
    EnglishIsAscii();
    var f := flags;
    if f.english {
      if f.language != [] && !EqualFold(f.language, English) {
        return Failure(EnglishConflictMessage);
      }
      f := f.(language := English);
      if !f.promptChanged {
        f := f.(promptKey := EnglishFixOnlyKey);
      }
    }
    return Success(f);
  }

  /** Running the shorthand a second time changes nothing more. */
  lemma EnglishShorthandIdempotent(flags: Flags)
    requires EnglishShorthand(flags).Success?
    ensures EnglishShorthand(EnglishShorthand(flags).value) == EnglishShorthand(flags)
  {
    EnglishIsAscii();
    if flags.english {
      assert EqualFold(English, English);
    }
  }

  // ----- Language and template -----

  /** The language before the prompt key is looked at: `--language` when non-empty, else the default. */
  function BaseLanguage(cfg: Config, flags: Flags): (r: string)
    ensures flags.language != [] ==> r == flags.language
    ensures flags.language == [] ==> r == cfg.defaultLanguage
  {
    if flags.language != [] then flags.language else cfg.defaultLanguage
  }

  /** The chosen template, the language after the prompt key, and the warning it gave. */
  datatype Selection = Selection(template: string, language: string, notices: seq<Notice>)

  /**
   * cmd/fix.go:55-74: a given key is compared in lower case; without one,
   * the English template is taken for English when the configuration has one.
   */
  function SelectTemplate(p: Prompts, promptKey: string, language: string): (s: Selection)
    ensures promptKey != [] && ToLower(promptKey) == DefaultKey ==> s == Selection(p.default, language, [])
    ensures promptKey != [] && ToLower(promptKey) == EnglishFixOnlyKey ==> s == Selection(p.englishFixOnly, English, [])
    ensures promptKey != [] && ToLower(promptKey) != DefaultKey && ToLower(promptKey) != EnglishFixOnlyKey ==>
              s == Selection(p.default, language, [UnknownPromptKey(promptKey, language)])
    ensures promptKey == [] ==> s.language == language && s.notices == []
    ensures promptKey == [] && EqualFold(language, English) && p.englishFixOnly != [] ==> s.template == p.englishFixOnly
    ensures promptKey == [] && !(EqualFold(language, English) && p.englishFixOnly != []) ==> s.template == p.default
  {
    EnglishIsAscii();
    if promptKey != [] then
      var k := ToLower(promptKey);
      if k == DefaultKey then Selection(p.default, language, [])
      else if k == EnglishFixOnlyKey then Selection(p.englishFixOnly, English, [])
      else Selection(p.default, language, [UnknownPromptKey(promptKey, language)])
    else if EqualFold(language, English) && p.englishFixOnly != [] then Selection(p.englishFixOnly, language, [])
    else Selection(p.default, language, [])
  }

  function Choice(cfg: Config, flags: Flags): Selection {
    SelectTemplate(cfg.prompts, flags.promptKey, BaseLanguage(cfg, flags))
  }

  /** The key `fix` looks up; it is never replaced by the default when the lookup falls back. */
  function MoodKey(cfg: Config, flags: Flags): string {
    RequestedKey(flags.moodChanged, flags.moodKey, cfg.defaultMood)
  }

  /** The injected text: the key's own instruction, else exactly what the default mood would inject. */
  function Instruction(cfg: Config, flags: Flags): (r: string)
    ensures MoodKey(cfg, flags) in cfg.moods ==> r == cfg.moods[MoodKey(cfg, flags)].instruction
    ensures MoodKey(cfg, flags) !in cfg.moods ==> r == InstructionOf(Resolve(cfg.moods, cfg.defaultMood, cfg.defaultMood))
  {
    InstructionOf(Resolve(cfg.moods, cfg.defaultMood, MoodKey(cfg, flags)))
  }

  /** The template with every `{MOOD_INSTRUCTION}` replaced (cmd/fix.go:104); a template without one is sent as it is. */
  function PromptWithMood(cfg: Config, flags: Flags): (r: string)
    ensures !Contains(Choice(cfg, flags).template, MoodToken) ==> r == Choice(cfg, flags).template
  {
    var template := Choice(cfg, flags).template;
    assert !Contains(template, MoodToken) ==> ReplaceAll(template, MoodToken, Instruction(cfg, flags)) == template by {
      if !Contains(template, MoodToken) {
        ReplaceAllWithoutOccurrence(template, MoodToken, Instruction(cfg, flags));
      }
    }
    ReplaceAll(template, MoodToken, Instruction(cfg, flags))
  }

  // ----- The imperative steps of fixCmd.Run -----

  /** cmd/fix.go:47-77: the language and template locals, as the command reassigns them. */
  method ChooseTemplate(cfg: Config, flags: Flags) returns (template: string, language: string, notices: seq<Notice>)
    ensures Selection(template, language, notices) == Choice(cfg, flags)
  {
    EnglishIsAscii();
    language := cfg.defaultLanguage;
    if flags.language != [] {
      language := flags.language;
    }
    notices := [];
    if flags.promptKey != [] {
      var k := ToLower(flags.promptKey);
      if k == DefaultKey {
        template := cfg.prompts.default;
      } else if k == EnglishFixOnlyKey {
        template := cfg.prompts.englishFixOnly;
        language := English;
      } else {
        notices := [UnknownPromptKey(flags.promptKey, language)];
        template := cfg.prompts.default;
      }
    } else {
      if EqualFold(language, English) && cfg.prompts.englishFixOnly != [] {
        template := cfg.prompts.englishFixOnly;
      } else {
        template := cfg.prompts.default;
      }
    }
  }

  /** cmd/fix.go:80-100: look the key up, fall back to the default mood's instruction, warn. */
  method ChooseMood(cfg: Config, flags: Flags) returns (moodKey: string, instruction: string, notices: seq<Notice>)
    ensures moodKey == MoodKey(cfg, flags)
    ensures instruction == Instruction(cfg, flags)
    ensures notices == MoodNotices(Warnings(cfg.moods, cfg.defaultMood, moodKey))
  {
    moodKey := cfg.defaultMood;
    if flags.moodChanged {
      moodKey := flags.moodKey;
    }
    instruction := [];
    notices := [];
    if moodKey in cfg.moods {
      instruction := cfg.moods[moodKey].instruction;
    } else {
      if moodKey != [] && moodKey != cfg.defaultMood {
        notices := notices + [MoodNotice(MoodNotFound(moodKey, cfg.defaultMood))];
      }
      if cfg.defaultMood in cfg.moods {
        instruction := cfg.moods[cfg.defaultMood].instruction;
      } else {
        notices := notices + [MoodNotice(DefaultMoodMissing(cfg.defaultMood))];
      }
    }
    assert notices == MoodNotices(Warnings(cfg.moods, cfg.defaultMood, moodKey));
  }

  /**
   * What one run of `fixCmd.Run` does, after the flag rule: the key first, then
   * template and mood, then editor, model and clipboard. Every failure ends the
   * run at once; only a clipboard failure prints the result, and it still ends
   * in an error.
   */
  predicate RunSpec(cfg: Config, flags: Flags, world: World, run: Trace) {
    var cred := GetGeminiAPIKey(world.env, world.pass, cfg.geminiApiKey);
    var choice := Choice(cfg, flags);
    var input := world.editorInput;
    var result := Classify(world.reply);
    && (cred.Failure? ==> run == Stopped([], KeyLookupFailed(cred.error)))
    && (cred.Success? && choice.template == [] ==> run == Stopped(choice.notices, NoTemplate))
    && (run.editor.Some? <==> cred.Success? && choice.template != [])
    && (run.editor.Some? ==>
          && run.editor.value == cfg.editor
          && run.notices == choice.notices + MoodNotices(Warnings(cfg.moods, cfg.defaultMood, MoodKey(cfg, flags))))
    && (run.editor.Some? && input.Failure? ==> run.end == Fatal(EditorFailed(input.error)))
    && (run.end == Cancelled <==> run.editor.Some? && input.Success? && AllSpace(input.value))
    && (run.editor.Some? && input.Success? && !AllSpace(input.value) && world.clientFailure.Some? ==>
          run.end == Fatal(ClientFailed(world.clientFailure.value)))
    && (run.request.Some? <==>
          run.editor.Some? && input.Success? && !AllSpace(input.value) && world.clientFailure.None?)
    && (run.request.Some? ==>
          run.request.value == Request(cred.value.key, EffectiveModelName(cfg.geminiModel),
                                       FinalPrompt(PromptWithMood(cfg, flags), input.value, choice.language)))
    && (run.request.Some? && result.Failure? ==> run.end == Fatal(ProcessingFailed(result.error)))
    && (run.end == Completed <==> run.request.Some? && result.Success? && world.clipboardFailure.None?)
    && (run.end == Completed ==> run.copied == Some(result.value))
    && (run.request.Some? && result.Success? && world.clipboardFailure.Some? ==>
          && run.end == Fatal(ClipboardFailed(world.clipboardFailure.value))
          && run.printed == Some(result.value))
    && (run.end != Completed ==> run.copied == None)
    && (!(run.end.Fatal? && run.end.failure.ClipboardFailed?) ==> run.printed == None)
  }

  method Run(cfg: Config, flags: Flags, world: World) returns (run: Trace)
    ensures RunSpec(cfg, flags, world, run)
  {
    var cred := GetGeminiAPIKey(world.env, world.pass, cfg.geminiApiKey);
    if cred.Failure? {
      return Stopped([], KeyLookupFailed(cred.error));
    }
    var template, language, notices := ChooseTemplate(cfg, flags);
    if template == [] {
      return Stopped(notices, NoTemplate);
    }
    var moodKey, instruction, moodNotices := ChooseMood(cfg, flags);
    notices := notices + moodNotices;
    var finalPrompt := ReplaceAll(template, MoodToken, instruction);
    var x := Converse(world, cred.value.key, cfg.geminiModel, finalPrompt, language);
    match x
    case EditorError(cause) =>
      return Trace(notices, Some(cfg.editor), None, None, None, Fatal(EditorFailed(cause)));
    case BlankInput =>
      return Trace(notices, Some(cfg.editor), None, None, None, Cancelled);
    case ClientError(cause) =>
      return Trace(notices, Some(cfg.editor), None, None, None, Fatal(ClientFailed(cause)));
    case Rejected(request, error) =>
      return Trace(notices, Some(cfg.editor), Some(request), None, None, Fatal(ProcessingFailed(error)));
    case Answered(request, text) =>
      if world.clipboardFailure.Some? {
        return Trace(notices, Some(cfg.editor), Some(request), Some(text), None, Fatal(ClipboardFailed(world.clipboardFailure.value)));
      }
      return Trace(notices, Some(cfg.editor), Some(request), None, Some(text), Completed);
  }

  /** The whole command: the flag rule runs first, and its refusal ends the command before anything else. */
  method Command(cfg: Config, flags: Flags, world: World) returns (run: Trace)
    ensures EnglishShorthand(flags).Failure? ==> run == Stopped([], FlagConflict(EnglishConflictMessage))
    ensures EnglishShorthand(flags).Success? ==> RunSpec(cfg, EnglishShorthand(flags).value, world, run)
  {
    var r := PersistentPreRun(flags);
    if r.Failure? {
      return Stopped([], FlagConflict(r.error));
    }
    run := Run(cfg, r.value, world);
  }

  // ----- What the selection guarantees -----

  /** The prompt key is matched without regard to case: keys equal in lower case choose alike. */
  lemma SelectionIgnoresCase(p: Prompts, key1: string, key2: string, language: string)
    requires key1 != [] && key2 != [] && ToLower(key1) == ToLower(key2)
    ensures SelectTemplate(p, key1, language).template == SelectTemplate(p, key2, language).template
    ensures SelectTemplate(p, key1, language).language == SelectTemplate(p, key2, language).language
  {
  }

  /** The two keys `fix` recognises are the configuration's own names of the two fix templates. */
  lemma RecognisedKeysAreConfigKeys(p: Prompts, key: string, language: string)
    requires key != [] && ToLower(key) in {DefaultKey, EnglishFixOnlyKey}
    ensures PromptByKey(p, ToLower(key)) == Some(SelectTemplate(p, key, language).template)
  {
  }

  /** `fix` only ever picks one of the two fix templates, never the explain or answer one. */
  lemma SelectionIsAFixTemplate(p: Prompts, key: string, language: string)
    ensures SelectTemplate(p, key, language).template in {p.default, p.englishFixOnly}
  {
  }

  /** The prompt key changes the language only by forcing English; an unknown key leaves it and warns. */
  lemma LanguageOnlyForcedToEnglish(p: Prompts, key: string, language: string)
    ensures var s := SelectTemplate(p, key, language);
            s.language == language || (s.language == English && s.template == p.englishFixOnly)
    ensures SelectTemplate(p, key, language).notices != [] <==>
              key != [] && ToLower(key) != DefaultKey && ToLower(key) != EnglishFixOnlyKey
  {
  }

  /** After the defaults are applied, `fix` always finds a template, and it has a place for the mood. */
  lemma NormalizedAlwaysHasTemplate(cfg: Config, flags: Flags)
    requires Root.Resolved(cfg)
    ensures Choice(cfg, flags).template != []
    ensures Contains(Choice(cfg, flags).template, MoodToken)
  {
    SelectionIsAFixTemplate(cfg.prompts, flags.promptKey, BaseLanguage(cfg, flags));
  }

  /**
   * `--english` with no other flag: English output with the English
   * template, whatever the default language, once it is configured.
   */
  lemma EnglishShorthandChoosesEnglishTemplate(cfg: Config, flags: Flags)
    requires flags.english && !flags.promptChanged
    requires flags.language == [] || EqualFold(flags.language, English)
    ensures EnglishShorthand(flags).Success?
    ensures Choice(cfg, EnglishShorthand(flags).value) == Selection(cfg.prompts.englishFixOnly, English, [])
  {
    EnglishIsAscii();
    assert ToLower(EnglishFixOnlyKey) == EnglishFixOnlyKey;
  }

  /** `--english` together with another language is refused. */
  lemma EnglishShorthandRejectsOtherLanguage(flags: Flags)
    requires flags.english && flags.language == "German"
    ensures EnglishShorthand(flags) == Failure(EnglishConflictMessage)
  {
    EnglishIsAscii();
    assert FoldRune(flags.language[0]) != FoldRune(English[0]);
  }

  /** An explicit `--prompt` survives `--english`: only the language is forced. */
  lemma ExplicitPromptSurvivesShorthand(cfg: Config, flags: Flags)
    requires flags.english && flags.promptChanged && flags.language == []
    requires flags.promptKey != [] && ToLower(flags.promptKey) == DefaultKey
    ensures EnglishShorthand(flags).Success?
    ensures Choice(cfg, EnglishShorthand(flags).value) == Selection(cfg.prompts.default, English, [])
  {
  }

  /**
   * An explicit but unknown `--prompt` also survives `--english`: the language
   * is forced to English, and the selection then warns and takes the default
   * template.
   */
  lemma UnknownPromptSurvivesShorthand(cfg: Config, flags: Flags)
    requires flags.english && flags.promptChanged && flags.language == []
    requires flags.promptKey != [] && ToLower(flags.promptKey) != DefaultKey && ToLower(flags.promptKey) != EnglishFixOnlyKey
    ensures EnglishShorthand(flags).Success?
    ensures Choice(cfg, EnglishShorthand(flags).value) ==
              Selection(cfg.prompts.default, English, [UnknownPromptKey(flags.promptKey, English)])
  {
  }

  /**
   * An unknown mood with a neutral default falls back to neutral's empty
   * instruction: `fix` injects nothing, warns once, and keeps the requested key.
   */
  lemma UnknownMoodInjectsNothing(cfg: Config, flags: Flags)
    requires cfg.moods == DefaultMoods() && cfg.defaultMood == Neutral
    requires flags.moodChanged && flags.moodKey != [] && flags.moodKey !in DefaultMoods()
    ensures MoodKey(cfg, flags) == flags.moodKey
    ensures Instruction(cfg, flags) == []
    ensures Warnings(cfg.moods, cfg.defaultMood, MoodKey(cfg, flags)) == [MoodNotFound(flags.moodKey, Neutral)]
  {
    UnknownKeyWithNeutralDefault(flags.moodKey);
  }

  /**
   * The conditions under which nothing in the fix prompt can form a
   * placeholder: both fix templates are rendered from well-formed segments,
   * and the mood instruction, the languages and the input have no `{`.
   */
  predicate PlaceholderSafe(cfg: Config, flags: Flags, text: string, defaultSegs: seq<Segment>, englishSegs: seq<Segment>) {
    && WellFormed(defaultSegs) && cfg.prompts.default == Render(defaultSegs)
    && WellFormed(englishSegs) && cfg.prompts.englishFixOnly == Render(englishSegs)
    && BraceFree(Instruction(cfg, flags))
    && BraceFree(flags.language) && BraceFree(cfg.defaultLanguage) && BraceFree(text)
  }

  /** Under those conditions no placeholder of any kind reaches the model. */
  lemma FixPromptHasNoPlaceholder(cfg: Config, flags: Flags, text: string, defaultSegs: seq<Segment>, englishSegs: seq<Segment>)
    requires PlaceholderSafe(cfg, flags, text, defaultSegs, englishSegs)
    ensures var p := FinalPrompt(PromptWithMood(cfg, flags), text, Choice(cfg, flags).language);
            !Contains(p, MoodToken) && !Contains(p, TextToken) && !Contains(p, LanguageToken)
  {
    SelectionIsAFixTemplate(cfg.prompts, flags.promptKey, BaseLanguage(cfg, flags));
    var s := Choice(cfg, flags);
    assert BraceFree(s.language);
    if s.template == cfg.prompts.default {
      PromptHasNoPlaceholder(defaultSegs, Instruction(cfg, flags), text, s.language);
    } else {
      PromptHasNoPlaceholder(englishSegs, Instruction(cfg, flags), text, s.language);
    }
  }

  /** The program's own templates and moods meet those conditions. */
  lemma BuiltinPlaceholderSafe(cfg: Config, flags: Flags, text: string)
    requires cfg.prompts == BuiltinPrompts() && cfg.moods == DefaultMoods()
    requires BraceFree(flags.language) && BraceFree(cfg.defaultLanguage) && BraceFree(text)
    ensures PlaceholderSafe(cfg, flags, text, DefaultSegments, EnglishFixOnlySegments)
  {
    BuiltinsWellFormed();
    BuiltinInstructionsBraceFree(cfg.defaultMood, MoodKey(cfg, flags));
  }

  /** The same for the program's own templates and moods. */
  lemma BuiltinPromptHasNoPlaceholder(cfg: Config, flags: Flags, text: string)
    requires cfg.prompts == BuiltinPrompts() && cfg.moods == DefaultMoods()
    requires BraceFree(flags.language) && BraceFree(cfg.defaultLanguage) && BraceFree(text)
    ensures var p := FinalPrompt(PromptWithMood(cfg, flags), text, Choice(cfg, flags).language);
            !Contains(p, MoodToken) && !Contains(p, TextToken) && !Contains(p, LanguageToken)
  {
    BuiltinPlaceholderSafe(cfg, flags, text);
    FixPromptHasNoPlaceholder(cfg, flags, text, DefaultSegments, EnglishFixOnlySegments);
  }

  /**
   * And the prompt carries the input and the mood instruction, when both
   * fix templates have a slot for each, and the language when the default
   * template is chosen and has a slot for it.
   */
  lemma FixPromptCarriesInput(cfg: Config, flags: Flags, text: string, defaultSegs: seq<Segment>, englishSegs: seq<Segment>)
    requires PlaceholderSafe(cfg, flags, text, defaultSegs, englishSegs)
    requires Slot(TextToken) in defaultSegs && Slot(MoodToken) in defaultSegs
    requires Slot(TextToken) in englishSegs && Slot(MoodToken) in englishSegs
    ensures var p := FinalPrompt(PromptWithMood(cfg, flags), text, Choice(cfg, flags).language);
            Contains(p, text) && Contains(p, Instruction(cfg, flags))
    ensures var p := FinalPrompt(PromptWithMood(cfg, flags), text, Choice(cfg, flags).language);
            Choice(cfg, flags).template == cfg.prompts.default && Slot(LanguageToken) in defaultSegs ==>
              Contains(p, Choice(cfg, flags).language)
  {
    SelectionIsAFixTemplate(cfg.prompts, flags.promptKey, BaseLanguage(cfg, flags));
    var s := Choice(cfg, flags);
    assert BraceFree(s.language);
    if s.template == cfg.prompts.default {
      PromptCarriesInput(defaultSegs, Instruction(cfg, flags), text, s.language);
    } else {
      PromptCarriesInput(englishSegs, Instruction(cfg, flags), text, s.language);
    }
  }

  /**
   * The same for the program's own templates and moods. The prompt also
   * names the output language: through the default template's language slot,
   * or, for the English-only template, in its own text.
   */
  lemma BuiltinPromptCarriesInput(cfg: Config, flags: Flags, text: string)
    requires cfg.prompts == BuiltinPrompts() && cfg.moods == DefaultMoods()
    requires BraceFree(flags.language) && BraceFree(cfg.defaultLanguage) && BraceFree(text)
    ensures var p := FinalPrompt(PromptWithMood(cfg, flags), text, Choice(cfg, flags).language);
            Contains(p, text) && Contains(p, Instruction(cfg, flags))
    ensures var p := FinalPrompt(PromptWithMood(cfg, flags), text, Choice(cfg, flags).language);
            Choice(cfg, flags).template == cfg.prompts.default ==> Contains(p, Choice(cfg, flags).language)
    ensures var p := FinalPrompt(PromptWithMood(cfg, flags), text, Choice(cfg, flags).language);
            Choice(cfg, flags).template == cfg.prompts.englishFixOnly ==> Contains(p, English)
  {
    BuiltinPlaceholderSafe(cfg, flags, text);
    FixTemplateSlots();
    FixPromptCarriesInput(cfg, flags, text, DefaultSegments, EnglishFixOnlySegments);
    if Choice(cfg, flags).template == cfg.prompts.englishFixOnly {
      BuiltinEnglishPromptNamesEnglish(cfg, flags, text);
    }
  }

  /** With the English-only template, the prompt sent says "English". */
  lemma BuiltinEnglishPromptNamesEnglish(cfg: Config, flags: Flags, text: string)
    requires cfg.prompts == BuiltinPrompts() && cfg.moods == DefaultMoods()
    requires BraceFree(flags.language) && BraceFree(cfg.defaultLanguage) && BraceFree(text)
    requires Choice(cfg, flags).template == cfg.prompts.englishFixOnly
    ensures Contains(FinalPrompt(PromptWithMood(cfg, flags), text, Choice(cfg, flags).language), English)
  {
    BuiltinPlaceholderSafe(cfg, flags, text);
    SelectionIsAFixTemplate(cfg.prompts, flags.promptKey, BaseLanguage(cfg, flags));
    var s := Choice(cfg, flags);
    assert BraceFree(s.language);
    EnglishFixOnlyNamesEnglish();
    PromptKeepsLiteral(EnglishFixOnlySegments, Instruction(cfg, flags), text, s.language, EnglishFixOnlyLead);
    ContainsTransitive(FinalPrompt(PromptWithMood(cfg, flags), text, s.language), EnglishFixOnlyLead, English);
  }
}
