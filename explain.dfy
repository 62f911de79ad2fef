/**
 * The `explain` command (cmd/explain.go): no mood at all; the explain
 * template goes to the client as configured, and the explanation is printed
 * and optionally copied.
 */
module Explain {
  import opened Wrappers
  import opened Text
  import opened Templates
  import opened Config
  import opened PromptStore
  import opened Gemini
  import opened ApiKey
  import opened Session

  /** The flags of `explain`; `--language` counts as given even when its value is empty. */
  datatype Flags = Flags(language: string, languageChanged: bool, copy: bool)

  /**
   * cmd/explain.go:48-54: the flag's value whenever it was given, else the
   * default language; the same rule as `answer` (cmd/answer.go:46-49).
   */
  function Language(cfg: Config, flags: Flags): (r: string)
    ensures flags.languageChanged ==> r == flags.language
    ensures !flags.languageChanged ==> r == cfg.defaultLanguage
  {
    if flags.languageChanged then flags.language else cfg.defaultLanguage
  }

  /**
   * `explainCmd.Run`: the key, the language, the template check, then
   * editor and model with the template as it is; the explanation is printed
   * trimmed and, under `--copy`, copied untrimmed, where a clipboard failure
   * only warns. Moods play no part.
   */
  method Run(cfg: Config, flags: Flags, world: World) returns (run: Trace)
    ensures var cred := GetGeminiAPIKey(world.env, world.pass, cfg.geminiApiKey);
            cred.Failure? ==> run == Stopped([], KeyLookupFailed(cred.error))
    ensures GetGeminiAPIKey(world.env, world.pass, cfg.geminiApiKey).Success? && cfg.prompts.explainText == [] ==>
              run == Stopped([], NoTemplate)
    ensures run.editor.Some? <==>
              GetGeminiAPIKey(world.env, world.pass, cfg.geminiApiKey).Success? && cfg.prompts.explainText != []
    ensures run.editor.Some? ==>
              && run.editor.value == cfg.editor
              && run.notices == (if run.end == Completed && flags.copy && world.clipboardFailure.Some?
                                 then [ClipboardWarning(world.clipboardFailure.value)] else [])
    ensures run.editor.Some? && world.editorInput.Failure? ==> run.end == Fatal(EditorFailed(world.editorInput.error))
    ensures run.end == Cancelled <==> run.editor.Some? && world.editorInput.Success? && AllSpace(world.editorInput.value)
    ensures run.editor.Some? && world.editorInput.Success? && !AllSpace(world.editorInput.value) && world.clientFailure.Some? ==>
              run.end == Fatal(ClientFailed(world.clientFailure.value))
    ensures run.request.Some? <==>
              run.editor.Some? && world.editorInput.Success? && !AllSpace(world.editorInput.value) && world.clientFailure.None?
    ensures run.request.Some? ==>
              run.request.value == Request(GetGeminiAPIKey(world.env, world.pass, cfg.geminiApiKey).value.key,
                                           EffectiveModelName(cfg.geminiModel),
                                           FinalPrompt(cfg.prompts.explainText, world.editorInput.value, Language(cfg, flags)))
    ensures run.request.Some? && Classify(world.reply).Failure? ==> run.end == Fatal(ProcessingFailed(Classify(world.reply).error))
    ensures run.end == Completed <==> run.request.Some? && Classify(world.reply).Success?
    ensures run.end == Completed ==>
              && run.printed == Some(TrimSpace(Classify(world.reply).value))
              && (run.copied.Some? <==> flags.copy && world.clipboardFailure.None?)
              && (run.copied.Some? ==> run.copied.value == Classify(world.reply).value)
    ensures run.end != Completed ==> run.printed == None && run.copied == None
  {
    var cred := GetGeminiAPIKey(world.env, world.pass, cfg.geminiApiKey);
    if cred.Failure? {
      return Stopped([], KeyLookupFailed(cred.error));
    }
    var language := cfg.defaultLanguage;
    if flags.languageChanged {
      language := flags.language;
    }
    var template := cfg.prompts.explainText;
    if template == [] {
      return Stopped([], NoTemplate);
    }
    var x := Converse(world, cred.value.key, cfg.geminiModel, template, language);
    match x
    case EditorError(cause) =>
      return Trace([], Some(cfg.editor), None, None, None, Fatal(EditorFailed(cause)));
    case BlankInput =>
      return Trace([], Some(cfg.editor), None, None, None, Cancelled);
    case ClientError(cause) =>
      return Trace([], Some(cfg.editor), None, None, None, Fatal(ClientFailed(cause)));
    case Rejected(request, error) =>
      return Trace([], Some(cfg.editor), Some(request), None, None, Fatal(ProcessingFailed(error)));
    case Answered(request, explanation) =>
      var printed, copied, warnings := PrintAndCopy(explanation, flags.copy, world.clipboardFailure);
      return Trace(warnings, Some(cfg.editor), Some(request), Some(printed), copied, Completed);
  }

  /**
   * The explain template is sent without any mood substitution: a template
   * whose plain text has no `{` keeps exactly its own `{MOOD_INSTRUCTION}`
   * slots, and loses every `{TEXT}` and `{LANGUAGE}`, for brace-free input and
   * language.
   */
  lemma ExplainPromptKeepsOnlyMoodSlots(cfg: Config, flags: Flags, text: string, segs: seq<Segment>)
    requires WellFormed(segs) && cfg.prompts.explainText == Render(segs)
    requires BraceFree(Language(cfg, flags)) && BraceFree(text)
    ensures var p := FinalPrompt(cfg.prompts.explainText, text, Language(cfg, flags));
            && (Contains(p, MoodToken) <==> Slot(MoodToken) in segs)
            && !Contains(p, TextToken) && !Contains(p, LanguageToken)
  {
    PlaceholdersAreTokens();
    FinalPromptFillsTemplate(segs, text, Language(cfg, flags));
    var outcome := Fill(Fill(segs, TextToken, text), LanguageToken, Language(cfg, flags));
    ContainsIffSlot(outcome, MoodToken);
    ContainsIffSlot(outcome, TextToken);
    ContainsIffSlot(outcome, LanguageToken);
  }

  /** With the program's own explain template, the prompt sent holds no placeholder at all. */
  lemma BuiltinPromptHasNoPlaceholder(cfg: Config, flags: Flags, text: string)
    requires cfg.prompts == BuiltinPrompts()
    requires BraceFree(Language(cfg, flags)) && BraceFree(text)
    ensures var p := FinalPrompt(cfg.prompts.explainText, text, Language(cfg, flags));
            !Contains(p, MoodToken) && !Contains(p, TextToken) && !Contains(p, LanguageToken)
  {
    BuiltinsWellFormed();
    PlaceholdersAreTokens();
    ExplainTextLacksMood();
    ContainsIffSlot(ExplainTextSegments, MoodToken);
    ExplainPromptKeepsOnlyMoodSlots(cfg, flags, text, ExplainTextSegments);
  }
}
