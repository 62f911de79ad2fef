/**
 * What every AI command (fix, answer, explain) shares: the outside world it
 * meets as inputs, the request it sends, the messages it gives, and the steps
 * from opening the editor to classifying the reply.
 */
module Session {
  import opened Wrappers
  import opened Text
  import opened Templates
  import opened Moods
  import opened Gemini
  import opened ApiKey

  /**
   * Everything a command learns from outside the program, in the order the
   * command asks for it: the credential sources, what the editor returned,
   * whether the client could be created, the model's reply and whether the
   * clipboard accepted the text.
   */
  datatype World = World(
    env: string,
    pass: PassLookup,
    editorInput: Result<string, string>,
    clientFailure: Option<string>,
    reply: Reply,
    clipboardFailure: Option<string>)

  /** One call of the model: the key, the effective model name and the final prompt. */
  datatype Request = Request(apiKey: string, model: string, prompt: string)

  /** The reasons a command stops with an error. */
  datatype Failure =
    | FlagConflict(message: string)
    | KeyLookupFailed(message: string)
    | NoTemplate
    | EditorFailed(cause: string)
    | ClientFailed(cause: string)
    | ProcessingFailed(error: AiError)
    | ClipboardFailed(cause: string)

  /** Warnings printed on the way, which do not stop the command. */
  datatype Notice =
    | UnknownPromptKey(key: string, language: string)
    | MoodNotice(warning: MoodWarning)
    | ClipboardWarning(cause: string)

  datatype End = Completed | Cancelled | Fatal(failure: Failure)

  /**
   * What one run of a command did: its warnings in order, the editor it
   * opened, the request it sent, the result it printed and what it put on
   * the clipboard, and how it ended.
   */
  datatype Trace = Trace(
    notices: seq<Notice>,
    editor: Option<string>,
    request: Option<Request>,
    printed: Option<string>,
    copied: Option<string>,
    end: End)

  /** A run that stopped before the editor was opened. */
  function Stopped(notices: seq<Notice>, failure: Failure): Trace {
    Trace(notices, None, None, None, None, Fatal(failure))
  }

  function MoodNotices(ws: seq<MoodWarning>): (r: seq<Notice>)
    ensures |r| == |ws|
    ensures forall i | 0 <= i < |ws| :: r[i] == MoodNotice(ws[i])
  {
    seq(|ws|, i requires 0 <= i < |ws| => MoodNotice(ws[i]))
  }

  /** The steps from the editor to the reply, as far as any command gets. */
  datatype Exchange =
    | EditorError(cause: string)
    | BlankInput
    | ClientError(cause: string)
    | Rejected(request: Request, error: AiError)
    | Answered(request: Request, text: string)

  /**
   * Read the input from the editor, give up on blank input, create the
   * client and send the prompt (`GetTextFromEditor`, `NewGeminiClient`,
   * `ProcessText`).
   */
  method Converse(world: World, apiKey: string, model: string, template: string, language: string)
    returns (x: Exchange)
    ensures x.EditorError? <==> world.editorInput.Failure?
    ensures x.EditorError? ==> x.cause == world.editorInput.error
    ensures x.BlankInput? <==> world.editorInput.Success? && AllSpace(world.editorInput.value)
    ensures x.ClientError? <==> world.editorInput.Success? && !AllSpace(world.editorInput.value) && world.clientFailure.Some?
    ensures x.ClientError? ==> x.cause == world.clientFailure.value
    ensures x.Rejected? || x.Answered? ==>
              x.request == Request(apiKey, EffectiveModelName(model), FinalPrompt(template, world.editorInput.value, language))
    ensures x.Rejected? ==> Classify(world.reply) == Failure(x.error)
    ensures x.Answered? ==> Classify(world.reply) == Success(x.text)
  {
    if world.editorInput.Failure? {
      return EditorError(world.editorInput.error);
    }
    var input := world.editorInput.value;
    if TrimSpace(input) == [] {
      return BlankInput;
    }
    if world.clientFailure.Some? {
      return ClientError(world.clientFailure.value);
    }
    var request := Request(apiKey, EffectiveModelName(model), FinalPrompt(template, input, language));
    var result := Classify(world.reply);
    if result.Failure? {
      return Rejected(request, result.error);
    }
    return Answered(request, result.value);
  }

  /**
   * Answer and explain: print the trimmed result and, under `--copy`, put the
   * untrimmed result on the clipboard; a clipboard failure only warns.
   */
  method PrintAndCopy(text: string, copy: bool, clipboardFailure: Option<string>)
    returns (printed: string, copied: Option<string>, notices: seq<Notice>)
    ensures printed == TrimSpace(text)
    ensures copied.Some? <==> copy && clipboardFailure.None?
    ensures copied.Some? ==> copied.value == text
    ensures notices == if copy && clipboardFailure.Some? then [ClipboardWarning(clipboardFailure.value)] else []
  {
    printed := TrimSpace(text);
    copied := None;
    notices := [];
    if copy {
      if clipboardFailure.Some? {
        notices := [ClipboardWarning(clipboardFailure.value)];
      } else {
        copied := Some(text);
      }
    }
  }

  /**
   * A template whose plain text has no `{`, filled with a brace-free mood
   * instruction, input and language, reaches the model with no placeholder
   * left in it.
   */
  lemma PromptHasNoPlaceholder(segs: seq<Segment>, mood: string, text: string, language: string)
    requires WellFormed(segs) && BraceFree(mood) && BraceFree(text) && BraceFree(language)
    ensures var p := FinalPrompt(ReplaceAll(Render(segs), MoodToken, mood), text, language);
            !Contains(p, MoodToken) && !Contains(p, TextToken) && !Contains(p, LanguageToken)
  {
    PlaceholdersAreTokens();
    FillByReplaceAll(segs, MoodToken, mood);
    var filled := Fill(segs, MoodToken, mood);
    FinalPromptFillsTemplate(filled, text, language);
    var outcome := Fill(Fill(filled, TextToken, text), LanguageToken, language);
    ContainsIffSlot(outcome, MoodToken);
    ContainsIffSlot(outcome, TextToken);
    ContainsIffSlot(outcome, LanguageToken);
  }

  /**
   * The same prompt carries what it was asked to: the input wherever the
   * template has a `{TEXT}` slot, and the mood instruction and the language
   * wherever it has their slots.
   */
  lemma PromptCarriesInput(segs: seq<Segment>, mood: string, text: string, language: string)
    requires WellFormed(segs) && BraceFree(mood) && BraceFree(text) && BraceFree(language)
    ensures var p := FinalPrompt(ReplaceAll(Render(segs), MoodToken, mood), text, language);
            && (Slot(TextToken) in segs ==> Contains(p, text))
            && (Slot(MoodToken) in segs ==> Contains(p, mood))
            && (Slot(LanguageToken) in segs ==> Contains(p, language))
  {
    PlaceholdersAreTokens();
    FillByReplaceAll(segs, MoodToken, mood);
    var filled := Fill(segs, MoodToken, mood);
    var withText := Fill(filled, TextToken, text);
    var outcome := Fill(withText, LanguageToken, language);
    FinalPromptFillsTemplate(filled, text, language);
    if Slot(TextToken) in segs {
      FillKeepsLiterals(filled, TextToken, text, text);
      FillKeepsLiterals(withText, LanguageToken, language, text);
      RenderContainsLiteral(outcome, text);
    }
    if Slot(MoodToken) in segs {
      FillKeepsLiterals(segs, MoodToken, mood, mood);
      FillKeepsLiterals(filled, TextToken, text, mood);
      FillKeepsLiterals(withText, LanguageToken, language, mood);
      RenderContainsLiteral(outcome, mood);
    }
    if Slot(LanguageToken) in segs {
      FillByReplaceAll(filled, TextToken, text);
      FillKeepsLiterals(withText, LanguageToken, language, language);
      RenderContainsLiteral(outcome, language);
    }
  }

  /** The same prompt keeps every literal piece of the template. */
  lemma PromptKeepsLiteral(segs: seq<Segment>, mood: string, text: string, language: string, x: string)
    requires WellFormed(segs) && BraceFree(mood) && BraceFree(text) && BraceFree(language)
    requires Lit(x) in segs
    ensures Contains(FinalPrompt(ReplaceAll(Render(segs), MoodToken, mood), text, language), x)
  {
    PlaceholdersAreTokens();
    FillByReplaceAll(segs, MoodToken, mood);
    var filled := Fill(segs, MoodToken, mood);
    var withText := Fill(filled, TextToken, text);
    var outcome := Fill(withText, LanguageToken, language);
    FinalPromptFillsTemplate(filled, text, language);
    FillKeepsLiterals(segs, MoodToken, mood, x);
    FillKeepsLiterals(filled, TextToken, text, x);
    FillKeepsLiterals(withText, LanguageToken, language, x);
    RenderContainsLiteral(outcome, x);
  }
}
