# qik: configuration, prompt assembly and the Gemini call, in Dafny

qik is a command-line helper. It opens an editor and sends what the user
typed to Google's Gemini model. `fix` corrects the text and copies it to the
clipboard. `answer` answers a question. `explain` explains a text. Each
command builds its prompt from a template in the configuration file. A
template has up to three placeholders: `{MOOD_INSTRUCTION}`, `{TEXT}` and
`{LANGUAGE}`.

This project models the core of that program:

- **Configuration defaults** (`Root`, `Config`, `PromptStore`, `Moods`).
  After the configuration was loaded, empty settings get built-in values.
  A fix template without a mood placeholder counts as outdated and is
  replaced. An empty mood map becomes the seven built-in moods. The defaulting
  is an imperative method proved equal to a value function. That function is
  proved idempotent. It leaves a complete configuration alone, and it turns an
  empty configuration into exactly the first-run record.
- **Mood resolution** (`Moods`). The mood key a command asks for, its lookup
  with fallback to the default mood, and the warnings that lookup prints.
- **Template selection for `fix`** and the `--english` shorthand (`Fix`).
  This covers the case-insensitive prompt keys and the case-insensitive
  "English" rule. An explicit `--prompt` survives the shorthand.
- **`answer` and `explain`** (`Answer`, `Explain`). `answer` rebinds an
  unknown mood to the default one, and injects a built-in sentence for an
  empty "neutral" instruction. `explain` does no mood substitution at all.
- **The Gemini client's own logic** (`Gemini`). A missing model name is
  defaulted; `{TEXT}` and `{LANGUAGE}` are substituted, in that order; the
  response is classified into text or one of six errors.
- **The credential cascade** (`ApiKey`). The environment variable comes first,
  then `pass gemini_api_key`, then the configuration file, then the error.
- **One run of each command** (`Session`, `Fix.Run`, `Answer.Run`,
  `Explain.Run`). This is the order of the fatal checks, what is sent, what is
  printed and copied, and how the run ends.

Templates are plain strings and every substitution is `strings.ReplaceAll`
(`Text.ReplaceAll`). To prove what a substitution does, a template may also be
viewed as a list of segments: literal text with no `{`, and placeholder slots
(`Templates.Segment`). On such a template, replacing a placeholder by text
without `{` is exactly "fill that slot" (`Templates.FillByReplaceAll`). All the
built-in templates have such a view (`PromptStore.BuiltinsWellFormed`). Without
it, one replacement can create a new placeholder out of the text around it
(`Templates.ReplaceAllCanRecreateToken`, `Gemini.FinalPromptCanLeaveText`).

The outside world is an input value, `Session.World`:

- the environment variable;
- the outcome of running `pass`;
- the editor's result;
- whether the client could be created;
- the model's reply;
- whether the clipboard accepted the text.

A run returns a `Session.Trace`, which records:

- the warnings it printed, in order;
- the editor it opened;
- the request it sent (key, effective model, final prompt);
- what it printed and what it copied;
- how it ended: completed, cancelled on blank input, or fatal with a reason.

Some behaviours follow the code:

- With `--english` and an explicit unknown `--prompt`, the prompt key is kept.
  The language stays "English". Template selection then warns and uses the
  default template (`Fix.UnknownPromptSurvivesShorthand`; a known key such as
  "default" is kept without a warning, `Fix.ExplicitPromptSurvivesShorthand`).
- An empty `--language` given to `fix` falls back to the configured language.
- The same flag given to `answer` or `explain` is used as it is, empty
  (`Contrast.EmptyLanguageFlag`).

## Model

| member | source | states |
|---|---|---|
| Config.PromptByKey | internal/config/config.go:18-30 | exactly the four configuration keys name a template, and each names one of the record's four templates |
| Config.PromptKeysAreDistinct | internal/config/config.go:18-30 | two prompt records that agree on every key are equal |
| Moods.DefaultMoodKeys | cmd/root.go:142-154 | the built-in registry has exactly the seven moods neutral, professional, casual, funny, persuasive, empathetic and concise |
| Moods.DefaultMoodTexts | cmd/root.go:146-152 | every built-in mood has a description; only "neutral" has an empty instruction; no instruction contains `{` |
| Moods.RequestedKey | cmd/fix.go:80-83 | the `--mood` value when the flag was given, else the configured default mood |
| Moods.Resolve | cmd/fix.go:85-100 | a key in the map finds its own instruction; otherwise the default mood's instruction when that exists; otherwise nothing |
| Moods.InstructionOf | cmd/fix.go:85-99 | nothing resolved injects the empty instruction |
| Moods.Warnings | cmd/fix.go:88-99 | an unknown key warns only when it is non-empty and not the default; a missing default warns whenever the fallback is needed; exactly one warning per condition that holds, the unknown key first; none for a known key |
| Moods.FallbackMatchesDefault | cmd/fix.go:93-96 | an unknown key injects exactly what asking for the default mood injects |
| Moods.InstructionFromRegistry | cmd/fix.go:85-100 | the injected text is an instruction of the map, or empty |
| Moods.BuiltinInstructionsBraceFree | cmd/root.go:146-152 | with the built-in moods, no key resolves to text containing `{` |
| Moods.UnknownKeyWithNeutralDefault | cmd/fix.go:85-99 | an unknown key with the built-in moods and a "neutral" default resolves to neutral's empty instruction, with exactly one warning |
| Moods.DefaultMoods | cmd/root.go:142-154 | the seven built-in moods with their descriptions and instructions, as the program holds them (their properties: `Moods.DefaultMoodKeys`, `Moods.DefaultMoodTexts`) |
| PromptStore.BuiltinsWellFormed | cmd/root.go:69-118 | each built-in template has a segment view whose text pieces have no `{` |
| PromptStore.FixTemplateSlots | cmd/root.go:70-93 | both built-in fix templates have a `{TEXT}` and a `{MOOD_INSTRUCTION}` slot, and the default one a `{LANGUAGE}` slot |
| PromptStore.EnglishFixOnlyNamesEnglish | cmd/root.go:82-86 | the English-only template's opening text is one of its literal pieces and says "English" |
| PromptStore.BuiltinPlaceholders | cmd/root.go:69-118 | which built-in template carries which placeholder: all carry `{TEXT}`; the English-only template lacks `{LANGUAGE}`; the explain template lacks `{MOOD_INSTRUCTION}` |
| PromptStore.BuiltinPrompts | cmd/root.go:69-118 | the four built-in templates, each the rendering of its segment view (their properties: `PromptStore.BuiltinsWellFormed`, `PromptStore.BuiltinPlaceholders`) |
| Root.OrElse | cmd/root.go:262-277 | a non-empty setting is kept, an empty one becomes the fallback |
| Root.DefaultConfig | cmd/root.go:169-176 | the first-run record: Norwegian, nvim, gemini-1.5-flash-latest, neutral, the built-in moods and templates, no API key (its properties: `Root.EmptyConfigBecomesDefault`, `Root.DefaultConfigResolved`) |
| Root.NormalizedWith | cmd/root.go:260-301 | each setting after the defaults: scalars default when empty; a fix template is kept only if non-empty and holding `{MOOD_INSTRUCTION}`; explain and answer templates default when empty; an empty mood map becomes the built-ins; the API key is untouched; with complete built-ins the result is resolved |
| Root.Normalized | cmd/root.go:260-301 | with the program's own built-ins, every setting the commands rely on is present afterwards |
| Root.BuiltinTemplatesComplete | cmd/root.go:69-118 | the built-in templates pass the template checks of the defaults |
| Root.BuiltinsComplete | cmd/root.go:69-154 | the built-in templates and moods pass every check |
| Root.ApplyProgramDefaults | cmd/root.go:260-301 | the step-by-step defaulting yields exactly `NormalizedWith` of the loaded record |
| Root.ApplyScalarDefaults | cmd/root.go:262-277 | only the four scalar settings change, each to its value or fallback |
| Root.ApplyPromptDefaults | cmd/root.go:280-295 | the four template checks, the fix templates also needing a mood placeholder |
| Root.NormalizedFixesResolved | cmd/root.go:260-301 | the defaults change nothing exactly when the configuration is already resolved |
| Root.NormalizedIdempotent | cmd/root.go:260-301 | applying the defaults twice is applying them once |
| Root.EmptyConfigBecomesDefault | cmd/root.go:169-176 | an empty configuration becomes exactly the first-run record |
| Root.DefaultConfigResolved | cmd/root.go:169-176 | the first-run record is itself complete |
| Root.UserMoodsKept | cmd/root.go:298-301 | a non-empty user mood map is kept whole |
| Root.PlaceholderFreeTemplatesKept | cmd/root.go:288-295 | explain and answer templates are checked only for presence, so one without placeholders survives |
| Root.OutdatedFixTemplateReplaced | cmd/root.go:280-283 | a default fix template without `{MOOD_INSTRUCTION}` is replaced by the built-in |
| Gemini.EffectiveModelName | internal/ai/gemini.go:29-34 | the given model name, or "gemini-1.5-flash-latest" when empty; never empty |
| Gemini.FinalPrompt | internal/ai/gemini.go:65-68 | `{TEXT}` replaced, then `{LANGUAGE}` in the result |
| Gemini.FinalPromptKeepsPlainTemplate | internal/ai/gemini.go:65-68 | a template with neither placeholder is sent as it is |
| Gemini.LanguageInTextIsReplaced | internal/ai/gemini.go:65-68 | a `{LANGUAGE}` inside the user's text is replaced as well, since the language is substituted after the text |
| Gemini.TextInLanguageSurvives | internal/ai/gemini.go:65-68 | a `{TEXT}` inside the language value is not substituted |
| Gemini.FinalPromptFillsTemplate | internal/ai/gemini.go:65-68 | on a segment-view template with `{`-free text and language, the two replacements fill exactly the text and language slots and keep every other placeholder |
| Gemini.FinalPromptHasNoPlaceholder | internal/ai/gemini.go:65-68 | under the same conditions no `{TEXT}` or `{LANGUAGE}` is left |
| Gemini.FinalPromptCanLeaveText | internal/ai/gemini.go:65-68 | without those conditions a `{TEXT}` can survive the substitution |
| Gemini.FirstBlocked | internal/ai/gemini.go:90-94 | the first blocked safety rating, or none exactly when no rating is blocked |
| Gemini.Classify | internal/ai/gemini.go:74-112 | a call error, a nil response, a block reason, then the first blocked rating (naming its category and probability), then no content, then a non-text first part (naming its kind) are the failures, each taking precedence over the later ones; success is exactly the text of the first part of the first candidate |
| Gemini.SafetyBlockNamesFirstRating | internal/ai/gemini.go:90-94 | the safety error names the category and probability of the first blocked rating |
| Gemini.ClassifyReadsFirstPartOnly | internal/ai/gemini.go:98-109 | further parts and further candidates do not change the result |
| ApiKey.PassKey | internal/utils/apikey.go:48-61 | a key from `pass` exists exactly when it ran and printed something not all space; the key is the whole first line of the trimmed output (it ends where the trimmed output ends or at its first newline), non-empty, starts with a non-space, and occurs in the output |
| ApiKey.FirstLineOfTrimmed | internal/utils/apikey.go:53-57 | the first line of a trimmed output that is not all space is non-empty, starts with a non-space, occurs in the output, and is the whole trimmed output when that has no newline |
| ApiKey.GetGeminiAPIKey | internal/utils/apikey.go:28-85 | the environment first, then `pass`, then the configuration key; the error exactly when all three are empty, with the fixed message |
| ApiKey.CredentialNeverEmpty | internal/utils/apikey.go:40-79 | a successful lookup never yields an empty key |
| ApiKey.SourcesInOrder | internal/utils/apikey.go:40-79 | a key from a later source means every earlier source gave nothing |
| ApiKey.EnvironmentWins | internal/utils/apikey.go:40-44 | with the variable set, `pass` and the configuration do not matter |
| ApiKey.BlankPassFallsThrough | internal/utils/apikey.go:51-61 | blank `pass` output behaves as `pass` missing or failing |
| ApiKey.NotFoundMessageNamesSources | internal/utils/apikey.go:82-84 | the error names the variable, the `pass` entry and the configuration field |
| Session.MoodNotices | cmd/fix.go:88-99 | one notice per mood warning, in order |
| Session.Converse | cmd/fix.go:106-127 | editor error, blank input and client error stop in that order; otherwise the request is the key, the effective model and the final prompt, and the outcome is the classified reply |
| Session.PrintAndCopy | cmd/answer.go:114-128 | the result is printed trimmed; under `--copy` it is copied untrimmed, or a warning is given when the clipboard fails |
| Session.PromptHasNoPlaceholder | cmd/fix.go:104 | a segment-view template filled with `{`-free mood, text and language keeps no placeholder |
| Session.PromptCarriesInput | cmd/fix.go:104 | for a segment-view template and `{`-free input, instruction and language, the prompt holds the input, the mood instruction and the language wherever the template has their slots |
| Session.PromptKeepsLiteral | cmd/fix.go:104 | under the same conditions the prompt keeps every literal piece of the template |
| Fix.EnglishShorthand | cmd/fix.go:153-165 | without `--english` the flags are kept; with it, a language other than English (case-insensitively) is rejected; otherwise the language becomes "English" and the prompt key becomes `english_fix_only` unless `--prompt` was given |
| Fix.PersistentPreRun | cmd/fix.go:153-165 | the step-by-step hook computes exactly `EnglishShorthand` |
| Fix.EnglishShorthandIdempotent | cmd/fix.go:153-165 | applying the shorthand to its own result changes nothing |
| Fix.BaseLanguage | cmd/fix.go:48-51 | a non-empty `--language` overrides the configured language |
| Fix.Instruction | cmd/fix.go:85-100 | the key's own instruction when the key is in the map, otherwise exactly what asking for the default mood injects |
| Fix.PromptWithMood | cmd/fix.go:104 | the chosen template with every mood placeholder replaced; a template without one is sent as it is |
| Fix.SelectTemplate | cmd/fix.go:55-74 | "default" and "english_fix_only" in any case pick their template, the latter forcing "English"; another key warns and uses the default; no key picks the English-only template for English in any case when it is non-empty, else the default |
| Fix.ChooseTemplate | cmd/fix.go:47-74 | the step-by-step selection computes exactly the template, language and warnings of `Choice` |
| Fix.ChooseMood | cmd/fix.go:80-100 | the mood key, the instruction and the warnings of the lookup; the key is not rebound on fallback |
| Fix.RunSpec | cmd/fix.go:36-141 | key failure, then a missing template, stop before the editor; an editor failure, a client failure and a processing failure each end the run with that failure; blank input cancels; the request carries the key, the effective model and the mood-filled template with the input and the chosen language; success copies the text and prints nothing; a clipboard failure prints the text and is fatal; no other end prints or copies anything; the notices are the template warning and the mood warnings |
| Fix.Run | cmd/fix.go:36-141 | states `Fix.RunSpec` |
| Fix.Command | cmd/fix.go:153-165 | a flag conflict stops the command before anything else; otherwise the run meets `Fix.RunSpec` for the flags as the rule adjusted them |
| Fix.SelectionIgnoresCase | cmd/fix.go:56 | keys equal up to ASCII case select the same template |
| Fix.RecognisedKeysAreConfigKeys | cmd/fix.go:56-61 | the recognised keys select the template their configuration key names |
| Fix.SelectionIsAFixTemplate | cmd/fix.go:55-74 | the selected template is always one of the two fix templates |
| Fix.LanguageOnlyForcedToEnglish | cmd/fix.go:55-74 | selection changes the language only to "English", and only for the English-only key |
| Fix.NormalizedAlwaysHasTemplate | cmd/fix.go:75-77 | after the defaults the "no suitable template" error cannot happen |
| Fix.EnglishShorthandChoosesEnglishTemplate | cmd/fix.go:153-165 | `--english` alone leads to the English-only template and "English" |
| Fix.EnglishShorthandRejectsOtherLanguage | cmd/fix.go:155-157 | `--english` with `--language German` is rejected |
| Fix.ExplicitPromptSurvivesShorthand | cmd/fix.go:158-162 | `--english` keeps an explicit `--prompt` and still sets "English" |
| Fix.UnknownPromptSurvivesShorthand | cmd/fix.go:55-66 | `--english` with an explicit unknown `--prompt` keeps the key and "English"; the selection then takes the default template and warns with the key and "English" |
| Fix.UnknownMoodInjectsNothing | cmd/fix.go:85-99 | with the built-in moods and a "neutral" default, an unknown mood injects nothing and is still reported |
| Fix.FixPromptHasNoPlaceholder | cmd/fix.go:104 | with segment-view fix templates and `{`-free values, no placeholder reaches the model |
| Fix.BuiltinPromptHasNoPlaceholder | cmd/fix.go:104 | the same for the built-in templates and moods |
| Fix.FixPromptCarriesInput | cmd/fix.go:104 | with segment-view fix templates and `{`-free input and instruction, the prompt sent holds the input and the mood instruction, and the language when the default template was chosen and has its slot |
| Fix.BuiltinPromptCarriesInput | cmd/fix.go:104 | for the built-in templates and moods and `{`-free input and languages: the prompt holds the input and the mood instruction, plus the chosen language on the default template and "English" on the English-only one |
| Fix.BuiltinEnglishPromptNamesEnglish | cmd/fix.go:104 | with the built-in English-only template, the prompt sent says "English" |
| Answer.Language | cmd/answer.go:46-49 | the `--language` value whenever the flag was given, even when empty |
| Answer.ResolvedKey | cmd/answer.go:52-73 | the key is rebound to the default mood exactly when the lookup fell back to it |
| Answer.Instruction | cmd/answer.go:57-79 | a non-empty looked-up instruction is used; an empty one becomes the neutral sentence exactly when the resolved key is "neutral"; nothing else is ever injected |
| Answer.PromptWithMood | cmd/answer.go:89 | the answer template with every mood placeholder replaced; a template without one is sent as it is |
| Answer.ChooseMood | cmd/answer.go:52-79 | the resolved key, the instruction (the built-in sentence for an empty "neutral") and the warnings |
| Answer.Run | cmd/answer.go:35-129 | key failure stops first; mood warnings precede a missing-template stop; an editor failure, a client failure and a processing failure each end the run with that failure; blank input cancels; the request carries the mood-filled answer template; the answer is printed trimmed and, under `--copy`, copied, a clipboard failure only warning; no other end prints or copies anything; the notices are the mood warnings and, on success, the clipboard warning |
| Answer.ResolvedKeyNamesUsedMood | cmd/answer.go:66-68 | the resolved key names the mood whose instruction was used |
| Answer.InstructionIsLookedUpOrSentence | cmd/answer.go:57-79 | the instruction is the looked-up one, or the neutral sentence when that is empty and the key is "neutral" |
| Answer.NeutralNeverEmpty | cmd/answer.go:77-79 | the neutral mood never injects an empty instruction |
| Answer.UnknownMoodGetsNeutralSentence | cmd/answer.go:57-79 | with the built-in moods and a "neutral" default, an unknown mood gets the neutral sentence |
| Answer.MissingDefaultInjectsNothing | cmd/answer.go:69-72 | an unknown key with a missing default mood injects nothing and gives the second warning |
| Answer.AnswerPromptHasNoPlaceholder | cmd/answer.go:89 | with a segment-view answer template and `{`-free values, no placeholder reaches the model |
| Answer.BuiltinPromptHasNoPlaceholder | cmd/answer.go:89 | the same for the built-in template and moods |
| Answer.NeutralSentenceBraceFree | cmd/answer.go:78 | the neutral sentence has no `{` |
| Explain.Language | cmd/explain.go:48-54 | the `--language` value whenever the flag was given, else the configured language |
| Explain.Run | cmd/explain.go:35-104 | key failure, then a missing template, stop first; an editor failure, a client failure and a processing failure each end the run with that failure; blank input cancels; the template is sent with no mood substitution; printing and copying as in `answer`; no other end prints or copies anything; the only notice is a clipboard warning on success |
| Explain.ExplainPromptKeepsOnlyMoodSlots | cmd/explain.go:57-60 | the explain prompt keeps exactly the template's own mood placeholders and loses every text and language placeholder |
| Explain.BuiltinPromptHasNoPlaceholder | cmd/explain.go:57-60 | with the built-in explain template no placeholder reaches the model |
| Contrast.UnknownMoodFixVersusAnswer | cmd/answer.go:66-79 | the same unknown mood: `fix` keeps the key and injects nothing, `answer` rebinds it to "neutral" and injects its sentence, and both warn alike |
| Contrast.EmptyLanguageFlag | cmd/fix.go:48-51 | an empty `--language` falls back in `fix`, but is used as given by `answer` and `explain` |
| Contrast.CompletedConfigHasEveryTemplate | cmd/root.go:280-295 | after the defaults no command lacks its template |
| Templates.FillByReplaceAll | cmd/fix.go:104 | on a segment-view template, `ReplaceAll` with `{`-free text fills exactly that slot and keeps the others |
| Templates.ContainsIffSlot | cmd/root.go:280 | a segment-view template contains a placeholder exactly when it has a slot for it |
| Templates.ReplaceAllRemovesToken | cmd/fix.go:104 | on a segment-view template, a replaced placeholder is gone |
| Templates.ReplaceAllCanRecreateToken | cmd/fix.go:104 | without the segment view, removing a placeholder can produce a new one |
| Text.TrimSpace | cmd/fix.go:111 | the trimmed text is the piece of the input that starts where the leading white space ends and has only white space after it; it neither starts nor ends with white space, and it is empty exactly when the input is all space |
| Text.LeadingSpace | cmd/fix.go:111 | the length of the input's leading white space: everything before it is space, the character at it is not |
| Text.TrailingSpace | cmd/fix.go:111 | the length of the input's trailing white space: everything after the cut is space, the character before it is not |
| Text.TrimLeft | internal/utils/apikey.go:53 | a suffix of the input after white space only, not starting with white space |
| Text.TrimRight | internal/utils/apikey.go:53 | a prefix of the input before white space only, not ending with white space |
| Text.TrimSpaceOccurs | internal/utils/apikey.go:53 | the trimmed text occurs in the input |
| Text.FirstLine | internal/utils/apikey.go:57 | the first line has no newline, is a prefix, and ends the input or stops at a newline |
| Text.ToLower | cmd/fix.go:56 | lower-casing maps each character and keeps the length |
| Text.EqualFold | cmd/fix.go:69 | the simple case-folding comparison; on ASCII strings it is exactly equality after lower-casing |
| Text.ReplaceAll | internal/ai/gemini.go:67-68 | left-to-right replacement of non-overlapping occurrences (its properties: `Text.ReplaceAllWithoutOccurrence`, `Templates.FillByReplaceAll`) |
| Text.ReplaceAllWithoutOccurrence | cmd/fix.go:104 | a string without the pattern is returned unchanged |
| Text.Contains | cmd/root.go:280 | the pattern occurs at some position of the string |

## Left out

- Locating, reading and decoding the configuration file (cmd/root.go:200-258) is not modelled. The loaded record is an input. It is I/O through viper and YAML.
- Writing the first-run file (`createDefaultConfig`) and `getDefaultConfigPath` are left out, apart from the record itself (`Root.DefaultConfig`). They are file I/O.
- `printVerbose` messages, the verbose notes in the key lookup and the `log` warnings at internal/ai/gemini.go:32 and 100 are left out. They are output only.
- The wording of printed messages is left out. Warnings and failures are datatypes. The not-found error of the key lookup is the one message kept as text, because its content is part of the contract.
- The empty-key check after the lookup (cmd/fix.go:43-45, cmd/answer.go:41-43) is not modelled. It can never fire: `ApiKey.CredentialNeverEmpty`.
- The editor, the clipboard, the `genai` client and the `pass` process are not modelled. Their outcomes are inputs in `Session.World`, given up front.
- Context cancellation and concurrency do not arise in the model.
- The commands pass `viper.GetString("geminiApiKey")` to the key lookup (cmd/fix.go:39, cmd/answer.go:37, cmd/explain.go:38). The model passes the decoded field `geminiApiKey`. The two differ only under viper's environment overlay, which is not modelled.
- Cobra's flag parsing and command wiring are left out. A rejected `--english` becomes `Fatal(FlagConflict)` in `Fix.Command`.
- `list-models` and `list-moods` (cmd/listmodels.go, cmd/listmoods.go) are outside this model. So is `internal/editor` beyond its result.
- The block reason and the probability are carried as names. Their enumerations in the `genai` library are not part of this model.
- Case handling is partial. `Text.ToLower` lower-cases only ASCII letters, the dotted capital I and the Kelvin sign. `Text.EqualFold` folds only ASCII letters, the long s and the Kelvin sign. Every other character is kept. This gives Go's verdict whenever the result is compared with an ASCII string, which is the only use the core makes of these functions.
- Strings are sequences of characters. Go's byte strings and invalid UTF-8 are not modelled.
- `Gemini.FinalPromptHasNoPlaceholder` requires a template in segment view and text and language without `{`. The general claim is false: `Gemini.FinalPromptCanLeaveText` gives a counterexample.
- `Templates.ReplaceAllRemovesToken` has the same precondition, for the same reason: `Templates.ReplaceAllCanRecreateToken`.
- `Session.PromptHasNoPlaceholder`, `Fix.FixPromptHasNoPlaceholder` and `Answer.AnswerPromptHasNoPlaceholder` rest on the same precondition. Their `Builtin` versions discharge it for the program's own templates and moods.
- `Session.PromptCarriesInput`, `Session.PromptKeepsLiteral`, `Fix.FixPromptCarriesInput` and `Fix.BuiltinPromptCarriesInput` also need a `{`-free input and mood instruction. Go's prompt need not contain an input with a placeholder in it: a `{LANGUAGE}` typed in the text is replaced as well (`Gemini.LanguageInTextIsReplaced`).
