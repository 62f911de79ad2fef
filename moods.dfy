/**
 * The mood registry: the seven compiled-in moods (`getDefaultMoods`,
 * cmd/root.go) and the lookup with fallback that the fix and answer commands
 * share (cmd/fix.go, cmd/answer.go).
 */
module Moods {
  import opened Text
  import opened Templates
  import opened Config
  import opened MoodTexts

  const Neutral := "neutral"

  function DefaultMoods(): map<string, MoodInstruction> {
    map[
      "neutral" := MoodInstruction(
        "Standard "
        + "correction "
        + "without "
        + "specific tone "
        + "alteration. "
        + "Relies on base "
        + "prompt's "
        + "natural styling.",
        ""),
      "professional" := MoodInstruction(
        "Refine text to "
        + "be formal, "
        + "objective, and "
        + "suitable for "
        + "business or "
        + "academic "
        + "contexts.",
        ProfessionalInstruction),
      "casual" := MoodInstruction(
        "Make the text "
        + "sound more "
        + "relaxed, "
        + "friendly, and "
        + "conversational.",
        CasualInstruction),
      "funny" := MoodInstruction(
        "Inject humor, "
        + "wit, or "
        + "lightheartedness"
        + " into the text "
        + "(use with care).",
        FunnyInstruction),
      "persuasive" := MoodInstruction(
        "Make the text "
        + "more "
        + "convincing, "
        + "confident, and "
        + "impactful.",
        PersuasiveInstruction),
      "empathetic" := MoodInstruction(
        "Adjust the text "
        + "to convey "
        + "understanding, "
        + "support, and "
        + "compassion.",
        EmpatheticInstruction),
      "concise" := MoodInstruction(
        "Make the text "
        + "as brief and "
        + "to-the-point as "
        + "possible, "
        + "removing fluff.",
        ConciseInstruction)
    ]
  }


  lemma DefaultMoodKeys()
    ensures DefaultMoods().Keys == {Neutral, "professional", "casual", "funny", "persuasive", "empathetic", "concise"}
    ensures |DefaultMoods()| == 7
  {
    var keys := DefaultMoods().Keys;
    assert |keys - {Neutral}| == 6;
  }

  /** Every built-in mood has a description; only "neutral" has an empty instruction. */
  lemma DefaultMoodTexts(k: string)
    requires k in DefaultMoods()
    ensures DefaultMoods()[k].description != []
    ensures DefaultMoods()[k].instruction == [] <==> k == Neutral
    ensures BraceFree(DefaultMoods()[k].instruction)
  {
    ProfessionalInstructionBraceFree();
    CasualInstructionBraceFree();
    FunnyInstructionBraceFree();
    PersuasiveInstructionBraceFree();
    EmpatheticInstructionBraceFree();
    ConciseInstructionBraceFree();
  }

  // ----- Resolving a requested mood (shared by fix and answer) -----

  /** The mood key a command asks for: the `--mood` value when the flag was given, else the configured default. */
  function RequestedKey(flagChanged: bool, flagValue: string, defaultMood: string): (k: string)
    ensures flagChanged ==> k == flagValue
    ensures !flagChanged ==> k == defaultMood
  {
    if flagChanged then flagValue else defaultMood
  }

  /**
   * What a mood key resolves to in a mood map: its own entry, else the default
   * mood's entry, else nothing at all.
   */
  datatype Resolution = Found(instruction: string) | FellBack(instruction: string) | Unresolved

  function Resolve(moods: map<string, MoodInstruction>, defaultMood: string, key: string): (r: Resolution)
    ensures r.Found? <==> key in moods
    ensures r.FellBack? <==> key !in moods && defaultMood in moods
    ensures r.Found? ==> r.instruction == moods[key].instruction
    ensures r.FellBack? ==> r.instruction == moods[defaultMood].instruction
  {
    if key in moods then Found(moods[key].instruction)
    else if defaultMood in moods then FellBack(moods[defaultMood].instruction)
    else Unresolved
  }

  /** The instruction text a resolution injects; nothing resolved injects nothing. */
  function InstructionOf(r: Resolution): (s: string)
    ensures r.Unresolved? ==> s == []
    ensures !r.Unresolved? ==> s == r.instruction
  {
    if r.Unresolved? then [] else r.instruction
  }

  /** The two warnings the lookup can give. */
  datatype MoodWarning =
    | MoodNotFound(key: string, defaultMood: string)
    | DefaultMoodMissing(defaultMood: string)

  /**
   * The warnings, in order: an unknown key is reported only when it is
   * non-empty and is not itself the default mood; a missing default mood is
   * reported whenever the fallback is needed and fails.
   */
  function Warnings(moods: map<string, MoodInstruction>, defaultMood: string, key: string): (w: seq<MoodWarning>)
    ensures key in moods ==> w == []
    ensures MoodNotFound(key, defaultMood) in w <==> key !in moods && key != [] && key != defaultMood
    ensures DefaultMoodMissing(defaultMood) in w <==> key !in moods && defaultMood !in moods
    ensures |w| == (if key !in moods && key != [] && key != defaultMood then 1 else 0)
                   + (if key !in moods && defaultMood !in moods then 1 else 0)
    ensures |w| == 2 ==> w[0].MoodNotFound? && w[1].DefaultMoodMissing?
  {
    if key in moods then []
    else
      (if key != [] && key != defaultMood then [MoodNotFound(key, defaultMood)] else [])
      + (if defaultMood in moods then [] else [DefaultMoodMissing(defaultMood)])
  }

  /** An unknown key behaves, as far as the injected text goes, exactly like asking for the default mood. */
  lemma FallbackMatchesDefault(moods: map<string, MoodInstruction>, defaultMood: string, key: string)
    requires key !in moods
    ensures InstructionOf(Resolve(moods, defaultMood, key)) == InstructionOf(Resolve(moods, defaultMood, defaultMood))
  {
  }

  /** The injected text is always an instruction of the map, or empty when nothing resolved. */
  lemma InstructionFromRegistry(moods: map<string, MoodInstruction>, defaultMood: string, key: string)
    ensures var s := InstructionOf(Resolve(moods, defaultMood, key));
            s == [] || exists k | k in moods :: moods[k].instruction == s
  {
    var r := Resolve(moods, defaultMood, key);
    if r.Found? {
      assert moods[key].instruction == r.instruction;
    } else if r.FellBack? {
      assert moods[defaultMood].instruction == r.instruction;
    }
  }

  /** With the built-in moods, no key resolves to a text containing a brace. */
  lemma BuiltinInstructionsBraceFree(defaultMood: string, key: string)
    ensures BraceFree(InstructionOf(Resolve(DefaultMoods(), defaultMood, key)))
  {
    var r := Resolve(DefaultMoods(), defaultMood, key);
    if r.Found? {
      DefaultMoodTexts(key);
    } else if r.FellBack? {
      DefaultMoodTexts(defaultMood);
    }
  }

  /** An unknown key with the built-in moods and a "neutral" default: empty instruction plus one warning. */
  lemma UnknownKeyWithNeutralDefault(key: string)
    requires key !in DefaultMoods() && key != []
    ensures Resolve(DefaultMoods(), Neutral, key) == FellBack([])
    ensures Warnings(DefaultMoods(), Neutral, key) == [MoodNotFound(key, Neutral)]
  {
    DefaultMoodKeys();
    DefaultMoodTexts(Neutral);
  }
}
