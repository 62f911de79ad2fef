/**
 * `GetGeminiAPIKey` (internal/utils/apikey.go): the first non-empty of the
 * environment variable, the `pass` entry and the configuration field. The
 * environment read and the `pass` subprocess are not modelled: what they gave
 * is an input.
 */
module ApiKey {
  import opened Wrappers
  import opened Text

  const EnvVarName := "GEMINI_API_KEY"
  const PassEntryName := "gemini_api_key"
  /** The configuration key of `Config.geminiApiKey`. */
  const ConfigFieldName := "geminiApiKey"

  /** What looking for `pass` on PATH and running `pass gemini_api_key` gave. */
  datatype PassLookup = PassNotOnPath | PassFailed | PassOutput(output: string)

  datatype Source = Environment | PasswordStore | ConfigurationFile

  datatype Credential = Credential(key: string, source: Source)

  /** The key in the `pass` output: the first line of the trimmed output, when there is any. */
  function PassKey(p: PassLookup): (r: Option<string>)
    ensures r.Some? <==> p.PassOutput? && !AllSpace(p.output)
    ensures r.Some? ==> && r.value != [] && '\n' !in r.value && !IsSpace(r.value[0])
                        && StartsWith(TrimSpace(p.output), r.value) && Contains(p.output, r.value)
                        && (r.value == TrimSpace(p.output) || TrimSpace(p.output)[|r.value|] == '\n')
    ensures r.Some? && '\n' !in TrimSpace(p.output) ==> r.value == TrimSpace(p.output)
  {
    match p
    case PassOutput(out) =>
      if TrimSpace(out) == [] then None
      else
        FirstLineOfTrimmed(out);
        Some(FirstLine(TrimSpace(out)))
    case _ => None
  }

  /** The first line of a trimmed output that is not all space: what `PassKey` promises of it. */
  lemma FirstLineOfTrimmed(out: string)
    requires !AllSpace(out)
    ensures var key := TrimSpace(out);
            var line := FirstLine(key);
            && line != [] && !IsSpace(line[0]) && Contains(out, line)
            && (line == key || key[|line|] == '\n')
            && ('\n' !in key ==> line == key)
  {
    var key := TrimSpace(out);
    FirstLineOfKey(key);
    TrimSpaceOccurs(out);
    ContainsTransitive(out, key, FirstLine(key));
  }

  /** The first line of a string that starts with a printing character. */
  lemma FirstLineOfKey(key: string)
    requires key != [] && !IsSpace(key[0])
    ensures var line := FirstLine(key);
            && line != [] && !IsSpace(line[0]) && Contains(key, line)
            && ('\n' !in key ==> line == key)
  {
    var line := FirstLine(key);
    assert line != [] by {
      assert key[0] != '\n';
    }
    ContainsAt(key, line, 0);
  }

  /**
   * The error text, with the places it names as parameters: the environment
   * variable and the `pass` entry are its two `%s` arguments.
   */
  function NotFoundText(envVar: string, passEntry: string, configField: string): string {
    NotFoundLead + envVar + NotFoundPass + passEntry + NotFoundConfig + configField + NotFoundTail
  }

  const NotFoundLead := "Gemini API key " + "not found. " + "Please set the "
  const NotFoundPass := " environment " + "variable, " + "store it in " + "'pass' as '"
  const NotFoundConfig := "', or add '"
  const NotFoundTail := "' to your qik " + "configuration " + "file."

  const NotFoundMessage := NotFoundText(EnvVarName, PassEntryName, ConfigFieldName)

  /** The cascade of internal/utils/apikey.go:40-84, without its verbose messages. */
  function GetGeminiAPIKey(env: string, pass: PassLookup, configKey: string): (r: Result<Credential, string>)
    ensures env != [] ==> r == Success(Credential(env, Environment))
    ensures env == [] && PassKey(pass).Some? ==> r == Success(Credential(PassKey(pass).value, PasswordStore))
    ensures env == [] && PassKey(pass).None? && configKey != [] ==> r == Success(Credential(configKey, ConfigurationFile))
    ensures r.Failure? <==> env == [] && PassKey(pass).None? && configKey == []
    ensures r.Failure? ==> r.error == NotFoundMessage
  {
    if env != [] then Success(Credential(env, Environment))
    else
      match PassKey(pass)
      case Some(key) => Success(Credential(key, PasswordStore))
      case None =>
        if configKey != [] then Success(Credential(configKey, ConfigurationFile))
        else Failure(NotFoundMessage)
  }

  /** A key that is returned is never empty, whichever source it came from. */
  lemma CredentialNeverEmpty(env: string, pass: PassLookup, configKey: string)
    ensures GetGeminiAPIKey(env, pass, configKey).Success? ==> GetGeminiAPIKey(env, pass, configKey).value.key != []
  {
  }

  /** Each source is used only when every earlier one had nothing. */
  lemma SourcesInOrder(env: string, pass: PassLookup, configKey: string)
    requires GetGeminiAPIKey(env, pass, configKey).Success?
    ensures var c := GetGeminiAPIKey(env, pass, configKey).value;
            && (c.source == Environment <==> env != [])
            && (c.source == PasswordStore <==> env == [] && PassKey(pass).Some?)
            && (c.source == ConfigurationFile <==> env == [] && PassKey(pass).None? && configKey != [])
  {
  }

  /** A set environment variable decides alone: neither `pass` nor the configuration can change the result. */
  lemma EnvironmentWins(env: string, pass1: PassLookup, pass2: PassLookup, config1: string, config2: string)
    requires env != []
    ensures GetGeminiAPIKey(env, pass1, config1) == GetGeminiAPIKey(env, pass2, config2)
  {
  }

  /** `pass` output that is only white space is treated like no `pass` at all. */
  lemma BlankPassFallsThrough(env: string, out: string, configKey: string)
    requires AllSpace(out)
    ensures GetGeminiAPIKey(env, PassOutput(out), configKey) == GetGeminiAPIKey(env, PassNotOnPath, configKey)
    ensures GetGeminiAPIKey(env, PassOutput(out), configKey) == GetGeminiAPIKey(env, PassFailed, configKey)
  {
  }

  /** The error tells the user about all three sources by name. */
  lemma {:induction false} NotFoundTextNamesSources(envVar: string, passEntry: string, configField: string)
    ensures Contains(NotFoundText(envVar, passEntry, configField), envVar)
    ensures Contains(NotFoundText(envVar, passEntry, configField), passEntry)
    ensures Contains(NotFoundText(envVar, passEntry, configField), configField)
  {
    ContainsEachPart(NotFoundLead, envVar, NotFoundPass, passEntry, NotFoundConfig, configField, NotFoundTail);
  }

  lemma NotFoundMessageNamesSources()
    ensures Contains(NotFoundMessage, EnvVarName)
    ensures Contains(NotFoundMessage, PassEntryName)
    ensures Contains(NotFoundMessage, ConfigFieldName)
  {
    NotFoundTextNamesSources(EnvVarName, PassEntryName, ConfigFieldName);
  }
}
