/** Attribute defaults read from environment variables. */
module EnvDefaults {
  import opened Wrappers

  type Env = map<string, string>

  const TrueWords: set<string> := {"1", "t", "T", "TRUE", "true", "True"}
  const FalseWords: set<string> := {"0", "f", "F", "FALSE", "false", "False"}

  /** `strconv.ParseBool`: `None` stands for its syntax error. */
  function ParseBool(s: string): (r: Option<bool>)
    ensures r == Some(true) <==> s in TrueWords
    ensures r == Some(false) <==> s in FalseWords
    ensures r.None? <==> s !in TrueWords + FalseWords
  {
    match s
    case "1" => Some(true)
    case "t" => Some(true)
    case "T" => Some(true)
    case "TRUE" => Some(true)
    case "true" => Some(true)
    case "True" => Some(true)
    case "0" => Some(false)
    case "f" => Some(false)
    case "F" => Some(false)
    case "FALSE" => Some(false)
    case "false" => Some(false)
    case "False" => Some(false)
    case _ => None
  }

  /** `strconv.FormatBool`, which `ParseBool` reads back. */
  function FormatBool(b: bool): (s: string)
    ensures ParseBool(s) == Some(b)
  {
    if b then "true" else "false"
  }

  /**
   * `envDefaultBoolDefault.DefaultBool`: the variable's value when the name is
   * non-empty, the variable is set and it parses; the configured default
   * otherwise. The plan value is always known.
   */
  function DefaultBool(envName: string, defaultVal: bool, env: Env): (r: Tf<bool>)
    ensures r.Known?
    ensures envName == "" || envName !in env ==> r.value == defaultVal
    ensures envName != "" && envName in env ==>
      r.value == (if ParseBool(env[envName]).Some? then ParseBool(env[envName]).value else defaultVal)
  {
    var value :=
      if envName != "" && envName in env && ParseBool(env[envName]).Some? then ParseBool(env[envName]).value
      else defaultVal;
    Known(value)
  }

  /**
   * `envDefaultStringDefault.DefaultString`: the variable's value verbatim
   * (the empty string included) when the name is non-empty and the variable is
   * set; the configured default otherwise. The plan value is always known.
   */
  function DefaultString(envName: string, defaultVal: string, env: Env): (r: Tf<string>)
    ensures r.Known?
    ensures envName == "" || envName !in env ==> r.value == defaultVal
    ensures envName != "" && envName in env ==> r.value == env[envName]
  {
    var value := if envName != "" && envName in env then env[envName] else defaultVal;
    Known(value)
  }

  /** A boolean written into the environment is the default read back. */
  lemma DefaultBoolReadsBack(envName: string, defaultVal: bool, b: bool, env: Env)
    requires envName != ""
    ensures DefaultBool(envName, defaultVal, env[envName := FormatBool(b)]) == Known(b)
  {
  }

  /** An unparsable value falls back to the default, so it can never turn the default over. */
  lemma DefaultBoolIgnoresGarbage(envName: string, defaultVal: bool, env: Env)
    requires envName in env && ParseBool(env[envName]).None?
    ensures DefaultBool(envName, defaultVal, env) == Known(defaultVal)
  {
  }
}
