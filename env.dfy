/** packages/mcp-shared/src/env.ts: a setting read from the environment or from the command line. */
module Env {
  import opened Wrappers

  /**
   * `getEnvOrArg(envName, argIndex)` over the environment `env` and the
   * command line `argv`: a non-empty variable wins, then a non-empty
   * argument at exactly that index, else nothing.
   */
  function GetEnvOrArg(env: map<string, string>, argv: seq<string>, envName: string, argIndex: int): (r: Option<string>)
    ensures r.Some? ==> r.value != ""
    ensures envName in env && env[envName] != "" ==> r == Some(env[envName])
    ensures r.Some? && !(envName in env && env[envName] != "") ==>
      0 <= argIndex < |argv| && r.value == argv[argIndex]
    ensures r.None? <==>
      !(envName in env && env[envName] != "") && !(0 <= argIndex < |argv| && argv[argIndex] != "")
  {
    if envName in env && env[envName] != "" then Some(env[envName])
    else if 0 <= argIndex < |argv| && argv[argIndex] != "" then Some(argv[argIndex])
    else None
  }

  /** An empty variable counts as unset. */
  lemma EmptyVariableIsUnset(env: map<string, string>, argv: seq<string>, envName: string, argIndex: int)
    ensures GetEnvOrArg(env[envName := ""], argv, envName, argIndex) ==
            GetEnvOrArg(env - {envName}, argv, envName, argIndex)
  {
  }

  /** Other variables play no part. */
  lemma OnlyNamedVariable(env: map<string, string>, other: string, value: string, argv: seq<string>, envName: string, argIndex: int)
    requires other != envName
    ensures GetEnvOrArg(env[other := value], argv, envName, argIndex) ==
            GetEnvOrArg(env, argv, envName, argIndex)
  {
  }
}
