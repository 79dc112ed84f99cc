/**
 * packages/mcp-shared/src/result.ts: turning the captured output of a tool
 * process into the single text item an MCP tool returns, or into the error
 * the handler throws.
 */
module ToolResult {
  import opened Wrappers
  import opened Text
  import opened Js
  import Sanitize

  /** What `runCommand` reports once the process has ended. */
  datatype SpawnResult = SpawnResult(stdout: string, stderr: string, exitCode: int)

  /** The formatting options; absent booleans mean `false`. */
  datatype FormatOptions = FormatOptions(
    toolName: string,
    includeStderr: Option<bool>,
    stripAnsi: Option<bool>,
    emptyMessage: Option<string>)

  /** One `{ type: "text", text }` content item. */
  datatype TextContent = TextContent(text: string)

  function Clean(options: FormatOptions, s: string): (r: string)
    ensures !IsTrue(options.stripAnsi) ==> r == s
  {
    if IsTrue(options.stripAnsi) then Sanitize.RemoveAnsiCodes(s) else s
  }

  /** The body of the error: stderr, else stdout, else a fixed text. */
  function ErrorBody(result: SpawnResult): (r: string)
    ensures r != ""
  {
    OrElse(result.stderr, OrElse(result.stdout, "Unknown error"))
  }

  /** The success output before the empty-output fallback. */
  function ComposedOutput(result: SpawnResult, options: FormatOptions): string
  {
    if IsTrue(options.includeStderr) && result.stderr != "" then result.stdout + result.stderr
    else if result.stdout == "" && result.stderr != "" then result.stderr
    else result.stdout
  }

  function ErrorHeader(toolName: string, exitCode: int): string
  {
    toolName + " exited with code " + IntToString(exitCode) + ":\n"
  }

  /**
   * `formatToolResult(result, options)`: a non-zero exit is an error whose
   * message names the tool and the code; otherwise exactly one text item,
   * which is never empty.
   */
  function FormatToolResult(result: SpawnResult, options: FormatOptions): (r: Result<seq<TextContent>>)
    ensures r.Ok? <==> result.exitCode == 0
    ensures r.Err? ==> StartsWith(r.msg, ErrorHeader(options.toolName, result.exitCode))
    ensures r.Ok? ==> |r.value| == 1 && r.value[0].text != ""
  {
    if result.exitCode != 0 then
      Err(ErrorHeader(options.toolName, result.exitCode) + Clean(options, ErrorBody(result)))
    else
      var output := Clean(options, ComposedOutput(result, options));
      Ok([TextContent(OrElse(output, OptOrElse(options.emptyMessage, "No output from " + options.toolName + ".")))])
  }

  /**
   * The exit code can be read back from the error message: the text after
   * "<tool> exited with code " parses to the code.
   */
  lemma ErrorMessageCode(result: SpawnResult, options: FormatOptions)
    requires result.exitCode != 0
    ensures var r := FormatToolResult(result, options);
      var k := |options.toolName + " exited with code "|;
      r.Err? && k <= |r.msg| && ParseInt(r.msg[k..]) == Some(result.exitCode)
  {
    var r := FormatToolResult(result, options);
    var head := options.toolName + " exited with code ";
    var tail := ":\n" + Clean(options, ErrorBody(result));
    assert r.msg == head + (IntToString(result.exitCode) + tail);
    assert r.msg[|head|..] == IntToString(result.exitCode) + tail;
    ParseIntOfIntToStringThen(result.exitCode, tail);
  }

  /** Without ANSI stripping the error message ends in stderr, else stdout, else "Unknown error". */
  lemma ErrorBodyPrecedence(result: SpawnResult, options: FormatOptions)
    requires result.exitCode != 0 && !IsTrue(options.stripAnsi)
    ensures var r := FormatToolResult(result, options);
      r.Err? &&
      (result.stderr != "" ==> EndsWith(r.msg, result.stderr)) &&
      (result.stderr == "" && result.stdout != "" ==> EndsWith(r.msg, result.stdout)) &&
      (result.stderr == "" && result.stdout == "" ==> EndsWith(r.msg, "Unknown error"))
  {
    var r := FormatToolResult(result, options);
    var head := ErrorHeader(options.toolName, result.exitCode);
    assert r.msg == head + ErrorBody(result);
    assert r.msg[|head|..] == ErrorBody(result);
  }

  /** The success text, as the one item of the result. */
  function SuccessText(result: SpawnResult, options: FormatOptions): string
    requires result.exitCode == 0
  {
    FormatToolResult(result, options).value[0].text
  }

  /**
   * Which stream the success text shows, without ANSI stripping: stdout
   * followed by stderr when stderr is requested and present; stdout alone
   * otherwise; stderr only as a stand-in for an empty stdout.
   */
  lemma SuccessStreams(result: SpawnResult, options: FormatOptions)
    requires result.exitCode == 0 && !IsTrue(options.stripAnsi)
    ensures IsTrue(options.includeStderr) && result.stderr != "" ==>
      SuccessText(result, options) == result.stdout + result.stderr
    ensures !IsTrue(options.includeStderr) && result.stdout != "" ==>
      SuccessText(result, options) == result.stdout
    ensures result.stdout == "" && result.stderr != "" ==>
      SuccessText(result, options) == result.stderr
  {
  }

  /**
   * With nothing on either stream the text is the custom empty message if
   * one is given and non-empty, else "No output from <tool>.".
   */
  lemma SuccessEmpty(result: SpawnResult, options: FormatOptions)
    requires result.exitCode == 0 && result.stdout == "" && result.stderr == ""
    ensures SuccessText(result, options) ==
      if Truthy(options.emptyMessage) then options.emptyMessage.value
      else "No output from " + options.toolName + "."
  {
    assert Sanitize.RemoveAnsiCodes("") == "";
  }

  /** Stripping changes nothing on output free of escape characters. */
  lemma StripPlainOutput(result: SpawnResult, options: FormatOptions)
    requires Sanitize.NoIntroducer(result.stdout) && Sanitize.NoIntroducer(result.stderr)
    ensures FormatToolResult(result, options) ==
      FormatToolResult(result, options.(stripAnsi := Some(false)))
  {
    var plain := options.(stripAnsi := Some(false));
    var composed := ComposedOutput(result, options);
    ComposedPlain(result, options);
    assert Clean(options, composed) == composed by {
      Sanitize.RemoveAnsiNoEscape(composed);
    }
    assert Clean(options, ErrorBody(result)) == ErrorBody(result) by {
      Sanitize.RemoveAnsiNoEscape(ErrorBody(result));
    }
    assert ComposedOutput(result, plain) == composed;
  }

  /** Output composed from escape-free streams is escape-free. */
  lemma ComposedPlain(result: SpawnResult, options: FormatOptions)
    requires Sanitize.NoIntroducer(result.stdout) && Sanitize.NoIntroducer(result.stderr)
    ensures Sanitize.NoIntroducer(ComposedOutput(result, options))
  {
    var composed := ComposedOutput(result, options);
    if IsTrue(options.includeStderr) && result.stderr != "" {
      assert composed == result.stdout + result.stderr;
      forall i | 0 <= i < |composed| ensures !Sanitize.IsIntroducer(composed[i]) {
        if i < |result.stdout| { assert composed[i] == result.stdout[i]; }
        else { assert composed[i] == result.stderr[i - |result.stdout|]; }
      }
    }
  }

  /** A coloured stdout loses its colour codes when stripping is asked for. */
  lemma StripColouredOutput(text: string, options: FormatOptions)
    requires text != "" && Sanitize.NoIntroducer(text) && IsTrue(options.stripAnsi)
    ensures var out := ['\U{001B}', '[', '3', '1', 'm'] + text + ['\U{001B}', '[', '0', 'm'];
      FormatToolResult(SpawnResult(out, "", 0), options) == Ok([TextContent(text)])
  {
    Sanitize.RemoveAnsiColouredText(text);
  }
}
