/** amass-mcp/src/index.ts: the `amass` subcommand checks, its command line and its result text. */
module Amass {
  import opened Wrappers
  import opened Text
  import opened Js

  datatype Options = Options(
    subcommand: string,
    domain: Option<string>,
    intelWhois: Option<bool>,
    intelOrganization: Option<string>,
    enumType: Option<string>,
    enumBrute: Option<bool>,
    enumBruteWordlist: Option<string>)

  /** The schema: the subcommand is "enum" or "intel", the enumeration type "active" or "passive". */
  predicate Valid(o: Options)
  {
    o.subcommand in {"enum", "intel"}
    && (o.enumType.None? || o.enumType.value in {"active", "passive"})
  }

  const EnumNeedsDomain := "Domain parameter is required for 'enum' subcommand"
  const IntelNeedsTarget := "Either domain or organization parameter is required for 'intel' subcommand"
  const IntelNeedsWhois := "For domain parameter whois is required"

  /** The enumeration arguments after the domain: "-passive", then "-brute" with its optional wordlist. */
  function EnumOptions(o: Options): seq<string>
  {
    (if o.enumType == Some("passive") then ["-passive"] else [])
    + (if o.enumBrute == Some(true) then ["-brute"] + (if Truthy(o.enumBruteWordlist) then ["-w", o.enumBruteWordlist.value] else []) else [])
  }

  /** The intelligence arguments: the domain, the organisation in single quotes, then "-whois". */
  function IntelOptions(o: Options): seq<string>
  {
    (if Truthy(o.domain) then ["-d", o.domain.value] else [])
    + (if Truthy(o.intelOrganization) then ["-org", "'" + o.intelOrganization.value + "'"] else [])
    + (if o.intelWhois == Some(true) then ["-whois"] else [])
  }

  /** What the handler builds, or the error it throws before spawning amass. */
  function Command(o: Options): Result<seq<string>>
    requires Valid(o)
  {
    if o.subcommand == "enum" then
      if !Truthy(o.domain) then Err(EnumNeedsDomain)
      else Ok([o.subcommand, "-d", o.domain.value] + EnumOptions(o))
    else if !Truthy(o.domain) && !Truthy(o.intelOrganization) then Err(IntelNeedsTarget)
    else if Truthy(o.domain) && o.intelWhois != Some(true) then Err(IntelNeedsWhois)
    else Ok([o.subcommand] + IntelOptions(o))
  }

  /** The handler's argument array, built by pushes interleaved with the checks. */
  method BuildArgs(o: Options) returns (r: Result<seq<string>>)
    requires Valid(o)
    ensures r == Command(o)
  {
    var amassArgs := [o.subcommand];
    if o.subcommand == "enum" {
      if !Truthy(o.domain) {
        return Err(EnumNeedsDomain);
      }
      amassArgs := amassArgs + ["-d", o.domain.value];
      if o.enumType == Some("passive") {
        amassArgs := amassArgs + ["-passive"];
      }
      if o.enumBrute == Some(true) {
        amassArgs := amassArgs + ["-brute"];
        if Truthy(o.enumBruteWordlist) {
          amassArgs := amassArgs + ["-w", o.enumBruteWordlist.value];
        }
      }
      assert amassArgs == [o.subcommand, "-d", o.domain.value] + EnumOptions(o);
    } else if o.subcommand == "intel" {
      if !Truthy(o.domain) && !Truthy(o.intelOrganization) {
        return Err(IntelNeedsTarget);
      }
      if Truthy(o.domain) {
        amassArgs := amassArgs + ["-d", o.domain.value];
        if o.intelWhois != Some(true) {
          return Err(IntelNeedsWhois);
        }
      }
      if Truthy(o.intelOrganization) {
        amassArgs := amassArgs + ["-org", "'" + o.intelOrganization.value + "'"];
      }
      if o.intelWhois == Some(true) {
        amassArgs := amassArgs + ["-whois"];
      }
      assert amassArgs == [o.subcommand] + IntelOptions(o);
    }
    return Ok(amassArgs);
  }

  /** A built command line always starts with the subcommand. */
  lemma SubcommandFirst(o: Options)
    requires Valid(o) && Command(o).Ok?
    ensures |Command(o).value| >= 1 && Command(o).value[0] == o.subcommand
  {
  }

  /**
   * Enumeration needs a domain; it is passed right after the subcommand,
   * "-passive" follows exactly for the passive type, and a wordlist is
   * passed only together with "-brute", as its last two arguments.
   */
  lemma EnumShape(o: Options)
    requires Valid(o) && o.subcommand == "enum"
    ensures Command(o).Err? <==> !Truthy(o.domain)
    ensures Command(o).Ok? ==>
      var args := Command(o).value;
      |args| >= 3 && args[..3] == ["enum", "-d", o.domain.value]
      && ((|args| > 3 && args[3] == "-passive") <==> o.enumType == Some("passive"))
  {
  }

  lemma EnumBruteWordlist(o: Options)
    requires Valid(o) && o.subcommand == "enum" && Command(o).Ok?
    ensures var args := Command(o).value;
      o.enumBrute == Some(true) && Truthy(o.enumBruteWordlist) ==>
        |args| >= 3 && args[|args| - 3..] == ["-brute", "-w", o.enumBruteWordlist.value]
    ensures var args := Command(o).value;
      o.enumBrute != Some(true) ==> args[3..] == (if o.enumType == Some("passive") then ["-passive"] else [])
  {
  }

  /**
   * Intelligence gathering needs a domain or an organisation, and a domain
   * is only accepted together with WHOIS; "-whois" is last exactly when
   * WHOIS is asked for.
   */
  lemma IntelChecks(o: Options)
    requires Valid(o) && o.subcommand == "intel"
    ensures !Truthy(o.domain) && !Truthy(o.intelOrganization) ==> Command(o) == Err(IntelNeedsTarget)
    ensures Truthy(o.domain) && o.intelWhois != Some(true) ==> Command(o) == Err(IntelNeedsWhois)
  {
  }

  lemma IntelWhoisLast(o: Options)
    requires Valid(o) && o.subcommand == "intel" && Command(o).Ok?
    ensures var args := Command(o).value;
      |args| >= 2 && (args[|args| - 1] == "-whois" <==> o.intelWhois == Some(true))
  {
    var args := Command(o).value;
    if o.intelWhois != Some(true) {
      assert !Truthy(o.domain);
      assert args == ["intel", "-org", "'" + o.intelOrganization.value + "'"];
      assert args[2][0] == '\'';
    }
  }

  /** The organisation travels as "-org" followed by its name in single quotes. */
  lemma IntelOrganizationQuoted(o: Options)
    requires Valid(o) && o.subcommand == "intel" && Command(o).Ok? && Truthy(o.intelOrganization)
    ensures var args := Command(o).value;
      exists i :: 0 <= i < |args| - 1 && args[i] == "-org" && args[i + 1] == "'" + o.intelOrganization.value + "'"
  {
    var args := Command(o).value;
    var i := if Truthy(o.domain) then 3 else 1;
    assert args[i] == "-org" && args[i + 1] == "'" + o.intelOrganization.value + "'";
  }

  const ExitPrefix := "Amass exited with code "

  /** What follows the exit code in a failed run's text: both output streams, then the arguments comma-joined. */
  function FailureDetail(stdout: string, stderr: string, args: seq<string>): (d: string)
    ensures StartsWith(d, ". Output: " + stdout + stderr + ". Args:")
    ensures EndsWith(d, ". Args:" + Join(args, ","))
  {
    var head := ". Output: " + stdout + stderr;
    assert (head + ". Args:" + Join(args, ","))[..|head + ". Args:"|] == head + ". Args:";
    assert (head + ". Args:" + Join(args, ","))[|head|..] == ". Args:" + Join(args, ",");
    head + ". Args:" + Join(args, ",")
  }

  /** The text reported for a finished run; a non-zero exit is reported as text, not as an error. */
  function ResultText(exitCode: int, stdout: string, stderr: string, args: seq<string>): (text: string)
    ensures exitCode == 0 ==> text == stdout
  {
    if exitCode != 0 then ExitPrefix + IntToString(exitCode) + FailureDetail(stdout, stderr, args)
    else stdout
  }

  /** A failed run's text names the exit code, which reads back as a number. */
  lemma FailureNamesCode(exitCode: int, stdout: string, stderr: string, args: seq<string>)
    requires exitCode != 0
    ensures var text := ResultText(exitCode, stdout, stderr, args);
      |ExitPrefix| <= |text| && text[..|ExitPrefix|] == ExitPrefix && ParseInt(text[|ExitPrefix|..]) == Some(exitCode)
  {
    ParseIntAfter(ExitPrefix, exitCode, FailureDetail(stdout, stderr, args), ResultText(exitCode, stdout, stderr, args));
  }

  /**
   * Arguments free of ',' read back from a failed run's text: after the code,
   * both streams and ". Args:", the rest splits at ',' into the arguments.
   */
  lemma FailureArgsReadBack(exitCode: int, stdout: string, stderr: string, args: seq<string>)
    requires exitCode != 0 && |args| >= 1 && FreeOf(args, ',')
    ensures var head := ExitPrefix + IntToString(exitCode) + ". Output: " + stdout + stderr + ". Args:";
      var text := ResultText(exitCode, stdout, stderr, args);
      StartsWith(text, head) && Split(text[|head|..], ',') == args
  {
    var pre, j := ExitPrefix + IntToString(exitCode), Join(args, ",");
    var tail := ". Output: " + stdout + stderr + ". Args:";
    AppendAssoc4(pre, ". Output: ", stdout, stderr, ". Args:");
    AppendAssoc(pre, tail, j);
    var head := pre + tail;
    assert ResultText(exitCode, stdout, stderr, args) == head + j;
    assert (head + j)[..|head|] == head && (head + j)[|head|..] == j;
    SplitJoin(args, ',');
  }
}
