/**
 * packages/mcp-shared/src/args.ts: the positional arguments a server reads
 * from its command line once the transport options are taken out.
 */
module ToolArgs {
  import opened Text

  /** The options `startServer` consumes itself. */
  const FrameworkFlags: seq<string> := ["--transport", "--port"]

  /** `arg` is a framework option, alone (`--port`) or with its value attached (`--port=8080`). */
  predicate IsFrameworkFlag(arg: string)
  {
    exists k :: 0 <= k < |FrameworkFlags| && (arg == FrameworkFlags[k] || StartsWith(arg, FrameworkFlags[k] + "="))
  }

  /**
   * The arguments left for the tool: a framework option is dropped, and so
   * is the argument after it when the option carries no '=' and is not last.
   */
  function Positional(raw: seq<string>): seq<string>
    decreases |raw|
  {
    if |raw| == 0 then []
    else if IsFrameworkFlag(raw[0]) then
      if !HasChar(raw[0], '=') && 1 < |raw| then Positional(raw[2..]) else Positional(raw[1..])
    else [raw[0]] + Positional(raw[1..])
  }

  /** What `getToolArgs` ends in: the positional arguments, or a usage message and exit status 1. */
  datatype Outcome = ToolArgs(args: seq<string>) | UsageExit(message: string, status: int)

  /** `process.argv.slice(2)`. */
  function UserArgs(argv: seq<string>): seq<string>
  {
    if |argv| <= 2 then [] else argv[2..]
  }

  /** `getToolArgs(usage, minArgs)` run with the command line `argv`. */
  method GetToolArgs(argv: seq<string>, usage: string, minArgs: int) returns (r: Outcome)
    ensures var kept := Positional(UserArgs(argv));
      r == if |kept| < minArgs then UsageExit("Usage: " + usage, 1) else ToolArgs(kept)
  {
    var rawArgs := UserArgs(argv);
    var toolArgs: seq<string> := [];
    var i := 0;
    while i < |rawArgs|
      invariant 0 <= i <= |rawArgs|
      invariant toolArgs + Positional(rawArgs[i..]) == Positional(rawArgs)
      decreases |rawArgs| - i
    {
      var arg := rawArgs[i];
      assert rawArgs[i..][1..] == rawArgs[i + 1..];
      if IsFrameworkFlag(arg) {
        if !HasChar(arg, '=') && i + 1 < |rawArgs| {
          assert rawArgs[i..][2..] == rawArgs[i + 2..];
          i := i + 1;
        }
        i := i + 1;
        continue;
      }
      toolArgs := toolArgs + [arg];
      i := i + 1;
    }
    if |toolArgs| < minArgs {
      return UsageExit("Usage: " + usage, 1);
    }
    return ToolArgs(toolArgs);
  }

  /** `xs` can be obtained from `ys` by deleting elements. */
  predicate IsSubsequence(xs: seq<string>, ys: seq<string>)
    decreases |ys|
  {
    if |xs| == 0 then true
    else if |ys| == 0 then false
    else if xs[0] == ys[0] then IsSubsequence(xs[1..], ys[1..])
    else IsSubsequence(xs, ys[1..])
  }

  lemma {:induction false} SubsequenceOfTail(xs: seq<string>, ys: seq<string>)
    requires |ys| > 0 && IsSubsequence(xs, ys[1..])
    ensures IsSubsequence(xs, ys)
    decreases |ys|, 0
  {
    if |xs| > 0 && xs[0] == ys[0] {
      // dropping the matched head keeps a subsequence of the shorter tail
      SubsequenceDropHead(xs, ys[1..]);
      assert IsSubsequence(xs[1..], ys[1..]);
    }
  }

  lemma {:induction false} SubsequenceDropHead(xs: seq<string>, ys: seq<string>)
    requires |xs| > 0 && IsSubsequence(xs, ys)
    ensures IsSubsequence(xs[1..], ys)
    decreases |ys|, 1
  {
    if xs[0] == ys[0] {
      if |xs[1..]| > 0 {
        SubsequenceDropHead(xs[1..], ys[1..]);
        SubsequenceOfTail(xs[1..], ys);
      }
    } else {
      SubsequenceDropHead(xs, ys[1..]);
      if |xs[1..]| > 0 {
        SubsequenceOfTail(xs[1..], ys);
      }
    }
  }

  /** The kept arguments appear in the command line, in the same order. */
  lemma {:induction false} PositionalIsSubsequence(raw: seq<string>)
    ensures IsSubsequence(Positional(raw), raw)
    decreases |raw|
  {
    if |raw| > 0 {
      if IsFrameworkFlag(raw[0]) {
        if !HasChar(raw[0], '=') && 1 < |raw| {
          PositionalIsSubsequence(raw[2..]);
          assert raw[1..][1..] == raw[2..];
          SubsequenceOfTail(Positional(raw[2..]), raw[1..]);
          SubsequenceOfTail(Positional(raw[2..]), raw);
        } else {
          PositionalIsSubsequence(raw[1..]);
          SubsequenceOfTail(Positional(raw[1..]), raw);
        }
      } else {
        PositionalIsSubsequence(raw[1..]);
        var p := [raw[0]] + Positional(raw[1..]);
        assert p == Positional(raw);
        assert p[0] == raw[0] && p[1..] == Positional(raw[1..]);
      }
    }
  }

  /** No framework option reaches the tool, neither as an option nor as another option's value. */
  lemma {:induction false} PositionalHasNoFrameworkFlag(raw: seq<string>)
    ensures forall k :: 0 <= k < |Positional(raw)| ==> !IsFrameworkFlag(Positional(raw)[k])
    decreases |raw|
  {
    if |raw| > 0 {
      PositionalHasNoFrameworkFlag(raw[1..]);
      if IsFrameworkFlag(raw[0]) {
        if !HasChar(raw[0], '=') && 1 < |raw| {
          PositionalHasNoFrameworkFlag(raw[2..]);
        }
      } else {
        var p := [raw[0]] + Positional(raw[1..]);
        assert p == Positional(raw);
        forall k | 0 <= k < |p|
          ensures !IsFrameworkFlag(p[k])
        {
          if k > 0 { assert p[k] == Positional(raw[1..])[k - 1]; }
        }
      }
    }
  }

  /** A command line without framework options is passed through whole. */
  lemma {:induction false} PositionalWithoutFlags(raw: seq<string>)
    requires forall k :: 0 <= k < |raw| ==> !IsFrameworkFlag(raw[k])
    ensures Positional(raw) == raw
    decreases |raw|
  {
    if |raw| > 0 {
      PositionalWithoutFlags(raw[1..]);
      assert [raw[0]] + raw[1..] == raw;
    }
  }

  /**
   * "--transport http" and "--port=8080" are taken out with their values, a
   * lone "--port" at the end is dropped, and "--portal" is not an option of ours.
   */
  lemma PositionalExamples(target: string)
    requires !IsFrameworkFlag(target)
    ensures Positional(["--transport", "http", target]) == [target]
    ensures Positional(["--port=8080", target]) == [target]
    ensures Positional([target, "--port"]) == [target]
    ensures Positional(["--portal", target]) == ["--portal", target]
  {
    assert IsFrameworkFlag("--transport") by { assert FrameworkFlags[0] == "--transport"; }
    assert !HasChar("--transport", '=') by {
      assert forall i :: 0 <= i < |"--transport"| ==> "--transport"[i] != '=';
    }
    assert ["--transport", "http", target][2..] == [target];
    assert IsFrameworkFlag("--port=8080") by {
      assert FrameworkFlags[1] + "=" == "--port=";
      assert StartsWith("--port=8080", "--port=");
    }
    assert HasChar("--port=8080", '=') by { assert "--port=8080"[6] == '='; }
    assert [target][1..] == [];
    assert Positional([target]) == [target];
    assert ["--port=8080", target][1..] == [target];
    assert IsFrameworkFlag("--port") by { assert FrameworkFlags[1] == "--port"; }
    assert [target, "--port"][1..] == ["--port"];
    assert ["--port"][1..] == [];
    assert !IsFrameworkFlag("--portal") by {
      assert !StartsWith("--portal", "--port=") by { assert "--portal"[6] != "--port="[6]; }
      assert FrameworkFlags[0] == "--transport" && FrameworkFlags[1] == "--port";
    }
    assert ["--portal", target][1..] == [target];
    assert [target][1..] == [];
  }
}
