/**
 * servers/smuggler-mcp/src/index.ts: the `do-smuggler` tool. The command
 * line runs the smuggler script under the configured interpreter; the
 * report lines announcing a potential CL.TE or TE.CL desynchronisation are
 * collected by two global, case-insensitive regular expressions, and a
 * findings section with the two counts is appended to the text when any
 * was found.
 */
module Smuggler {
  import opened Wrappers
  import opened Text
  import opened Js
  import opened ToolResult
  import Argv

  // ---------------------------------------------------------------- command line

  /**
   * `[scriptPath, "-u", url, ...smuggler_args]`, spawned under the
   * interpreter given as the first server argument.
   */
  function Invocation(scriptPath: string, url: string, extra: Option<seq<string>>): (r: seq<string>)
    ensures |r| == 3 + |ListOrEmpty(extra)|
    ensures r[0] == scriptPath && r[1] == "-u" && r[2] == url
    ensures r[3..] == ListOrEmpty(extra)
  {
    [scriptPath, "-u", url] + ListOrEmpty(extra)
  }

  // ---------------------------------------------------------------- the report pattern

  /** One pushed entry: the mutation name and "high" or "medium". */
  datatype Entry = Entry(mutation: string, severity: string)

  /** The two techniques, each with its own regular expression. */
  datatype Technique = ClTe | TeCl

  /**
   * The literal text between the sign and the free part of the pattern,
   * `] Potential CL.TE ` (or `TE.CL`), written in lower case: the `i` flag
   * lets every letter match in either case.
   */
  function Lead(t: Technique): (r: string)
    ensures |r| == 18
    ensures forall i :: 0 <= i < |r| ==> ToLowerChar(r[i]) == r[i] && !IsLineTerminator(r[i])
  {
    "] potential " + (match t case ClTe => "cl.te" case TeCl => "te.cl") + " "
  }

  /** Equal up to ASCII case, which is what the `i` flag allows for these letters. */
  predicate SameIgnoringCase(s: string, u: string)
  {
    |s| == |u| && forall i :: 0 <= i < |s| ==> ToLowerChar(s[i]) == ToLowerChar(u[i])
  }

  /** The length of the run of `\w` characters at the start of `s`. */
  function WordRun(s: string): (n: nat)
    ensures n <= |s|
  {
    if |s| == 0 || !IsWordChar(s[0]) then 0 else 1 + WordRun(s[1..])
  }

  /** The run holds only word characters and stops at the first other character. */
  lemma {:induction false} WordRunSpec(s: string)
    ensures forall i :: 0 <= i < WordRun(s) ==> IsWordChar(s[i])
    ensures WordRun(s) < |s| ==> !IsWordChar(s[WordRun(s)])
  {
    if |s| > 0 && IsWordChar(s[0]) {
      WordRunSpec(s[1..]);
      forall i | 0 < i < WordRun(s)
        ensures IsWordChar(s[i])
      {
        assert s[i] == s[1..][i - 1];
      }
    }
  }

  /**
   * ` (<word>)` starting at `q`: a space, an opening parenthesis, one or
   * more word characters and a closing parenthesis. The `\w+` cannot stop
   * early, since only `)` may follow it.
   */
  function TailAt(text: string, q: nat): (r: Option<string>)
    ensures r.Some? ==> |r.value| > 0 && q + 3 + |r.value| <= |text|
  {
    if q + 2 <= |text| && text[q] == ' ' && text[q + 1] == '(' then
      var n := WordRun(text[q + 2..]);
      if n > 0 && q + 2 + n < |text| && text[q + 2 + n] == ')' then Some(text[q + 2..q + 2 + n]) else None
    else None
  }

  /** Where the line holding index `b` ends: the first line terminator at or after `b`. */
  function LineEnd(text: string, b: nat): (e: nat)
    requires b <= |text|
    ensures b <= e <= |text|
    decreases |text| - b
  {
    if b == |text| || IsLineTerminator(text[b]) then b else LineEnd(text, b + 1)
  }

  /** The line runs without a terminator up to its end, where one stands unless the text ends. */
  lemma {:induction false} LineEndSpec(text: string, b: nat)
    requires b <= |text|
    ensures forall k :: b <= k < LineEnd(text, b) ==> !IsLineTerminator(text[k])
    ensures LineEnd(text, b) < |text| ==> IsLineTerminator(text[LineEnd(text, b)])
    decreases |text| - b
  {
    if b < |text| && !IsLineTerminator(text[b]) {
      LineEndSpec(text, b + 1);
    }
  }

  /**
   * The greedy `.*`: the last position in `[b, e)` where the tail matches,
   * since the longest run of the free part is tried first.
   */
  function LastTail(text: string, b: nat, e: nat): (r: Option<nat>)
    requires b <= e <= |text|
    ensures r.Some? ==> b <= r.value < e && TailAt(text, r.value).Some?
    decreases e - b
  {
    if e == b then None
    else if TailAt(text, e - 1).Some? then Some(e - 1)
    else LastTail(text, b, e - 1)
  }

  /** The tail found is the last one before `e`, and when none is found there is none in `[b, e)`. */
  lemma LastTailSpec(text: string, b: nat, e: nat)
    requires b <= e <= |text|
    ensures LastTail(text, b, e).Some? ==> forall q :: LastTail(text, b, e).value < q < e ==> TailAt(text, q).None?
    ensures LastTail(text, b, e).None? ==> forall q :: b <= q < e ==> TailAt(text, q).None?
  {
    forall q | b <= q < e && TailAt(text, q).Some?
      ensures LastTail(text, b, e).Some? && q <= LastTail(text, b, e).value
    {
      LastTailReaches(text, b, e, q);
    }
  }

  /** Any tail in `[b, e)` is at or before the one the greedy search picks. */
  lemma {:induction false} LastTailReaches(text: string, b: nat, e: nat, q: nat)
    requires b <= q < e <= |text| && TailAt(text, q).Some?
    ensures LastTail(text, b, e).Some? && q <= LastTail(text, b, e).value
    decreases e - b
  {
    if TailAt(text, e - 1).None? {
      LastTailReaches(text, b, e - 1, q);
    }
  }

  /** A match of the pattern: where it starts, where it ends and what is pushed for it. */
  datatype Found = Found(start: nat, end: nat, entry: Entry)

  /** The index just after the sign and the lead, where `.*` begins. */
  function FreeStart(p: nat): nat
  {
    p + 20
  }

  /** `\[(\+|!)\] Potential CL\.TE ` (or `TE\.CL`) at index `p`, letters in any case. */
  predicate HeadAt(text: string, p: nat, t: Technique)
  {
    FreeStart(p) <= |text| && text[p] == '[' && (text[p + 1] == '+' || text[p + 1] == '!')
    && SameIgnoringCase(text[p + 2..FreeStart(p)], Lead(t))
  }

  /** Whether the pattern of technique `t` matches at index `p`, and how. */
  function MatchAt(text: string, p: nat, t: Technique): (r: Option<Found>)
    ensures r.Some? ==> r.value.start == p && FreeStart(p) + 4 <= r.value.end <= |text|
    ensures r.Some? ==> HeadAt(text, p, t)
  {
    var b := FreeStart(p);
    if HeadAt(text, p, t) then
      match LastTail(text, b, LineEnd(text, b))
      case None => None
      case Some(q) =>
        var w := TailAt(text, q).value;
        Some(Found(p, q + 3 + |w|, Entry(w, if text[p + 1] == '+' then "high" else "medium")))
    else None
  }

  /** `exec` with `lastIndex == from`: the leftmost match starting at or after `from`. */
  function FirstMatch(text: string, from: nat, t: Technique): (r: Option<Found>)
    ensures r.Some? ==> from <= r.value.start < r.value.end <= |text|
    decreases |text| - from
  {
    if from >= |text| then None
    else if MatchAt(text, from, t).Some? then MatchAt(text, from, t)
    else FirstMatch(text, from + 1, t)
  }

  /** What the search answers is the match at the position it stopped at. */
  lemma {:induction false} FirstMatchIsMatch(text: string, from: nat, t: Technique)
    ensures FirstMatch(text, from, t).Some? ==> MatchAt(text, FirstMatch(text, from, t).value.start, t) == FirstMatch(text, from, t)
    decreases |text| - from
  {
    if from < |text| && MatchAt(text, from, t).None? {
      FirstMatchIsMatch(text, from + 1, t);
    }
  }

  /** The match found is the leftmost one: no position before it matches, and none at all when nothing is found. */
  lemma FirstMatchLeftmost(text: string, from: nat, t: Technique)
    ensures FirstMatch(text, from, t).Some? ==>
      forall p :: from <= p < FirstMatch(text, from, t).value.start ==> MatchAt(text, p, t).None?
    ensures FirstMatch(text, from, t).None? ==> forall p :: from <= p ==> MatchAt(text, p, t).None?
  {
    forall p | from <= p && MatchAt(text, p, t).Some?
      ensures FirstMatch(text, from, t).Some? && FirstMatch(text, from, t).value.start <= p
    {
      FirstMatchReaches(text, from, t, p);
    }
  }

  /** The search from `from` finds a match no later than any position at or after `from` that matches. */
  lemma {:induction false} FirstMatchReaches(text: string, from: nat, t: Technique, p: nat)
    requires from <= p < |text| && MatchAt(text, p, t).Some?
    ensures FirstMatch(text, from, t).Some? && FirstMatch(text, from, t).value.start <= p
    decreases p - from
  {
    if MatchAt(text, from, t).None? {
      FirstMatchReaches(text, from + 1, t, p);
    }
  }

  /** Everything a `while (exec(...))` loop started at `from` pushes, in order. */
  function AllMatches(text: string, from: nat, t: Technique): seq<Entry>
    decreases |text| - from
  {
    match FirstMatch(text, from, t)
    case None => []
    case Some(m) => [m.entry] + AllMatches(text, m.end, t)
  }

  /** One step of the search: the entry of the next match, then everything after it. */
  lemma AllMatchesStep(text: string, from: nat, t: Technique)
    requires FirstMatch(text, from, t).Some?
    ensures var m := FirstMatch(text, from, t).value;
      from < m.end && AllMatches(text, from, t) == [m.entry] + AllMatches(text, m.end, t)
  {
  }

  /**
   * `parseResults`: one loop per technique, each pushing one entry per
   * match and resuming the search where the last match ended.
   */
  method ParseResults(output: string) returns (clTe: seq<Entry>, teCl: seq<Entry>)
    ensures clTe == AllMatches(output, 0, ClTe)
    ensures teCl == AllMatches(output, 0, TeCl)
  {
    clTe := Collect(output, ClTe);
    teCl := Collect(output, TeCl);
  }

  /** One of the two `while` loops of `parseResults`. */
  method Collect(output: string, t: Technique) returns (found: seq<Entry>)
    ensures found == AllMatches(output, 0, t)
  {
    found := [];
    var lastIndex := 0;
    var m := FirstMatch(output, lastIndex, t);
    while m.Some?
      invariant m == FirstMatch(output, lastIndex, t)
      invariant found + AllMatches(output, lastIndex, t) == AllMatches(output, 0, t)
      decreases |output| - lastIndex
    {
      AllMatchesStep(output, lastIndex, t);
      AppendAssoc(found, [m.value.entry], AllMatches(output, m.value.end, t));
      found := found + [m.value.entry];
      lastIndex := m.value.end;
      m := FirstMatch(output, lastIndex, t);
    }
  }

  // ---------------------------------------------------------------- what a match means

  /** The severity is "high" exactly for `[+]`, and "medium" for `[!]`. */
  lemma SeverityFromSign(text: string, p: nat, t: Technique)
    requires MatchAt(text, p, t).Some?
    ensures var e := MatchAt(text, p, t).value.entry;
      (e.severity == "high" <==> text[p + 1] == '+') &&
      (e.severity == "medium" <==> text[p + 1] == '!')
  {
  }

  /**
   * What a match consists of: `[`, the sign, the lead in any letter case,
   * and the word of the last ` (<word>)` on the line: no later position
   * before the line ends starts another one.
   */
  lemma MutationIsLast(text: string, p: nat, t: Technique)
    requires MatchAt(text, p, t).Some?
    ensures var m := MatchAt(text, p, t).value;
      var q := m.end - 3 - |m.entry.mutation|;
      FreeStart(p) <= q < LineEnd(text, FreeStart(p)) && TailAt(text, q) == Some(m.entry.mutation)
    ensures var m := MatchAt(text, p, t).value;
      var q := m.end - 3 - |m.entry.mutation|;
      forall k :: q < k < LineEnd(text, FreeStart(p)) ==> TailAt(text, k).None?
    ensures text[p] == '[' && (text[p + 1] == '+' || text[p + 1] == '!')
    ensures SameIgnoringCase(text[p + 2..FreeStart(p)], Lead(t))
  {
    var q, w := MatchShape(text, p, t);
    assert HeadAt(text, p, t);
  }

  /** A ` (<word>)` holds no line terminator. */
  lemma TailOnOneLine(text: string, q: nat)
    requires TailAt(text, q).Some?
    ensures forall k :: q <= k < q + 3 + |TailAt(text, q).value| ==> !IsLineTerminator(text[k])
  {
    var w := TailAt(text, q).value;
    WordRunSpec(text[q + 2..]);
    forall k | q + 2 <= k < q + 2 + |w|
      ensures !IsLineTerminator(text[k])
    {
      assert text[k] == text[q + 2..][k - q - 2];
    }
  }

  /** Text equal to a lead up to letter case holds no line terminator. */
  lemma LeadOnOneLine(s: string, t: Technique)
    requires SameIgnoringCase(s, Lead(t))
    ensures forall k :: 0 <= k < |s| ==> !IsLineTerminator(s[k])
  {
    forall k | 0 <= k < |s|
      ensures !IsLineTerminator(s[k])
    {
      assert ToLowerChar(s[k]) == Lead(t)[k];
    }
  }

  /** Nor does the text a match starts with, before its free part. */
  lemma HeadOnOneLine(text: string, p: nat, t: Technique)
    requires HeadAt(text, p, t)
    ensures forall k :: p <= k < FreeStart(p) ==> !IsLineTerminator(text[k])
  {
    var s := text[p + 2..FreeStart(p)];
    LeadOnOneLine(s, t);
    forall k | p + 2 <= k < FreeStart(p)
      ensures !IsLineTerminator(text[k])
    {
      assert text[k] == s[k - p - 2];
    }
  }

  /**
   * The line of a match ends before any later tail that no line terminator
   * separates from its own start, since the match took the last tail of its line.
   */
  lemma LineEndsBefore(text: string, b1: nat, q1: nat, p2: nat, q2: nat)
    requires b1 <= q1 < p2 <= q2 < |text|
    requires forall k :: q1 < k < LineEnd(text, b1) ==> TailAt(text, k).None?
    requires forall k :: p2 <= k <= q2 ==> !IsLineTerminator(text[k])
    requires TailAt(text, q2).Some?
    ensures LineEnd(text, b1) < p2
  {
    LineEndSpec(text, b1);
  }

  /** The positions of a match, with the stretches that hold no line terminator. */
  lemma MatchShape(text: string, p: nat, t: Technique) returns (q: nat, w: string)
    requires MatchAt(text, p, t).Some?
    ensures MatchAt(text, p, t).value.end == q + 3 + |w| && MatchAt(text, p, t).value.entry.mutation == w
    ensures FreeStart(p) <= q < LineEnd(text, FreeStart(p)) && TailAt(text, q) == Some(w)
    ensures forall k :: q < k < LineEnd(text, FreeStart(p)) ==> TailAt(text, k).None?
    ensures forall k :: p <= k < FreeStart(p) ==> !IsLineTerminator(text[k])
    ensures forall k :: q <= k < q + 3 + |w| ==> !IsLineTerminator(text[k])
  {
    var b := FreeStart(p);
    var last := LastTail(text, b, LineEnd(text, b));
    LastTailSpec(text, b, LineEnd(text, b));
    q := last.value;
    w := TailAt(text, q).value;
    HeadOnOneLine(text, p, t);
    TailOnOneLine(text, q);
  }

  /**
   * At most one entry per line: a match that starts after another one has
   * ended starts only after a line terminator, because the greedy `.*` of
   * the first has already consumed every later ` (<word>)` of its line.
   */
  lemma NextMatchOnLaterLine(text: string, p1: nat, p2: nat, t: Technique)
    requires MatchAt(text, p1, t).Some? && MatchAt(text, p2, t).Some?
    requires MatchAt(text, p1, t).value.end <= p2
    ensures exists k :: MatchAt(text, p1, t).value.end <= k < p2 && IsLineTerminator(text[k])
  {
    var q1, w1 := MatchShape(text, p1, t);
    var q2, w2 := MatchShape(text, p2, t);
    assert forall k :: p2 <= k <= q2 ==> !IsLineTerminator(text[k]) by {
      LineEndSpec(text, FreeStart(p2));
    }
    LineEndsBefore(text, FreeStart(p1), q1, p2, q2);
    var k0 := LineEnd(text, FreeStart(p1));
    LineEndSpec(text, FreeStart(p1));
    assert q1 + 3 + |w1| <= k0 && IsLineTerminator(text[k0]);
  }

  /** A run of word characters followed by a non-word character has exactly its own length. */
  lemma {:induction false} WordRunOf(word: string, rest: string)
    requires forall k :: 0 <= k < |word| ==> IsWordChar(word[k])
    requires |rest| > 0 && !IsWordChar(rest[0])
    ensures WordRun(word + rest) == |word|
    decreases |word|
  {
    if |word| > 0 {
      assert (word + rest)[1..] == word[1..] + rest;
      WordRunOf(word[1..], rest);
    } else {
      assert word + rest == rest;
    }
  }

  /** A text ending in ` (<word>)` has its last tail there and nowhere after. */
  lemma TailAtEnd(pre: string, word: string)
    requires |word| > 0 && forall k :: 0 <= k < |word| ==> IsWordChar(word[k])
    ensures var text := pre + (" (" + word + ")");
      TailAt(text, |pre|) == Some(word) &&
      (forall k :: |pre| < k < |text| ==> TailAt(text, k).None?) &&
      (forall k :: |pre| <= k < |text| ==> !IsLineTerminator(text[k]))
  {
    var text := pre + (" (" + word + ")");
    var q := |pre|;
    assert text[q] == ' ' && text[q + 1] == '(';
    assert text[q + 2..] == word + ")";
    WordRunOf(word, ")");
    assert text[q + 2 + |word|] == ')';
    assert text[q + 2..q + 2 + |word|] == word;
    forall k | q + 2 <= k < q + 2 + |word|
      ensures text[k] == word[k - q - 2]
    {
    }
  }

  /** A match is read off the head and the last tail of its line. */
  lemma MatchOf(text: string, p: nat, t: Technique, q: nat)
    requires HeadAt(text, p, t)
    requires LastTail(text, FreeStart(p), LineEnd(text, FreeStart(p))) == Some(q)
    ensures var w := TailAt(text, q).value;
      MatchAt(text, p, t) == Some(Found(p, q + 3 + |w|, Entry(w, if text[p + 1] == '+' then "high" else "medium")))
  {
  }

  /** The greedy search stops at a tail with none after it. */
  lemma {:induction false} LastTailIs(text: string, b: nat, e: nat, q: nat)
    requires b <= q < e <= |text| && TailAt(text, q).Some?
    requires forall k :: q < k < e ==> TailAt(text, k).None?
    ensures LastTail(text, b, e) == Some(q)
    decreases e - q
  {
    if q < e - 1 {
      LastTailIs(text, b, e - 1, q);
    }
  }

  /** A line with no terminator from `b` on reaches the end of the text. */
  lemma {:induction false} LineEndIsEnd(text: string, b: nat)
    requires b <= |text|
    requires forall k :: b <= k < |text| ==> !IsLineTerminator(text[k])
    ensures LineEnd(text, b) == |text|
    decreases |text| - b
  {
    if b < |text| {
      LineEndIsEnd(text, b + 1);
    }
  }

  /**
   * A one-line report `[<sign>]<lead><free> (<word>)`, with the lead in any
   * letter case, yields exactly one entry carrying that word.
   */
  lemma SingleFinding(head: string, free: string, word: string, t: Technique)
    requires |head| == 20 && head[0] == '[' && (head[1] == '+' || head[1] == '!')
    requires SameIgnoringCase(head[2..], Lead(t))
    requires forall k :: 0 <= k < |free| ==> !IsLineTerminator(free[k])
    requires |word| > 0 && forall k :: 0 <= k < |word| ==> IsWordChar(word[k])
    ensures AllMatches(head + free + (" (" + word + ")"), 0, t) ==
      [Entry(word, if head[1] == '+' then "high" else "medium")]
  {
    var pre := head + free;
    var text := pre + (" (" + word + ")");
    assert LineEnd(text, FreeStart(0)) == |text| by {
      TailAtEnd(pre, word);
      FreeOnOneLine(head, free, " (" + word + ")");
      LineEndIsEnd(text, 20);
    }
    assert HeadAt(text, 0, t) && text[1] == head[1] by {
      HeadOf(head, free, " (" + word + ")", t);
    }
    assert TailAt(text, |pre|) == Some(word) && forall k :: |pre| < k < |text| ==> TailAt(text, k).None? by {
      TailAtEnd(pre, word);
    }
    SingleMatch(text, t, |pre|);
  }

  /** A head at the front and a last tail closing the only line give exactly one entry. */
  lemma SingleMatch(text: string, t: Technique, q: nat)
    requires HeadAt(text, 0, t) && LineEnd(text, FreeStart(0)) == |text|
    requires FreeStart(0) <= q < |text| && TailAt(text, q).Some? && q + 3 + |TailAt(text, q).value| == |text|
    requires forall k :: q < k < |text| ==> TailAt(text, k).None?
    ensures AllMatches(text, 0, t) == [Entry(TailAt(text, q).value, if text[1] == '+' then "high" else "medium")]
  {
    LastTailIs(text, FreeStart(0), |text|, q);
    MatchOf(text, 0, t, q);
    var m := MatchAt(text, 0, t).value;
    assert FirstMatch(text, 0, t) == Some(m);
    assert FirstMatch(text, |text|, t) == None;
  }

  /** The free part between a head and a tail holds no line terminator when the free text holds none. */
  lemma FreeOnOneLine(head: string, free: string, tail: string)
    requires |head| == 20
    requires forall k :: 0 <= k < |free| ==> !IsLineTerminator(free[k])
    ensures forall k :: 20 <= k < |head + free| ==> !IsLineTerminator((head + free + tail)[k])
  {
    forall k | 20 <= k < |head + free|
      ensures !IsLineTerminator((head + free + tail)[k])
    {
      assert (head + free + tail)[k] == free[k - 20];
    }
  }

  /** A head of the right shape at the front of a text is seen there, sign included. */
  lemma HeadOf(head: string, free: string, tail: string, t: Technique)
    requires |head| == 20 && head[0] == '[' && (head[1] == '+' || head[1] == '!')
    requires SameIgnoringCase(head[2..], Lead(t))
    ensures HeadAt(head + free + tail, 0, t) && (head + free + tail)[1] == head[1]
  {
    assert (head + free + tail)[2..20] == head[2..];
  }

  // ---------------------------------------------------------------- the response

  const Tool := FormatOptions("smuggler", Some(true), Some(true), None)

  const Heading := "\n\n--- Findings ---\nCL.TE: "
  const Middle := " potential issues\nTE.CL: "
  const Closing := " potential issues"

  /** The findings section for the two counts. */
  function Section(clTe: nat, teCl: nat): string
  {
    Heading + IntToString(clTe) + Middle + IntToString(teCl) + Closing
  }

  /** The text with the findings section appended when either list is non-empty. */
  function WithFindings(text: string, clTe: nat, teCl: nat): (r: string)
    ensures clTe == 0 && teCl == 0 ==> r == text
  {
    if clTe > 0 || teCl > 0 then text + Section(clTe, teCl) else text
  }

  /**
   * What the tool returns: the error `formatToolResult` throws on a
   * non-zero exit, otherwise its text, scanned and possibly extended.
   */
  function Response(result: SpawnResult): (r: Result<string>)
    ensures r.Err? <==> result.exitCode != 0
  {
    match FormatToolResult(result, Tool)
    case Err(msg) => Err(msg)
    case Ok(items) =>
      var text := items[0].text;
      Ok(WithFindings(text, |AllMatches(text, 0, ClTe)|, |AllMatches(text, 0, TeCl)|))
  }

  /** The handler, after the process has ended: scans the text and appends in place. */
  method Handle(result: SpawnResult) returns (r: Result<string>)
    ensures r == Response(result)
  {
    var response := FormatToolResult(result, Tool);
    if response.Err? {
      return Err(response.msg);
    }
    var text := response.value[0].text;
    var clTe, teCl := ParseResults(text);
    if |clTe| > 0 || |teCl| > 0 {
      text := text + Section(|clTe|, |teCl|);
    }
    r := Ok(text);
  }

  /** With no entry of either kind the text is exactly what `formatToolResult` produced. */
  lemma NoFindingsUnchanged(result: SpawnResult)
    requires result.exitCode == 0
    requires AllMatches(SuccessText(result, Tool), 0, ClTe) == []
    requires AllMatches(SuccessText(result, Tool), 0, TeCl) == []
    ensures Response(result) == Ok(SuccessText(result, Tool))
  {
  }

  /** A number written between two fixed texts reads back from where the first ends. */
  lemma CountReadsBack(head: string, n: nat, rest: string)
    requires |rest| > 0 && rest[0] == ' '
    ensures var r := head + (IntToString(n) + rest);
      |head| <= |r| && r[..|head|] == head && ParseInt(r[|head|..]) == Some(n)
  {
    ParseIntAfter(head, n, rest, head + (IntToString(n) + rest));
  }

  /**
   * With at least one entry the original text is kept as a prefix, and the
   * two counts read back from the section are the two list lengths.
   */
  lemma FindingsCounts(text: string, clTe: nat, teCl: nat)
    requires clTe > 0 || teCl > 0
    ensures var r := WithFindings(text, clTe, teCl);
      var h1 := text + Heading;
      var h2 := h1 + IntToString(clTe) + Middle;
      StartsWith(r, text) && r != text &&
      |h1| <= |r| && r[..|h1|] == h1 && ParseInt(r[|h1|..]) == Some(clTe) &&
      |h2| <= |r| && r[..|h2|] == h2 && ParseInt(r[|h2|..]) == Some(teCl)
  {
    assert |Heading| > 0 && |Middle| > 0 && Middle[0] == ' ' && |Closing| > 0 && Closing[0] == ' ';
    CountsReadBack(text, Heading, Middle, Closing, clTe, teCl);
  }

  /** The reading back of the two counts, for any heading and any separators that start with a space. */
  lemma CountsReadBack(text: string, heading: string, middle: string, closing: string, clTe: nat, teCl: nat)
    requires |heading| > 0 && |middle| > 0 && middle[0] == ' ' && |closing| > 0 && closing[0] == ' '
    ensures var r := text + (heading + IntToString(clTe) + middle + IntToString(teCl) + closing);
      var h1 := text + heading;
      var h2 := h1 + IntToString(clTe) + middle;
      StartsWith(r, text) && r != text &&
      |h1| <= |r| && r[..|h1|] == h1 && ParseInt(r[|h1|..]) == Some(clTe) &&
      |h2| <= |r| && r[..|h2|] == h2 && ParseInt(r[|h2|..]) == Some(teCl)
  {
    var n1 := IntToString(clTe);
    var n2 := IntToString(teCl);
    var r := text + (heading + n1 + middle + n2 + closing);
    var h1 := text + heading;
    var h2 := h1 + n1 + middle;
    assert r == h1 + (n1 + (middle + n2 + closing)) by {
      AppendAssoc(text, heading, n1 + (middle + n2 + closing));
    }
    CountReadsBack(h1, clTe, middle + n2 + closing);
    assert r == h2 + (n2 + closing) by {
      AppendAssoc(middle, n2, closing);
      AppendAssoc(n1, middle, n2 + closing);
      AppendAssoc(h1, n1 + middle, n2 + closing);
      AppendAssoc(h1, n1, middle);
    }
    CountReadsBack(h2, teCl, closing);
    assert r[..|text|] == text;
  }

  /** The appended section appears exactly when some entry was found. */
  lemma FindingsIffEntries(result: SpawnResult)
    requires result.exitCode == 0
    ensures var text := SuccessText(result, Tool);
      var found := |AllMatches(text, 0, ClTe)| > 0 || |AllMatches(text, 0, TeCl)| > 0;
      Response(result).Ok? && (Response(result).value != text <==> found)
  {
    var text := SuccessText(result, Tool);
    if |AllMatches(text, 0, ClTe)| > 0 || |AllMatches(text, 0, TeCl)| > 0 {
      FindingsCounts(text, |AllMatches(text, 0, ClTe)|, |AllMatches(text, 0, TeCl)|);
    }
  }
}
