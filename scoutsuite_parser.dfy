/**
 * scoutsuite-mcp/src/parser.ts: where ScoutSuite says it saved its report,
 * and which services the report lists findings for. The report file's text
 * and `JSON.parse` are parameters; both regular expressions are written out
 * as predicates over positions in the text.
 */
module ScoutsuiteParser {
  import opened Wrappers
  import opened Text
  import opened Js
  import opened Json

  // ---------------------------------------------------------------- report path

  const Saving := "Saving data to "
  const ReportPrefix := "scoutsuite-report/scoutsuite-results/scoutsuite_results_"
  const Suffix := ".js"

  /** A character of the report's name: a word character or a hyphen. */
  predicate IsNameChar(c: char)
  {
    IsWordChar(c) || c == '-'
  }

  /** The longest run of name characters starting at `i`. */
  function NameRun(s: string, i: nat): (n: nat)
    requires i <= |s|
    ensures i + n <= |s|
    ensures forall k :: i <= k < i + n ==> IsNameChar(s[k])
    ensures i + n < |s| ==> !IsNameChar(s[i + n])
    decreases |s| - i
  {
    if i < |s| && IsNameChar(s[i]) then 1 + NameRun(s, i + 1) else 0
  }

  /*
   * The pattern is a fixed lead, a fixed directory and file prefix, a run of
   * name characters and a fixed extension. The functions below take those
   * three strings as parameters, so that their proofs never unfold the
   * literals; the report-path functions further down fix them.
   */

  /** `dir`, a non-empty run of name characters, then `ext`. */
  predicate IsPathIn(path: string, dir: string, ext: string)
  {
    |path| > |dir| + |ext|
    && path[..|dir|] == dir
    && path[|path| - |ext|..] == ext
    && forall k :: |dir| <= k < |path| - |ext| ==> IsNameChar(path[k])
  }

  /** Where a path starting at `s` ends: the greedy name run must be followed there by `ext`. */
  function PathEnd(text: string, s: nat, dir: string, ext: string): (e: Option<nat>)
    ensures e.Some? ==> s <= e.value <= |text| && IsPathIn(text[s..e.value], dir, ext)
  {
    var q := s + |dir|;
    if OccursAt(text, dir, s) then
      var n := NameRun(text, q);
      if n > 0 && OccursAt(text, ext, q + n) then
        var e := q + n + |ext|;
        PathShape(text, s, n, dir, ext);
        Some(e)
      else None
    else None
  }

  lemma PathShape(text: string, s: nat, n: nat, dir: string, ext: string)
    requires OccursAt(text, dir, s) && n > 0
    requires OccursAt(text, ext, s + |dir| + n)
    requires forall k :: s + |dir| <= k < s + |dir| + n ==> IsNameChar(text[k])
    ensures IsPathIn(text[s..s + |dir| + n + |ext|], dir, ext)
  {
    var path := text[s..s + |dir| + n + |ext|];
    assert path[..|dir|] == text[s..s + |dir|];
    assert path[|path| - |ext|..] == text[s + |dir| + n..s + |dir| + n + |ext|];
    assert forall k :: |dir| <= k < |path| - |ext| ==> path[k] == text[s + k];
  }

  /** `a + b` occurs at `p` exactly when `a` does and `b` follows it. */
  lemma OccursJoin(text: string, a: string, b: string, p: nat)
    ensures OccursAt(text, a + b, p) <==> OccursAt(text, a, p) && OccursAt(text, b, p + |a|)
  {
    if OccursAt(text, a, p) && OccursAt(text, b, p + |a|) {
      assert text[p..p + |a + b|] == text[p..p + |a|] + text[p + |a|..p + |a| + |b|];
    }
    if OccursAt(text, a + b, p) {
      assert text[p..p + |a|] == (a + b)[..|a|];
      assert text[p + |a|..p + |a| + |b|] == (a + b)[|a|..];
    }
  }

  /** The path captured when the pattern matches at `p`. */
  function CaptureAt(text: string, p: nat, lead: string, dir: string, ext: string): (r: Option<string>)
    ensures r.Some? ==> IsPathIn(r.value, dir, ext) && OccursAt(text, lead + r.value, p)
  {
    if OccursAt(text, lead, p) then
      match PathEnd(text, p + |lead|, dir, ext)
      case Some(e) =>
        var path := text[p + |lead|..e];
        assert OccursAt(text, path, p + |lead|);
        OccursJoin(text, lead, path, p);
        Some(path)
      case None => None
    else None
  }

  /** The leftmost match at or after `from`. */
  function FirstCapture(text: string, from: nat, lead: string, dir: string, ext: string): (r: Option<string>)
    ensures r.Some? ==> IsPathIn(r.value, dir, ext) && Contains(text, lead + r.value)
    decreases |text| + 1 - from
  {
    if from > |text| then None
    else if CaptureAt(text, from, lead, dir, ext).Some? then CaptureAt(text, from, lead, dir, ext)
    else FirstCapture(text, from + 1, lead, dir, ext)
  }

  /** The first match wins. */
  lemma {:induction false} FirstCaptureLeftmost(text: string, from: nat, p: nat, lead: string, dir: string, ext: string)
    requires from <= p && CaptureAt(text, p, lead, dir, ext).Some?
    requires forall k :: from <= k < p ==> CaptureAt(text, k, lead, dir, ext).None?
    ensures FirstCapture(text, from, lead, dir, ext) == CaptureAt(text, p, lead, dir, ext)
    decreases p - from
  {
    if from < p {
      assert CaptureAt(text, from, lead, dir, ext).None?;
      FirstCaptureLeftmost(text, from + 1, p, lead, dir, ext);
    }
  }

  /** Nothing is captured exactly when the pattern matches nowhere. */
  lemma {:induction false} FirstCaptureNone(text: string, from: nat, lead: string, dir: string, ext: string)
    ensures FirstCapture(text, from, lead, dir, ext).None? <==>
      forall p :: from <= p <= |text| ==> CaptureAt(text, p, lead, dir, ext).None?
    decreases |text| + 1 - from
  {
    if from <= |text| && CaptureAt(text, from, lead, dir, ext).None? {
      FirstCaptureNone(text, from + 1, lead, dir, ext);
    }
  }

  /** A run of name characters ended by anything else has exactly that length. */
  lemma {:induction false} NameRunExact(s: string, i: nat, n: nat)
    requires i + n <= |s|
    requires forall k :: i <= k < i + n ==> IsNameChar(s[k])
    requires i + n < |s| ==> !IsNameChar(s[i + n])
    ensures NameRun(s, i) == n
    decreases n
  {
    if n > 0 {
      NameRunExact(s, i + 1, n - 1);
    }
  }

  /** A path written into the text is read back whole: its name run stops at the extension. */
  lemma PathEndOf(text: string, s: nat, path: string, dir: string, ext: string)
    requires OccursAt(text, path, s) && IsPathIn(path, dir, ext) && |ext| > 0 && !IsNameChar(ext[0])
    ensures PathEnd(text, s, dir, ext) == Some(s + |path|)
  {
    var n := |path| - |dir| - |ext|;
    var q := s + |dir|;
    assert text[s..s + |path|] == path;
    assert OccursAt(text, dir, s) by {
      assert text[s..s + |dir|] == path[..|dir|];
    }
    forall k | q <= k < q + n ensures IsNameChar(text[k]) {
      assert text[k] == path[k - s];
    }
    assert text[q + n] == path[|path| - |ext|] == ext[0];
    NameRunExact(text, q, n);
    assert OccursAt(text, ext, q + n) by {
      assert text[q + n..q + n + |ext|] == path[|path| - |ext|..];
    }
  }

  /** Text opening with the lead and a path gives that path back, whatever follows. */
  lemma CaptureRoundTrip(path: string, rest: string, lead: string, dir: string, ext: string)
    requires IsPathIn(path, dir, ext) && |ext| > 0 && !IsNameChar(ext[0])
    ensures FirstCapture(lead + path + rest, 0, lead, dir, ext) == Some(path)
  {
    var text := lead + path + rest;
    assert OccursAt(text, lead, 0) by {
      assert text[..|lead|] == lead;
    }
    assert OccursAt(text, path, |lead|) by {
      assert text[|lead|..|lead| + |path|] == path;
    }
    PathEndOf(text, |lead|, path, dir, ext);
    assert CaptureAt(text, 0, lead, dir, ext) == Some(path);
    FirstCaptureLeftmost(text, 0, 0, lead, dir, ext);
  }

  /** A path the report pattern can capture. */
  predicate IsReportPath(path: string)
  {
    IsPathIn(path, ReportPrefix, Suffix)
  }

  /**
   * `extractReportJsPath(output)`: the path captured by the leftmost match of
   * "Saving data to " and a report path, none without one.
   */
  function ExtractReportJsPath(output: string): (r: Option<string>)
    ensures r.Some? ==> IsReportPath(r.value) && Contains(output, Saving + r.value)
  {
    FirstCapture(output, 0, Saving, ReportPrefix, Suffix)
  }

  /** Whatever follows, a line announcing a report path gives that path back. */
  lemma ReportRoundTrip(path: string, rest: string)
    requires IsReportPath(path)
    ensures ExtractReportJsPath(Saving + path + rest) == Some(path)
  {
    assert !IsNameChar(Suffix[0]);
    CaptureRoundTrip(path, rest, Saving, ReportPrefix, Suffix);
  }

  // ---------------------------------------------------------------- the results assignment

  const Assignment := "scoutsuite_results"
  const NoAssignment := "Could not extract scoutsuite_results from report file"
  const BadJson := "Failed to parse ScoutSuite results as JSON: "

  /** The longest run of white space starting at `i`. */
  function SpaceRun(s: string, i: nat): (n: nat)
    requires i <= |s|
    ensures i + n <= |s|
    ensures forall k :: i <= k < i + n ==> IsWhitespace(s[k])
    ensures i + n < |s| ==> !IsWhitespace(s[i + n])
    decreases |s| - i
  {
    if i < |s| && IsWhitespace(s[i]) then 1 + SpaceRun(s, i + 1) else 0
  }

  /**
   * Where the object literal opens when the assigned variable's `name`
   * starts at `p`: the name, white space, "=", white space, then "{". The
   * name is a parameter so that proofs need not unfold it.
   */
  function OpenAt(text: string, p: nat, name: string): (r: Option<nat>)
    ensures r.Some? ==> p + |name| < r.value < |text| && text[r.value] == '{'
    ensures r.Some? ==> OccursAt(text, name, p)
  {
    var q := p + |name|;
    if OccursAt(text, name, p) then
      var eq := q + SpaceRun(text, q);
      if eq < |text| && text[eq] == '=' then
        var b := eq + 1 + SpaceRun(text, eq + 1);
        if b < |text| && text[b] == '{' then Some(b) else None
      else None
    else None
  }

  /** What may follow the closing brace before the end: white space with at most one ";" in it. */
  predicate IsTail(s: string)
  {
    var k := SpaceRun(s, 0);
    k == |s| || (s[k] == ';' && k + 1 + SpaceRun(s, k + 1) == |s|)
  }

  /** The index of the last "}", if any. */
  function LastBrace(text: string): (r: Option<nat>)
    ensures r.Some? ==> r.value < |text| && text[r.value] == '}'
    ensures r.Some? ==> forall k :: r.value < k < |text| ==> text[k] != '}'
    ensures r.None? ==> forall k :: 0 <= k < |text| ==> text[k] != '}'
    decreases |text|
  {
    if |text| == 0 then None
    else if text[|text| - 1] == '}' then Some(|text| - 1)
    else LastBrace(text[..|text| - 1])
  }

  /** A tail holds no "}", so the brace the greedy body must end at is the last one. */
  lemma TailEndsAtLastBrace(text: string, e: nat)
    requires e < |text| && text[e] == '}' && IsTail(text[e + 1..])
    ensures LastBrace(text) == Some(e)
  {
    var s := text[e + 1..];
    var k := SpaceRun(s, 0);
    forall j | e < j < |text| ensures text[j] != '}' {
      assert text[j] == s[j - e - 1];
      if j - e - 1 > k {
        assert IsWhitespace(s[j - e - 1]);
      }
    }
  }

  /** The first assignment at or after `from` whose object literal opens before `e`. */
  function OpenFrom(text: string, from: nat, e: nat, name: string): (r: Option<nat>)
    ensures r.Some? ==> r.value < e && r.value < |text| && text[r.value] == '{'
    decreases |text| + 1 - from
  {
    if from > |text| then None
    else
      var b := OpenAt(text, from, name);
      if b.Some? && b.value < e then b else OpenFrom(text, from + 1, e, name)
  }

  /**
   * The object literal the pattern for an assignment to `name` captures:
   * from the "{" of the leftmost assignment to the last "}", which must be
   * followed only by the tail; none when the text has no such assignment.
   */
  function ObjectAssigned(text: string, name: string): (r: Option<string>)
    ensures r.Some? ==> |r.value| >= 2 && r.value[0] == '{' && r.value[|r.value| - 1] == '}'
    ensures r.Some? ==> LastBrace(text).Some? && IsTail(text[LastBrace(text).value + 1..])
  {
    match LastBrace(text)
    case None => None
    case Some(e) =>
      if !IsTail(text[e + 1..]) then None
      else
        match OpenFrom(text, 0, e, name)
        case None => None
        case Some(b) => Some(text[b..e + 1])
  }

  /** The name, " = " and a brace open the object right after the spaced equals sign. */
  lemma OpenLaidOut(text: string, name: string)
    requires OccursAt(text, name, 0) && |name| + 3 < |text|
    requires text[|name|] == ' ' && text[|name| + 1] == '=' && text[|name| + 2] == ' ' && text[|name| + 3] == '{'
    ensures OpenAt(text, 0, name) == Some(|name| + 3)
  {
    assert SpaceRun(text, |name|) == 0 + 1 + SpaceRun(text, |name| + 1);
    assert SpaceRun(text, |name| + 2) == 1 + SpaceRun(text, |name| + 3);
  }

  /** A semicolon and a line break are a tail, so the brace before them is the last one. */
  lemma TailLaidOut(text: string, e: nat)
    requires e < |text| && text[e] == '}' && text[e + 1..] == ";\n"
    ensures LastBrace(text) == Some(e) && IsTail(text[e + 1..])
  {
    assert SpaceRun(";\n", 0) == 0;
    assert SpaceRun(";\n", 2) == 0;
    assert SpaceRun(";\n", 1) == 1;
    TailEndsAtLastBrace(text, e);
  }

  /** An assignment laid out as ScoutSuite writes it, with a semicolon and a line break after it. */
  lemma ObjectAssignedWrapped(name: string, body: string)
    requires |body| >= 2 && body[0] == '{' && body[|body| - 1] == '}'
    ensures ObjectAssigned(name + " = " + body + ";\n", name) == Some(body)
  {
    var text := name + " = " + body + ";\n";
    var b := |name| + 3;
    var e := b + |body| - 1;
    assert OccursAt(text, name, 0) by {
      assert text[..|name|] == name;
    }
    assert text[b..e + 1] == body;
    assert text[e + 1..] == ";\n";
    OpenLaidOut(text, name);
    TailLaidOut(text, e);
  }

  /** The object assigned to `scoutsuite_results`. */
  function Captured(text: string): (r: Option<string>)
    ensures r.Some? ==> |r.value| >= 2 && r.value[0] == '{' && r.value[|r.value| - 1] == '}'
  {
    ObjectAssigned(text, Assignment)
  }

  /** The ScoutSuite layout: the assignment, the object, a semicolon. */
  lemma CapturedWrapped(body: string)
    requires |body| >= 2 && body[0] == '{' && body[|body| - 1] == '}'
    ensures Captured(Assignment + " = " + body + ";\n") == Some(body)
  {
    ObjectAssignedWrapped(Assignment, body);
  }

  // ---------------------------------------------------------------- services with findings

  /** What a service maps to: its findings object, or the finding names only. */
  datatype Listing = Full(findings: Json) | Summary(names: seq<string>)

  const NullService := "Cannot read properties of null (reading 'findings')"
  const NullResults := "Cannot read properties of null (reading 'services')"
  const NoServices := "Cannot convert undefined or null to object"

  /** `Object.keys(v)`: member names of an object, indices of an array or a string. */
  function Keys(v: Json): (r: seq<string>)
    ensures v.JObject? ==> |r| == |v.members|
    ensures !v.JObject? && !v.JArray? && !v.JString? ==> r == []
  {
    match v
    case JObject(ms) => seq(|ms|, i requires 0 <= i < |ms| => ms[i].0)
    case JArray(items) => seq(|items|, i requires 0 <= i < |items| => NatToString(i))
    case JString(s) => seq(|s|, i requires 0 <= i < |s| => NatToString(i))
    case _ => []
  }

  /** `if (v)` on a parsed value. */
  predicate JsTruthy(v: Json)
  {
    match v
    case JNull => false
    case JBool(b) => b
    case JNumber(n) => n != 0.0
    case JString(s) => s != ""
    case _ => true
  }

  /** `Object.entries(services)`. */
  function Entries(v: Json): (r: seq<(string, Json)>)
    ensures v.JObject? ==> r == v.members
  {
    match v
    case JObject(ms) => ms
    case JArray(items) => seq(|items|, i requires 0 <= i < |items| => (NatToString(i), items[i]))
    case JString(s) => seq(|s|, i requires 0 <= i < |s| => (NatToString(i), JString([s[i]])))
    case _ => []
  }

  /** `serviceData.findings` on a service that is not null. */
  function FindingsOf(data: Json): Option<Json>
  {
    if data.JObject? then Get(data.members, "findings") else None
  }

  /** The filter: findings present, truthy and with at least one key. */
  predicate HasFindings(data: Json)
  {
    var f := FindingsOf(data);
    f.Some? && JsTruthy(f.value) && |Keys(f.value)| > 0
  }

  function ListingOf(findings: Json, full: bool): Listing
  {
    if full then Full(findings) else Summary(Keys(findings))
  }

  /** The dictionary after the loop has seen `entries`, or the error reading a null service throws. */
  function Collected(entries: seq<(string, Json)>, full: bool): (r: Result<map<string, Listing>>)
    ensures r.Err? ==> r.msg == NullService
    decreases |entries|
  {
    if |entries| == 0 then Ok(map[])
    else
      var before := Collected(entries[..|entries| - 1], full);
      var last := entries[|entries| - 1];
      if before.Err? then before
      else if last.1.JNull? then Err(NullService)
      else if HasFindings(last.1) then Ok(before.value[last.0 := ListingOf(FindingsOf(last.1).value, full)])
      else before
  }

  /** Once the loop has thrown, later services change nothing. */
  lemma {:induction false} CollectedErrSticks(entries: seq<(string, Json)>, k: nat, full: bool)
    requires k <= |entries| && Collected(entries[..k], full).Err?
    ensures Collected(entries, full) == Err(NullService)
    decreases |entries| - k
  {
    if k < |entries| {
      assert entries[..k + 1][..k] == entries[..k];
      CollectedErrSticks(entries, k + 1, full);
    } else {
      assert entries[..k] == entries;
    }
  }

  /** The `for … of Object.entries(services)` loop writing into `servicesWithFindings`. */
  method CollectFindings(services: Json, full: bool) returns (r: Result<map<string, Listing>>)
    ensures r == Collected(Entries(services), full)
  {
    var entries := Entries(services);
    var acc: map<string, Listing> := map[];
    for i := 0 to |entries|
      invariant Collected(entries[..i], full) == Ok(acc)
    {
      var (name, data) := entries[i];
      CollectedNext(entries, i, full);
      if data.JNull? {
        CollectedErrSticks(entries, i + 1, full);
        return Err(NullService);
      }
      if HasFindings(data) {
        acc := acc[name := ListingOf(FindingsOf(data).value, full)];
      }
    }
    assert entries[..|entries|] == entries;
    r := Ok(acc);
  }

  /** The loop's state after one more service, from its state before. */
  lemma CollectedNext(entries: seq<(string, Json)>, i: nat, full: bool)
    requires i < |entries|
    ensures var before := Collected(entries[..i], full);
      var e := entries[i];
      Collected(entries[..i + 1], full) ==
        if before.Err? then before
        else if e.1.JNull? then Err(NullService)
        else if HasFindings(e.1) then Ok(before.value[e.0 := ListingOf(FindingsOf(e.1).value, full)])
        else before
  {
    assert entries[..i + 1][..i] == entries[..i];
  }

  /** The loop throws exactly when some service is null. */
  lemma {:induction false} CollectedErr(entries: seq<(string, Json)>, full: bool)
    ensures Collected(entries, full).Err? <==> exists i :: 0 <= i < |entries| && entries[i].1.JNull?
    decreases |entries|
  {
    if |entries| > 0 {
      var init := entries[..|entries| - 1];
      CollectedErr(init, full);
      assert forall i :: 0 <= i < |init| ==> init[i] == entries[i];
    }
  }

  /** Every service with findings is in the result: the loop never drops one. */
  lemma {:induction false} CollectedIncludes(entries: seq<(string, Json)>, full: bool, i: nat)
    requires Collected(entries, full).Ok?
    requires i < |entries| && HasFindings(entries[i].1)
    ensures entries[i].0 in Collected(entries, full).value
    decreases |entries|
  {
    var init := entries[..|entries| - 1];
    CollectedStep(entries, full);
    if i < |init| {
      assert init[i] == entries[i];
      CollectedIncludes(init, full, i);
    }
  }

  /** One more service keeps every name listed so far, and lists the service itself when it has findings. */
  lemma CollectedStep(entries: seq<(string, Json)>, full: bool)
    requires |entries| > 0 && Collected(entries, full).Ok?
    ensures var before := Collected(entries[..|entries| - 1], full);
      before.Ok? && before.value.Keys <= Collected(entries, full).value.Keys
      && (HasFindings(entries[|entries| - 1].1) ==> entries[|entries| - 1].0 in Collected(entries, full).value)
  {
  }

  /** Each listed service maps to the findings of one of its entries, whole or as their names. */
  lemma {:induction false} CollectedValue(entries: seq<(string, Json)>, full: bool, name: string)
    requires Collected(entries, full).Ok? && name in Collected(entries, full).value
    ensures exists i :: (0 <= i < |entries| && entries[i].0 == name && HasFindings(entries[i].1)
      && Collected(entries, full).value[name] == ListingOf(FindingsOf(entries[i].1).value, full))
    decreases |entries|
  {
    var init := entries[..|entries| - 1];
    var last := entries[|entries| - 1];
    if !(HasFindings(last.1) && name == last.0) {
      CollectedValue(init, full, name);
      var i :| 0 <= i < |init| && init[i].0 == name && HasFindings(init[i].1)
        && Collected(init, full).value[name] == ListingOf(FindingsOf(init[i].1).value, full);
      assert entries[i] == init[i];
    } else {
      assert entries[|entries| - 1] == last;
    }
  }

  /** Every listed service maps to its findings whole with a full report, and to their names otherwise. */
  lemma ListingShape(entries: seq<(string, Json)>, full: bool, name: string)
    requires Collected(entries, full).Ok? && name in Collected(entries, full).value
    ensures full <==> Collected(entries, full).value[name].Full?
    ensures !full ==> exists i :: (0 <= i < |entries| && entries[i].0 == name && HasFindings(entries[i].1)
      && Collected(entries, full).value[name] == Summary(Keys(FindingsOf(entries[i].1).value)))
  {
    CollectedValue(entries, full, name);
  }

  /** `results.services`, with the errors reading it from null or listing a missing value throw. */
  function ServicesOf(results: Json): (r: Result<Json>)
    ensures r.Ok? ==> results.JObject? && Get(results.members, "services") == Some(r.value) && !r.value.JNull?
  {
    if results.JNull? then Err(NullResults)
    else if !results.JObject? then Err(NoServices)
    else
      match Get(results.members, "services")
      case None => Err(NoServices)
      case Some(s) => if s.JNull? then Err(NoServices) else Ok(s)
  }

  /**
   * `getFindingsFromScoutSuite` on the report file's text `content`, with
   * `parse` standing for `JSON.parse` (its error message, or the value).
   */
  function FindingsFromReport(content: string, parse: string -> Result<Json>, full: bool): (r: Result<map<string, Listing>>)
    ensures Captured(content).None? ==> r == Err(NoAssignment)
    ensures Captured(content).Some? && parse(Captured(content).value).Err? ==>
      r == Err(BadJson + parse(Captured(content).value).msg)
    ensures r.Ok? ==> exists results :: (parse(Captured(content).value) == Ok(results)
      && ServicesOf(results).Ok? && r == Collected(Entries(ServicesOf(results).value), full))
  {
    match Captured(content)
    case None => Err(NoAssignment)
    case Some(body) =>
      match parse(body)
      case Err(msg) => Err(BadJson + msg)
      case Ok(results) =>
        match ServicesOf(results)
        case Err(msg) => Err(msg)
        case Ok(services) => Collected(Entries(services), full)
  }
}
