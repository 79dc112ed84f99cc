/**
 * The HTTP security-header analyser: the response headers of a target are
 * compared with two OWASP lists, one of headers that should be removed and
 * one of recommended headers with their values, and the two findings are
 * reported as pretty-printed JSON.
 */
module HttpHeaders {
  import opened Text
  import Js

  // ---------------------------------------------------------------- response headers

  /** A response header value as the HTTP client hands it out: one string, or a list (as for `set-cookie`). */
  datatype HeaderValue = Single(text: string) | Many(texts: seq<string>)

  /** A value in a template string: a list is joined with commas. */
  function ValueText(v: HeaderValue): string
  {
    match v
    case Single(t) => t
    case Many(ts) => Join(ts, ",")
  }

  /** One header, "key: value". */
  function HeaderLine(key: string, value: HeaderValue): string
  {
    key + ": " + ValueText(value)
  }

  /** The response headers, in the order the client lists them, as lines. */
  function HeaderLines(response: seq<(string, HeaderValue)>): (r: seq<string>)
    ensures |r| == |response|
    ensures forall i :: 0 <= i < |response| ==> r[i] == HeaderLine(response[i].0, response[i].1)
  {
    seq(|response|, i requires 0 <= i < |response| => HeaderLine(response[i].0, response[i].1))
  }

  /** The name a line is judged by: the text before the first ':', trimmed and lower-cased. */
  function HeaderName(line: string): string
  {
    ToLower(Js.Trim(Split(line, ':')[0]))
  }

  /** A header key without ':' (as header names are) is read back from its line, trimmed and lower-cased. */
  lemma HeaderNameOfLine(key: string, value: HeaderValue)
    requires !HasChar(key, ':')
    ensures HeaderName(HeaderLine(key, value)) == ToLower(Js.Trim(key))
  {
    var rest := " " + ValueText(value);
    assert HeaderLine(key, value) == key + [':'] + rest;
    SplitAppend(key, rest, ':');
    SplitFree(key, ':');
  }

  // ---------------------------------------------------------------- findMatchingRemoveHeaders

  /** The line's name is one of `removeNames`, compared lower-cased. */
  predicate Listed(removeNames: seq<string>, line: string)
  {
    Js.Any(removeNames, (n: string) => ToLower(n) == HeaderName(line))
  }

  lemma ListedMeaning(removeNames: seq<string>, line: string)
    ensures Listed(removeNames, line) <==> exists i :: 0 <= i < |removeNames| && ToLower(removeNames[i]) == HeaderName(line)
  {
  }

  /** The response headers that should be removed. */
  function RemoveMatches(headers: seq<string>, removeNames: seq<string>): (r: seq<string>)
    ensures forall h :: h in r <==> h in headers && Listed(removeNames, h)
  {
    Js.Filter(headers, (h: string) => Listed(removeNames, h))
  }

  /** The matches of a concatenation are the matches of each part, in order. */
  lemma RemoveMatchesAppend(a: seq<string>, b: seq<string>, removeNames: seq<string>)
    ensures RemoveMatches(a + b, removeNames) == RemoveMatches(a, removeNames) + RemoveMatches(b, removeNames)
  {
    Js.FilterAppend(a, b, (h: string) => Listed(removeNames, h));
  }

  /** One header is kept exactly when its name is listed. */
  lemma RemoveMatchesSingle(h: string, removeNames: seq<string>)
    ensures RemoveMatches([h], removeNames) == if Listed(removeNames, h) then [h] else []
  {
    assert [h][1..] == [];
  }

  /** `a` can be obtained from `b` by deleting elements. */
  predicate Subsequence<T(==)>(a: seq<T>, b: seq<T>)
    decreases |b|
  {
    if |a| == 0 then true
    else if |b| == 0 then false
    else if a[0] == b[0] then Subsequence(a[1..], b[1..])
    else Subsequence(a, b[1..])
  }

  lemma {:induction false} FilterSubsequence<T>(xs: seq<T>, p: T -> bool)
    ensures Subsequence(Js.Filter(xs, p), xs)
    decreases |xs|
  {
    if |xs| > 0 {
      FilterSubsequence(xs[1..], p);
      var rest := Js.Filter(xs[1..], p);
      if p(xs[0]) {
        assert Js.Filter(xs, p) == [xs[0]] + rest;
        assert ([xs[0]] + rest)[1..] == rest;
      } else {
        assert Js.Filter(xs, p) == rest;
        if |rest| > 0 {
          assert rest[0] in rest;
        }
      }
    }
  }

  /** The headers to remove keep the response's order: they are a subsequence of the response. */
  lemma RemoveMatchesInOrder(headers: seq<string>, removeNames: seq<string>)
    ensures Subsequence(RemoveMatches(headers, removeNames), headers)
  {
    FilterSubsequence(headers, (h: string) => Listed(removeNames, h));
  }

  // ---------------------------------------------------------------- findMatchingAddedHeaders

  /** A recommended header and its recommended value. */
  datatype Recommended = Recommended(name: string, value: string)

  /** The names present in the response, as `HeaderName` reads them. */
  function ExistingNames(headers: seq<string>): (r: seq<string>)
    ensures |r| == |headers| && forall i :: 0 <= i < |headers| ==> r[i] == HeaderName(headers[i])
  {
    seq(|headers|, i requires 0 <= i < |headers| => HeaderName(headers[i]))
  }

  /** The recommendations whose lower-cased name the response lacks, in recommendation order. */
  function Missing(headers: seq<string>, adds: seq<Recommended>): (r: seq<Recommended>)
    ensures forall a :: a in r <==> a in adds && ToLower(a.name) !in ExistingNames(headers)
  {
    Js.Filter(adds, (a: Recommended) => ToLower(a.name) !in ExistingNames(headers))
  }

  function AddLine(a: Recommended): string
  {
    a.name + ": " + a.value
  }

  /** The recommended headers to add, as "Name: value" lines. */
  function AddedHeaders(headers: seq<string>, adds: seq<Recommended>): (r: seq<string>)
    ensures |r| == |Missing(headers, adds)|
    ensures forall i :: 0 <= i < |r| ==> r[i] == AddLine(Missing(headers, adds)[i])
  {
    var missing := Missing(headers, adds);
    seq(|missing|, i requires 0 <= i < |missing| => AddLine(missing[i]))
  }

  /** A recommendation already present in the response, in any letter case, is never made. */
  lemma PresentNotRecommended(headers: seq<string>, adds: seq<Recommended>, a: Recommended, h: string)
    requires h in headers && HeaderName(h) == ToLower(a.name)
    ensures a !in Missing(headers, adds)
  {
    var i :| 0 <= i < |headers| && headers[i] == h;
    assert ExistingNames(headers)[i] == ToLower(a.name);
  }

  /** A recommendation whose name no response header has is made. */
  lemma AbsentRecommended(headers: seq<string>, adds: seq<Recommended>, a: Recommended)
    requires a in adds
    requires forall h :: h in headers ==> HeaderName(h) != ToLower(a.name)
    ensures a in Missing(headers, adds)
  {
    forall i | 0 <= i < |headers|
      ensures ExistingNames(headers)[i] != ToLower(a.name)
    {
      assert headers[i] in headers;
    }
  }

  /** Recommendations are considered one list after the other, in order. */
  lemma MissingAppend(headers: seq<string>, a: seq<Recommended>, b: seq<Recommended>)
    ensures Missing(headers, a + b) == Missing(headers, a) + Missing(headers, b)
  {
    Js.FilterAppend(a, b, (x: Recommended) => ToLower(x.name) !in ExistingNames(headers));
  }

  // ---------------------------------------------------------------- the report

  /** An empty finding is reported as its one-line placeholder. */
  function OrPlaceholder(xs: seq<string>, placeholder: string): (r: seq<string>)
    ensures |r| >= 1
    ensures |xs| > 0 ==> r == xs
    ensures |xs| == 0 ==> r == [placeholder]
  {
    if |xs| > 0 then xs else [placeholder]
  }

  datatype Report = Report(removeHeaders: seq<string>, addedHeaders: seq<string>)

  /** The analysis of one response. */
  function Analyze(response: seq<(string, HeaderValue)>, removeNames: seq<string>, adds: seq<Recommended>): (r: Report)
    ensures |r.removeHeaders| >= 1 && |r.addedHeaders| >= 1
  {
    var headers := HeaderLines(response);
    Report(OrPlaceholder(RemoveMatches(headers, removeNames), "No headers to remove"),
           OrPlaceholder(AddedHeaders(headers, adds), "No headers to add"))
  }

  lemma {:induction false} FilterNone<T>(xs: seq<T>, p: T -> bool)
    requires forall i :: 0 <= i < |xs| ==> !p(xs[i])
    ensures Js.Filter(xs, p) == []
    decreases |xs|
  {
    if |xs| > 0 {
      assert forall i :: 0 <= i < |xs[1..]| ==> !p(xs[1..][i]) by {
        forall i | 0 <= i < |xs[1..]| ensures !p(xs[1..][i]) { assert xs[1..][i] == xs[i + 1]; }
      }
      FilterNone(xs[1..], p);
    }
  }

  /** When nothing is listed for removal, the report says so instead. */
  lemma NothingToRemove(response: seq<(string, HeaderValue)>, removeNames: seq<string>, adds: seq<Recommended>)
    requires forall i :: 0 <= i < |response| ==> !Listed(removeNames, HeaderLine(response[i].0, response[i].1))
    ensures Analyze(response, removeNames, adds).removeHeaders == ["No headers to remove"]
  {
    var headers := HeaderLines(response);
    FilterNone(headers, (h: string) => Listed(removeNames, h));
  }

  /** When every recommendation is present, the report says there is nothing to add. */
  lemma NothingToAdd(response: seq<(string, HeaderValue)>, removeNames: seq<string>, adds: seq<Recommended>)
    requires forall a :: a in adds ==> ToLower(a.name) in ExistingNames(HeaderLines(response))
    ensures Analyze(response, removeNames, adds).addedHeaders == ["No headers to add"]
  {
    var headers := HeaderLines(response);
    FilterNone(adds, (a: Recommended) => ToLower(a.name) !in ExistingNames(headers));
  }

  // ---------------------------------------------------------------- JSON.stringify(result, null, 2)

  function HexDigit(d: nat): char
    requires d < 16
  {
    if d < 10 then ('0' as int + d) as char else ('a' as int + d - 10) as char
  }

  /** How `JSON.stringify` writes one character inside a string. */
  function EscapeChar(c: char): string
  {
    if c == '"' then "\\\""
    else if c == '\\' then "\\\\"
    else if c == '\U{0008}' then "\\b"
    else if c == '\t' then "\\t"
    else if c == '\n' then "\\n"
    else if c == '\U{000C}' then "\\f"
    else if c == '\r' then "\\r"
    else if (c as int) < 0x20 then "\\u00" + [HexDigit((c as int) / 16), HexDigit((c as int) % 16)]
    else [c]
  }

  /** Characters written as they are. */
  predicate Plain(c: char)
  {
    c != '"' && c != '\\' && (c as int) >= 0x20
  }

  function Escape(s: string): (r: string)
    ensures |r| >= |s|
    decreases |s|
  {
    if |s| == 0 then "" else EscapeChar(s[0]) + Escape(s[1..])
  }

  /** A string without quotes, backslashes or control characters is written unchanged. */
  lemma {:induction false} EscapePlain(s: string)
    requires forall i :: 0 <= i < |s| ==> Plain(s[i])
    ensures Escape(s) == s
    decreases |s|
  {
    if |s| > 0 {
      assert forall i :: 0 <= i < |s[1..]| ==> Plain(s[1..][i]) by {
        forall i | 0 <= i < |s[1..]| ensures Plain(s[1..][i]) { assert s[1..][i] == s[i + 1]; }
      }
      EscapePlain(s[1..]);
      assert [s[0]] + s[1..] == s;
    }
  }

  /** Every character that is not plain is written as a backslash escape. */
  lemma EscapeCharMarked(c: char)
    ensures !Plain(c) ==> |EscapeChar(c)| >= 2 && EscapeChar(c)[0] == '\\'
    ensures Plain(c) ==> EscapeChar(c) == [c]
  {
  }

  function Quote(s: string): string
  {
    "\"" + Escape(s) + "\""
  }

  /** An array of strings, one per line, indented by `indent` inside the brackets. */
  function ArrayText(xs: seq<string>, indent: string): string
  {
    if |xs| == 0 then "[]"
    else "[" + "\n" + Join(ItemLines(xs, indent + "  "), ",\n") + "\n" + indent + "]"
  }

  function ItemLines(xs: seq<string>, indent: string): (r: seq<string>)
    ensures |r| == |xs| && forall i :: 0 <= i < |xs| ==> r[i] == indent + Quote(xs[i])
  {
    seq(|xs|, i requires 0 <= i < |xs| => indent + Quote(xs[i]))
  }

  /** The reply text: the report as `JSON.stringify` lays it out with two-space indentation. */
  function ReportText(r: Report): string
  {
    "{" + "\n" + "  \"removeHeaders\": " + ArrayText(r.removeHeaders, "  ")
    + "," + "\n" + "  \"addedHeaders\": " + ArrayText(r.addedHeaders, "  ") + "\n" + "}"
  }

  /** Each line but the last followed by a comma, as `JSON.stringify` separates array items. */
  function Commas(ys: seq<string>): (r: seq<string>)
    ensures |r| == |ys| && forall i :: 0 <= i < |ys| ==> r[i] == ys[i] + (if i < |ys| - 1 then "," else "")
  {
    seq(|ys|, i requires 0 <= i < |ys| => ys[i] + (if i < |ys| - 1 then "," else ""))
  }

  /** The lines of the reply for a report whose two lists are non-empty, as `Analyze` makes them. */
  function ReportLines(r: Report): seq<string>
  {
    ["{", "  \"removeHeaders\": " + "["] + Commas(ItemLines(r.removeHeaders, "  " + "  "))
    + ["  " + "]" + ",", "  \"addedHeaders\": " + "["] + Commas(ItemLines(r.addedHeaders, "  " + "  "))
    + ["  " + "]", "}"]
  }

  /**
   * The reply, line by line: "{", the "removeHeaders" array, then the
   * "addedHeaders" array, each item on its own line indented by four spaces,
   * escaped and quoted, in list order, with a comma after all but the last,
   * and "}" closing.
   */
  lemma ReportTextLines(r: Report)
    requires |r.removeHeaders| >= 1 && |r.addedHeaders| >= 1
    ensures var lines := Split(ReportText(r), '\n');
      var m := |r.removeHeaders|;
      var n := |r.addedHeaders|;
      |lines| == m + n + 6
      && lines[0] == "{" && lines[1] == "  \"removeHeaders\": ["
      && (forall i :: 0 <= i < m ==>
           lines[2 + i] == "    " + Quote(r.removeHeaders[i]) + (if i < m - 1 then "," else ""))
      && lines[m + 2] == "  ]," && lines[m + 3] == "  \"addedHeaders\": ["
      && (forall j :: 0 <= j < n ==>
           lines[m + 4 + j] == "    " + Quote(r.addedHeaders[j]) + (if j < n - 1 then "," else ""))
      && lines[m + n + 4] == "  ]" && lines[m + n + 5] == "}"
  {
    ReportTextJoined(r);
    ReportLinesFree(r);
    SplitJoin(ReportLines(r), '\n');
    ReportLinesFixed(r);
    ItemsPlaced(r);
    CommaItems(r.removeHeaders, "  " + "  ");
    CommaItems(r.addedHeaders, "  " + "  ");
    LineLiterals();
  }

  /** The fixed lines, written as one literal each. */
  lemma LineLiterals()
    ensures "  \"removeHeaders\": " + "[" == "  \"removeHeaders\": ["
    ensures "  " + "]" + "," == "  ],"
    ensures "  \"addedHeaders\": " + "[" == "  \"addedHeaders\": ["
    ensures "  " + "]" == "  ]"
    ensures "  " + "  " == "    "
  {
  }

  /** The fixed lines of the reply: the braces, the two keys and the two closing brackets. */
  lemma ReportLinesFixed(r: Report)
    ensures var lines := ReportLines(r);
      var m := |r.removeHeaders|;
      var n := |r.addedHeaders|;
      |lines| == m + n + 6
      && lines[0] == "{" && lines[1] == "  \"removeHeaders\": " + "["
      && lines[m + 2] == "  " + "]" + "," && lines[m + 3] == "  \"addedHeaders\": " + "["
      && lines[m + n + 4] == "  " + "]" && lines[m + n + 5] == "}"
  {
    ReportLinesParts(r);
    FiveParts(ReportHead(), Commas(ItemLines(r.removeHeaders, "  " + "  ")), ReportMiddle(),
              Commas(ItemLines(r.addedHeaders, "  " + "  ")), ReportTail());
  }

  /** The comma-ended item lines of each array, on the lines after its key. */
  lemma ItemsPlaced(r: Report)
    ensures var lines := ReportLines(r);
      var m := |r.removeHeaders|;
      var n := |r.addedHeaders|;
      (forall i :: 0 <= i < m ==> lines[2 + i] == Commas(ItemLines(r.removeHeaders, "  " + "  "))[i])
      && (forall j :: 0 <= j < n ==> lines[m + 4 + j] == Commas(ItemLines(r.addedHeaders, "  " + "  "))[j])
  {
    var c1 := Commas(ItemLines(r.removeHeaders, "  " + "  "));
    var c2 := Commas(ItemLines(r.addedHeaders, "  " + "  "));
    ReportLinesParts(r);
    FiveParts(ReportHead(), c1, ReportMiddle(), c2, ReportTail());
    var lines, m, n := ReportLines(r), |c1|, |c2|;
    forall i | 0 <= i < m ensures lines[2 + i] == c1[i] {
      assert lines[2 + i] == lines[2..m + 2][i];
    }
    forall j | 0 <= j < n ensures lines[m + 4 + j] == c2[j] {
      assert lines[m + 4 + j] == lines[m + 4..m + n + 4][j];
    }
  }

  /** The fixed lines before, between and after the two arrays' items. */
  function ReportHead(): seq<string> { ["{", "  \"removeHeaders\": " + "["] }
  function ReportMiddle(): seq<string> { ["  " + "]" + ",", "  \"addedHeaders\": " + "["] }
  function ReportTail(): seq<string> { ["  " + "]", "}"] }

  /** The reply's lines as its five parts. */
  lemma ReportLinesParts(r: Report)
    ensures ReportLines(r) == ReportHead() + Commas(ItemLines(r.removeHeaders, "  " + "  ")) + ReportMiddle()
      + Commas(ItemLines(r.addedHeaders, "  " + "  ")) + ReportTail()
  {
  }

  /** The item lines of an array, each followed by its comma but the last. */
  lemma CommaItems(xs: seq<string>, indent: string)
    ensures var c := Commas(ItemLines(xs, indent));
      |c| == |xs|
      && forall i :: 0 <= i < |xs| ==> c[i] == indent + Quote(xs[i]) + (if i < |xs| - 1 then "," else "")
  {
  }

  /** Where each part of a five-part concatenation lies, the pairs at both ends and in the middle. */
  lemma FiveParts<T>(p: seq<T>, c1: seq<T>, q: seq<T>, c2: seq<T>, t: seq<T>)
    requires |p| == 2 && |q| == 2 && |t| == 2
    ensures var s := p + c1 + q + c2 + t;
      var m := |c1|;
      var n := |c2|;
      |s| == m + n + 6
      && s[0] == p[0] && s[1] == p[1]
      && s[2..m + 2] == c1
      && s[m + 2] == q[0] && s[m + 3] == q[1]
      && s[m + 4..m + n + 4] == c2
      && s[m + n + 4] == t[0] && s[m + n + 5] == t[1]
  {
  }

  /** The two arrays, each item line ended by its comma, joined by line breaks. */
  lemma ArrayJoined(xs: seq<string>, indent: string)
    requires |xs| >= 1
    ensures ArrayText(xs, indent)
      == "[" + "\n" + Join(Commas(ItemLines(xs, indent + "  ")), "\n") + "\n" + indent + "]"
  {
    JoinCommas(ItemLines(xs, indent + "  "));
  }

  /** The reply is its lines joined by line breaks. */
  lemma ReportTextJoined(r: Report)
    requires |r.removeHeaders| >= 1 && |r.addedHeaders| >= 1
    ensures ReportText(r) == Join(ReportLines(r), "\n")
  {
    var c1 := Commas(ItemLines(r.removeHeaders, "  " + "  "));
    var c2 := Commas(ItemLines(r.addedHeaders, "  " + "  "));
    var k1, k2 := "  \"removeHeaders\": ", "  \"addedHeaders\": ";
    var p, q, t := ["{", k1 + "["], ["  " + "]" + ",", k2 + "["], ["  " + "]", "}"];
    ArrayJoined(r.removeHeaders, "  ");
    ArrayJoined(r.addedHeaders, "  ");
    var j1, j2 := Join(c1, "\n"), Join(c2, "\n");
    JoinAppend(p, c1, "\n");
    JoinAppend(p + c1, q, "\n");
    JoinAppend(p + c1 + q, c2, "\n");
    JoinAppend(p + c1 + q + c2, t, "\n");
    assert Join(p, "\n") == "{" + "\n" + (k1 + "[") by { assert p[1..] == [k1 + "["]; }
    assert Join(q, "\n") == ("  " + "]" + ",") + "\n" + (k2 + "[") by { assert q[1..] == [k2 + "["]; }
    assert Join(t, "\n") == ("  " + "]") + "\n" + "}" by { assert t[1..] == ["}"]; }
    Regrouped("{", "\n", k1, "[", j1, "  ", "]", ",", k2, j2, "}");
  }

  /**
   * The reply's pieces grouped as `ReportText` writes them equal the same
   * pieces grouped line by line.
   */
  lemma Regrouped(o: string, nl: string, k1: string, b: string, j1: string, i: string,
                  c: string, m: string, k2: string, j2: string, e: string)
    ensures o + nl + k1 + (b + nl + j1 + nl + i + c) + m + nl + k2 + (b + nl + j2 + nl + i + c) + nl + e
      == ((((o + nl + (k1 + b)) + nl + j1) + nl + ((i + c + m) + nl + (k2 + b))) + nl + j2) + nl + ((i + c) + nl + e)
  {
    var x := o + nl + k1;
    AppendAssoc6(x, b, nl, j1, nl, i, c);
    var y := x + b + nl + j1 + nl + i + c + m + nl + k2;
    AppendAssoc6(y, b, nl, j2, nl, i, c);
    AppendAssoc(o + nl, k1, b);
    var g := (i + c + m) + nl + (k2 + b);
    AppendAssoc(i + c + m + nl, k2, b);
    AppendAssoc6(x + b + nl + j1 + nl, i, c, m, nl, k2, b);
    AppendAssoc(i + c, nl, e);
    AppendAssoc4(y + b + nl + j2 + nl + i + c + nl, i, c, nl, e);
  }

  /** Joining with ",\n" is joining the comma-ended lines with "\n". */
  lemma {:induction false} JoinCommas(ys: seq<string>)
    requires |ys| >= 1
    ensures Join(ys, ",\n") == Join(Commas(ys), "\n")
    decreases |ys|
  {
    if |ys| > 1 {
      JoinCommas(ys[1..]);
      assert Commas(ys)[1..] == Commas(ys[1..]);
      assert Commas(ys)[0] == ys[0] + ",";
    }
  }

  /** No line of the reply holds a line break: escaping writes it as "\\n". */
  lemma ReportLinesFree(r: Report)
    ensures FreeOf(ReportLines(r), '\n')
  {
    var lines := ReportLines(r);
    forall k | 0 <= k < |lines| ensures !HasChar(lines[k], '\n') {
      var m := |r.removeHeaders|;
      if 2 <= k < m + 2 {
        QuoteFree(r.removeHeaders[k - 2]);
      } else if m + 4 <= k < |lines| - 2 {
        QuoteFree(r.addedHeaders[k - m - 4]);
      }
    }
  }

  /** An item line holds no line break. */
  lemma QuoteFree(x: string)
    ensures !HasChar("  " + "  " + Quote(x), '\n') && !HasChar("  " + "  " + Quote(x) + ",", '\n')
  {
    EscapeFree(x);
  }

  lemma {:induction false} EscapeFree(s: string)
    ensures forall i :: 0 <= i < |Escape(s)| ==> Escape(s)[i] != '\n'
    decreases |s|
  {
    if |s| > 0 {
      EscapeFree(s[1..]);
      assert forall i :: 0 <= i < |EscapeChar(s[0])| ==> EscapeChar(s[0])[i] != '\n';
    }
  }
}
