/**
 * The crt.sh client's post-processing: a certificate's `name_value` field is
 * split into host names, and the collected names are filtered down to the
 * distinct sub-domains of the requested target.
 */
module Crtsh {
  import Text
  import Js

  // ---------------------------------------------------------------- name_value

  predicate NonEmpty(v: string)
  {
    v != ""
  }

  /** The host names of one certificate: the newline-separated pieces of `name_value`, empty ones dropped. */
  function ParseNameValue(nameValue: string): (r: seq<string>)
    ensures forall v :: v in r ==> v != "" && !Text.HasChar(v, '\n')
  {
    Text.SplitPiecesFreeOfSep(nameValue, '\n');
    Js.Filter(Text.Split(nameValue, '\n'), NonEmpty)
  }

  /** Parsing two texts separated by a newline gives the names of the first, then those of the second. */
  lemma ParseNameValueAppend(a: string, b: string)
    ensures ParseNameValue(a + "\n" + b) == ParseNameValue(a) + ParseNameValue(b)
  {
    Text.SplitAppend(a, b, '\n');
    Js.FilterAppend(Text.Split(a, '\n'), Text.Split(b, '\n'), NonEmpty);
  }

  /** Non-empty, newline-free names written one per line are read back exactly, in order. */
  lemma ParseNameValueJoin(names: seq<string>)
    requires forall i :: 0 <= i < |names| ==> names[i] != "" && !Text.HasChar(names[i], '\n')
    ensures ParseNameValue(Text.Join(names, "\n")) == names
  {
    if |names| == 0 {
      assert Text.Split("", '\n') == [""];
    } else {
      Text.SplitJoin(names, '\n');
      Js.FilterKeepsAll(names, NonEmpty);
    }
  }

  /** The names gathered from a list of certificates, in order. */
  function Domains(nameValues: seq<string>): (r: seq<string>)
    ensures forall v :: v in r ==> v != "" && !Text.HasChar(v, '\n')
    decreases |nameValues|
  {
    if |nameValues| == 0 then []
    else Domains(nameValues[..|nameValues| - 1]) + ParseNameValue(nameValues[|nameValues| - 1])
  }

  /** Gathering certificate by certificate reads the same names as parsing all `name_value` fields joined by newlines. */
  lemma {:induction false} DomainsOfJoin(nameValues: seq<string>)
    requires |nameValues| >= 1
    ensures Domains(nameValues) == ParseNameValue(Text.Join(nameValues, "\n"))
    decreases |nameValues|
  {
    var n := |nameValues|;
    if n == 1 {
      assert nameValues[..0] == [];
    } else {
      var init := nameValues[..n - 1];
      DomainsOfJoin(init);
      assert nameValues == init + [nameValues[n - 1]];
      Text.JoinAppend(init, [nameValues[n - 1]], "\n");
      ParseNameValueAppend(Text.Join(init, "\n"), nameValues[n - 1]);
    }
  }

  // ---------------------------------------------------------------- the pattern

  /** A word boundary at index `k`: exactly one of the characters around it is a word character. */
  predicate Boundary(s: string, k: int)
    requires 0 <= k <= |s|
  {
    (k > 0 && Text.IsWordChar(s[k - 1])) != (k < |s| && Text.IsWordChar(s[k]))
  }

  /** No dot in `s[i..j]`. */
  predicate DotFree(s: string, i: int, j: int)
    requires 0 <= i <= j <= |s|
  {
    forall k :: i <= k < j ==> s[k] != '.'
  }

  /**
   * The target pattern matches `v` with the label `v[i..j]`: one or more
   * characters other than a dot, then a dot and the target, then a word boundary.
   */
  predicate PatternAt(v: string, target: string, i: int, j: int)
  {
    0 <= i < j && j + 1 + |target| <= |v|
    && DotFree(v, i, j)
    && v[j] == '.' && v[j + 1..j + 1 + |target|] == target
    && Boundary(v, j + 1 + |target|)
  }

  /** The unanchored search for the pattern. */
  predicate Test(v: string, target: string)
  {
    exists i, j :: 0 <= i < j <= |v| && PatternAt(v, target, i, j)
  }

  /** A match needs at least one label character and a dot beyond the target. */
  lemma TestLength(v: string, target: string)
    requires Test(v, target)
    ensures |v| >= |target| + 2
  {
  }

  /** The bare target is not one of its own sub-domains. */
  lemma BareTargetDropped(target: string)
    ensures !Test(target, target)
  {
    if Test(target, target) {
      TestLength(target, target);
    }
  }

  /** A dot-free label in front of a target ending in a word character always matches. */
  lemma SubdomainMatches(host: string, target: string)
    requires |host| > 0 && forall k :: 0 <= k < |host| ==> host[k] != '.'
    requires |target| > 0 && Text.IsWordChar(target[|target| - 1])
    ensures Test(host + "." + target, target)
  {
    var v := host + "." + target;
    var j := |host|;
    assert v[j + 1..] == target;
    assert v[j + |target|] == target[|target| - 1];
    assert PatternAt(v, target, 0, j);
  }

  /** A match may always be narrowed to a one-character label just before the dot. */
  lemma TestNarrow(v: string, target: string, i: int, j: int)
    requires PatternAt(v, target, i, j)
    ensures PatternAt(v, target, j - 1, j)
  {
  }

  // ---------------------------------------------------------------- ClearResult

  /** The first index of `v` in `xs`, or `|xs|` when absent (`indexOf` with -1 read as the length). */
  function IndexOf(xs: seq<string>, v: string): (r: nat)
    ensures r <= |xs|
    ensures r < |xs| ==> xs[r] == v
    ensures forall k :: 0 <= k < r ==> xs[k] != v
    ensures r == |xs| <==> v !in xs
    decreases |xs|
  {
    if |xs| == 0 then 0
    else if xs[0] == v then 0
    else 1 + IndexOf(xs[1..], v)
  }

  /** What the loop has collected after reading `xs`: each value passing the test, the first time it is seen. */
  function Cleared(xs: seq<string>, target: string): (r: seq<string>)
    decreases |xs|
  {
    if |xs| == 0 then []
    else
      var kept := Cleared(xs[..|xs| - 1], target);
      var v := xs[|xs| - 1];
      if v in kept || !Test(v, target) then kept else kept + [v]
  }

  predicate NoDuplicates(xs: seq<string>)
  {
    forall i, j :: 0 <= i < j < |xs| ==> xs[i] != xs[j]
  }

  /**
   * The deduplicating filter: walks the names once, remembering in `unique`
   * the names already kept, and keeps a name when it is new and matches the
   * target pattern.
   */
  method ClearResult(result: seq<string>, name: string) returns (uniqueList: seq<string>)
    ensures uniqueList == Cleared(result, name)
  {
    var unique: map<string, bool> := map[];
    uniqueList := [];
    for n := 0 to |result|
      invariant uniqueList == Cleared(result[..n], name)
      invariant forall v :: v in unique <==> v in uniqueList
      invariant forall v :: v in unique ==> unique[v]
    {
      var val := result[n];
      assert result[..n + 1][..n] == result[..n];
      if !(val in unique && unique[val]) {
        if Test(val, name) {
          unique := unique[val := true];
          uniqueList := uniqueList + [val];
        }
      }
    }
    assert result[..|result|] == result;
  }

  /** A name is kept exactly when it occurs in the input and matches the target pattern. */
  lemma {:induction false} ClearedMembers(xs: seq<string>, target: string)
    ensures forall v :: v in Cleared(xs, target) <==> v in xs && Test(v, target)
    decreases |xs|
  {
    if |xs| > 0 {
      var init := xs[..|xs| - 1];
      ClearedMembers(init, target);
      assert xs == init + [xs[|xs| - 1]];
    }
  }

  /** No name is kept twice. */
  lemma {:induction false} ClearedNoDuplicates(xs: seq<string>, target: string)
    ensures NoDuplicates(Cleared(xs, target))
    decreases |xs|
  {
    if |xs| > 0 {
      ClearedNoDuplicates(xs[..|xs| - 1], target);
    }
  }

  /** The names of `r` appear in the order of their first occurrences in `xs`. */
  predicate InFirstOccurrenceOrder(r: seq<string>, xs: seq<string>)
  {
    forall i, j :: 0 <= i < j < |r| ==> IndexOf(xs, r[i]) < IndexOf(xs, r[j])
  }

  /** The kept names appear in the order of their first occurrences in the input. */
  lemma {:induction false} ClearedFirstOccurrenceOrder(xs: seq<string>, target: string)
    ensures InFirstOccurrenceOrder(Cleared(xs, target), xs)
    decreases |xs|
  {
    if |xs| > 0 {
      var init := xs[..|xs| - 1];
      var v := xs[|xs| - 1];
      var kept := Cleared(init, target);
      ClearedFirstOccurrenceOrder(init, target);
      assert InFirstOccurrenceOrder(kept, init);
      ClearedMembers(init, target);
      assert xs == init + [v];
      forall u | u in init
        ensures IndexOf(xs, u) == IndexOf(init, u)
      {
        IndexAfterAppend(init, v, u);
      }
      if v !in kept && Test(v, target) {
        assert v !in init;
        IndexAfterAppend(init, v, v);
        var r := kept + [v];
        forall i, j | 0 <= i < j < |r|
          ensures IndexOf(xs, r[i]) < IndexOf(xs, r[j])
        {
          assert r[i] == kept[i] && kept[i] in init;
          IndexAfterAppend(init, v, kept[i]);
          if j < |kept| {
            assert r[j] == kept[j] && kept[j] in init;
            IndexAfterAppend(init, v, kept[j]);
          } else {
            assert r[j] == v;
            assert IndexOf(xs, v) == |init|;
            assert IndexOf(init, kept[i]) < |init|;
          }
        }
      } else {
        forall i, j | 0 <= i < j < |kept|
          ensures IndexOf(xs, kept[i]) < IndexOf(xs, kept[j])
        {
          assert kept[i] in init && kept[j] in init;
        }
      }
    }
  }

  lemma IndexAfterAppend(xs: seq<string>, v: string, u: string)
    ensures IndexOf(xs + [v], u) == if u in xs then IndexOf(xs, u) else if u == v then |xs| else |xs| + 1
  {
    var r := IndexOf(xs + [v], u);
    var q := IndexOf(xs, u);
    if u in xs {
      assert (xs + [v])[q] == u;
      assert r <= q;
      assert r < |xs| ==> (xs + [v])[r] == xs[r];
    } else if u == v {
      assert (xs + [v])[|xs|] == u;
      assert forall k :: 0 <= k < |xs| ==> (xs + [v])[k] == xs[k];
    } else {
      assert u !in xs + [v];
    }
  }

  /** A list of distinct matching names passes through unchanged. */
  lemma {:induction false} ClearedFixed(ys: seq<string>, target: string)
    requires NoDuplicates(ys)
    requires forall i :: 0 <= i < |ys| ==> Test(ys[i], target)
    ensures Cleared(ys, target) == ys
    decreases |ys|
  {
    if |ys| > 0 {
      var init := ys[..|ys| - 1];
      ClearedFixed(init, target);
      assert ys == init + [ys[|ys| - 1]];
    }
  }

  /** Filtering twice is filtering once. */
  lemma ClearedIdempotent(xs: seq<string>, target: string)
    ensures Cleared(Cleared(xs, target), target) == Cleared(xs, target)
  {
    var r := Cleared(xs, target);
    ClearedMembers(xs, target);
    ClearedNoDuplicates(xs, target);
    assert forall i :: 0 <= i < |r| ==> r[i] in r;
    ClearedFixed(r, target);
  }

  /** The bare target never survives the filter. */
  lemma ClearedDropsTarget(xs: seq<string>, target: string)
    ensures target !in Cleared(xs, target)
  {
    ClearedMembers(xs, target);
    BareTargetDropped(target);
  }
}
