/** servers/asnmap-mcp/src/index.ts: the `do-asnmap` lookup guard and command line. */
module Asnmap {
  import opened Wrappers
  import opened Text
  import opened Js
  import opened Argv

  datatype Options = Options(
    asn: Option<string>,
    ip: Option<string>,
    domain: Option<string>,
    org: Option<string>,
    json: Option<bool>,
    csv: Option<bool>,
    ipv6: Option<bool>,
    resolvers: Option<string>)

  /** The text of the error result returned, without running asnmap, when nothing is to be looked up. */
  const NoLookupMessage := "Error: at least one of asn, ip, domain, or org must be provided"

  /** At least one lookup key is given and non-empty. */
  predicate HasLookup(o: Options)
  {
    Truthy(o.asn) || Truthy(o.ip) || Truthy(o.domain) || Truthy(o.org)
  }

  /** The lookups, in the order -a, -i, -d, -org. */
  function Lookups(o: Options): (r: seq<Arg>)
    ensures forall s :: s in r ==> s.Pair? && s.name in {"-a", "-i", "-d", "-org"}
  {
    TextOpt("-a", o.asn) + TextOpt("-i", o.ip) + TextOpt("-d", o.domain) + TextOpt("-org", o.org)
  }

  /** The output options that follow the lookups. */
  function Outputs(o: Options): (r: seq<Arg>)
    ensures forall s :: s in r ==> !s.Word? && s.name in {"-json", "-csv", "-v6", "-r"}
  {
    Switch("-json", o.json) + Switch("-csv", o.csv) + Switch("-v6", o.ipv6) + TextOpt("-r", o.resolvers)
  }

  /** The whole command line: lookups, output options, then the two fixed switches. */
  function Segments(o: Options): seq<Arg>
  {
    Lookups(o) + Outputs(o) + [Flag("-silent"), Flag("-disable-update-check")]
  }

  method PushLookups(a: seq<Arg>, o: Options) returns (r: seq<Arg>)
    ensures r == a + Lookups(o)
  {
    ghost var s1, s2, s3, s4 := TextOpt("-a", o.asn), TextOpt("-i", o.ip), TextOpt("-d", o.domain), TextOpt("-org", o.org);
    r := PushText(a, "-a", o.asn);
    r := PushText(r, "-i", o.ip);
    r := PushText(r, "-d", o.domain);
    r := PushText(r, "-org", o.org);
    assert r == a + s1 + s2 + s3 + s4;
    AppendAssoc4(a, s1, s2, s3, s4);
    assert s1 + s2 + s3 + s4 == Lookups(o);
  }

  method PushOutputs(a: seq<Arg>, o: Options) returns (r: seq<Arg>)
    ensures r == a + Outputs(o)
  {
    ghost var s1, s2, s3, s4 := Switch("-json", o.json), Switch("-csv", o.csv), Switch("-v6", o.ipv6), TextOpt("-r", o.resolvers);
    r := PushSwitch(a, "-json", o.json);
    r := PushSwitch(r, "-csv", o.csv);
    r := PushSwitch(r, "-v6", o.ipv6);
    r := PushText(r, "-r", o.resolvers);
    assert r == a + s1 + s2 + s3 + s4;
    AppendAssoc4(a, s1, s2, s3, s4);
    assert s1 + s2 + s3 + s4 == Outputs(o);
  }

  /** The `do-asnmap` handler: the guard, then the argument array built push by push. */
  method BuildArgs(o: Options) returns (r: Result<seq<string>>)
    ensures r == if HasLookup(o) then Ok(Render(Segments(o))) else Err(NoLookupMessage)
  {
    if !Truthy(o.asn) && !Truthy(o.ip) && !Truthy(o.domain) && !Truthy(o.org) {
      return Err(NoLookupMessage);
    }
    var segs := PushLookups([], o);
    segs := PushOutputs(segs, o);
    segs := segs + [Flag("-silent"), Flag("-disable-update-check")];
    assert segs == Segments(o);
    return Ok(Render(segs));
  }

  /** Whatever was asked, the command line ends with "-silent" and "-disable-update-check". */
  lemma ArgsEnd(o: Options)
    ensures var args := Render(Segments(o));
      |args| >= 2 && args[|args| - 2..] == ["-silent", "-disable-update-check"]
  {
    RenderAppend(Lookups(o) + Outputs(o), [Flag("-silent"), Flag("-disable-update-check")]);
  }

  /** Several lookups combine, in the order -a, -i, -d, -org, ahead of every other argument. */
  lemma AllLookups(o: Options)
    requires Truthy(o.asn) && Truthy(o.ip) && Truthy(o.domain) && Truthy(o.org)
    ensures var args := Render(Segments(o));
      |args| >= 8 && args[..8] == ["-a", o.asn.value, "-i", o.ip.value, "-d", o.domain.value, "-org", o.org.value]
  {
    var lookups := Lookups(o);
    var first := [Pair("-a", o.asn.value), Pair("-i", o.ip.value)];
    var second := [Pair("-d", o.domain.value), Pair("-org", o.org.value)];
    assert lookups == first + second;
    RenderAppend(first, second);
    assert Render(lookups) == ["-a", o.asn.value, "-i", o.ip.value, "-d", o.domain.value, "-org", o.org.value];
    var rest := Outputs(o) + [Flag("-silent"), Flag("-disable-update-check")];
    assert Segments(o) == lookups + rest;
    RenderAppend(lookups, rest);
  }

  /** No output option is mistaken for a lookup: the lookups are exactly the first segments. */
  lemma OutputsAfterLookups(o: Options)
    ensures forall s :: s in Segments(o)[|Lookups(o)|..] ==> !(s.Pair? && s.name in {"-a", "-i", "-d", "-org"})
  {
    var tail := Outputs(o) + [Flag("-silent"), Flag("-disable-update-check")];
    assert Segments(o)[|Lookups(o)|..] == tail;
  }
}
