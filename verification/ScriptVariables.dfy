/**
 The prologue of cgroup-tproxy.sh: defaults for unset variables, creation of the head cgroup of
 each list and the existence filter.
 */
module ScriptVariables {
  import opened Prelude
  import opened Transport
  import opened Netfilter
  import opened TproxyScript
  import opened TproxyRun

  /** The environment; None is an unset variable. The script does not read the last three. */
  datatype Variables = Variables(
    cgroupMountPoint: Option<string>,
    cgroupProxy: Option<string>,
    cgroupNoproxy: Option<string>,
    port: Option<int>,
    enableDns: Option<bool>,
    enableUdp: Option<bool>,
    enableTcp: Option<bool>,
    enableIpv4: Option<bool>,
    enableIpv6: Option<bool>,
    enableGateway: Option<bool>,
    table: Option<int>,
    fwmark: Option<int>,
    tableReroute: Option<int>,
    tableTproxy: Option<int>,
    fwmarkReroute: Option<int>,
    fwmarkTproxy: Option<int>,
    programProxy: Option<string>,
    programNoproxy: Option<string>,
    markNewin: Option<int>)

  const NOTHING_SET :=
    Variables(None, None, None, None, None, None, None, None, None, None,
              None, None, None, None, None, None, None, None, None)

  function ProxyList(v: Variables): (entries: seq<string>)
  {
    ReadList(v.cgroupProxy, "/proxy.slice")
  }

  function NoproxyList(v: Variables): (entries: seq<string>)
  {
    ReadList(v.cgroupNoproxy, "/noproxy.slice")
  }

  /** `dirs` are the cgroups whose directory exists when the filter runs. */
  function ParamsOf(v: Variables, dirs: set<string>): (p: Params)
  {
    var table, fwmark := v.table.GetOr(10007), v.fwmark.GetOr(0x9973);
    Params(v.port.GetOr(12345), v.enableDns.GetOr(true), v.enableUdp.GetOr(true), v.enableTcp.GetOr(true),
           v.enableIpv4.GetOr(true), v.enableIpv6.GetOr(true), v.enableGateway.GetOr(false),
           v.tableReroute.GetOr(table), v.tableTproxy.GetOr(table),
           v.fwmarkReroute.GetOr(fwmark), v.fwmarkTproxy.GetOr(fwmark),
           RuleEntries(NoproxyList(v), dirs), RuleEntries(ProxyList(v), dirs))
  }

  /** The script gives up when it cannot mount cgroup2 or create a head directory. */
  datatype Obstacles = Obstacles(mounted: bool, unmakeable: set<string>)

  /** `test -d head || mkdir head`, with no head in an empty list. */
  function HeadMade(entries: seq<string>, dirs: set<string>, obstacles: Obstacles): (r: Option<set<string>>)
  {
    if entries == [] || entries[0] in dirs then Some(dirs)
    else if entries[0] in obstacles.unmakeable then None
    else Some(dirs + {entries[0]})
  }

  /** The directories after the prologue, and the parameters unless the script gave up. */
  function Prologue(v: Variables, dirs: set<string>, obstacles: Obstacles): (r: (set<string>, Option<Params>))
  {
    if !obstacles.mounted then (dirs, None)
    else
      var first := HeadMade(ProxyList(v), dirs, obstacles);
      if first.None? then (dirs, None)
      else
        var second := HeadMade(NoproxyList(v), first.value, obstacles);
        if second.None? then (first.value, None)
        else (second.value, Some(ParamsOf(v, second.value)))
  }

  /** The first entry of a list, if it has one. */
  function Head(entries: seq<string>): (r: set<string>)
  {
    if entries == [] then {} else {entries[0]}
  }

  /** The directories that the prologue wants to exist. */
  function Heads(v: Variables): (r: set<string>)
  {
    Head(ProxyList(v)) + Head(NoproxyList(v))
  }

  /** Every wanted directory is there or can be made. */
  predicate Available(wanted: set<string>, dirs: set<string>, obstacles: Obstacles)
  {
    forall d :: d in wanted ==> d in dirs || d !in obstacles.unmakeable
  }

  lemma HeadMadeExactly(entries: seq<string>, dirs: set<string>, obstacles: Obstacles)
    ensures HeadMade(entries, dirs, obstacles) ==
            if Available(Head(entries), dirs, obstacles) then Some(dirs + Head(entries)) else None
  {
    if entries == [] || entries[0] in dirs {
      assert dirs + Head(entries) == dirs;
    } else {
      assert entries[0] in Head(entries);
    }
  }

  /**
   When the script goes on, and what it leaves if not: it starts exactly if cgroup2 is mounted
   and each list is empty or its head exists or can be made. Then both heads exist, and nothing
   else has been made.
   */
  lemma PrologueExactly(v: Variables, dirs: set<string>, obstacles: Obstacles)
    ensures var (dirs', p) := Prologue(v, dirs, obstacles);
            && (p.Some? <==> obstacles.mounted && Available(Heads(v), dirs, obstacles))
            && (p.Some? ==> dirs' == dirs + Heads(v) && p.value == ParamsOf(v, dirs + Heads(v)))
            && (p.None? ==>
                  dirs' == if obstacles.mounted && Available(Head(ProxyList(v)), dirs, obstacles)
                           then dirs + Head(ProxyList(v)) else dirs)
  {
    var first, second := Head(ProxyList(v)), Head(NoproxyList(v));
    HeadMadeExactly(ProxyList(v), dirs, obstacles);
    HeadMadeExactly(NoproxyList(v), dirs + first, obstacles);
    assert dirs + first + second == dirs + Heads(v);
    assert Available(Heads(v), dirs, obstacles) <==>
           Available(first, dirs, obstacles) && Available(second, dirs + first, obstacles);
  }

  /** On a mounted cgroup2 where every directory can be made the script always starts. */
  lemma UnobstructedStart(k: Kernel, v: Variables, dirs: set<string>)
    ensures ScriptResult(k, v, dirs, Obstacles(true, {})) == StartResult(k, ParamsOf(v, dirs + Heads(v)))
  {
    PrologueExactly(v, dirs, Obstacles(true, {}));
  }

  function ScriptResult(k: Kernel, v: Variables, dirs: set<string>, obstacles: Obstacles): (r: Kernel)
  {
    var p := Prologue(v, dirs, obstacles).1;
    if p.Some? then StartResult(k, p.value) else k
  }

  /** stop() uses only the marks and tables. */
  function CleanResult(k: Kernel, v: Variables): (r: Kernel)
  {
    StopResult(k, ParamsOf(v, {}))
  }

  /** The environment names the marks and tables of these parameters. */
  predicate NamedBy(env: Variables, p: Params)
  {
    var q := ParamsOf(env, {});
    && q.fwmarkTproxy == p.fwmarkTproxy && q.tableTproxy == p.tableTproxy
    && q.fwmarkReroute == p.fwmarkReroute && q.tableReroute == p.tableReroute
  }

  /** Two environments that name the same marks and tables stop alike, whatever else they hold. */
  lemma StopUsesMarksAndTables(k: Kernel, u: Variables, v: Variables, dirs: set<string>)
    requires NamedBy(u, ParamsOf(v, dirs))
    ensures CleanResult(k, u) == CleanResult(k, v) == StopResult(k, ParamsOf(v, dirs))
  {
    assert StopScript(ParamsOf(u, {})) == StopScript(ParamsOf(v, {})) == StopScript(ParamsOf(v, dirs));
  }

  lemma OnlyListsDependOnDirs(v: Variables, dirs: set<string>)
    ensures ParamsOf(v, dirs) ==
            ParamsOf(v, {}).(noproxy := RuleEntries(NoproxyList(v), dirs), proxy := RuleEntries(ProxyList(v), dirs))
  {
  }

  method MakeHead(entries: seq<string>, dirs: set<string>, obstacles: Obstacles) returns (ok: bool, dirs': set<string>)
    ensures HeadMade(entries, dirs, obstacles) == if ok then Some(dirs') else None
    ensures !ok ==> dirs' == dirs
  {
    ok, dirs' := true, dirs;
    if entries != [] && entries[0] !in dirs {
      if entries[0] in obstacles.unmakeable {
        ok := false;
      } else {
        dirs' := dirs + {entries[0]};
      }
    }
  }

  /** `cgroup-tproxy.sh` without arguments. */
  method RunStart(m: Machine, v: Variables, dirs: set<string>, obstacles: Obstacles) returns (dirs': set<string>)
    requires m.Valid()
    modifies m
    ensures m.Valid() && m.boot == old(m.boot)
    ensures dirs' == Prologue(v, dirs, obstacles).0
    ensures m.State() == ScriptResult(old(m.State()), v, dirs, obstacles)
    ensures m.State() ==
            if obstacles.mounted && Available(Heads(v), dirs, obstacles)
            then StartResult(old(m.State()), ParamsOf(v, dirs + Heads(v))) else old(m.State())
    ensures obstacles.mounted && Available(Heads(v), dirs, obstacles) ==> dirs' == dirs + Heads(v)
  {
    PrologueExactly(v, dirs, obstacles);
    dirs' := dirs;
    if !obstacles.mounted {
      return;
    }
    var ok;
    ok, dirs' := MakeHead(ProxyList(v), dirs', obstacles);
    if !ok {
      return;
    }
    ok, dirs' := MakeHead(NoproxyList(v), dirs', obstacles);
    if !ok {
      return;
    }
    var noproxy := FilterExisting(NoproxyList(v), dirs');
    var proxy := FilterExisting(ProxyList(v), dirs');
    var p := ParamsOf(v, {}).(noproxy := Words(noproxy), proxy := Words(proxy));
    OnlyListsDependOnDirs(v, dirs');
    m.Start(p);
  }

  /** `cgroup-tproxy.sh stop`. */
  method RunStop(m: Machine, v: Variables)
    requires m.Valid()
    modifies m
    ensures m.Valid() && m.boot == old(m.boot)
    ensures m.State() == CleanResult(old(m.State()), v)
  {
    m.Stop(ParamsOf(v, {}));
  }
}
