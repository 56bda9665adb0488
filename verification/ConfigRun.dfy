/** The Config class, whose fields a load assigns one by one, and its export to the script. */
module ConfigRun {
  import opened Prelude
  import opened CgroupPath
  import opened Transport
  import opened ConfigModel
  import opened Netfilter
  import opened TproxyScript
  import opened ScriptVariables

  const SUCCESS: int := 0
  const PARAM_ERROR: int := 4
  const FILE_ERROR: int := 7

  /** validateJsonStr: the order in which the keys are visited does not matter. */
  method ValidateMessage(m: Message) returns (ok: bool)
    ensures ok <==> ValidMessage(m)
  {
    var todo := m.Keys;
    while todo != {}
      invariant todo <= m.Keys
      invariant forall key :: key in m && key !in todo ==> ValidItem(key, m[key])
      decreases todo
    {
      var key :| key in todo;
      if !ValidItem(key, m[key]) {
        return false;
      }
      todo := todo - {key};
    }
    return true;
  }

  method GetRealExistPath(fs: Files, name: string) returns (path: string)
    ensures path == RealExistPath(fs, name)
  {
    if StartWith(name, "/") && name in fs.regular {
      return name;
    }
    path := OutputOf(fs.which, name);
    if path == "" {
      return "";
    }
    path := OutputOf(fs.link, path);
    if path !in fs.regular {
      return "";
    }
  }

  method ToRealProgramPath(fs: Files, v: seq<string>) returns (tmp: seq<string>)
    ensures tmp == RealPaths(fs, v)
  {
    tmp := [];
    for i := 0 to |v|
      invariant tmp == RealPaths(fs, v[..i])
    {
      var rpath := GetRealExistPath(fs, v[i]);
      RealPathsAppend(fs, v[..i], [v[i]]);
      assert v[..i + 1] == v[..i] + [v[i]];
      if rpath != "" {
        tmp := tmp + [rpath];
      }
    }
    assert v[..|v|] == v;
  }

  /** erase(remove(...)) and insert at the front. */
  method MergeReserved(v: seq<string>, reserved: string) returns (r: seq<string>)
    ensures r == Merged(v, reserved)
  {
    r := [];
    for i := 0 to |v|
      invariant r == Without(v[..i], reserved)
    {
      WithoutAppend(v[..i], [v[i]], reserved);
      assert v[..i + 1] == v[..i] + [v[i]];
      if v[i] != reserved {
        r := r + [v[i]];
      }
    }
    assert v[..|v|] == v;
    r := [reserved] + r;
  }

  class Config {
    var programProxy: seq<string>
    var programNoproxy: seq<string>
    var cgroupProxy: seq<string>
    var cgroupNoproxy: seq<string>
    var enableGateway: bool
    var port: int
    var enableDns: bool
    var enableTcp: bool
    var enableUdp: bool
    var enableIpv4: bool
    var enableIpv6: bool
    var table: int
    var fwmark: int
    var markNewin: int

    function Value(): (c: Settings)
      reads this
    {
      Settings(programProxy, programNoproxy, cgroupProxy, cgroupNoproxy, enableGateway, port, enableDns, enableTcp,
               enableUdp, enableIpv4, enableIpv6, table, fwmark, markNewin)
    }

    constructor ()
      ensures Value() == DEFAULTS
    {
      programProxy, programNoproxy := [PROXY_SLICE], [NOPROXY_SLICE];
      cgroupProxy, cgroupNoproxy := [], [];
      enableGateway, port := false, 12345;
      enableDns, enableTcp, enableUdp, enableIpv4, enableIpv6 := true, true, true, true, true;
      table, fwmark, markNewin := 10007, 0x9973, 0x9967;
    }

    /** tryassign for every key: a missing or inconvertible value leaves the field alone. */
    method Assign(m: Message)
      modifies this
      ensures Value() == Overlaid(old(Value()), m)
    {
      AssignLists(m);
      AssignSwitches(m);
      AssignNumbers(m);
    }

    method AssignLists(m: Message)
      modifies this
      ensures Value() == OverlaidLists(old(Value()), m)
    {
      var strings := Field(m, ProgramProxy, AsStrings);
      if strings.Some? { programProxy := strings.value; }
      strings := Field(m, ProgramNoproxy, AsStrings);
      if strings.Some? { programNoproxy := strings.value; }
      strings := Field(m, CgroupProxy, AsStrings);
      if strings.Some? { cgroupProxy := strings.value; }
      strings := Field(m, CgroupNoproxy, AsStrings);
      if strings.Some? { cgroupNoproxy := strings.value; }
    }

    method AssignSwitches(m: Message)
      modifies this
      ensures Value() == OverlaidSwitches(old(Value()), m)
    {
      AssignProtocols(m);
      AssignScopes(m);
    }

    method AssignProtocols(m: Message)
      modifies this
      ensures Value() == old(Value()).(
        enableDns := Field(m, EnableDns, AsBool).GetOr(old(enableDns)),
        enableTcp := Field(m, EnableTcp, AsBool).GetOr(old(enableTcp)),
        enableUdp := Field(m, EnableUdp, AsBool).GetOr(old(enableUdp)))
    {
      enableDns := Field(m, EnableDns, AsBool).GetOr(enableDns);
      enableTcp := Field(m, EnableTcp, AsBool).GetOr(enableTcp);
      enableUdp := Field(m, EnableUdp, AsBool).GetOr(enableUdp);
    }

    method AssignScopes(m: Message)
      modifies this
      ensures Value() == old(Value()).(
        enableGateway := Field(m, EnableGateway, AsBool).GetOr(old(enableGateway)),
        enableIpv4 := Field(m, EnableIpv4, AsBool).GetOr(old(enableIpv4)),
        enableIpv6 := Field(m, EnableIpv6, AsBool).GetOr(old(enableIpv6)))
    {
      enableGateway := Field(m, EnableGateway, AsBool).GetOr(enableGateway);
      enableIpv4 := Field(m, EnableIpv4, AsBool).GetOr(enableIpv4);
      enableIpv6 := Field(m, EnableIpv6, AsBool).GetOr(enableIpv6);
    }

    method AssignNumbers(m: Message)
      modifies this
      ensures Value() == OverlaidNumbers(old(Value()), m)
    {
      port := Field(m, Port, AsInt).GetOr(port);
      table := Field(m, TableKey, AsInt).GetOr(table);
      fwmark := Field(m, Fwmark, AsInt).GetOr(fwmark);
      markNewin := Field(m, MarkNewin, AsInt).GetOr(markNewin);
    }

    /** loadFromJsonStr */
    method Load(m: Message, fs: Files) returns (status: int)
      modifies this
      ensures Value() == Loaded(old(Value()), m, fs)
      ensures status == if ValidMessage(m) then SUCCESS else PARAM_ERROR
    {
      var ok := ValidateMessage(m);
      if !ok {
        return PARAM_ERROR;
      }
      Assign(m);
      Normalise(fs);
      return SUCCESS;
    }

    /** Program paths are resolved, reserved cgroups merged. */
    method Normalise(fs: Files)
      modifies this
      ensures Value() == Normalised(old(Value()), fs)
    {
      NormalisePrograms(fs);
      NormaliseCgroups();
    }

    method NormalisePrograms(fs: Files)
      modifies this
      ensures Value() == old(Value()).(programProxy := RealPaths(fs, old(programProxy)),
                                       programNoproxy := RealPaths(fs, old(programNoproxy)))
    {
      programNoproxy := ToRealProgramPath(fs, programNoproxy);
      programProxy := ToRealProgramPath(fs, programProxy);
    }

    method NormaliseCgroups()
      modifies this
      ensures Value() == old(Value()).(cgroupProxy := Merged(old(cgroupProxy), PROXY_SLICE),
                                       cgroupNoproxy := Merged(old(cgroupNoproxy), NOPROXY_SLICE))
    {
      cgroupProxy := MergeReserved(cgroupProxy, PROXY_SLICE);
      cgroupNoproxy := MergeReserved(cgroupNoproxy, NOPROXY_SLICE);
    }

    /** loadFromFile; None is a file that cannot be opened. */
    method LoadFile(content: Option<Message>, fs: Files) returns (status: int)
      modifies this
      ensures Value() == if content.Some? then Loaded(old(Value()), content.value, fs) else old(Value())
      ensures status ==
              if content.None? then FILE_ERROR
              else if ValidMessage(content.value) then SUCCESS
              else PARAM_ERROR
    {
      if content.None? {
        return FILE_ERROR;
      }
      status := Load(content.value, fs);
    }

    /** The names for single marks and tables are left as they are. */
    method ToEnv(env: Variables) returns (env': Variables)
      ensures env' == Exported(Value(), env)
      ensures env'.port == Some(port) && env'.table == Some(table) && env'.fwmark == Some(fwmark)
      ensures env'.markNewin == Some(markNewin) && env'.cgroupMountPoint == Some("/var/run/cgproxy/cgroup2")
      ensures env'.enableGateway == Some(enableGateway) && env'.enableDns == Some(enableDns)
      ensures env'.enableTcp == Some(enableTcp) && env'.enableUdp == Some(enableUdp)
      ensures env'.enableIpv4 == Some(enableIpv4) && env'.enableIpv6 == Some(enableIpv6)
      ensures env'.tableTproxy == env.tableTproxy && env'.tableReroute == env.tableReroute
      ensures env'.fwmarkTproxy == env.fwmarkTproxy && env'.fwmarkReroute == env.fwmarkReroute
      ensures env'.programProxy == Some(VectorJoin(programProxy, ':'))
      ensures env'.programNoproxy == Some(VectorJoin(programNoproxy, ':'))
      ensures env'.cgroupProxy == Some(VectorJoin(cgroupProxy, ':'))
      ensures env'.cgroupNoproxy == Some(VectorJoin(cgroupNoproxy, ':'))
    {
      var programs := Join2Str(programProxy, ':');
      var noprograms := Join2Str(programNoproxy, ':');
      var proxy := Join2Str(cgroupProxy, ':');
      var noproxy := Join2Str(cgroupNoproxy, ':');
      env' := env.(cgroupMountPoint := Some(CGROUP2_MOUNT_POINT), programProxy := Some(programs),
                   programNoproxy := Some(noprograms), cgroupProxy := Some(proxy), cgroupNoproxy := Some(noproxy),
                   enableGateway := Some(enableGateway), port := Some(port), enableDns := Some(enableDns),
                   enableTcp := Some(enableTcp), enableUdp := Some(enableUdp), enableIpv4 := Some(enableIpv4),
                   enableIpv6 := Some(enableIpv6), table := Some(table), fwmark := Some(fwmark),
                   markNewin := Some(markNewin));
    }
  }

  const CGROUP2_MOUNT_POINT := "/var/run/cgproxy/cgroup2"

  /** toEnv */
  function Exported(c: Settings, env: Variables): (env': Variables)
  {
    env.(cgroupMountPoint := Some(CGROUP2_MOUNT_POINT), programProxy := Some(VectorJoin(c.programProxy, ':')),
         programNoproxy := Some(VectorJoin(c.programNoproxy, ':')),
         cgroupProxy := Some(VectorJoin(c.cgroupProxy, ':')), cgroupNoproxy := Some(VectorJoin(c.cgroupNoproxy, ':')),
         enableGateway := Some(c.enableGateway), port := Some(c.port), enableDns := Some(c.enableDns),
         enableTcp := Some(c.enableTcp), enableUdp := Some(c.enableUdp), enableIpv4 := Some(c.enableIpv4),
         enableIpv6 := Some(c.enableIpv6), table := Some(c.table), fwmark := Some(c.fwmark),
         markNewin := Some(c.markNewin))
  }

  /**
   Reserved cgroups always reach the rules: whatever was configured, and even when the join has
   lost delimiters, a start that completes has a RETURN rule for /noproxy.slice and a marking
   rule for /proxy.slice.
   */
  lemma ReservedReachRules(c: Settings, ms: seq<Message>, fs: Files, env: Variables, dirs: set<string>,
                           obstacles: Obstacles)
    requires WellTyped(c) && LinksAbsolute(fs) && SomeAccepted(ms)
    ensures var p := Prologue(Exported(LoadedAll(c, ms, fs), env), dirs, obstacles).1;
            p.Some? ==> Rule(InCgroup(NOPROXY_SLICE), Return) in OutRules(p.value)
                        && Rule(InCgroup(PROXY_SLICE), Jump(TPROXY_MARK)) in OutRules(p.value)
  {
    var r := LoadedAll(c, ms, fs);
    AllLoadsWellTyped(c, ms, fs);
    ReservedLeads(c, ms, fs);
    ReservedSurvivePrologue(r, env, dirs, obstacles);
    var p := Prologue(Exported(r, env), dirs, obstacles).1;
    if p.Some? {
      EntryHasRule(p.value.noproxy, NOPROXY_SLICE, Return);
      EntryHasRule(p.value.proxy, PROXY_SLICE, Jump(TPROXY_MARK));
    }
  }

  lemma EntryHasRule(paths: seq<string>, path: string, target: Target)
    requires path in paths
    ensures Rule(InCgroup(path), target) in CgroupRules(paths, target)
  {
    var i :| 0 <= i < |paths| && paths[i] == path;
    assert CgroupRules(paths, target)[i] == Rule(InCgroup(path), target);
  }

  /** A daemon with default settings and a script with no variables at all mean the same. */
  lemma DefaultsAgree(dirs: set<string>, fs: Files)
    ensures ParamsOf(Exported(Normalised(DEFAULTS, fs), NOTHING_SET), dirs) == ParamsOf(NOTHING_SET, dirs)
    ensures var p := ParamsOf(NOTHING_SET, dirs);
            && p.port == 12345 && p.enableDns && p.enableUdp && p.enableTcp && p.enableIpv4 && p.enableIpv6
            && !p.enableGateway && p.tableTproxy == p.tableReroute == 10007
            && p.fwmarkTproxy == p.fwmarkReroute == 39283
  {
    ReservedAreValid();
    SingletonReceived(PROXY_SLICE);
    SingletonReceived(NOPROXY_SLICE);
    assert Normalised(DEFAULTS, fs).cgroupProxy == [PROXY_SLICE];
    assert Normalised(DEFAULTS, fs).cgroupNoproxy == [NOPROXY_SLICE];
  }

  lemma SingletonReceived(e: string)
    requires ValidCgroup(e)
    ensures Received([e]) == [e]
  {
    ListTransport([e], {});
    assert [e][..0] == [];
  }

  lemma ReservedSurvivePrologue(r: Settings, env: Variables, dirs: set<string>, obstacles: Obstacles)
    requires WellTyped(r)
    requires r.cgroupProxy != [] && r.cgroupProxy[0] == PROXY_SLICE && PROXY_SLICE !in r.cgroupProxy[1..]
    requires r.cgroupNoproxy != [] && r.cgroupNoproxy[0] == NOPROXY_SLICE && NOPROXY_SLICE !in r.cgroupNoproxy[1..]
    ensures var p := Prologue(Exported(r, env), dirs, obstacles).1;
            p.Some? ==> NOPROXY_SLICE in p.value.noproxy && PROXY_SLICE in p.value.proxy
  {
    var v := Exported(r, env);
    var (after, p) := Prologue(v, dirs, obstacles);
    if p.Some? {
      PrologueExactly(v, dirs, obstacles);
      ReservedEntry(r.cgroupProxy, after);
      ReservedEntry(r.cgroupNoproxy, after);
      assert p.value.proxy == RuleEntries(Received(r.cgroupProxy), after);
      assert p.value.noproxy == RuleEntries(Received(r.cgroupNoproxy), after);
    }
  }

  lemma ReservedEntry(v: seq<string>, dirs: set<string>)
    requires AllValidCgroups(v) && v != [] && v[0] !in v[1..]
    ensures ReadList(Some(VectorJoin(v, ':')), "/proxy.slice") == Received(v)
    ensures ReadList(Some(VectorJoin(v, ':')), "/noproxy.slice") == Received(v)
    ensures Received(v) != [] && Received(v)[0] == v[0]
    ensures v[0] in dirs ==> v[0] in RuleEntries(Received(v), dirs)
  {
    HeadReceived(v);
    if v[0] in dirs {
      HeadSurvives(v, dirs);
    }
  }

  lemma HeadReceived(v: seq<string>)
    requires AllValidCgroups(v) && v != [] && v[0] !in v[1..]
    ensures ReadList(Some(VectorJoin(v, ':')), "/proxy.slice") == Received(v)
    ensures ReadList(Some(VectorJoin(v, ':')), "/noproxy.slice") == Received(v)
    ensures Received(v) != [] && Received(v)[0] == v[0]
  {
    HeadSurvives(v, {v[0]});
  }
}
