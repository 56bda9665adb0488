/**
 cgroup-tproxy.sh as a program: it reads its variables, filters its lists and edits the
 kernel one command at a time. The methods are proved to issue exactly the scripts of
 TproxyScript, about which the other modules reason.
 */
module TproxyRun {
  import opened Prelude
  import opened Netfilter
  import opened TproxyScript

  // ---- The kernel, edited in place -------------------------------------------------------------------

  /** `-D`: the first equal rule goes. */
  method DeleteRule(rules: seq<Rule>, rule: Rule) returns (found: bool, rest: seq<Rule>)
    ensures found <==> rule in rules
    ensures rest == RemoveFirst(rules, rule)
  {
    for i := 0 to |rules|
      invariant rule !in rules[..i]
    {
      if rules[i] == rule {
        RemoveFirstAt(rules, rule, i);
        return true, rules[..i] + rules[i + 1..];
      }
      assert rules[..i + 1] == rules[..i] + [rules[i]];
    }
    assert rules[..|rules|] == rules;
    return false, rules;
  }

  lemma {:induction false} RemoveFirstAt<T>(s: seq<T>, x: T, i: nat)
    requires i < |s| && s[i] == x && x !in s[..i]
    ensures x in s && RemoveFirst(s, x) == s[..i] + s[i + 1..]
  {
    if i > 0 {
      assert s[0] == s[..i][0];
      assert s[1..][..i - 1] == s[..i][1..];
      RemoveFirstAt(s[1..], x, i - 1);
      assert s[..i] == [s[0]] + s[1..][..i - 1] && s[1..][i..] == s[i + 1..];
    }
  }

  method EditTable(t: Table, op: TableOp) returns (ok: bool, t': Table)
    ensures ok <==> TryOp(t, op).Some?
    ensures t' == RunOp(t, op)
  {
    ok, t' := false, t;
    match op
    case NewChain(c) =>
      if c !in t {
        ok, t' := true, t[c := []];
      }
    case Append(c, rule) =>
      if c in t && (rule.target.Jump? ==> rule.target.chain in t && !Builtin(rule.target.chain)) {
        ok, t' := true, t[c := t[c] + [rule]];
      }
    case Delete(c, rule) =>
      if c in t {
        var rest;
        ok, rest := DeleteRule(t[c], rule);
        if ok {
          t' := t[c := rest];
        }
      }
    case Flush(c) =>
      if c in t {
        ok, t' := true, t[c := []];
      }
    case DeleteChain(c) =>
      if c in t && !Builtin(c) && t[c] == [] && !Referenced(t, c) {
        ok, t' := true, t - {c};
      }
  }

  class Machine {
    var v4: Net
    var v6: Net
    ghost var boot: Kernel
    ghost var log: seq<Command>

    function State(): (k: Kernel)
      reads this
    {
      Kernel(v4, v6)
    }

    /** The state is what the commands issued so far have made of the state at boot. */
    ghost predicate Valid()
      reads this
    {
      State() == ExecuteAll(boot, log)
    }

    constructor (k: Kernel)
      ensures State() == k == boot && log == [] && Valid()
    {
      v4, v6 := k.v4, k.v6;
      boot, log := k, [];
    }

    method Run(c: Command) returns (ok: bool)
      requires Valid()
      modifies this
      ensures Valid() && boot == old(boot) && log == old(log) + [c]
      ensures State() == Execute(old(State()), c)
      ensures ok <==> TryAct(NetOf(old(State()), c.family), c.action).Some?
    {
      var n := if c.family == V4 then v4 else v6;
      ok := true;
      match c.action {
        case Mangle(op) =>
          var t;
          ok, t := EditTable(n.mangle, op);
          n := n.(mangle := t);
        case Nat(op) =>
          var t;
          ok, t := EditTable(n.natTable, op);
          n := n.(natTable := t);
        case RuleAdd(mark, table) =>
          var r := IpRule(Some(mark), table);
          if r in n.rules {
            ok := false;
          } else {
            n := n.(rules := InsertRule(n.rules, r));
          }
        case RuleDelete(mark, table) =>
          var r := IpRule(Some(mark), table);
          if r in n.rules {
            n := n.(rules := RemoveFirst(n.rules, r));
          } else {
            ok := false;
          }
        case RouteAdd(table) =>
          var s := RoutesIn(n.routes, table);
          if LocalDefault in s {
            ok := false;
          } else {
            n := n.(routes := n.routes[table := s + [LocalDefault]]);
          }
        case RouteFlush(table) =>
          n := n.(routes := n.routes - {table});
      }
      if c.family == V4 {
        v4 := n;
      } else {
        v6 := n;
      }
      ghost var before := log;
      log := log + [c];
      ExecuteAllConcat(boot, before, [c]);
      assert [c][1..] == [];
    }

    /** `iptables -L chain` as an existence test. */
    method HasChain(f: Family, chain: Chain) returns (r: bool)
      ensures r <==> chain in NetOf(State(), f).mangle
    {
      r := if f == V4 then chain in v4.mangle else chain in v6.mangle;
    }

    method IpRuleAndRoute(f: Family, mark: int, table: int)
      requires Valid()
      modifies this
      ensures Valid() && boot == old(boot) && log == old(log) + RouteSetup(f, mark, table)
    {
      var _ := Run(Command(f, RuleAdd(mark, table)));
      var _ := Run(Command(f, RouteAdd(table)));
    }

    /** `-N` of a chain that is then filled by AppendRule. */
    method StartChain(f: Family, chain: Chain)
      requires Valid()
      modifies this
      ensures Valid() && boot == old(boot) && log == old(log) + OnMangle(f, Block(chain, []))
    {
      var _ := Run(Command(f, Mangle(NewChain(chain))));
      assert OnMangle(f, Block(chain, [])) == [Command(f, Mangle(NewChain(chain)))];
    }

    /** `-A` on a chain to which `rules` have been appended since `before`. */
    method AppendRule(f: Family, chain: Chain, rule: Rule, ghost before: seq<Command>, ghost rules: seq<Rule>)
      returns (ghost rules': seq<Rule>)
      requires Valid() && log == before + OnMangle(f, Block(chain, rules))
      modifies this
      ensures Valid() && boot == old(boot) && log == before + OnMangle(f, Block(chain, rules'))
      ensures rules' == rules + [rule]
    {
      var _ := Run(Command(f, Mangle(Append(chain, rule))));
      rules' := rules + [rule];
      assert Block(chain, rules') == Block(chain, rules) + [Append(chain, rule)];
      assert OnMangle(f, Block(chain, rules')) ==
             OnMangle(f, Block(chain, rules)) + [Command(f, Mangle(Append(chain, rule)))];
    }

    // ---- start -------------------------------------------------------------------------------------

    method BuildEnt(f: Family, p: Params)
      requires Valid()
      modifies this
      ensures Valid() && boot == old(boot) && log == old(log) + OnMangle(f, Block(TPROXY_ENT, EntRules(f, p)))
    {
      ghost var l, r := log, [];
      StartChain(f, TPROXY_ENT);
      r := AppendRule(f, TPROXY_ENT, Rule(HasSocket, SetMark(p.fwmarkTproxy)), l, r);
      r := AppendRule(f, TPROXY_ENT, Rule(HasSocket, Accept), l, r);
      r := AppendRule(f, TPROXY_ENT, Rule(Protocol(Tcp), Tproxy(Loopback(f), p.port, p.fwmarkTproxy)), l, r);
      r := AppendRule(f, TPROXY_ENT, Rule(Protocol(Udp), Tproxy(Loopback(f), p.port, p.fwmarkTproxy)), l, r);
      assert r == EntRules(f, p);
    }

    method BuildPre(f: Family, p: Params)
      requires Valid()
      modifies this
      ensures Valid() && boot == old(boot) && log == old(log) + OnMangle(f, Block(TPROXY_PRE, PreRules(p)))
    {
      ghost var l, r := log, [];
      StartChain(f, TPROXY_PRE);
      r := AppendRule(f, TPROXY_PRE, Rule(DstLocal, Return), l, r);
      r := AppendRule(f, TPROXY_PRE, Rule(DstNotUnicast, Return), l, r);
      ghost var r0 := r;
      if !p.enableGateway {
        r := AppendRule(f, TPROXY_PRE, Rule(SrcNotLocal, Return), l, r);
      }
      assert r == r0 + When(!p.enableGateway, [Rule(SrcNotLocal, Return)]);
      ghost var r1 := r;
      if p.enableDns {
        r := AppendRule(f, TPROXY_PRE, Rule(UdpTo(53), Jump(TPROXY_ENT)), l, r);
      }
      assert r == r1 + When(p.enableDns, [Rule(UdpTo(53), Jump(TPROXY_ENT))]);
      ghost var r2 := r;
      if p.enableUdp {
        r := AppendRule(f, TPROXY_PRE, Rule(Protocol(Udp), Jump(TPROXY_ENT)), l, r);
      }
      assert r == r2 + When(p.enableUdp, [Rule(Protocol(Udp), Jump(TPROXY_ENT))]);
      ghost var r3 := r;
      if p.enableTcp {
        r := AppendRule(f, TPROXY_PRE, Rule(Protocol(Tcp), Jump(TPROXY_ENT)), l, r);
      }
      assert r == r3 + When(p.enableTcp, [Rule(Protocol(Tcp), Jump(TPROXY_ENT))]);
      assert r0 == [Rule(DstLocal, Return), Rule(DstNotUnicast, Return)];
      assert r == PreRules(p);
    }

    method BuildMark(f: Family, p: Params)
      requires Valid()
      modifies this
      ensures Valid() && boot == old(boot) && log == old(log) + OnMangle(f, Block(TPROXY_MARK, MarkRules(p)))
    {
      ghost var l, r := log, [];
      StartChain(f, TPROXY_MARK);
      r := AppendRule(f, TPROXY_MARK, Rule(DstNotUnicast, Return), l, r);
      ghost var r0 := r;
      if p.enableDns {
        r := AppendRule(f, TPROXY_MARK, Rule(UdpTo(53), SetMark(p.fwmarkReroute)), l, r);
      }
      assert r == r0 + When(p.enableDns, [Rule(UdpTo(53), SetMark(p.fwmarkReroute))]);
      ghost var r1 := r;
      if p.enableUdp {
        r := AppendRule(f, TPROXY_MARK, Rule(Protocol(Udp), SetMark(p.fwmarkReroute)), l, r);
      }
      assert r == r1 + When(p.enableUdp, [Rule(Protocol(Udp), SetMark(p.fwmarkReroute))]);
      ghost var r2 := r;
      if p.enableTcp {
        r := AppendRule(f, TPROXY_MARK, Rule(Protocol(Tcp), SetMark(p.fwmarkReroute)), l, r);
      }
      assert r == r2 + When(p.enableTcp, [Rule(Protocol(Tcp), SetMark(p.fwmarkReroute))]);
      assert r0 == [Rule(DstNotUnicast, Return)];
      assert r == MarkRules(p);
    }

    method BuildOut(f: Family, p: Params)
      requires Valid()
      modifies this
      ensures Valid() && boot == old(boot) && log == old(log) + OnMangle(f, Block(TPROXY_OUT, OutRules(p)))
    {
      ghost var l, r := log, [];
      StartChain(f, TPROXY_OUT);
      r := AppendRule(f, TPROXY_OUT, Rule(ReplyDirection, Return), l, r);
      ghost var r0 := r;
      for i := 0 to |p.noproxy|
        invariant Valid() && boot == old(boot) && log == l + OnMangle(f, Block(TPROXY_OUT, r))
        invariant r == r0 + CgroupRules(p.noproxy[..i], Return)
      {
        r := AppendRule(f, TPROXY_OUT, Rule(InCgroup(p.noproxy[i]), Return), l, r);
        CgroupRulesSnoc(p.noproxy, i, Return);
      }
      assert p.noproxy[..|p.noproxy|] == p.noproxy;
      ghost var r1 := r;
      for i := 0 to |p.proxy|
        invariant Valid() && boot == old(boot) && log == l + OnMangle(f, Block(TPROXY_OUT, r))
        invariant r == r1 + CgroupRules(p.proxy[..i], Jump(TPROXY_MARK))
      {
        r := AppendRule(f, TPROXY_OUT, Rule(InCgroup(p.proxy[i]), Jump(TPROXY_MARK)), l, r);
        CgroupRulesSnoc(p.proxy, i, Jump(TPROXY_MARK));
      }
      assert p.proxy[..|p.proxy|] == p.proxy;
      assert r0 == [Rule(ReplyDirection, Return)];
      assert r == OutRules(p);
    }

    method StartPrerouting(f: Family, p: Params)
      requires Valid()
      modifies this
      ensures Valid() && boot == old(boot) && log == old(log) + OnMangle(f, PreroutingOps(f, p))
    {
      ghost var l := log;
      ghost var a, b := Block(TPROXY_ENT, EntRules(f, p)), Block(TPROXY_PRE, PreRules(p));
      ghost var c := [Append(PREROUTING, HOOK_PRE)];
      BuildEnt(f, p);
      BuildPre(f, p);
      var _ := Run(Command(f, Mangle(Append(PREROUTING, HOOK_PRE))));
      OnMangleThree(f, a, b, c);
      OnMangleOne(f, Append(PREROUTING, HOOK_PRE));
      Regroup(l, OnMangle(f, a), OnMangle(f, b), OnMangle(f, c));
    }

    method StartOutput(f: Family, p: Params)
      requires Valid()
      modifies this
      ensures Valid() && boot == old(boot) && log == old(log) + OnMangle(f, OutputOps(f, p))
    {
      ghost var l := log;
      ghost var a, b := Block(TPROXY_MARK, MarkRules(p)), Block(TPROXY_OUT, OutRules(p));
      ghost var c := When(Enabled(f, p), [Append(OUTPUT, HOOK_OUT)]);
      BuildMark(f, p);
      BuildOut(f, p);
      if (if f == V4 then p.enableIpv4 else p.enableIpv6) {
        var _ := Run(Command(f, Mangle(Append(OUTPUT, HOOK_OUT))));
      }
      OnMangleThree(f, a, b, c);
      OnMangleOne(f, Append(OUTPUT, HOOK_OUT));
      Regroup(l, OnMangle(f, a), OnMangle(f, b), OnMangle(f, c));
    }

    /** The IPv4 section of the script, and the IPv6 section. */
    method StartOneFamily(f: Family, p: Params)
      requires Valid()
      modifies this
      ensures Valid() && boot == old(boot) && log == old(log) + StartFamily(f, p)
    {
      ghost var l := log;
      ghost var a, b := RouteSetup(f, p.fwmarkTproxy, p.tableTproxy), OnMangle(f, PreroutingOps(f, p));
      ghost var c := When(p.fwmarkReroute != p.fwmarkTproxy, RouteSetup(f, p.fwmarkReroute, p.tableReroute));
      ghost var d := OnMangle(f, OutputOps(f, p));
      IpRuleAndRoute(f, p.fwmarkTproxy, p.tableTproxy);
      StartPrerouting(f, p);
      if p.fwmarkReroute != p.fwmarkTproxy {
        IpRuleAndRoute(f, p.fwmarkReroute, p.tableReroute);
      }
      StartOutput(f, p);
      Regroup(l, a, b, c);
      Regroup(l, a + b + c, d, []);
    }

    method StartNat(p: Params)
      requires Valid()
      modifies this
      ensures Valid() && boot == old(boot) && log == old(log) + StartGateway(p)
    {
      if p.enableGateway {
        var _ := Run(Command(V4, Nat(Append(POSTROUTING, MasqueradeRule(V4)))));
        var _ := Run(Command(V6, Nat(Append(POSTROUTING, MasqueradeRule(V6)))));
      }
    }

    /** Everything after the filters. */
    method Start(p: Params)
      requires Valid()
      modifies this
      ensures Valid() && boot == old(boot) && log == old(log) + StartScript(p)
      ensures State() == StartResult(old(State()), p)
    {
      ghost var l := log;
      StartOneFamily(V4, p);
      StartOneFamily(V6, p);
      StartNat(p);
      Regroup(l, StartFamily(V4, p), StartFamily(V6, p), StartGateway(p));
      ExecuteAllConcat(boot, l, StartScript(p));
    }

    // ---- stop --------------------------------------------------------------------------------------

    method FlushAndDelete(f: Family, order: seq<Chain>)
      requires Valid()
      modifies this
      ensures Valid() && boot == old(boot)
      ensures log == old(log) + OnMangle(f, Flushes(order)) + OnMangle(f, ChainDeletes(order))
    {
      ghost var l := log;
      for i := 0 to |order|
        invariant Valid() && boot == old(boot) && log == l + OnMangle(f, Flushes(order))[..i]
      {
        var _ := Run(Command(f, Mangle(Flush(order[i]))));
      }
      ghost var l1 := log;
      assert l1 == l + OnMangle(f, Flushes(order));
      for i := 0 to |order|
        invariant Valid() && boot == old(boot) && log == l1 + OnMangle(f, ChainDeletes(order))[..i]
      {
        var _ := Run(Command(f, Mangle(DeleteChain(order[i]))));
      }
      assert log == l1 + OnMangle(f, ChainDeletes(order));
    }

    method StopMangle(f: Family)
      requires Valid()
      modifies this
      ensures Valid() && boot == old(boot) && log == old(log) + OnMangle(f, StopOps(f))
    {
      ghost var l, order := log, StopOrder(f);
      var _ := Run(Command(f, Mangle(Delete(PREROUTING, HOOK_PRE))));
      var _ := Run(Command(f, Mangle(Delete(OUTPUT, HOOK_OUT))));
      assert OnMangle(f, UNHOOK) ==
             [Command(f, Mangle(Delete(PREROUTING, HOOK_PRE)))] + [Command(f, Mangle(Delete(OUTPUT, HOOK_OUT)))];
      FlushAndDelete(f, StopOrder(f));
      OnMangleThree(f, UNHOOK, Flushes(order), ChainDeletes(order));
      Regroup(l, OnMangle(f, UNHOOK), OnMangle(f, Flushes(order)), OnMangle(f, ChainDeletes(order)));
    }

    method StopIpRules(f: Family, p: Params)
      requires Valid()
      modifies this
      ensures Valid() && boot == old(boot) && log == old(log) + StopRouting(f, p)
    {
      var _ := Run(Command(f, RuleDelete(p.fwmarkTproxy, p.tableTproxy)));
      var _ := Run(Command(f, RuleDelete(p.fwmarkReroute, p.tableReroute)));
      var _ := Run(Command(f, RouteFlush(p.tableTproxy)));
      var _ := Run(Command(f, RouteFlush(p.tableReroute)));
    }

    method StopOneFamily(f: Family, p: Params)
      requires Valid()
      modifies this
      ensures Valid() && boot == old(boot) && log == old(log) + StopFamily(f, p)
    {
      ghost var l := log;
      StopMangle(f);
      StopIpRules(f, p);
      Regroup(l, OnMangle(f, StopOps(f)), StopRouting(f, p), []);
    }

    method StopNat()
      requires Valid()
      modifies this
      ensures Valid() && boot == old(boot) && log == old(log) + StopGateway()
    {
      var _ := Run(Command(V4, Nat(Delete(POSTROUTING, MasqueradeRule(V4)))));
      var _ := Run(Command(V6, Nat(Delete(POSTROUTING, MasqueradeRule(V6)))));
    }

    method Stop(p: Params)
      requires Valid()
      modifies this
      ensures Valid() && boot == old(boot)
      ensures State() == StopResult(old(State()), p)
    {
      var present := HasChain(V4, TPROXY_ENT);
      if !present {
        return;
      }
      ghost var l := log;
      StopOneFamily(V4, p);
      StopOneFamily(V6, p);
      StopNat();
      Regroup(l, StopFamily(V4, p), StopFamily(V6, p), StopGateway());
      ExecuteAllConcat(boot, l, StopScript(p));
    }
  }

  lemma Regroup<T>(l: seq<T>, a: seq<T>, b: seq<T>, c: seq<T>)
    ensures l + a + b + c == l + (a + b + c)
    ensures a + b + [] == a + b && l + a + b + [] == l + (a + b)
  {
  }

  lemma OnMangleOne(f: Family, op: TableOp)
    ensures OnMangle(f, [op]) == [Command(f, Mangle(op))]
    ensures OnMangle(f, []) == []
  {
  }

  lemma CgroupRulesSnoc(paths: seq<string>, i: nat, target: Target)
    requires i < |paths|
    ensures CgroupRules(paths[..i + 1], target) == CgroupRules(paths[..i], target) + [Rule(InCgroup(paths[i]), target)]
  {
  }

  lemma OnMangleThree(f: Family, a: seq<TableOp>, b: seq<TableOp>, c: seq<TableOp>)
    ensures OnMangle(f, a + b + c) == OnMangle(f, a) + OnMangle(f, b) + OnMangle(f, c)
  {
  }
}
