/**
 cgroup-tproxy.sh as the commands it issues. Rules are named after what they say on the
 iptables command line; a script is the sequence of its invocations.
 */
module TproxyScript {
  import opened Netfilter

  /** The script's variables once its prologue has run; the lists are already filtered. */
  datatype Params = Params(
    port: int,
    enableDns: bool,
    enableUdp: bool,
    enableTcp: bool,
    enableIpv4: bool,
    enableIpv6: bool,
    enableGateway: bool,
    tableReroute: int,
    tableTproxy: int,
    fwmarkReroute: int,
    fwmarkTproxy: int,
    noproxy: seq<string>,
    proxy: seq<string>)

  predicate Enabled(f: Family, p: Params)
  {
    if f == V4 then p.enableIpv4 else p.enableIpv6
  }

  function Loopback(f: Family): (ip: string)
  {
    if f == V4 then "127.0.0.1" else "::1"
  }

  function When<T>(cond: bool, s: seq<T>): (r: seq<T>)
  {
    if cond then s else []
  }

  const HOOK_PRE := Rule(Any, Jump(TPROXY_PRE))
  const HOOK_OUT := Rule(Any, Jump(TPROXY_OUT))

  function MasqueradeRule(f: Family): (r: Rule)
  {
    Rule(NoOwnerSocket(f == V6), Masquerade)
  }

  function EntRules(f: Family, p: Params): (r: seq<Rule>)
  {
    [ Rule(HasSocket, SetMark(p.fwmarkTproxy)),
      Rule(HasSocket, Accept),
      Rule(Protocol(Tcp), Tproxy(Loopback(f), p.port, p.fwmarkTproxy)),
      Rule(Protocol(Udp), Tproxy(Loopback(f), p.port, p.fwmarkTproxy)) ]
  }

  function PreRules(p: Params): (r: seq<Rule>)
  {
    [Rule(DstLocal, Return), Rule(DstNotUnicast, Return)]
    + When(!p.enableGateway, [Rule(SrcNotLocal, Return)])
    + When(p.enableDns, [Rule(UdpTo(53), Jump(TPROXY_ENT))])
    + When(p.enableUdp, [Rule(Protocol(Udp), Jump(TPROXY_ENT))])
    + When(p.enableTcp, [Rule(Protocol(Tcp), Jump(TPROXY_ENT))])
  }

  function MarkRules(p: Params): (r: seq<Rule>)
  {
    [Rule(DstNotUnicast, Return)]
    + When(p.enableDns, [Rule(UdpTo(53), SetMark(p.fwmarkReroute))])
    + When(p.enableUdp, [Rule(Protocol(Udp), SetMark(p.fwmarkReroute))])
    + When(p.enableTcp, [Rule(Protocol(Tcp), SetMark(p.fwmarkReroute))])
  }

  function CgroupRules(paths: seq<string>, target: Target): (r: seq<Rule>)
    ensures |r| == |paths|
    ensures forall i :: 0 <= i < |r| ==> r[i].target == target
  {
    seq(|paths|, i requires 0 <= i < |paths| => Rule(InCgroup(paths[i]), target))
  }

  function OutRules(p: Params): (r: seq<Rule>)
  {
    [Rule(ReplyDirection, Return)] + CgroupRules(p.noproxy, Return) + CgroupRules(p.proxy, Jump(TPROXY_MARK))
  }

  // ---- Commands --------------------------------------------------------------------------------

  function Appends(c: Chain, rules: seq<Rule>): (ops: seq<TableOp>)
  {
    seq(|rules|, i requires 0 <= i < |rules| => Append(c, rules[i]))
  }

  /** `-N` followed by the appends of its rules. */
  function Block(c: Chain, rules: seq<Rule>): (ops: seq<TableOp>)
  {
    [NewChain(c)] + Appends(c, rules)
  }

  function PreroutingOps(f: Family, p: Params): (ops: seq<TableOp>)
  {
    Block(TPROXY_ENT, EntRules(f, p)) + Block(TPROXY_PRE, PreRules(p)) + [Append(PREROUTING, HOOK_PRE)]
  }

  function OutputOps(f: Family, p: Params): (ops: seq<TableOp>)
  {
    Block(TPROXY_MARK, MarkRules(p)) + Block(TPROXY_OUT, OutRules(p)) + When(Enabled(f, p), [Append(OUTPUT, HOOK_OUT)])
  }

  function OnMangle(f: Family, ops: seq<TableOp>): (s: seq<Command>)
  {
    seq(|ops|, i requires 0 <= i < |ops| => Command(f, Mangle(ops[i])))
  }

  function RouteSetup(f: Family, mark: int, table: int): (s: seq<Command>)
  {
    [Command(f, RuleAdd(mark, table)), Command(f, RouteAdd(table))]
  }

  function StartFamily(f: Family, p: Params): (s: seq<Command>)
  {
    RouteSetup(f, p.fwmarkTproxy, p.tableTproxy)
    + OnMangle(f, PreroutingOps(f, p))
    + When(p.fwmarkReroute != p.fwmarkTproxy, RouteSetup(f, p.fwmarkReroute, p.tableReroute))
    + OnMangle(f, OutputOps(f, p))
  }

  function StartGateway(p: Params): (s: seq<Command>)
  {
    When(p.enableGateway,
         [Command(V4, Nat(Append(POSTROUTING, MasqueradeRule(V4)))),
          Command(V6, Nat(Append(POSTROUTING, MasqueradeRule(V6))))])
  }

  function StartScript(p: Params): (s: seq<Command>)
  {
    StartFamily(V4, p) + StartFamily(V6, p) + StartGateway(p)
  }

  const UNHOOK: seq<TableOp> := [Delete(PREROUTING, HOOK_PRE), Delete(OUTPUT, HOOK_OUT)]

  /** The order in which stop flushes, and then deletes, the chains of a family. */
  function StopOrder(f: Family): (order: seq<Chain>)
  {
    if f == V4 then [TPROXY_PRE, TPROXY_ENT, TPROXY_OUT, TPROXY_MARK]
    else [TPROXY_PRE, TPROXY_OUT, TPROXY_ENT, TPROXY_MARK]
  }

  function Flushes(order: seq<Chain>): (ops: seq<TableOp>)
  {
    seq(|order|, i requires 0 <= i < |order| => Flush(order[i]))
  }

  function ChainDeletes(order: seq<Chain>): (ops: seq<TableOp>)
  {
    seq(|order|, i requires 0 <= i < |order| => DeleteChain(order[i]))
  }

  function StopOps(f: Family): (ops: seq<TableOp>)
  {
    UNHOOK + Flushes(StopOrder(f)) + ChainDeletes(StopOrder(f))
  }

  function StopRouting(f: Family, p: Params): (s: seq<Command>)
  {
    [ Command(f, RuleDelete(p.fwmarkTproxy, p.tableTproxy)),
      Command(f, RuleDelete(p.fwmarkReroute, p.tableReroute)),
      Command(f, RouteFlush(p.tableTproxy)),
      Command(f, RouteFlush(p.tableReroute)) ]
  }

  function StopFamily(f: Family, p: Params): (s: seq<Command>)
  {
    OnMangle(f, StopOps(f)) + StopRouting(f, p)
  }

  function StopGateway(): (s: seq<Command>)
  {
    [Command(V4, Nat(Delete(POSTROUTING, MasqueradeRule(V4)))),
     Command(V6, Nat(Delete(POSTROUTING, MasqueradeRule(V6))))]
  }

  function StopScript(p: Params): (s: seq<Command>)
  {
    StopFamily(V4, p) + StopFamily(V6, p) + StopGateway()
  }

  /** stop() does nothing unless the IPv4 mangle table has TPROXY_ENT. */
  function StopResult(k: Kernel, p: Params): (r: Kernel)
  {
    if TPROXY_ENT in k.v4.mangle then ExecuteAll(k, StopScript(p)) else k
  }

  function StartResult(k: Kernel, p: Params): (r: Kernel)
  {
    ExecuteAll(k, StartScript(p))
  }

  // ---- What each script does to one component of one family ------------------------------------------

  lemma {:induction false} ProjectOnMangle(f: Family, g: Family, ops: seq<TableOp>)
    ensures f != g ==> ActionsOf(f, OnMangle(g, ops)) == []
    ensures MangleOps(ActionsOf(f, OnMangle(f, ops))) == ops
    ensures NatOps(ActionsOf(f, OnMangle(g, ops))) == []
    ensures RoutingActs(ActionsOf(f, OnMangle(g, ops))) == []
    decreases |ops|
  {
    if ops != [] {
      var s := OnMangle(g, ops);
      assert s[1..] == OnMangle(g, ops[1..]);
      ProjectOnMangle(f, g, ops[1..]);
      ProjectOnMangle(f, f, ops[1..]);
      assert OnMangle(f, ops)[1..] == OnMangle(f, ops[1..]);
      var rest := ActionsOf(f, s[1..]);
      assert f == g ==> ActionsOf(f, s)[1..] == rest;
    }
  }

  /** Everything that the three projections of one family say about a script. */
  datatype View = View(mangle: seq<TableOp>, natOps: seq<TableOp>, routing: seq<Action>)

  function ViewOf(f: Family, s: seq<Command>): (v: View)
  {
    var a := ActionsOf(f, s);
    View(MangleOps(a), NatOps(a), RoutingActs(a))
  }

  function Then(v: View, w: View): (r: View)
  {
    View(v.mangle + w.mangle, v.natOps + w.natOps, v.routing + w.routing)
  }

  lemma ViewConcat(f: Family, a: seq<Command>, b: seq<Command>)
    ensures ViewOf(f, a + b) == Then(ViewOf(f, a), ViewOf(f, b))
  {
    ActionsOfConcat(f, a, b);
    MangleOpsConcat(ActionsOf(f, a), ActionsOf(f, b));
    NatOpsConcat(ActionsOf(f, a), ActionsOf(f, b));
    RoutingActsConcat(ActionsOf(f, a), ActionsOf(f, b));
  }

  function StartMangle(f: Family, p: Params): (ops: seq<TableOp>)
  {
    PreroutingOps(f, p) + OutputOps(f, p)
  }

  function StartRouting(p: Params): (s: seq<Action>)
  {
    [RuleAdd(p.fwmarkTproxy, p.tableTproxy), RouteAdd(p.tableTproxy)]
    + When(p.fwmarkReroute != p.fwmarkTproxy, [RuleAdd(p.fwmarkReroute, p.tableReroute), RouteAdd(p.tableReroute)])
  }

  function UndoRouting(p: Params): (s: seq<Action>)
  {
    [ RuleDelete(p.fwmarkTproxy, p.tableTproxy), RuleDelete(p.fwmarkReroute, p.tableReroute),
      RouteFlush(p.tableTproxy), RouteFlush(p.tableReroute) ]
  }

  function StartView(f: Family, p: Params): (v: View)
  {
    View(StartMangle(f, p), When(p.enableGateway, [Append(POSTROUTING, MasqueradeRule(f))]), StartRouting(p))
  }

  function StopView(f: Family, p: Params): (v: View)
  {
    View(StopOps(f), [Delete(POSTROUTING, MasqueradeRule(f))], UndoRouting(p))
  }

  const NO_VIEW := View([], [], [])

  lemma ViewOfMangle(f: Family, g: Family, ops: seq<TableOp>)
    ensures ViewOf(f, OnMangle(g, ops)) == if f == g then View(ops, [], []) else NO_VIEW
  {
    ProjectOnMangle(f, g, ops);
  }

  function OneView(f: Family, c: Command): (v: View)
  {
    if c.family != f then NO_VIEW
    else
      match c.action
      case Mangle(op) => View([op], [], [])
      case Nat(op) => View([], [op], [])
      case _ => View([], [], [c.action])
  }

  lemma ViewOfOne(f: Family, c: Command)
    ensures ViewOf(f, [c]) == OneView(f, c)
  {
    var s, a := [c], [c.action];
    assert s[1..] == [] && a[1..] == [];
    assert ActionsOf(f, s[1..]) == [];
    assert ActionsOf(f, s) == if c.family == f then a + [] else [];
    assert a + [] == a;
    assert MangleOps(a) == (if c.action.Mangle? then [c.action.op] else []);
    assert NatOps(a) == (if c.action.Nat? then [c.action.op] else []);
    assert RoutingActs(a) == (if c.action.Mangle? || c.action.Nat? then [] else a);
  }

  lemma ViewOfTwo(f: Family, c: Command, d: Command)
    ensures ViewOf(f, [c, d]) == Then(OneView(f, c), OneView(f, d))
  {
    assert [c, d] == [c] + [d];
    ViewConcat(f, [c], [d]);
    ViewOfOne(f, c);
    ViewOfOne(f, d);
  }

  lemma ViewOfFour(f: Family, a: seq<Command>, b: seq<Command>, c: seq<Command>, d: seq<Command>)
    ensures ViewOf(f, a + b + c + d) == Then(Then(Then(ViewOf(f, a), ViewOf(f, b)), ViewOf(f, c)), ViewOf(f, d))
  {
    ViewConcat(f, a + b + c, d);
    ViewConcat(f, a + b, c);
    ViewConcat(f, a, b);
  }

  lemma ViewOfRouteSetup(f: Family, g: Family, mark: int, table: int)
    ensures ViewOf(f, RouteSetup(g, mark, table)) ==
            if f == g then View([], [], [RuleAdd(mark, table), RouteAdd(table)]) else NO_VIEW
  {
    ViewOfTwo(f, Command(g, RuleAdd(mark, table)), Command(g, RouteAdd(table)));
  }

  lemma ViewOfNothing(f: Family)
    ensures ViewOf(f, []) == NO_VIEW
  {
  }

  /** Two stretches of routing commands with two stretches of mangle commands between them. */
  lemma ViewOfLayers(f: Family, g: Family, a: seq<Command>, pre: seq<TableOp>, c: seq<Command>, out: seq<TableOp>,
                     ra: seq<Action>, rc: seq<Action>)
    requires ViewOf(f, a) == if f == g then View([], [], ra) else NO_VIEW
    requires ViewOf(f, c) == if f == g then View([], [], rc) else NO_VIEW
    ensures ViewOf(f, a + OnMangle(g, pre) + c + OnMangle(g, out)) ==
            if f == g then View(pre + out, [], ra + rc) else NO_VIEW
  {
    ViewOfFour(f, a, OnMangle(g, pre), c, OnMangle(g, out));
    ViewOfMangle(f, g, pre);
    ViewOfMangle(f, g, out);
    assert [] + pre + [] + out == pre + out;
    assert ra + [] + rc + [] == ra + rc;
  }

  lemma ViewOfStartFamily(f: Family, g: Family, p: Params)
    ensures ViewOf(f, StartFamily(g, p)) == if f == g then View(StartMangle(f, p), [], StartRouting(p)) else NO_VIEW
  {
    var differ := p.fwmarkReroute != p.fwmarkTproxy;
    var setup := RouteSetup(g, p.fwmarkReroute, p.tableReroute);
    var second := [RuleAdd(p.fwmarkReroute, p.tableReroute), RouteAdd(p.tableReroute)];
    ViewOfRouteSetup(f, g, p.fwmarkTproxy, p.tableTproxy);
    ViewOfRouteSetup(f, g, p.fwmarkReroute, p.tableReroute);
    ViewOfNothing(f);
    ViewOfLayers(f, g, RouteSetup(g, p.fwmarkTproxy, p.tableTproxy), PreroutingOps(g, p), When(differ, setup),
                 OutputOps(g, p), [RuleAdd(p.fwmarkTproxy, p.tableTproxy), RouteAdd(p.tableTproxy)],
                 When(differ, second));
  }

  lemma ViewOfStartGateway(f: Family, p: Params)
    ensures ViewOf(f, StartGateway(p)) == View([], When(p.enableGateway, [Append(POSTROUTING, MasqueradeRule(f))]), [])
  {
    ViewOfNothing(f);
    ViewOfTwo(f, Command(V4, Nat(Append(POSTROUTING, MasqueradeRule(V4)))),
                 Command(V6, Nat(Append(POSTROUTING, MasqueradeRule(V6)))));
  }

  lemma ViewOfBothFamilies(f: Family, s4: seq<Command>, s6: seq<Command>, tail: seq<Command>, v: View, w: View)
    requires ViewOf(f, s4) == (if f == V4 then v else NO_VIEW)
    requires ViewOf(f, s6) == (if f == V6 then v else NO_VIEW)
    requires ViewOf(f, tail) == w
    ensures ViewOf(f, s4 + s6 + tail) == Then(v, w)
  {
    ViewConcat(f, s4 + s6, tail);
    ViewConcat(f, s4, s6);
    assert Then(v, NO_VIEW) == v && Then(NO_VIEW, v) == v;
  }

  lemma ViewOfStart(f: Family, p: Params)
    ensures ViewOf(f, StartScript(p)) == StartView(f, p)
  {
    var v := View(StartMangle(f, p), [], StartRouting(p));
    ViewOfStartFamily(f, V4, p);
    ViewOfStartFamily(f, V6, p);
    ViewOfStartGateway(f, p);
    ViewOfBothFamilies(f, StartFamily(V4, p), StartFamily(V6, p), StartGateway(p), v, ViewOf(f, StartGateway(p)));
    assert v.mangle + [] == v.mangle && v.routing + [] == v.routing;
  }

  lemma ViewOfUndo(f: Family, g: Family, p: Params)
    ensures ViewOf(f, StopRouting(g, p)) == if f == g then View([], [], UndoRouting(p)) else NO_VIEW
  {
    var s := StopRouting(g, p);
    assert s == [s[0], s[1]] + [s[2], s[3]];
    ViewConcat(f, [s[0], s[1]], [s[2], s[3]]);
    ViewOfTwo(f, s[0], s[1]);
    ViewOfTwo(f, s[2], s[3]);
  }

  lemma ViewOfStopGateway(f: Family)
    ensures ViewOf(f, StopGateway()) == View([], [Delete(POSTROUTING, MasqueradeRule(f))], [])
  {
    ViewOfTwo(f, Command(V4, Nat(Delete(POSTROUTING, MasqueradeRule(V4)))),
                 Command(V6, Nat(Delete(POSTROUTING, MasqueradeRule(V6)))));
  }

  lemma ViewOfStop(f: Family, p: Params)
    ensures ViewOf(f, StopScript(p)) == StopView(f, p)
  {
    var v := View(StopOps(f), [], UndoRouting(p));
    ViewOfStopFamily(f, V4, p);
    ViewOfStopFamily(f, V6, p);
    ViewOfStopGateway(f);
    ViewOfBothFamilies(f, StopFamily(V4, p), StopFamily(V6, p), StopGateway(), v, ViewOf(f, StopGateway()));
    assert v.mangle + [] == v.mangle && v.routing + [] == v.routing;
  }

  lemma ViewOfStopFamily(f: Family, g: Family, p: Params)
    ensures ViewOf(f, StopFamily(g, p)) ==
            if f == g then View(StopOps(f), [], UndoRouting(p)) else NO_VIEW
  {
    ViewConcat(f, OnMangle(g, StopOps(g)), StopRouting(g, p));
    ViewOfMangle(f, g, StopOps(g));
    ViewOfUndo(f, g, p);
  }

  /** The components of a family after a script, seen one at a time. */
  lemma Effect(k: Kernel, f: Family, s: seq<Command>)
    ensures var n, m, v := NetOf(k, f), NetOf(ExecuteAll(k, s), f), ViewOf(f, s);
            && m.mangle == RunOps(n.mangle, v.mangle)
            && m.natTable == RunOps(n.natTable, v.natOps)
            && m.rules == Acts(n, v.routing).rules
            && m.routes == Acts(n, v.routing).routes
  {
    var n, a := NetOf(k, f), ActionsOf(f, s);
    ProjectFamily(k, f, s);
    ProjectMangle(n, a);
    ProjectNat(n, a);
    ProjectRouting(n, n, a);
  }

  /** A prefix of a script shows a prefix of each view. */
  lemma PrefixView(f: Family, s: seq<Command>, k: nat)
    requires k <= |s|
    ensures ViewOf(f, s[..k]).mangle <= ViewOf(f, s).mangle
    ensures ViewOf(f, s[..k]).natOps <= ViewOf(f, s).natOps
    ensures ViewOf(f, s[..k]).routing <= ViewOf(f, s).routing
  {
    assert s == s[..k] + s[k..];
    ViewConcat(f, s[..k], s[k..]);
  }
}
