/**
 The whole way of a locally generated packet: OUTPUT, policy routing by mark, and PREROUTING
 for the packets that the routing sends back to the loopback device.
 */
module Diversion {
  import opened Prelude
  import opened Netfilter
  import opened TproxyScript
  import opened Teardown
  import opened PacketPolicy
  import opened Visibility
  import opened Recovery

  // ---- The built-in chains of a complete start -------------------------------------------------------

  /** The base rules come first; only what falls off their end meets the hook. */
  lemma BaseThenHook(base: Table, full: Shape, chain: Chain, k: Packet, fuel: nat)
    requires Base(base) && (chain == PREROUTING || chain == OUTPUT)
    ensures var t, o := Realize(base, full), EvalChain(base, chain, k, fuel);
            EvalChain(t, chain, k, fuel) == if o.Fell? then Eval(t, HookFor(full, chain), o.p, fuel) else o
  {
    var t := Realize(base, full);
    forall c | c in UserChains(base) ensures c in t && t[c] == base[c] {
      assert c !in Present(full) && base[c] + [] == base[c];
    }
    assert chain !in Present(full) && t[chain] == base[chain] + HookFor(full, chain);
    assert AgreeOn(t, base, UserChains(base));
    EvalAgrees(t, base, UserChains(base), base[chain], k, fuel);
    EvalConcat(t, base[chain], HookFor(full, chain), k, fuel);
  }

  lemma EvalHook(t: Table, hook: Rule, k: Packet, fuel: nat)
    requires hook.cond == Any && hook.target.Jump? && hook.target.chain in t && fuel >= 1
    ensures var o := Eval(t, t[hook.target.chain], k, fuel - 1);
            Eval(t, [hook], k, fuel) == if o.Returned? then Fell(o.p) else o
  {
    assert [hook][1..] == [];
  }

  lemma StartedMangle(base: Kernel, p: Params, f: Family)
    requires KernelBase(base)
    ensures NetOf(StartResult(base, p), f).mangle == Realize(NetOf(base, f).mangle, FullShape(f, p))
  {
    var s := StartedShape(base, p, f, |StartScript(p)|);
    assert StartScript(p)[..|StartScript(p)|] == StartScript(p);
  }

  lemma HookedOutput(base: Table, f: Family, p: Params, k: Packet, fuel: nat)
    requires fuel >= 2
    ensures Eval(Realize(base, FullShape(f, p)), [HOOK_OUT], k, fuel) ==
            Fell(MarkIf(OutgoingDiverted(p, k), k, p.fwmarkReroute))
  {
    var t := Realize(base, FullShape(f, p));
    assert TPROXY_OUT in Present(FullShape(f, p)) && TPROXY_MARK in Present(FullShape(f, p));
    EvalHook(t, HOOK_OUT, k, fuel);
    OutRulesCorrect(t, p, k, fuel - 1);
  }

  lemma HookedPrerouting(base: Table, f: Family, p: Params, k: Packet, fuel: nat)
    requires fuel >= 2
    ensures Eval(Realize(base, FullShape(f, p)), [HOOK_PRE], k, fuel) ==
            if IncomingDiverted(p, k) then Final(ProxyVerdict(f, p, k), k.(mark := p.fwmarkTproxy)) else Fell(k)
  {
    var t := Realize(base, FullShape(f, p));
    assert TPROXY_PRE in Present(FullShape(f, p)) && TPROXY_ENT in Present(FullShape(f, p));
    EvalHook(t, HOOK_PRE, k, fuel);
    PreRulesCorrect(t, f, p, k, fuel - 1);
  }

  /** OUTPUT after a complete start. */
  lemma CompleteOutput(base: Kernel, p: Params, f: Family, k: Packet, fuel: nat)
    requires KernelBase(base) && fuel >= 2
    ensures var o := EvalChain(NetOf(base, f).mangle, OUTPUT, k, fuel);
            EvalChain(NetOf(StartResult(base, p), f).mangle, OUTPUT, k, fuel) ==
            if o.Fell? then Fell(MarkIf(Enabled(f, p) && OutgoingDiverted(p, o.p), o.p, p.fwmarkReroute)) else o
  {
    var b, full := NetOf(base, f).mangle, FullShape(f, p);
    var o := EvalChain(b, OUTPUT, k, fuel);
    StartedMangle(base, p, f);
    BaseThenHook(b, full, OUTPUT, k, fuel);
    if o.Fell? && Enabled(f, p) {
      HookedOutput(b, f, p, o.p, fuel);
    }
  }

  /** PREROUTING after a complete start. */
  lemma CompletePrerouting(base: Kernel, p: Params, f: Family, k: Packet, fuel: nat)
    requires KernelBase(base) && fuel >= 2
    ensures var o := EvalChain(NetOf(base, f).mangle, PREROUTING, k, fuel);
            EvalChain(NetOf(StartResult(base, p), f).mangle, PREROUTING, k, fuel) ==
            if o.Fell? && IncomingDiverted(p, o.p) then Final(ProxyVerdict(f, p, o.p), o.p.(mark := p.fwmarkTproxy))
            else o
  {
    var b, full := NetOf(base, f).mangle, FullShape(f, p);
    var o := EvalChain(b, PREROUTING, k, fuel);
    StartedMangle(base, p, f);
    BaseThenHook(b, full, PREROUTING, k, fuel);
    if o.Fell? {
      HookedPrerouting(b, f, p, o.p, fuel);
    }
  }

  /**
   POSTROUTING after a complete start of a gateway: forwarded traffic that no rule of the base
   decides is masqueraded, for IPv6 only when it comes from a private address.
   */
  lemma CompletePostrouting(base: Kernel, p: Params, f: Family, k: Packet, fuel: nat)
    requires KernelBase(base) && JumpsLand(NetOf(base, f).natTable)
    ensures var t, u := NetOf(base, f).natTable, NetOf(StartResult(base, p), f).natTable;
            var o := EvalChain(t, POSTROUTING, k, fuel);
            EvalChain(u, POSTROUTING, k, fuel) ==
            if o.Fell? && p.enableGateway && o.p.cgroup.None? && (f == V6 ==> o.p.srcPrivate)
            then Final(Masqueraded, o.p) else o
  {
    var t, added := NetOf(base, f).natTable, When(p.enableGateway, [MasqueradeRule(f)]);
    StartedNat(base, p, f);
    ChainExtended(t, POSTROUTING, added, k, fuel);
    assert [MasqueradeRule(f)][1..] == [];
  }

  lemma StartedNat(base: Kernel, p: Params, f: Family)
    requires KernelBase(base)
    ensures var t := NetOf(base, f).natTable;
            NetOf(StartResult(base, p), f).natTable ==
            t[POSTROUTING := t[POSTROUTING] + When(p.enableGateway, [MasqueradeRule(f)])]
  {
    var t := NetOf(base, f).natTable;
    Effect(base, f, StartScript(p));
    ViewOfStart(f, p);
    RunOne(t, Append(POSTROUTING, MasqueradeRule(f)));
    assert t[POSTROUTING] + [] == t[POSTROUTING];
  }

  /** Rules appended to a built-in chain meet exactly the packets that fell off its end before. */
  lemma ChainExtended(t: Table, chain: Chain, added: seq<Rule>, k: Packet, fuel: nat)
    requires JumpsLand(t) && Builtin(chain) && chain in t
    ensures var u, o := t[chain := t[chain] + added], EvalChain(t, chain, k, fuel);
            EvalChain(u, chain, k, fuel) == if o.Fell? then Eval(u, added, o.p, fuel) else o
  {
    var u := t[chain := t[chain] + added];
    assert AgreeOn(u, t, UserChains(t));
    EvalAgrees(u, t, UserChains(t), t[chain], k, fuel);
    EvalConcat(u, t[chain], added, k, fuel);
  }

  // ---- Routing after a complete start ------------------------------------------------------------------

  /** The script's tables are used by nobody else. */
  ghost predicate TablesPrivate(n: Net, p: Params)
  {
    forall i :: 0 <= i < |n.rules| ==> n.rules[i].table != p.tableTproxy && n.rules[i].table != p.tableReroute
  }

  /** The rule in front of the script's rules, the local one, has no route for the packet. */
  ghost predicate FirstRuleAside(n: Net, k: Packet)
  {
    n.rules != [] ==> RouteFor(RoutesIn(n.routes, n.rules[0].table), k) == None
  }

  function StartedRules(n: Net, p: Params): (rules: seq<IpRule>)
  {
    var once := InsertRule(n.rules, TproxyRule(p));
    if p.fwmarkReroute != p.fwmarkTproxy then InsertRule(once, RerouteRule(p)) else once
  }

  function StartedRoutes(n: Net, p: Params): (routes: map<int, seq<Route>>)
  {
    var once := n.routes[p.tableTproxy := [LocalDefault]];
    if p.fwmarkReroute != p.fwmarkTproxy then once[p.tableReroute := [LocalDefault]] else once
  }

  /** One `ip rule add` and one `ip route add` on a table that holds at most this route. */
  lemma SetupPair(n: Net, mark: int, table: int)
    requires IpRule(Some(mark), table) !in n.rules
    requires table in n.routes ==> n.routes[table] == [LocalDefault]
    ensures var m := Act(Act(n, RuleAdd(mark, table)), RouteAdd(table));
            && m.rules == InsertRule(n.rules, IpRule(Some(mark), table))
            && m.routes == n.routes[table := [LocalDefault]]
  {
    assert [] + [LocalDefault] == [LocalDefault];
    if table in n.routes {
      assert n.routes[table := [LocalDefault]] == n.routes;
    }
  }

  lemma StartedRouting(base: Kernel, p: Params, f: Family)
    requires RulesFree(NetOf(base, f), p) && RoutesFree(NetOf(base, f), p)
    ensures NetOf(StartResult(base, p), f).rules == StartedRules(NetOf(base, f), p)
    ensures NetOf(StartResult(base, p), f).routes == StartedRoutes(NetOf(base, f), p)
  {
    var n := NetOf(base, f);
    var a, b := RuleAdd(p.fwmarkTproxy, p.tableTproxy), RouteAdd(p.tableTproxy);
    Effect(base, f, StartScript(p));
    ViewOfStart(f, p);
    SetupPair(n, p.fwmarkTproxy, p.tableTproxy);
    if p.fwmarkReroute != p.fwmarkTproxy {
      var c, d := RuleAdd(p.fwmarkReroute, p.tableReroute), RouteAdd(p.tableReroute);
      assert StartRouting(p) == [a, b, c, d];
      ActsOfFour(n, a, b, c, d);
      InsertedOnlyAdds(n.rules, TproxyRule(p), RerouteRule(p));
      SetupPair(Act(Act(n, a), b), p.fwmarkReroute, p.tableReroute);
    } else {
      assert StartRouting(p) == [a, b];
      ActsOfTwo(n, a, b);
    }
  }

  lemma InsertedOnlyAdds(rules: seq<IpRule>, x: IpRule, y: IpRule)
    requires y !in rules && x != y
    ensures y !in InsertRule(rules, x)
  {
    InsertCounts(rules, x);
    assert multiset(InsertRule(rules, x))[y] == multiset(rules)[y] == 0;
  }

  /** The policy rules of everybody else. */
  function Foreign(rules: seq<IpRule>, p: Params): (r: seq<IpRule>)
  {
    if rules == [] then []
    else if rules[0] == TproxyRule(p) || rules[0] == RerouteRule(p) then Foreign(rules[1..], p)
    else [rules[0]] + Foreign(rules[1..], p)
  }

  /** Another routing state that differs only in the script's own rules and tables. */
  ghost predicate SameForeignRouting(m: Net, n: Net, p: Params)
  {
    && Foreign(m.rules, p) == n.rules
    && m.routes - {p.tableTproxy, p.tableReroute} == n.routes - {p.tableTproxy, p.tableReroute}
  }

  lemma {:induction false} ForeignDecides(rules: seq<IpRule>, routes: map<int, seq<Route>>, p: Params, k: Packet)
    requires k.mark != p.fwmarkReroute && k.mark != p.fwmarkTproxy
    ensures Lookup(rules, routes, k) == Lookup(Foreign(rules, p), routes, k)
  {
    if rules != [] {
      var rest := Foreign(rules[1..], p);
      ForeignDecides(rules[1..], routes, p, k);
      assert ([rules[0]] + rest)[1..] == rest;
    }
  }

  lemma {:induction false} LookupOutside(rules: seq<IpRule>, m: Net, n: Net, p: Params, k: Packet)
    requires forall i :: 0 <= i < |rules| ==> rules[i].table != p.tableTproxy && rules[i].table != p.tableReroute
    requires m.routes - {p.tableTproxy, p.tableReroute} == n.routes - {p.tableTproxy, p.tableReroute}
    ensures Lookup(rules, m.routes, k) == Lookup(rules, n.routes, k)
  {
    if rules != [] {
      var own := {p.tableTproxy, p.tableReroute};
      var t := rules[0].table;
      assert t !in own;
      assert t in m.routes <==> t in m.routes - own;
      assert t in n.routes <==> t in n.routes - own;
      assert RoutesIn(m.routes, t) == RoutesIn(n.routes, t) by {
        if t in m.routes { assert (m.routes - own)[t] == m.routes[t] == (n.routes - own)[t]; }
      }
      LookupOutside(rules[1..], m, n, p, k);
    }
  }

  /** A packet with neither mark is routed as in the base, whatever the script's own rules are. */
  lemma UnmarkedSeesForeign(m: Net, n: Net, p: Params, k: Packet)
    requires TablesPrivate(n, p) && SameForeignRouting(m, n, p)
    requires k.mark != p.fwmarkReroute && k.mark != p.fwmarkTproxy
    ensures Lookup(m.rules, m.routes, k) == Lookup(n.rules, n.routes, k)
  {
    ForeignDecides(m.rules, m.routes, p, k);
    LookupOutside(n.rules, m, n, p, k);
  }

  lemma {:induction false} ForeignConcat(a: seq<IpRule>, b: seq<IpRule>, p: Params)
    ensures Foreign(a + b, p) == Foreign(a, p) + Foreign(b, p)
  {
    if a == [] {
      assert a + b == b;
    } else {
      assert (a + b)[1..] == a[1..] + b;
      ForeignConcat(a[1..], b, p);
    }
  }

  lemma ForeignInserted(rules: seq<IpRule>, x: IpRule, p: Params)
    requires x == TproxyRule(p) || x == RerouteRule(p)
    ensures Foreign(InsertRule(rules, x), p) == Foreign(rules, p)
  {
    assert [x][1..] == [];
    if rules != [] {
      var r, rest := rules[0], rules[1..];
      assert rules == [r] + rest && InsertRule(rules, x) == [r] + ([x] + rest);
      ForeignConcat([r], [x] + rest, p);
      ForeignConcat([x], rest, p);
      ForeignConcat([r], rest, p);
    }
  }

  lemma {:induction false} ForeignRemoved(rules: seq<IpRule>, x: IpRule, p: Params)
    requires x == TproxyRule(p) || x == RerouteRule(p)
    ensures Foreign(RemoveFirst(rules, x), p) == Foreign(rules, p)
  {
    if rules != [] && rules[0] != x {
      ForeignRemoved(rules[1..], x, p);
      ForeignConcat([rules[0]], RemoveFirst(rules[1..], x), p);
      ForeignConcat([rules[0]], rules[1..], p);
      assert rules == [rules[0]] + rules[1..];
    }
  }

  lemma {:induction false} AllForeign(rules: seq<IpRule>, p: Params)
    requires TproxyRule(p) !in rules && RerouteRule(p) !in rules
    ensures Foreign(rules, p) == rules
  {
    if rules != [] {
      assert rules[0] in rules && rules == [rules[0]] + rules[1..];
      AllForeign(rules[1..], p);
    }
  }

  lemma LookupCons(r: IpRule, rest: seq<IpRule>, routes: map<int, seq<Route>>, k: Packet)
    ensures var here := RouteFor(RoutesIn(routes, r.table), k);
            Lookup([r] + rest, routes, k) ==
            if (r.fwmark == None || r.fwmark == Some(k.mark)) && here.Some? then here else Lookup(rest, routes, k)
  {
    assert ([r] + rest)[1..] == rest;
  }

  /** After a complete start a packet with neither mark is routed as in the base. */
  lemma UnmarkedRoutesAsBefore(n: Net, p: Params, k: Packet)
    requires TablesPrivate(n, p)
    requires k.mark != p.fwmarkReroute && k.mark != p.fwmarkTproxy
    ensures Lookup(StartedRules(n, p), StartedRoutes(n, p), k) == Lookup(n.rules, n.routes, k)
  {
    var m := n.(rules := StartedRules(n, p), routes := StartedRoutes(n, p));
    AllForeign(n.rules, p);
    ForeignInserted(n.rules, TproxyRule(p), p);
    ForeignInserted(InsertRule(n.rules, TproxyRule(p)), RerouteRule(p), p);
    UnmarkedSeesForeign(m, n, p, k);
  }

  /** The script's rules, the newer one first. */
  function OwnRules(p: Params): (rules: seq<IpRule>)
  {
    When(p.fwmarkReroute != p.fwmarkTproxy, [RerouteRule(p)]) + [TproxyRule(p)]
  }

  lemma StartedRulesSplit(n: Net, p: Params)
    ensures n.rules == [] ==>
              StartedRules(n, p) == [TproxyRule(p)] + When(p.fwmarkReroute != p.fwmarkTproxy, [RerouteRule(p)])
    ensures n.rules != [] ==> StartedRules(n, p) == [n.rules[0]] + (OwnRules(p) + n.rules[1..])
  {
    var x, y := TproxyRule(p), RerouteRule(p);
    if n.rules == [] {
      assert [x][1..] == [];
    } else {
      var r, rest := n.rules[0], n.rules[1..];
      assert InsertRule(n.rules, x) == [r] + ([x] + rest);
      assert ([r] + ([x] + rest))[1..] == [x] + rest;
      assert InsertRule([r] + ([x] + rest), y) == [r] + ([y] + ([x] + rest));
    }
  }

  /** Two rules, or one, of which some rule for this mark leads to the loopback route. */
  lemma OneOfTwoDecides(x: IpRule, y: IpRule, rest: seq<IpRule>, routes: map<int, seq<Route>>, k: Packet)
    requires RouteFor(RoutesIn(routes, x.table), k) == Some(LocalDefault)
    requires RouteFor(RoutesIn(routes, y.table), k) == Some(LocalDefault)
    requires x.fwmark == Some(k.mark) || y.fwmark == Some(k.mark)
    ensures Lookup([x] + ([y] + rest), routes, k) == Some(LocalDefault)
    ensures x.fwmark == Some(k.mark) ==> Lookup([x] + rest, routes, k) == Some(LocalDefault)
  {
    LookupCons(x, [y] + rest, routes, k);
    LookupCons(y, rest, routes, k);
    LookupCons(x, rest, routes, k);
  }

  /** The script's rules decide, given that their tables have the route and the first rule has none. */
  lemma OwnRulesDecide(n: Net, p: Params, routes: map<int, seq<Route>>, k: Packet)
    requires RouteFor(RoutesIn(routes, p.tableTproxy), k) == Some(LocalDefault)
    requires p.fwmarkReroute != p.fwmarkTproxy ==> RouteFor(RoutesIn(routes, p.tableReroute), k) == Some(LocalDefault)
    requires n.rules != [] ==> RouteFor(RoutesIn(routes, n.rules[0].table), k) == None
    requires k.mark == p.fwmarkReroute || k.mark == p.fwmarkTproxy
    ensures Lookup(StartedRules(n, p), routes, k) == Some(LocalDefault)
  {
    var x, y, differ := TproxyRule(p), RerouteRule(p), p.fwmarkReroute != p.fwmarkTproxy;
    StartedRulesSplit(n, p);
    if n.rules == [] {
      assert [x] + [y] == [x] + ([y] + []) && [x] + [] == [x];
      OneOfTwoDecides(x, if differ then y else x, [], routes, k);
    } else {
      var r, rest := n.rules[0], n.rules[1..];
      LookupCons(r, OwnRules(p) + rest, routes, k);
      if differ {
        OneOfTwoDecides(y, x, rest, routes, k);
        assert OwnRules(p) + rest == [y] + ([x] + rest);
      } else {
        OneOfTwoDecides(x, x, rest, routes, k);
        assert OwnRules(p) + rest == [x] + rest;
      }
    }
  }

  /** A packet with either of the script's marks goes to the loopback device. */
  lemma MarkedLoopsBack(n: Net, p: Params, k: Packet)
    requires TablesPrivate(n, p) && FirstRuleAside(n, k)
    requires k.mark == p.fwmarkReroute || k.mark == p.fwmarkTproxy
    ensures Lookup(StartedRules(n, p), StartedRoutes(n, p), k) == Some(LocalDefault)
  {
    var routes := StartedRoutes(n, p);
    assert RouteFor([LocalDefault], k) == Some(LocalDefault);
    assert RoutesIn(routes, p.tableTproxy) == [LocalDefault];
    assert p.fwmarkReroute != p.fwmarkTproxy ==> RoutesIn(routes, p.tableReroute) == [LocalDefault];
    assert n.rules != [] ==> RoutesIn(routes, n.rules[0].table) == RoutesIn(n.routes, n.rules[0].table);
    OwnRulesDecide(n, p, routes, k);
  }

  /** Routes look at the destination only. */
  lemma {:induction false} CoveringIgnoresMark(routes: seq<Route>, k: Packet, mark: int)
    ensures FirstCovering(routes, k.(mark := mark)) == FirstCovering(routes, k)
  {
    if routes != [] {
      CoveringIgnoresMark(routes[1..], k, mark);
    }
  }

  lemma AsideIgnoresMark(n: Net, k: Packet, mark: int)
    requires FirstRuleAside(n, k)
    ensures FirstRuleAside(n, k.(mark := mark))
  {
    if n.rules != [] {
      CoveringIgnoresMark(RoutesIn(n.routes, n.rules[0].table), k, mark);
    }
  }

  // ---- The journey -------------------------------------------------------------------------------------

  /**
   Lost in a chain; sent away by the routing; looped back, taken in PREROUTING and delivered on
   this host, or routed elsewhere after all; or looped back and taken by nobody.
   */
  datatype Fate =
    | Lost
    | SentAway(p: Packet)
    | Delivered(v: Verdict, p: Packet)
    | Misrouted(p: Packet)
    | Uncaught(p: Packet)

  predicate RoutedLocally(n: Net, k: Packet)
  {
    Lookup(n.rules, n.routes, k) == Some(LocalDefault)
  }

  /** OUTPUT, and the routing that follows it. */
  function Journey(n: Net, k: Packet, fuel: nat): (fate: Fate)
  {
    match EvalChain(n.mangle, OUTPUT, k, fuel)
    case Fell(k') => Departure(n, k', fuel)
    case Returned(k') => Departure(n, k', fuel)
    case _ => Lost
  }

  function Departure(n: Net, k: Packet, fuel: nat): (fate: Fate)
  {
    if RoutedLocally(n, k) then Arrival(n, k, fuel) else SentAway(k)
  }

  /** PREROUTING, and the routing of what it takes under the mark it then has. */
  function Arrival(n: Net, k: Packet, fuel: nat): (fate: Fate)
  {
    match EvalChain(n.mangle, PREROUTING, k, fuel)
    case Fell(k') => Uncaught(k')
    case Returned(k') => Uncaught(k')
    case Final(v, k') =>
      if !v.Accepted? && !v.Tproxied? then Lost
      else if RoutedLocally(n, k') then Delivered(v, k')
      else Misrouted(k')
    case Stuck => Lost
  }

  /** Other programs' rules and routes let the packet through, with and without the script's mark. */
  ghost predicate BaseLetsThrough(n: Net, p: Params, k: Packet, fuel: nat)
  {
    var marked := k.(mark := p.fwmarkReroute);
    && EvalChain(n.mangle, OUTPUT, k, fuel) == Fell(k)
    && EvalChain(n.mangle, PREROUTING, marked, fuel) == Fell(marked)
    && FirstRuleAside(n, marked)
    && !RoutedLocally(n, k)
  }

  /** A locally generated packet to another host, with a mark that the script does not use. */
  predicate LocallyGenerated(p: Params, k: Packet)
  {
    k.srcLocal && !k.dstLocal && k.mark != p.fwmarkReroute && k.mark != p.fwmarkTproxy
  }

  /**
   End-to-end diversion. A locally generated packet is delivered to the proxy port, or to the
   transparent socket that already owns it, iff its family is enabled and the outgoing policy
   selects it. All other packets leave the host unchanged, as they would without the script.
   */
  lemma EndToEnd(base: Kernel, p: Params, f: Family, k: Packet, fuel: nat)
    requires Unused(base, p) && fuel >= 2 && LocallyGenerated(p, k)
    requires TablesPrivate(NetOf(base, f), p) && BaseLetsThrough(NetOf(base, f), p, k, fuel)
    ensures var fate := Journey(NetOf(StartResult(base, p), f), k, fuel);
            if Enabled(f, p) && OutgoingDiverted(p, k) then
              fate == Delivered(ProxyVerdict(f, p, k), k.(mark := p.fwmarkTproxy))
            else
              fate == SentAway(k) && fate == Journey(NetOf(base, f), k, fuel)
  {
    var n, marked := NetOf(base, f), k.(mark := p.fwmarkReroute);
    CompleteOutput(base, p, f, k, fuel);
    StartedRouting(base, p, f);
    if Enabled(f, p) && OutgoingDiverted(p, k) {
      MarkedLoopsBack(n, p, marked);
      AsideIgnoresMark(n, marked, p.fwmarkTproxy);
      MarkedLoopsBack(n, p, marked.(mark := p.fwmarkTproxy));
      CompletePrerouting(base, p, f, marked, fuel);
      PolicyIgnoresMark({}, p, k, p.fwmarkReroute);
    } else {
      UnmarkedRoutesAsBefore(n, p, k);
    }
  }
}
