/**
 What the generated chains mean: a declarative policy on packets and the proof that the compiled
 rules implement it.
 */
module PacketPolicy {
  import opened Netfilter
  import opened TproxyScript

  // ---- The policy --------------------------------------------------------------------------------

  /** Some enabled protocol switch covers the packet. */
  predicate Selected(p: Params, k: Packet)
  {
    || (p.enableDns && k.proto == Udp && k.dport == 53)
    || (p.enableUdp && k.proto == Udp)
    || (p.enableTcp && k.proto == Tcp)
  }

  predicate InSome(paths: set<string>, k: Packet)
  {
    exists path :: path in paths && Matches(InCgroup(path), k)
  }

  function Entries(paths: seq<string>): (r: set<string>)
  {
    set e | e in paths
  }

  /** Locally generated packets to be diverted; the lists count as sets. */
  predicate Diverts(noproxy: set<string>, proxy: set<string>, p: Params, k: Packet)
  {
    !k.reply && !InSome(noproxy, k) && InSome(proxy, k) && k.dstUnicast && Selected(p, k)
  }

  predicate OutgoingDiverted(p: Params, k: Packet)
  {
    Diverts(Entries(p.noproxy), Entries(p.proxy), p, k)
  }

  /** Packets that PREROUTING hands to the proxy. */
  predicate IncomingDiverted(p: Params, k: Packet)
  {
    k.dstUnicast && !k.dstLocal && (k.srcLocal || p.enableGateway) && Selected(p, k)
  }

  /** An existing transparent socket keeps its packets; everything else goes to the proxy port. */
  function ProxyVerdict(f: Family, p: Params, k: Packet): (v: Verdict)
  {
    if k.hasSocket then Accepted else Tproxied(if f == V4 then "127.0.0.1" else "::1", p.port)
  }

  // ---- PREROUTING --------------------------------------------------------------------------------

  /** Evaluate the first rule. */
  lemma EvalFirst(t: Table, rule: Rule, rest: seq<Rule>, k: Packet, fuel: nat)
    ensures !Matches(rule.cond, k) ==> Eval(t, [rule] + rest, k, fuel) == Eval(t, rest, k, fuel)
    ensures Matches(rule.cond, k) && rule.target.Return? ==> Eval(t, [rule] + rest, k, fuel) == Returned(k)
    ensures Matches(rule.cond, k) && rule.target.SetMark? ==>
            Eval(t, [rule] + rest, k, fuel) == Eval(t, rest, k.(mark := rule.target.mark), fuel)
    ensures Matches(rule.cond, k) && rule.target.Accept? ==> Eval(t, [rule] + rest, k, fuel) == Final(Accepted, k)
    ensures Matches(rule.cond, k) && rule.target.Tproxy? ==>
            Eval(t, [rule] + rest, k, fuel) ==
            Final(Tproxied(rule.target.onIp, rule.target.onPort), k.(mark := rule.target.mark))
  {
    assert ([rule] + rest)[1..] == rest;
  }

  /** TCP and UDP packets never come back from TPROXY_ENT. */
  lemma EntDecides(t: Table, f: Family, p: Params, k: Packet, fuel: nat)
    requires k.proto == Tcp || k.proto == Udp
    ensures Eval(t, EntRules(f, p), k, fuel) == Final(ProxyVerdict(f, p, k), k.(mark := p.fwmarkTproxy))
  {
    var r := EntRules(f, p);
    var k' := if k.hasSocket then k.(mark := p.fwmarkTproxy) else k;
    assert r == [r[0]] + ([r[1]] + ([r[2]] + ([r[3]] + [])));
    EvalFirst(t, r[0], [r[1]] + ([r[2]] + ([r[3]] + [])), k, fuel);
    EvalFirst(t, r[1], [r[2]] + ([r[3]] + []), k', fuel);
    EvalFirst(t, r[2], [r[3]] + [], k', fuel);
    EvalFirst(t, r[3], [], k', fuel);
  }

  /** A rule that jumps to TPROXY_ENT, present or not, followed by others. */
  lemma EntJump(t: Table, f: Family, p: Params, on: bool, m: Match, rest: seq<Rule>, k: Packet, fuel: nat)
    requires TPROXY_ENT in t && t[TPROXY_ENT] == EntRules(f, p) && fuel >= 1
    requires Matches(m, k) ==> k.proto == Tcp || k.proto == Udp
    ensures Eval(t, When(on, [Rule(m, Jump(TPROXY_ENT))]) + rest, k, fuel) ==
            if on && Matches(m, k) then Final(ProxyVerdict(f, p, k), k.(mark := p.fwmarkTproxy))
            else Eval(t, rest, k, fuel)
  {
    if on {
      var rule := Rule(m, Jump(TPROXY_ENT));
      assert ([rule] + rest)[1..] == rest;
      if Matches(m, k) {
        EntDecides(t, f, p, k, fuel - 1);
      }
    } else {
      assert [] + rest == rest;
    }
  }

  /** A RETURN rule, present or not, followed by others. */
  lemma ReturnRule(t: Table, on: bool, m: Match, rest: seq<Rule>, k: Packet, fuel: nat)
    ensures Eval(t, When(on, [Rule(m, Return)]) + rest, k, fuel) ==
            if on && Matches(m, k) then Returned(k) else Eval(t, rest, k, fuel)
  {
    if on {
      EvalFirst(t, Rule(m, Return), rest, k, fuel);
    } else {
      assert [] + rest == rest;
    }
  }

  lemma PreRulesNested(p: Params)
    ensures PreRules(p) ==
            When(true, [Rule(DstLocal, Return)])
            + (When(true, [Rule(DstNotUnicast, Return)])
            + (When(!p.enableGateway, [Rule(SrcNotLocal, Return)])
            + (When(p.enableDns, [Rule(UdpTo(53), Jump(TPROXY_ENT))])
            + (When(p.enableUdp, [Rule(Protocol(Udp), Jump(TPROXY_ENT))])
            + (When(p.enableTcp, [Rule(Protocol(Tcp), Jump(TPROXY_ENT))]) + [])))))
  {
  }

  /**
   PREROUTING compiler correctness: the packets of the policy end in ACCEPT or TPROXY with the
   tproxy mark; every other packet comes back unchanged.
   */
  lemma PreRulesCorrect(t: Table, f: Family, p: Params, k: Packet, fuel: nat)
    requires TPROXY_ENT in t && t[TPROXY_ENT] == EntRules(f, p) && fuel >= 1
    ensures var o := Eval(t, PreRules(p), k, fuel);
            if IncomingDiverted(p, k) then o == Final(ProxyVerdict(f, p, k), k.(mark := p.fwmarkTproxy))
            else o == Returned(k) || o == Fell(k)
  {
    var r6 := [];
    var r5 := When(p.enableTcp, [Rule(Protocol(Tcp), Jump(TPROXY_ENT))]) + r6;
    var r4 := When(p.enableUdp, [Rule(Protocol(Udp), Jump(TPROXY_ENT))]) + r5;
    var r3 := When(p.enableDns, [Rule(UdpTo(53), Jump(TPROXY_ENT))]) + r4;
    var r2 := When(!p.enableGateway, [Rule(SrcNotLocal, Return)]) + r3;
    var r1 := When(true, [Rule(DstNotUnicast, Return)]) + r2;
    PreRulesNested(p);
    ReturnRule(t, true, DstLocal, r1, k, fuel);
    ReturnRule(t, true, DstNotUnicast, r2, k, fuel);
    ReturnRule(t, !p.enableGateway, SrcNotLocal, r3, k, fuel);
    EntJump(t, f, p, p.enableDns, UdpTo(53), r4, k, fuel);
    EntJump(t, f, p, p.enableUdp, Protocol(Udp), r5, k, fuel);
    EntJump(t, f, p, p.enableTcp, Protocol(Tcp), r6, k, fuel);
  }

  // ---- OUTPUT ------------------------------------------------------------------------------------

  function Marked(p: Params, k: Packet): (r: Packet)
  {
    k.(mark := p.fwmarkReroute)
  }

  function MarkIf(cond: bool, k: Packet, mark: int): (r: Packet)
  {
    if cond then k.(mark := mark) else k
  }

  /** A marking rule, present or not, followed by others. */
  lemma MarkRule(t: Table, on: bool, m: Match, mark: int, rest: seq<Rule>, k: Packet, fuel: nat)
    ensures Eval(t, When(on, [Rule(m, SetMark(mark))]) + rest, k, fuel) ==
            Eval(t, rest, MarkIf(on && Matches(m, k), k, mark), fuel)
  {
    if on {
      EvalFirst(t, Rule(m, SetMark(mark)), rest, k, fuel);
    } else {
      assert [] + rest == rest;
    }
  }

  lemma MarkIfTwice(a: bool, b: bool, k: Packet, mark: int)
    ensures MarkIf(b, MarkIf(a, k, mark), mark) == MarkIf(a || b, k, mark)
  {
  }

  lemma MarkRulesNested(p: Params)
    ensures MarkRules(p) ==
            When(true, [Rule(DstNotUnicast, Return)])
            + (When(p.enableDns, [Rule(UdpTo(53), SetMark(p.fwmarkReroute))])
            + (When(p.enableUdp, [Rule(Protocol(Udp), SetMark(p.fwmarkReroute))])
            + (When(p.enableTcp, [Rule(Protocol(Tcp), SetMark(p.fwmarkReroute))]) + [])))
  {
  }

  lemma MatchIgnoresMark(m: Match, cond: bool, k: Packet, mark: int)
    requires !m.MarkIs?
    ensures Matches(m, MarkIf(cond, k, mark)) == Matches(m, k)
  {
  }

  /** Three marking rules, each present or not, mark whatever one of them covers. */
  lemma MarkingRules(t: Table, a: bool, ma: Match, b: bool, mb: Match, c: bool, mc: Match, mark: int,
                     k: Packet, fuel: nat)
    requires !ma.MarkIs? && !mb.MarkIs? && !mc.MarkIs?
    ensures Eval(t, When(a, [Rule(ma, SetMark(mark))])
                    + (When(b, [Rule(mb, SetMark(mark))]) + (When(c, [Rule(mc, SetMark(mark))]) + [])), k, fuel)
            == Fell(MarkIf((a && Matches(ma, k)) || (b && Matches(mb, k)) || (c && Matches(mc, k)), k, mark))
  {
    var r3 := When(c, [Rule(mc, SetMark(mark))]) + [];
    var r2 := When(b, [Rule(mb, SetMark(mark))]) + r3;
    var x, y, z := a && Matches(ma, k), b && Matches(mb, k), c && Matches(mc, k);
    MarkRule(t, a, ma, mark, r2, k, fuel);
    MatchIgnoresMark(mb, x, k, mark);
    MarkRule(t, b, mb, mark, r3, MarkIf(x, k, mark), fuel);
    MarkIfTwice(x, y, k, mark);
    MatchIgnoresMark(mc, x || y, k, mark);
    MarkRule(t, c, mc, mark, [], MarkIf(x || y, k, mark), fuel);
    MarkIfTwice(x || y, z, k, mark);
  }

  /** TPROXY_MARK always comes back, having marked exactly the selected unicast packets. */
  lemma MarkRulesCorrect(t: Table, p: Params, k: Packet, fuel: nat)
    ensures var o := Eval(t, MarkRules(p), k, fuel);
            var k' := if k.dstUnicast && Selected(p, k) then Marked(p, k) else k;
            o == Returned(k') || o == Fell(k')
  {
    var mark := p.fwmarkReroute;
    var r1 := When(p.enableDns, [Rule(UdpTo(53), SetMark(mark))])
      + (When(p.enableUdp, [Rule(Protocol(Udp), SetMark(mark))])
      + (When(p.enableTcp, [Rule(Protocol(Tcp), SetMark(mark))]) + []));
    MarkRulesNested(p);
    ReturnRule(t, true, DstNotUnicast, r1, k, fuel);
    MarkingRules(t, p.enableDns, UdpTo(53), p.enableUdp, Protocol(Udp), p.enableTcp, Protocol(Tcp), mark, k, fuel);
  }

  lemma EntriesCons(paths: seq<string>, k: Packet)
    requires paths != []
    ensures InSome(Entries(paths), k) <==> Matches(InCgroup(paths[0]), k) || InSome(Entries(paths[1..]), k)
  {
    assert Entries(paths) == {paths[0]} + Entries(paths[1..]);
  }

  lemma CgroupRulesCons(paths: seq<string>, target: Target)
    requires paths != []
    ensures CgroupRules(paths, target) == [Rule(InCgroup(paths[0]), target)] + CgroupRules(paths[1..], target)
  {
  }

  lemma {:induction false} NoproxyRules(t: Table, paths: seq<string>, k: Packet, fuel: nat)
    ensures Eval(t, CgroupRules(paths, Return), k, fuel) == if InSome(Entries(paths), k) then Returned(k) else Fell(k)
    decreases |paths|
  {
    if paths != [] {
      EntriesCons(paths, k);
      CgroupRulesCons(paths, Return);
      EvalFirst(t, Rule(InCgroup(paths[0]), Return), CgroupRules(paths[1..], Return), k, fuel);
      NoproxyRules(t, paths[1..], k, fuel);
    }
  }

  lemma PolicyIgnoresMark(paths: set<string>, p: Params, k: Packet, mark: int)
    ensures InSome(paths, k.(mark := mark)) <==> InSome(paths, k)
    ensures Selected(p, k.(mark := mark)) <==> Selected(p, k)
  {
  }

  /** Matching several proxy entries marks several times, with the same mark. */
  lemma {:induction false} ProxyRules(t: Table, p: Params, paths: seq<string>, k: Packet, fuel: nat)
    requires TPROXY_MARK in t && t[TPROXY_MARK] == MarkRules(p) && fuel >= 1
    ensures Eval(t, CgroupRules(paths, Jump(TPROXY_MARK)), k, fuel) ==
            Fell(MarkIf(InSome(Entries(paths), k) && k.dstUnicast && Selected(p, k), k, p.fwmarkReroute))
    decreases |paths|
  {
    if paths != [] {
      var k' := MarkIf(k.dstUnicast && Selected(p, k), k, p.fwmarkReroute);
      EntriesCons(paths, k);
      PolicyIgnoresMark(Entries(paths[1..]), p, k, p.fwmarkReroute);
      CgroupRulesCons(paths, Jump(TPROXY_MARK));
      var rule, rest := Rule(InCgroup(paths[0]), Jump(TPROXY_MARK)), CgroupRules(paths[1..], Jump(TPROXY_MARK));
      assert ([rule] + rest)[1..] == rest;
      MarkRulesCorrect(t, p, k, fuel - 1);
      ProxyRules(t, p, paths[1..], k, fuel);
      ProxyRules(t, p, paths[1..], k', fuel);
    }
  }

  /**
   OUTPUT compiler correctness: for every pair of lists the chain always comes back, and the
   mark is fwmark_reroute exactly for the packets of the policy and untouched for all others.
   */
  lemma OutRulesCorrect(t: Table, p: Params, k: Packet, fuel: nat)
    requires TPROXY_MARK in t && t[TPROXY_MARK] == MarkRules(p) && fuel >= 1
    ensures var o := Eval(t, OutRules(p), k, fuel);
            var k' := if OutgoingDiverted(p, k) then Marked(p, k) else k;
            o == Returned(k') || o == Fell(k')
  {
    var noproxy, proxy := CgroupRules(p.noproxy, Return), CgroupRules(p.proxy, Jump(TPROXY_MARK));
    assert OutRules(p) == [Rule(ReplyDirection, Return)] + (noproxy + proxy);
    EvalFirst(t, Rule(ReplyDirection, Return), noproxy + proxy, k, fuel);
    EvalConcat(t, noproxy, proxy, k, fuel);
    NoproxyRules(t, p.noproxy, k, fuel);
    ProxyRules(t, p, p.proxy, k, fuel);
  }

  /** The packet that a chain hands back. */
  function Back(o: Outcome, k: Packet): (r: Packet)
  {
    if o.Fell? || o.Returned? then o.p else k
  }

  /**
   Order and repetition in the lists do not matter; adding noproxy entries can only take
   packets away from the proxy and adding proxy entries can only send it more.
   */
  lemma ListsActAsSets(t: Table, u: Table, p: Params, q: Params, k: Packet, fuel: nat)
    requires TPROXY_MARK in t && t[TPROXY_MARK] == MarkRules(p) && fuel >= 1
    requires TPROXY_MARK in u && u[TPROXY_MARK] == MarkRules(q)
    requires q == p.(noproxy := q.noproxy, proxy := q.proxy)
    ensures var after, after' := Back(Eval(t, OutRules(p), k, fuel), k), Back(Eval(u, OutRules(q), k, fuel), k);
            && (Entries(p.noproxy) == Entries(q.noproxy) && Entries(p.proxy) == Entries(q.proxy) ==> after == after')
            && (Entries(p.noproxy) <= Entries(q.noproxy) && Entries(q.proxy) <= Entries(p.proxy) ==>
                  after' == k || after' == after)
  {
    OutRulesCorrect(t, p, k, fuel);
    OutRulesCorrect(u, q, k, fuel);
  }
}
