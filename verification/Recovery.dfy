/**
 stop as the inverse of start, for starts interrupted anywhere: exactly when the base state
 comes back, component by component.
 */
module Recovery {
  import opened Prelude
  import opened Netfilter
  import opened TproxyScript
  import opened Teardown
  import opened Visibility

  // ---- Policy rules --------------------------------------------------------------------------------

  function TproxyRule(p: Params): (r: IpRule)
  {
    IpRule(Some(p.fwmarkTproxy), p.tableTproxy)
  }

  function RerouteRule(p: Params): (r: IpRule)
  {
    IpRule(Some(p.fwmarkReroute), p.tableReroute)
  }

  function AddRule(rules: seq<IpRule>, r: IpRule): (s: seq<IpRule>)
  {
    if r in rules then rules else InsertRule(rules, r)
  }

  lemma {:induction false} RemoveFirstCounts<T>(s: seq<T>, x: T)
    ensures multiset(RemoveFirst(s, x)) == multiset(s) - multiset{x}
  {
    if s != [] {
      assert s == [s[0]] + s[1..];
      RemoveFirstCounts(s[1..], x);
    }
  }

  lemma InsertCounts(s: seq<IpRule>, x: IpRule)
    ensures multiset(InsertRule(s, x)) == multiset(s) + multiset{x}
  {
    if s != [] {
      assert s == [s[0]] + s[1..];
    }
  }

  lemma RemoveInserted(s: seq<IpRule>, x: IpRule)
    requires x !in s
    ensures RemoveFirst(InsertRule(s, x), x) == s
  {
    if s == [] {
      assert [x][1..] == [];
    } else {
      var t := InsertRule(s, x);
      assert s[0] in s && t[1..] == [x] + s[1..] && t[1..][1..] == s[1..];
      assert s == [s[0]] + s[1..];
    }
  }

  lemma RemoveDeeper(s: seq<IpRule>, x: IpRule, y: IpRule)
    requires x !in s && x != y
    ensures RemoveFirst(InsertRule(InsertRule(s, x), y), x) == InsertRule(s, y)
  {
    if s == [] {
      assert InsertRule(InsertRule(s, x), y) == [x, y];
      assert [x, y][1..] == [y];
    } else {
      var rest := s[1..];
      var t := InsertRule(InsertRule(s, x), y);
      assert s[0] in s;
      assert InsertRule(s, x)[1..] == [x] + rest && t[1..] == [y] + ([x] + rest);
      assert ([x] + rest)[1..] == rest && ([y] + ([x] + rest))[1..] == [x] + rest;
      assert RemoveFirst([x] + rest, x) == rest;
      assert RemoveFirst([y] + ([x] + rest), x) == [y] + rest;
      assert RemoveFirst(t, x) == [s[0]] + ([y] + rest) == [s[0], y] + rest;
    }
  }

  /** Both rules are deleted, whether or not they were added; `b` and `c` say which were. */
  function UndoneRules(rules: seq<IpRule>, x: IpRule, y: IpRule, b: bool, c: bool): (s: seq<IpRule>)
  {
    var added := if b then AddRule(rules, x) else rules;
    var added' := if c then AddRule(added, y) else added;
    RemoveFirst(RemoveFirst(added', x), y)
  }

  lemma AddKeepsCount(rules: seq<IpRule>, r: IpRule, z: IpRule)
    requires z in rules
    ensures multiset(AddRule(rules, r))[z] == multiset(rules)[z]
    ensures z in AddRule(rules, r)
  {
    InsertCounts(rules, r);
    assert multiset(AddRule(rules, r))[z] > 0;
  }

  lemma UndoLosesForeignRule(rules: seq<IpRule>, x: IpRule, y: IpRule, b: bool, c: bool, z: IpRule)
    requires z in rules && (z == x || z == y)
    ensures UndoneRules(rules, x, y, b, c) != rules
  {
    var added := if b then AddRule(rules, x) else rules;
    var added' := if c then AddRule(added, y) else added;
    AddKeepsCount(rules, x, z);
    AddKeepsCount(added, y, z);
    RemoveFirstCounts(added', x);
    RemoveFirstCounts(RemoveFirst(added', x), y);
    assert multiset(added')[z] == multiset(rules)[z] > 0;
    assert multiset(UndoneRules(rules, x, y, b, c))[z] < multiset(rules)[z];
  }

  lemma UndoKeepsFreeBase(rules: seq<IpRule>, x: IpRule, y: IpRule, b: bool, c: bool)
    requires c ==> b && x != y
    requires x !in rules && y !in rules
    ensures UndoneRules(rules, x, y, b, c) == rules
  {
    if b {
      var added := InsertRule(rules, x);
      RemoveInserted(rules, x);
      if c {
        assert y !in added;
        RemoveDeeper(rules, x, y);
        RemoveInserted(rules, y);
      }
    }
  }

  lemma UndoneRulesExactly(rules: seq<IpRule>, x: IpRule, y: IpRule, b: bool, c: bool)
    requires c ==> b && x != y
    ensures UndoneRules(rules, x, y, b, c) == rules <==> x !in rules && y !in rules
  {
    if x in rules || y in rules {
      UndoLosesForeignRule(rules, x, y, b, c, if x in rules then x else y);
    } else {
      UndoKeepsFreeBase(rules, x, y, b, c);
    }
  }

  // ---- Routing -------------------------------------------------------------------------------------

  ghost predicate RoutesFree(n: Net, p: Params)
  {
    p.tableTproxy !in n.routes && p.tableReroute !in n.routes
  }

  ghost predicate RulesFree(n: Net, p: Params)
  {
    TproxyRule(p) !in n.rules && RerouteRule(p) !in n.rules
  }

  lemma ActsOfFour(n: Net, a: Action, b: Action, c: Action, d: Action)
    ensures Acts(n, [a, b, c, d]) == Act(Act(Act(Act(n, a), b), c), d)
  {
    assert [a, b, c, d] == [a, b] + [c, d];
    ActsConcat(n, [a, b], [c, d]);
    ActsOfTwo(n, a, b);
    ActsOfTwo(Act(Act(n, a), b), c, d);
  }

  lemma ActsOfTwo(n: Net, a: Action, b: Action)
    ensures Acts(n, [a, b]) == Act(Act(n, a), b)
  {
    assert [a, b] == [a] + [b];
    ActsConcat(n, [a], [b]);
    ActsOne(n, a);
    ActsOne(Act(n, a), b);
  }

  /** Undoing touches rules by deletion and routes by flushing, and nothing else. */
  lemma UndoEffect(n: Net, p: Params)
    ensures Acts(n, UndoRouting(p)).rules == RemoveFirst(RemoveFirst(n.rules, TproxyRule(p)), RerouteRule(p))
    ensures Acts(n, UndoRouting(p)).routes == n.routes - {p.tableTproxy} - {p.tableReroute}
  {
    var a, b := RuleDelete(p.fwmarkTproxy, p.tableTproxy), RuleDelete(p.fwmarkReroute, p.tableReroute);
    var n1 := Act(n, a);
    var n2 := Act(n1, b);
    ActsOfFour(n, a, b, RouteFlush(p.tableTproxy), RouteFlush(p.tableReroute));
    assert n1 == n.(rules := RemoveFirst(n.rules, TproxyRule(p)));
    assert n2 == n1.(rules := RemoveFirst(n1.rules, RerouteRule(p)));
  }

  lemma RuleAddEffect(n: Net, mark: int, table: int)
    ensures Act(n, RuleAdd(mark, table)).rules == AddRule(n.rules, IpRule(Some(mark), table))
    ensures Act(n, RuleAdd(mark, table)).routes == n.routes
  {
  }

  lemma RouteAddEffect(n: Net, table: int)
    ensures Act(n, RouteAdd(table)).rules == n.rules
    ensures Act(n, RouteAdd(table)).routes - {table} == n.routes - {table}
  {
  }

  /** Any prefix of the routing part of start, by its length. */
  lemma SetupEffect(n: Net, p: Params, m: nat)
    requires m <= |StartRouting(p)|
    ensures Acts(n, StartRouting(p)[..m]).rules ==
            (var added := if m >= 1 then AddRule(n.rules, TproxyRule(p)) else n.rules;
             if m >= 3 then AddRule(added, RerouteRule(p)) else added)
    ensures Acts(n, StartRouting(p)[..m]).routes - {p.tableTproxy} - {p.tableReroute}
            == n.routes - {p.tableTproxy} - {p.tableReroute}
    decreases m
  {
    var s := StartRouting(p);
    if m == 0 {
      assert s[..0] == [];
    } else {
      SetupEffect(n, p, m - 1);
      assert s[..m] == s[..m - 1] + [s[m - 1]];
      ActsConcat(n, s[..m - 1], [s[m - 1]]);
      ActsOne(Acts(n, s[..m - 1]), s[m - 1]);
      if m % 2 == 1 {
        RuleAddEffect(Acts(n, s[..m - 1]), s[m - 1].mark, s[m - 1].table);
      } else {
        RouteAddEffect(Acts(n, s[..m - 1]), s[m - 1].table);
      }
    }
  }

  lemma ActsOne(n: Net, a: Action)
    ensures Acts(n, [a]) == Act(n, a)
  {
    assert [a][1..] == [];
  }

  lemma {:induction false} ActsConcat(n: Net, a: seq<Action>, b: seq<Action>)
    ensures Acts(n, a + b) == Acts(Acts(n, a), b)
    decreases |a|
  {
    if a == [] {
      assert a + b == b;
    } else {
      assert (a + b)[1..] == a[1..] + b;
      ActsConcat(Act(n, a[0]), a[1..], b);
    }
  }

  /** Rules come back iff neither was there before; routes iff both tables were empty. */
  lemma RoutingRestored(n: Net, p: Params, m: nat)
    requires m <= |StartRouting(p)|
    ensures var r := Acts(Acts(n, StartRouting(p)[..m]), UndoRouting(p));
            && (r.rules == n.rules <==> RulesFree(n, p))
            && (r.routes == n.routes <==> RoutesFree(n, p))
  {
    var n' := Acts(n, StartRouting(p)[..m]);
    SetupEffect(n, p, m);
    UndoEffect(n', p);
    assert m >= 3 ==> TproxyRule(p) != RerouteRule(p);
    UndoneRulesExactly(n.rules, TproxyRule(p), RerouteRule(p), m >= 1, m >= 3);
    var routes := n.routes - {p.tableTproxy} - {p.tableReroute};
    assert routes == n.routes <==> RoutesFree(n, p) by {
      if routes == n.routes {
        assert p.tableTproxy !in routes && p.tableReroute !in routes;
      }
    }
  }

  // ---- Masquerading ----------------------------------------------------------------------------------

  /** From its first occurrence on, the sequence holds nothing but `x`. */
  ghost predicate OnlyTail<T(!new)>(s: seq<T>, x: T)
  {
    forall i, j :: 0 <= i < j < |s| && s[i] == x ==> s[j] == x
  }

  lemma {:induction false} AppendThenRemove<T(!new)>(s: seq<T>, x: T)
    ensures RemoveFirst(s + [x], x) == s <==> OnlyTail(s, x)
  {
    if s == [] {
      assert s + [x] == [x] && [x][1..] == [];
    } else {
      var t := s + [x];
      assert t[1..] == s[1..] + [x];
      if s[0] == x {
        if t[1..] == s {
          forall j | 0 <= j < |s| ensures s[j] == x {
            AllEqual(s, x, j);
          }
        }
        if OnlyTail(s, x) {
          assert forall j :: 0 < j < |s| ==> s[j] == x;
          assert t[1..] == s;
        }
      } else {
        AppendThenRemove(s[1..], x);
        assert s == [s[0]] + s[1..];
        assert RemoveFirst(t, x) == [s[0]] + RemoveFirst(s[1..] + [x], x);
        assert RemoveFirst(t, x) == s <==> RemoveFirst(s[1..] + [x], x) == s[1..] by {
          assert ([s[0]] + RemoveFirst(s[1..] + [x], x))[1..] == RemoveFirst(s[1..] + [x], x);
        }
        assert OnlyTail(s, x) <==> OnlyTail(s[1..], x) by {
          if OnlyTail(s[1..], x) {
            forall i, j | 0 <= i < j < |s| && s[i] == x ensures s[j] == x {
              assert s[1..][i - 1] == x && s[1..][j - 1] == s[j];
            }
          }
          if OnlyTail(s, x) {
            forall i, j | 0 <= i < j < |s| - 1 && s[1..][i] == x ensures s[1..][j] == x {
              assert s[i + 1] == x && s[j + 1] == x;
            }
          }
        }
      }
    }
  }

  lemma {:induction false} AllEqual<T>(s: seq<T>, x: T, j: nat)
    requires s != [] && s[0] == x && s[1..] + [x] == s && j < |s|
    ensures s[j] == x
  {
    if j > 0 {
      AllEqual(s, x, j - 1);
      assert s[j - 1] == (s[1..] + [x])[j - 1] == s[j];
    }
  }

  /** The condition on the POSTROUTING chain, depending on whether start got to append its rule. */
  ghost predicate NatFree(n: Net, f: Family, appended: bool)
    requires POSTROUTING in n.natTable
  {
    var rules := n.natTable[POSTROUTING];
    if appended then OnlyTail(rules, MasqueradeRule(f)) else MasqueradeRule(f) !in rules
  }

  lemma {:induction false} RemovePresentShrinks<T>(s: seq<T>, x: T)
    ensures RemoveFirst(s, x) == s <==> x !in s
  {
  }

  lemma NatRestored(n: Net, f: Family, appended: bool)
    requires POSTROUTING in n.natTable
    ensures var mid := RunOps(n.natTable, When(appended, [Append(POSTROUTING, MasqueradeRule(f))]));
            RunOps(mid, [Delete(POSTROUTING, MasqueradeRule(f))]) == n.natTable <==> NatFree(n, f, appended)
  {
    var t, m := n.natTable, MasqueradeRule(f);
    var rules := t[POSTROUTING];
    var mid := if appended then t[POSTROUTING := rules + [m]] else t;
    RunOne(t, Append(POSTROUTING, m));
    assert RunOps(t, When(appended, [Append(POSTROUTING, m)])) == mid;
    RunOne(mid, Delete(POSTROUTING, m));
    var final := RunOp(mid, Delete(POSTROUTING, m));
    assert final == t[POSTROUTING := RemoveFirst(mid[POSTROUTING], m)];
    assert final == t <==> RemoveFirst(mid[POSTROUTING], m) == rules by {
      assert final[POSTROUTING] == RemoveFirst(mid[POSTROUTING], m);
    }
    AppendThenRemove(rules, m);
    RemovePresentShrinks(rules, m);
  }

  // ---- The whole script --------------------------------------------------------------------------------

  lemma {:induction false} NatOpsMember(f: Family, s: seq<Command>, op: TableOp)
    ensures op in ViewOf(f, s).natOps <==> Command(f, Nat(op)) in s
    decreases |s|
  {
    if s != [] {
      assert s == [s[0]] + s[1..];
      NatOpsMember(f, s[1..], op);
      ViewConcat(f, [s[0]], s[1..]);
      ViewOfOne(f, s[0]);
    }
  }

  /** Start was interrupted after its masquerading command for this family. */
  predicate NatAppended(p: Params, f: Family, i: nat)
    requires i <= |StartScript(p)|
  {
    Command(f, Nat(Append(POSTROUTING, MasqueradeRule(f)))) in StartScript(p)[..i]
  }

  lemma NatProgress(p: Params, f: Family, i: nat)
    requires i <= |StartScript(p)|
    ensures ViewOf(f, StartScript(p)[..i]).natOps ==
            When(NatAppended(p, f, i), [Append(POSTROUTING, MasqueradeRule(f))])
  {
    var op := Append(POSTROUTING, MasqueradeRule(f));
    var ops := ViewOf(f, StartScript(p)[..i]).natOps;
    PrefixView(f, StartScript(p), i);
    ViewOfStart(f, p);
    NatOpsMember(f, StartScript(p)[..i], op);
    assert ops <= When(p.enableGateway, [op]);
    assert ops == [] || ops == [op];
  }

  lemma FirstMangleCommand(p: Params, i: nat)
    requires i <= |StartScript(p)|
    ensures ViewOf(V4, StartScript(p)[..i]).mangle == [] <==> i < 3
  {
    var script := StartScript(p);
    var setup := RouteSetup(V4, p.fwmarkTproxy, p.tableTproxy);
    var first := Command(V4, Mangle(NewChain(TPROXY_ENT)));
    StartBegins(p);
    ViewOfRouteSetup(V4, V4, p.fwmarkTproxy, p.tableTproxy);
    if i < 3 {
      assert script[..i] == setup[..i] by {
        assert script[..i] == script[..3][..i];
      }
      PrefixView(V4, setup, i);
    } else {
      assert script[..i] == (setup + [first]) + script[3..i] by {
        assert script[..i] == script[..3] + script[3..i];
      }
      ViewConcat(V4, setup + [first], script[3..i]);
      ViewConcat(V4, setup, [first]);
      ViewOfOne(V4, first);
    }
  }

  /** The chain that stop looks for is there exactly from the third command on. */
  lemma GuardProgress(base: Kernel, p: Params, i: nat)
    requires KernelBase(base) && i <= |StartScript(p)|
    ensures TPROXY_ENT in ExecuteAll(base, StartScript(p)[..i]).v4.mangle <==> i >= 3
  {
    var s := StartedShape(base, p, V4, i);
    FirstMangleCommand(p, i);
    assert TPROXY_ENT in ExecuteAll(base, StartScript(p)[..i]).v4.mangle <==> TPROXY_ENT in Present(s);
  }

  lemma StartBegins(p: Params)
    ensures |StartScript(p)| >= 3
    ensures StartScript(p)[..3] ==
            RouteSetup(V4, p.fwmarkTproxy, p.tableTproxy) + [Command(V4, Mangle(NewChain(TPROXY_ENT)))]
  {
    var mangle := OnMangle(V4, PreroutingOps(V4, p));
    assert |mangle| >= 1 && mangle[0] == Command(V4, Mangle(NewChain(TPROXY_ENT)));
    assert StartFamily(V4, p)[..2] == RouteSetup(V4, p.fwmarkTproxy, p.tableTproxy);
    assert StartFamily(V4, p)[2] == mangle[0];
  }

  /** What the base must not contain already, family by family, for stop to give it back. */
  ghost predicate Restorable(n: Net, f: Family, p: Params, appended: bool)
    requires POSTROUTING in n.natTable
  {
    RulesFree(n, p) && RoutesFree(n, p) && NatFree(n, f, appended)
  }

  lemma FamilyRestored(base: Kernel, p: Params, f: Family, i: nat)
    requires KernelBase(base) && i <= |StartScript(p)|
    ensures var mid := ExecuteAll(base, StartScript(p)[..i]);
            var n, r := NetOf(base, f), NetOf(ExecuteAll(mid, StopScript(p)), f);
            && r.mangle == n.mangle
            && ChainDeletesSucceed(NetOf(mid, f).mangle, StopOps(f))
            && (r == n <==> Restorable(n, f, p, NatAppended(p, f, i)))
  {
    MangleRestored(base, p, f, i);
    RoutingPart(base, p, f, i);
    NatPart(base, p, f, i);
    var mid := ExecuteAll(base, StartScript(p)[..i]);
    SameNet(NetOf(base, f), NetOf(ExecuteAll(mid, StopScript(p)), f));
  }

  lemma SameNet(n: Net, r: Net)
    ensures r == n <==> r.mangle == n.mangle && r.natTable == n.natTable && r.rules == n.rules && r.routes == n.routes
  {
  }

  lemma MangleRestored(base: Kernel, p: Params, f: Family, i: nat)
    requires KernelBase(base) && i <= |StartScript(p)|
    ensures var mid := ExecuteAll(base, StartScript(p)[..i]);
            && NetOf(ExecuteAll(mid, StopScript(p)), f).mangle == NetOf(base, f).mangle
            && ChainDeletesSucceed(NetOf(mid, f).mangle, StopOps(f))
  {
    var mid := ExecuteAll(base, StartScript(p)[..i]);
    var s := StartedShape(base, p, f, i);
    StopFromSafe(NetOf(base, f).mangle, s, FullShape(f, p), f);
    Effect(mid, f, StopScript(p));
    ViewOfStop(f, p);
  }

  lemma NatPart(base: Kernel, p: Params, f: Family, i: nat)
    requires KernelBase(base) && i <= |StartScript(p)|
    ensures var mid := ExecuteAll(base, StartScript(p)[..i]);
            NetOf(ExecuteAll(mid, StopScript(p)), f).natTable == NetOf(base, f).natTable <==>
            NatFree(NetOf(base, f), f, NatAppended(p, f, i))
  {
    var mid := ExecuteAll(base, StartScript(p)[..i]);
    Effect(base, f, StartScript(p)[..i]);
    NatProgress(p, f, i);
    Effect(mid, f, StopScript(p));
    ViewOfStop(f, p);
    NatRestored(NetOf(base, f), f, NatAppended(p, f, i));
  }

  lemma RoutingPart(base: Kernel, p: Params, f: Family, i: nat)
    requires KernelBase(base) && i <= |StartScript(p)|
    ensures var mid := ExecuteAll(base, StartScript(p)[..i]);
            var n, r := NetOf(base, f), NetOf(ExecuteAll(mid, StopScript(p)), f);
            (r.rules == n.rules <==> RulesFree(n, p)) && (r.routes == n.routes <==> RoutesFree(n, p))
  {
    var script, n := StartScript(p)[..i], NetOf(base, f);
    var mid := ExecuteAll(base, script);
    var acts := ViewOf(f, script).routing;
    Effect(base, f, script);
    PrefixView(f, StartScript(p), i);
    ViewOfStart(f, p);
    assert acts == StartRouting(p)[..|acts|];
    Effect(mid, f, StopScript(p));
    ViewOfStop(f, p);
    RoutingRestored(n, p, |acts|);
    RoutingDependsOnlyOnRouting(NetOf(mid, f), Acts(n, acts), UndoRouting(p));
  }

  lemma {:induction false} RoutingDependsOnlyOnRouting(n: Net, m: Net, s: seq<Action>)
    requires n.rules == m.rules && n.routes == m.routes
    ensures Acts(n, s).rules == Acts(m, s).rules && Acts(n, s).routes == Acts(m, s).routes
  {
    ProjectRouting(n, m, s);
    ProjectRouting(m, m, s);
  }

  /** The base already has what the first two commands add, as far as they got. */
  ghost predicate NothingNew(n: Net, p: Params, i: nat)
  {
    i == 0 || (TproxyRule(p) in n.rules && (i == 1 || LocalDefault in RoutesIn(n.routes, p.tableTproxy)))
  }

  /**
   Interrupted start. Once three commands have run, stop restores both mangle tables whatever
   the parameters, no chain deletion fails, and the whole kernel state comes back exactly when
   the base is restorable. Before that stop refuses to act, so the base is there exactly when
   the commands so far changed nothing.
   */
  lemma InterruptedStart(base: Kernel, p: Params, i: nat)
    requires KernelBase(base) && i <= |StartScript(p)|
    ensures var mid := ExecuteAll(base, StartScript(p)[..i]);
            var r := StopResult(mid, p);
            && (i >= 3 ==>
                  && r.v4.mangle == base.v4.mangle && r.v6.mangle == base.v6.mangle
                  && ChainDeletesSucceed(mid.v4.mangle, StopOps(V4)) && ChainDeletesSucceed(mid.v6.mangle, StopOps(V6))
                  && (r == base <==> Restorable(base.v4, V4, p, NatAppended(p, V4, i))
                                     && Restorable(base.v6, V6, p, NatAppended(p, V6, i))))
            && (i < 3 ==> r == mid && (r == base <==> NothingNew(base.v4, p, i)))
  {
    GuardProgress(base, p, i);
    FamilyRestored(base, p, V4, i);
    FamilyRestored(base, p, V6, i);
    if i < 3 {
      UnguardedStart(base, p, i);
    }
  }

  lemma UnguardedStart(base: Kernel, p: Params, i: nat)
    requires i < 3 && i <= |StartScript(p)|
    ensures ExecuteAll(base, StartScript(p)[..i]) == base <==> NothingNew(base.v4, p, i)
  {
    var script := StartScript(p)[..i];
    var add, route := RuleAdd(p.fwmarkTproxy, p.tableTproxy), RouteAdd(p.tableTproxy);
    StartBegins(p);
    assert script == StartScript(p)[..3][..i];
    assert script == [Command(V4, add), Command(V4, route)][..i];
    ExecuteFirstTwo(base, add, route, i);
    RuleAddChanges(base.v4, p.fwmarkTproxy, p.tableTproxy);
    RouteAddChanges(Act(base.v4, add), p.tableTproxy);
  }

  lemma ExecuteFirstTwo(k: Kernel, a: Action, b: Action, i: nat)
    requires i <= 2
    ensures ExecuteAll(k, [Command(V4, a), Command(V4, b)][..i]) ==
            k.(v4 := if i == 0 then k.v4 else if i == 1 then Act(k.v4, a) else Act(Act(k.v4, a), b))
  {
    var c, d := Command(V4, a), Command(V4, b);
    assert [c, d][..0] == [] && [c, d][..1] == [c] && [c, d][..2] == [c] + [d];
    assert [c][1..] == [] && [d][1..] == [];
    ExecuteAllConcat(k, [c], [d]);
  }

  lemma RuleAddChanges(n: Net, mark: int, table: int)
    ensures Act(n, RuleAdd(mark, table)) == n <==> IpRule(Some(mark), table) in n.rules
    ensures Act(n, RuleAdd(mark, table)).routes == n.routes
    ensures IpRule(Some(mark), table) in Act(n, RuleAdd(mark, table)).rules
  {
    AddedIsPresent(n.rules, IpRule(Some(mark), table));
  }

  lemma RouteAddChanges(n: Net, table: int)
    ensures Act(n, RouteAdd(table)) == n <==> LocalDefault in RoutesIn(n.routes, table)
    ensures Act(n, RouteAdd(table)).rules == n.rules
  {
    var s := RoutesIn(n.routes, table);
    assert LocalDefault in s + [LocalDefault];
    assert LocalDefault in RoutesIn(n.routes[table := s + [LocalDefault]], table);
  }

  lemma AddedIsPresent(rules: seq<IpRule>, r: IpRule)
    ensures r in AddRule(rules, r)
    ensures forall x :: x in rules ==> x in AddRule(rules, r)
  {
    InsertCounts(rules, r);
    assert forall x :: x in AddRule(rules, r) <==> multiset(AddRule(rules, r))[x] > 0;
    assert forall x :: x in rules <==> multiset(rules)[x] > 0;
  }

  lemma RemoveKeepsOthers<T>(s: seq<T>, x: T, y: T)
    requires x in s && x != y
    ensures x in RemoveFirst(s, y)
  {
    RemoveFirstCounts(s, y);
    assert multiset(RemoveFirst(s, y))[x] > 0;
  }

  /** What the base must not contain for stop to undo a complete start. */
  ghost predicate Undoable(base: Kernel, p: Params)
    requires KernelBase(base)
  {
    Restorable(base.v4, V4, p, p.enableGateway) && Restorable(base.v6, V6, p, p.enableGateway)
  }

  /** Stop is the inverse of a complete start exactly on such a base. */
  lemma StopUndoesCompleteStart(base: Kernel, p: Params)
    requires KernelBase(base)
    ensures StopResult(StartResult(base, p), p) == base <==> Undoable(base, p)
  {
    var n := |StartScript(p)|;
    StartBegins(p);
    assert StartScript(p)[..n] == StartScript(p);
    InterruptedStart(base, p, n);
    GatewayAppended(p, V4);
    GatewayAppended(p, V6);
  }

  lemma GatewayAppended(p: Params, f: Family)
    ensures NatAppended(p, f, |StartScript(p)|) <==> p.enableGateway
  {
    assert StartScript(p)[..|StartScript(p)|] == StartScript(p);
    NatOpsMember(f, StartScript(p), Append(POSTROUTING, MasqueradeRule(f)));
    ViewOfStart(f, p);
  }

  /** Sufficient for every interruption point: the script's rules, tables and marks are unused. */
  ghost predicate Unused(base: Kernel, p: Params)
  {
    && KernelBase(base)
    && RulesFree(base.v4, p) && RoutesFree(base.v4, p)
    && RulesFree(base.v6, p) && RoutesFree(base.v6, p)
    && MasqueradeRule(V4) !in base.v4.natTable[POSTROUTING]
    && MasqueradeRule(V6) !in base.v6.natTable[POSTROUTING]
  }

  /** On such a base stop is the inverse of every start that got as far as TPROXY_ENT. */
  lemma StopUndoesStart(base: Kernel, p: Params, i: nat)
    requires Unused(base, p) && 3 <= i <= |StartScript(p)|
    ensures StopResult(ExecuteAll(base, StartScript(p)[..i]), p) == base
  {
    InterruptedStart(base, p, i);
  }

  /**
   Why stop must run under the variables of the start it undoes: after a stop with other marks
   or tables the policy rule of the first start is still there.
   */
  lemma StopUnderOtherVariablesLeaks(base: Kernel, p: Params, q: Params)
    requires Unused(base, p)
    requires TproxyRule(p) != TproxyRule(q) && TproxyRule(p) != RerouteRule(q)
    ensures TproxyRule(p) in StopResult(StartResult(base, p), q).v4.rules
  {
    var k := StartResult(base, p);
    StartedRule(base, p, V4);
    StopRules(k, q);
    RemoveKeepsOthers(k.v4.rules, TproxyRule(p), TproxyRule(q));
    RemoveKeepsOthers(RemoveFirst(k.v4.rules, TproxyRule(q)), TproxyRule(p), RerouteRule(q));
  }

  /** What a complete start adds to the routing of each family, whatever was there before. */
  lemma StartedRule(base: Kernel, p: Params, f: Family)
    ensures var n := NetOf(StartResult(base, p), f);
            && TproxyRule(p) in n.rules && LocalDefault in RoutesIn(n.routes, p.tableTproxy)
            && (p.fwmarkReroute != p.fwmarkTproxy ==>
                  RerouteRule(p) in n.rules && LocalDefault in RoutesIn(n.routes, p.tableReroute))
  {
    var n, routing := NetOf(base, f), StartRouting(p);
    var a, b := RuleAdd(p.fwmarkTproxy, p.tableTproxy), RouteAdd(p.tableTproxy);
    var n2 := Act(Act(n, a), b);
    Effect(base, f, StartScript(p));
    ViewOfStart(f, p);
    PairAdds(n, p.fwmarkTproxy, p.tableTproxy);
    if p.fwmarkReroute != p.fwmarkTproxy {
      assert routing == [a, b, RuleAdd(p.fwmarkReroute, p.tableReroute), RouteAdd(p.tableReroute)];
      ActsOfFour(n, a, b, RuleAdd(p.fwmarkReroute, p.tableReroute), RouteAdd(p.tableReroute));
      PairAdds(n2, p.fwmarkReroute, p.tableReroute);
    } else {
      assert routing == [a, b];
      ActsOfTwo(n, a, b);
    }
  }

  /** One rule and its route are added, and nothing is lost. */
  lemma PairAdds(n: Net, mark: int, table: int)
    ensures var m := Act(Act(n, RuleAdd(mark, table)), RouteAdd(table));
            && IpRule(Some(mark), table) in m.rules && LocalDefault in RoutesIn(m.routes, table)
            && (forall r :: r in n.rules ==> r in m.rules)
            && (forall t :: LocalDefault in RoutesIn(n.routes, t) ==> LocalDefault in RoutesIn(m.routes, t))
  {
    AddedIsPresent(n.rules, IpRule(Some(mark), table));
    var m := Act(n, RuleAdd(mark, table));
    assert LocalDefault in RoutesIn(m.routes, table) + [LocalDefault];
  }

  lemma StopRules(k: Kernel, q: Params)
    ensures ExecuteAll(k, StopScript(q)).v4.rules == RemoveFirst(RemoveFirst(k.v4.rules, TproxyRule(q)), RerouteRule(q))
  {
    Effect(k, V4, StopScript(q));
    ViewOfStop(V4, q);
    UndoEffect(k.v4, q);
  }
}
