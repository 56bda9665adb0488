/**
 Whole journeys while the script is at work: the built-in chains, the policy rules and the
 routing tables of an intermediate state taken together.
 */
module Interruption {
  import opened Prelude
  import opened Netfilter
  import opened TproxyScript
  import opened Teardown
  import opened PacketPolicy
  import opened Visibility
  import opened Recovery
  import opened Diversion

  // ---- How far start got -----------------------------------------------------------------------------

  const OUT_HOOK := Append(OUTPUT, HOOK_OUT)

  /** Start was interrupted after it had hooked OUTPUT of this family. */
  predicate OutAppended(p: Params, f: Family, i: nat)
    requires i <= |StartScript(p)|
  {
    Command(f, Mangle(OUT_HOOK)) in StartScript(p)[..i]
  }

  lemma {:induction false} MangleOpsMember(f: Family, s: seq<Command>, op: TableOp)
    ensures op in ViewOf(f, s).mangle <==> Command(f, Mangle(op)) in s
    decreases |s|
  {
    if s != [] {
      assert s == [s[0]] + s[1..];
      MangleOpsMember(f, s[1..], op);
      ViewConcat(f, [s[0]], s[1..]);
      ViewOfOne(f, s[0]);
    }
  }

  lemma BlocksDoNotHook(f: Family, p: Params)
    ensures OUT_HOOK !in PreroutingOps(f, p)
    ensures OUT_HOOK !in Block(TPROXY_MARK, MarkRules(p)) + Block(TPROXY_OUT, OutRules(p))
  {
  }

  /** Hooking OUTPUT is the last mangle command of a family. */
  lemma HookComesLast(f: Family, p: Params, m: nat)
    requires m <= |StartMangle(f, p)|
    ensures OUT_HOOK in StartMangle(f, p)[..m] <==> Enabled(f, p) && m == |StartMangle(f, p)|
  {
    var ops, hook := StartMangle(f, p), When(Enabled(f, p), [OUT_HOOK]);
    var before := PreroutingOps(f, p) + (Block(TPROXY_MARK, MarkRules(p)) + Block(TPROXY_OUT, OutRules(p)));
    BlocksDoNotHook(f, p);
    assert ops == before + hook;
    assert OUT_HOOK !in before;
    if m <= |before| {
      assert ops[..m] == before[..m];
    } else {
      assert ops[..m] == before + hook;
    }
  }

  /** StartFamily without its second group of chains. */
  function RoutedFamily(f: Family, p: Params): (s: seq<Command>)
  {
    RouteSetup(f, p.fwmarkTproxy, p.tableTproxy)
    + OnMangle(f, PreroutingOps(f, p))
    + When(p.fwmarkReroute != p.fwmarkTproxy, RouteSetup(f, p.fwmarkReroute, p.tableReroute))
  }

  /** The commands up to the end of the routing set-up of a family. */
  function RoutedBy(f: Family, p: Params): (s: seq<Command>)
  {
    When(f == V6, StartFamily(V4, p)) + RoutedFamily(f, p)
  }

  lemma FamilyContinues(f: Family, p: Params)
    ensures StartFamily(f, p) == RoutedFamily(f, p) + OnMangle(f, OutputOps(f, p))
  {
  }

  lemma StartContinues(f: Family, p: Params) returns (rest: seq<Command>)
    ensures StartScript(p) == RoutedBy(f, p) + rest
  {
    var out := OnMangle(f, OutputOps(f, p));
    FamilyContinues(f, p);
    if f == V4 {
      rest := out + StartFamily(V6, p) + StartGateway(p);
      SplitFirst(RoutedFamily(f, p), out, StartFamily(V6, p), StartGateway(p));
    } else {
      rest := out + StartGateway(p);
      SplitSecond(StartFamily(V4, p), RoutedFamily(f, p), out, StartGateway(p));
    }
  }

  lemma SplitFirst<T>(a: seq<T>, b: seq<T>, c: seq<T>, d: seq<T>)
    ensures (a + b) + c + d == ([] + a) + (b + c + d)
  {
  }

  lemma SplitSecond<T>(a: seq<T>, b: seq<T>, c: seq<T>, d: seq<T>)
    ensures a + (b + c) + d == (a + b) + (c + d)
  {
  }

  lemma RoutedByView(f: Family, p: Params)
    ensures ViewOf(f, RoutedBy(f, p)) == View(PreroutingOps(f, p), [], StartRouting(p))
  {
    var differ := p.fwmarkReroute != p.fwmarkTproxy;
    var first, setup := RouteSetup(f, p.fwmarkTproxy, p.tableTproxy), RouteSetup(f, p.fwmarkReroute, p.tableReroute);
    var second := [RuleAdd(p.fwmarkReroute, p.tableReroute), RouteAdd(p.tableReroute)];
    var mine := RoutedFamily(f, p);
    ViewOfRouteSetup(f, f, p.fwmarkTproxy, p.tableTproxy);
    ViewOfRouteSetup(f, f, p.fwmarkReroute, p.tableReroute);
    ViewOfNothing(f);
    ViewOfLayers(f, f, first, PreroutingOps(f, p), When(differ, setup), [],
                 [RuleAdd(p.fwmarkTproxy, p.tableTproxy), RouteAdd(p.tableTproxy)], When(differ, second));
    assert OnMangle(f, []) == [] && mine + [] == mine && PreroutingOps(f, p) + [] == PreroutingOps(f, p);
    ViewConcat(f, When(f == V6, StartFamily(V4, p)), mine);
    ViewOfStartFamily(f, V4, p);
  }

  /** Once OUTPUT is hooked the family's chains and its routing are complete. */
  lemma HookedMeansComplete(f: Family, p: Params, i: nat)
    requires i <= |StartScript(p)|
    ensures OutAppended(p, f, i) <==> Enabled(f, p) && ViewOf(f, StartScript(p)[..i]).mangle == StartMangle(f, p)
    ensures OutAppended(p, f, i) ==> ViewOf(f, StartScript(p)[..i]).routing == StartRouting(p)
  {
    var script := StartScript(p);
    var v := ViewOf(f, script[..i]);
    PrefixView(f, script, i);
    ViewOfStart(f, p);
    assert v.mangle == StartMangle(f, p)[..|v.mangle|];
    HookComesLast(f, p, |v.mangle|);
    MangleOpsMember(f, script[..i], OUT_HOOK);
    if OutAppended(p, f, i) {
      RoutingBeforeHook(f, p, i);
    }
  }

  lemma RoutingBeforeHook(f: Family, p: Params, i: nat)
    requires i <= |StartScript(p)| && OUT_HOOK in ViewOf(f, StartScript(p)[..i]).mangle
    ensures ViewOf(f, StartScript(p)[..i]).routing == StartRouting(p)
  {
    var rest := StartContinues(f, p);
    RoutedByView(f, p);
    BlocksDoNotHook(f, p);
    PastTheFirstPart(f, StartScript(p), RoutedBy(f, p), rest, i, OUT_HOOK);
    PrefixView(f, StartScript(p), i);
    ViewOfStart(f, p);
  }

  /** A prefix that shows a command which `x` lacks goes beyond `x`. */
  lemma PastTheFirstPart(f: Family, s: seq<Command>, x: seq<Command>, rest: seq<Command>, i: nat, op: TableOp)
    requires s == x + rest && i <= |s|
    requires op !in ViewOf(f, x).mangle && op in ViewOf(f, s[..i]).mangle
    ensures ViewOf(f, x).routing <= ViewOf(f, s[..i]).routing
  {
    if i <= |x| {
      assert s[..i] == x[..i];
      PrefixView(f, x, i);
      assert false;
    }
    assert s[..i][..|x|] == x;
    PrefixView(f, s[..i], |x|);
  }

  // ---- How far stop got ------------------------------------------------------------------------------

  /** How many of a family's ten mangle commands are among the first `j` commands of stop. */
  function StopSeen(f: Family, j: nat): (n: nat)
  {
    var first := if f == V4 then 0 else 14;
    if j <= first then 0 else if j <= first + 10 then j - first else 10
  }

  lemma OnMangleTake(f: Family, ops: seq<TableOp>, n: nat)
    requires n <= |ops|
    ensures OnMangle(f, ops)[..n] == OnMangle(f, ops[..n])
  {
  }

  /** The commands of stop that come before the family's own. */
  function StopBefore(f: Family, p: Params): (s: seq<Command>)
  {
    When(f == V6, StopFamily(V4, p))
  }

  lemma StopBegins(f: Family, p: Params, j: nat)
    requires j <= |StopScript(p)| && StopSeen(f, j) < 10
    ensures |StopOps(f)| == 10
    ensures StopScript(p)[..j] ==
            StopBefore(f, p)[..if j <= |StopBefore(f, p)| then j else |StopBefore(f, p)|]
            + OnMangle(f, StopOps(f))[..StopSeen(f, j)]
  {
    assert |StopFamily(V4, p)| == 14;
  }

  lemma StopContinues(f: Family, p: Params, j: nat) returns (rest: seq<Command>)
    requires j <= |StopScript(p)| && StopSeen(f, j) == 10
    ensures StopScript(p)[..j] == StopBefore(f, p) + OnMangle(f, StopOps(f)) + rest
  {
    var done := StopBefore(f, p) + OnMangle(f, StopOps(f));
    assert |StopFamily(V4, p)| == 14 && |OnMangle(f, StopOps(f))| == 10;
    rest := StopScript(p)[|done|..j];
    assert done <= StopScript(p);
  }

  /** What the first `j` commands of stop do to a family, while they do not yet touch its routing. */
  lemma StopProgress(f: Family, p: Params, j: nat)
    requires j <= |StopScript(p)|
    ensures StopSeen(f, j) <= 10 == |StopOps(f)|
    ensures ViewOf(f, StopScript(p)[..j]).mangle == StopOps(f)[..StopSeen(f, j)]
    ensures StopSeen(f, j) < 10 ==> ViewOf(f, StopScript(p)[..j]).routing == []
  {
    var n, before, mine := StopSeen(f, j), StopBefore(f, p), OnMangle(f, StopOps(f));
    ViewOfNothing(f);
    ViewOfStopFamily(f, V4, p);
    assert ViewOf(f, before) == NO_VIEW;
    if n < 10 {
      var m := if j <= |before| then j else |before|;
      StopBegins(f, p, j);
      PrefixView(f, before, m);
      OnMangleTake(f, StopOps(f), n);
      ViewOfMangle(f, f, StopOps(f)[..n]);
      ViewConcat(f, before[..m], OnMangle(f, StopOps(f)[..n]));
    } else {
      var rest := StopContinues(f, p, j);
      ViewConcat(f, before + mine, rest);
      ViewConcat(f, before, mine);
      ViewOfMangle(f, f, StopOps(f));
      PrefixView(f, StopScript(p), j);
      ViewOfStop(f, p);
      assert StopOps(f)[..10] == StopOps(f);
    }
  }

  // ---- The shape and the routing of an intermediate state ----------------------------------------------

  /** OUTPUT is hooked from the end of start's chains to the second command of stop. */
  predicate OutHookOn(p: Params, f: Family, i: nat, j: nat)
    requires i <= |StartScript(p)|
  {
    OutAppended(p, f, i) && StopSeen(f, j) < 2
  }

  lemma HooksMidway(base: Kernel, p: Params, f: Family, i: nat, j: nat) returns (s: Shape)
    requires KernelBase(base) && i <= |StartScript(p)| && j <= |StopScript(p)|
    ensures NetOf(Midway(base, p, i, j), f).mangle == Realize(NetOf(base, f).mangle, s)
    ensures Safe(s, FullShape(f, p))
    ensures s.outHooked <==> OutHookOn(p, f, i, j)
    ensures s.outHooked ==> (s.preHooked <==> StopSeen(f, j) == 0)
  {
    var mid := ExecuteAll(base, StartScript(p)[..i]);
    var s0 := StartedShape(base, p, f, i);
    HookedMeansComplete(f, p, i);
    StopProgress(f, p, j);
    Effect(mid, f, StopScript(p)[..j]);
    StopReaches(NetOf(base, f).mangle, s0, f, StopSeen(f, j));
    StopShapeSafe(s0, FullShape(f, p), f, StopSeen(f, j));
    s := StopShape(s0, f, StopSeen(f, j));
  }

  predicate OwnAction(p: Params, a: Action)
  {
    match a
    case RuleAdd(m, t) => IpRule(Some(m), t) == TproxyRule(p) || IpRule(Some(m), t) == RerouteRule(p)
    case RuleDelete(m, t) => IpRule(Some(m), t) == TproxyRule(p) || IpRule(Some(m), t) == RerouteRule(p)
    case RouteAdd(t) => t == p.tableTproxy || t == p.tableReroute
    case RouteFlush(t) => t == p.tableTproxy || t == p.tableReroute
    case _ => false
  }

  lemma OwnActionKeepsForeign(m: Net, n: Net, p: Params, a: Action)
    requires SameForeignRouting(m, n, p) && OwnAction(p, a)
    ensures SameForeignRouting(Act(m, a), n, p)
  {
    var own := {p.tableTproxy, p.tableReroute};
    match a
    case RuleAdd(mark, t) => ForeignInserted(m.rules, IpRule(Some(mark), t), p);
    case RuleDelete(mark, t) => ForeignRemoved(m.rules, IpRule(Some(mark), t), p);
    case RouteAdd(t) => assert Act(m, a).routes - own == m.routes - own;
    case RouteFlush(t) => assert Act(m, a).routes - own == m.routes - own;
    case _ =>
  }

  lemma {:induction false} OwnActionsKeepForeign(m: Net, n: Net, p: Params, s: seq<Action>)
    requires SameForeignRouting(m, n, p) && forall i :: 0 <= i < |s| ==> OwnAction(p, s[i])
    ensures SameForeignRouting(Acts(m, s), n, p)
    decreases |s|
  {
    if s != [] {
      OwnActionKeepsForeign(m, n, p, s[0]);
      OwnActionsKeepForeign(Act(m, s[0]), n, p, s[1..]);
    }
  }

  lemma StopKeepsForeign(k: Kernel, n: Net, p: Params, f: Family, j: nat)
    requires SameForeignRouting(NetOf(k, f), n, p) && j <= |StopScript(p)|
    ensures SameForeignRouting(NetOf(ExecuteAll(k, StopScript(p)[..j]), f), n, p)
  {
    var undo := ViewOf(f, StopScript(p)[..j]).routing;
    Effect(k, f, StopScript(p)[..j]);
    PrefixView(f, StopScript(p), j);
    ViewOfStop(f, p);
    assert undo == UndoRouting(p)[..|undo|];
    OwnActionsKeepForeign(NetOf(k, f), n, p, undo);
  }

  lemma StartKeepsForeign(base: Kernel, p: Params, f: Family, i: nat)
    requires RulesFree(NetOf(base, f), p) && i <= |StartScript(p)|
    ensures SameForeignRouting(NetOf(ExecuteAll(base, StartScript(p)[..i]), f), NetOf(base, f), p)
  {
    var n, acts := NetOf(base, f), ViewOf(f, StartScript(p)[..i]).routing;
    Effect(base, f, StartScript(p)[..i]);
    PrefixView(f, StartScript(p), i);
    ViewOfStart(f, p);
    assert acts == StartRouting(p)[..|acts|];
    AllForeign(n.rules, p);
    OwnActionsKeepForeign(n, n, p, acts);
  }

  /** Nobody else's rules and tables are touched at any moment. */
  lemma ForeignRoutingMidway(base: Kernel, p: Params, f: Family, i: nat, j: nat)
    requires RulesFree(NetOf(base, f), p) && i <= |StartScript(p)| && j <= |StopScript(p)|
    ensures SameForeignRouting(NetOf(Midway(base, p, i, j), f), NetOf(base, f), p)
  {
    StartKeepsForeign(base, p, f, i);
    StopKeepsForeign(ExecuteAll(base, StartScript(p)[..i]), NetOf(base, f), p, f, j);
  }

  /** While OUTPUT is hooked the routing is that of the complete start. */
  lemma RoutingWhileHooked(base: Kernel, p: Params, f: Family, i: nat, j: nat)
    requires i <= |StartScript(p)| && j <= |StopScript(p)| && OutHookOn(p, f, i, j)
    ensures var m, full := NetOf(Midway(base, p, i, j), f), NetOf(StartResult(base, p), f);
            m.rules == full.rules && m.routes == full.routes
  {
    HookedMeansComplete(f, p, i);
    StopProgress(f, p, j);
    Effect(base, f, StartScript(p)[..i]);
    Effect(base, f, StartScript(p));
    ViewOfStart(f, p);
    Effect(ExecuteAll(base, StartScript(p)[..i]), f, StopScript(p)[..j]);
  }

  // ---- Journeys --------------------------------------------------------------------------------------

  /** Stop has unhooked PREROUTING of a family and not yet OUTPUT. */
  predicate Exposed(p: Params, f: Family, i: nat, j: nat)
    requires i <= |StartScript(p)|
  {
    OutAppended(p, f, i) && j == (if f == V4 then 1 else 15)
  }

  /** While OUTPUT is hooked it marks as after a complete start. */
  lemma HookedDeparture(base: Kernel, p: Params, f: Family, i: nat, j: nat, s: Shape, k: Packet, fuel: nat)
    requires KernelBase(base) && fuel >= 2 && EvalChain(NetOf(base, f).mangle, OUTPUT, k, fuel) == Fell(k)
    requires i <= |StartScript(p)| && j <= |StopScript(p)| && OutHookOn(p, f, i, j)
    requires NetOf(Midway(base, p, i, j), f).mangle == Realize(NetOf(base, f).mangle, s)
    requires Safe(s, FullShape(f, p)) && s.outHooked
    ensures Journey(NetOf(Midway(base, p, i, j), f), k, fuel) ==
            Departure(NetOf(Midway(base, p, i, j), f), MarkIf(OutgoingDiverted(p, k), k, p.fwmarkReroute), fuel)
  {
    StartedMangle(base, p, f);
    HookedBehavesAsFull(NetOf(base, f).mangle, s, FullShape(f, p), OUTPUT, k, fuel);
    CompleteOutput(base, p, f, k, fuel);
  }

  lemma MarkedIsRoutedLocally(base: Kernel, p: Params, f: Family, k: Packet)
    requires RulesFree(NetOf(base, f), p) && RoutesFree(NetOf(base, f), p) && TablesPrivate(NetOf(base, f), p)
    requires FirstRuleAside(NetOf(base, f), k) && (k.mark == p.fwmarkReroute || k.mark == p.fwmarkTproxy)
    ensures RoutedLocally(NetOf(StartResult(base, p), f), k)
  {
    StartedRouting(base, p, f);
    MarkedLoopsBack(NetOf(base, f), p, k);
  }

  /** With OUTPUT hooked only the PREROUTING hook makes a difference to a packet for the proxy. */
  lemma HookedArrival(base: Kernel, p: Params, f: Family, i: nat, j: nat, s: Shape, k: Packet, fuel: nat)
    requires KernelBase(base) && fuel >= 2 && EvalChain(NetOf(base, f).mangle, PREROUTING, k, fuel) == Fell(k)
    requires RulesFree(NetOf(base, f), p) && RoutesFree(NetOf(base, f), p) && TablesPrivate(NetOf(base, f), p)
    requires FirstRuleAside(NetOf(base, f), k) && k.mark == p.fwmarkReroute && IncomingDiverted(p, k)
    requires i <= |StartScript(p)| && j <= |StopScript(p)| && OutHookOn(p, f, i, j)
    requires NetOf(Midway(base, p, i, j), f).mangle == Realize(NetOf(base, f).mangle, s)
    requires Safe(s, FullShape(f, p))
    ensures Departure(NetOf(Midway(base, p, i, j), f), k, fuel) ==
            if s.preHooked then Delivered(ProxyVerdict(f, p, k), k.(mark := p.fwmarkTproxy)) else Uncaught(k)
  {
    RoutingWhileHooked(base, p, f, i, j);
    MarkedIsRoutedLocally(base, p, f, k);
    AsideIgnoresMark(NetOf(base, f), k, p.fwmarkTproxy);
    MarkedIsRoutedLocally(base, p, f, k.(mark := p.fwmarkTproxy));
    HookedPreroutingMidway(base, p, f, NetOf(Midway(base, p, i, j), f).mangle, s, k, fuel);
  }

  lemma HookedPreroutingMidway(base: Kernel, p: Params, f: Family, t: Table, s: Shape, k: Packet, fuel: nat)
    requires KernelBase(base) && fuel >= 2 && EvalChain(NetOf(base, f).mangle, PREROUTING, k, fuel) == Fell(k)
    requires IncomingDiverted(p, k) && t == Realize(NetOf(base, f).mangle, s) && Safe(s, FullShape(f, p))
    ensures EvalChain(t, PREROUTING, k, fuel) ==
            if s.preHooked then Final(ProxyVerdict(f, p, k), k.(mark := p.fwmarkTproxy)) else Fell(k)
  {
    if s.preHooked {
      StartedMangle(base, p, f);
      HookedBehavesAsFull(NetOf(base, f).mangle, s, FullShape(f, p), PREROUTING, k, fuel);
      CompletePrerouting(base, p, f, k, fuel);
    } else {
      UnhookedBehavesAsBase(NetOf(base, f).mangle, s, PREROUTING, k, fuel);
    }
  }

  /**
   The journeys of an intermediate state. A locally generated packet travels as in the base or
   as after a complete start, unless stop has just taken the PREROUTING hook away and the
   packet is one for the proxy: that one is still looped back, and nobody takes it.
   */
  lemma JourneyMidway(base: Kernel, p: Params, f: Family, i: nat, j: nat, k: Packet, fuel: nat)
    requires Unused(base, p) && fuel >= 2 && LocallyGenerated(p, k)
    requires TablesPrivate(NetOf(base, f), p) && BaseLetsThrough(NetOf(base, f), p, k, fuel)
    requires i <= |StartScript(p)| && j <= |StopScript(p)|
    ensures var fate := Journey(NetOf(Midway(base, p, i, j), f), k, fuel);
            var before := Journey(NetOf(base, f), k, fuel);
            var complete := Journey(NetOf(StartResult(base, p), f), k, fuel);
            && (fate == before || fate == complete <==> !(Exposed(p, f, i, j) && OutgoingDiverted(p, k)))
            && (Exposed(p, f, i, j) && OutgoingDiverted(p, k) ==> fate == Uncaught(k.(mark := p.fwmarkReroute)))
  {
    FateMidway(base, p, f, i, j, k, fuel);
    EndToEnd(base, p, f, k, fuel);
    HookedMeansComplete(f, p, i);
  }

  /** The fate at every intermediate state. */
  lemma FateMidway(base: Kernel, p: Params, f: Family, i: nat, j: nat, k: Packet, fuel: nat)
    requires Unused(base, p) && fuel >= 2 && LocallyGenerated(p, k)
    requires TablesPrivate(NetOf(base, f), p) && BaseLetsThrough(NetOf(base, f), p, k, fuel)
    requires i <= |StartScript(p)| && j <= |StopScript(p)|
    ensures Journey(NetOf(Midway(base, p, i, j), f), k, fuel) ==
            if !OutHookOn(p, f, i, j) || !OutgoingDiverted(p, k) then SentAway(k)
            else if StopSeen(f, j) == 0 then Delivered(ProxyVerdict(f, p, k), k.(mark := p.fwmarkTproxy))
            else Uncaught(k.(mark := p.fwmarkReroute))
  {
    var n, m := NetOf(base, f), NetOf(Midway(base, p, i, j), f);
    var s := HooksMidway(base, p, f, i, j);
    if !s.outHooked {
      UnhookedBehavesAsBase(n.mangle, s, OUTPUT, k, fuel);
    } else {
      HookedDeparture(base, p, f, i, j, s, k, fuel);
    }
    if s.outHooked && OutgoingDiverted(p, k) {
      PolicyIgnoresMark({}, p, k, p.fwmarkReroute);
      HookedArrival(base, p, f, i, j, s, k.(mark := p.fwmarkReroute), fuel);
    } else {
      ForeignRoutingMidway(base, p, f, i, j);
      UnmarkedSeesForeign(m, n, p, k);
    }
  }
}
