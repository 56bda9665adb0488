/**
 The part of the kernel that cgroup-tproxy.sh edits: netfilter tables, policy-routing rules
 and routing tables, one set for each address family; and how a packet traverses a chain.
 */
module Netfilter {
  import opened Prelude
  import opened CgroupPath

  // ---- Packets and rules ---------------------------------------------------------------------

  datatype Proto = Tcp | Udp | OtherProto

  /**
   Only what the rules can observe. `cgroup` is the tree position of the owning socket, None
   for forwarded traffic; `foreign` are the matches of rules that other programs installed and
   `covering` the foreign routes that lead to its destination.
   */
  datatype Packet = Packet(
    mark: int,
    proto: Proto,
    dport: nat,
    dstLocal: bool,
    dstUnicast: bool,
    srcLocal: bool,
    srcPrivate: bool,
    hasSocket: bool,
    reply: bool,
    cgroup: Option<seq<string>>,
    foreign: set<nat>,
    covering: set<nat>)

  datatype Match =
    | Any
    | DstLocal
    | DstNotUnicast
    | SrcNotLocal
    | HasSocket
    | Protocol(proto: Proto)
    | UdpTo(dport: nat)
    | ReplyDirection
    | InCgroup(path: string)
    | NoOwnerSocket(onlyPrivate: bool)
    | MarkIs(mark: int)
    | Foreign(id: nat)

  /** Built-in chains, the four chains of the script, and everybody else's. */
  datatype Chain =
    | PREROUTING | INPUT | FORWARD | OUTPUT | POSTROUTING
    | TPROXY_ENT | TPROXY_PRE | TPROXY_MARK | TPROXY_OUT
    | Other(name: string)

  predicate Builtin(c: Chain)
  {
    c.PREROUTING? || c.INPUT? || c.FORWARD? || c.OUTPUT? || c.POSTROUTING?
  }

  datatype Target =
    | Return
    | Jump(chain: Chain)
    | SetMark(mark: int)
    | Accept
    | Tproxy(onIp: string, onPort: int, mark: int)
    | Masquerade
    | Drop
    | Log

  datatype Rule = Rule(cond: Match, target: Target)

  predicate Matches(m: Match, p: Packet)
  {
    match m
    case Any => true
    case DstLocal => p.dstLocal
    case DstNotUnicast => !p.dstUnicast
    case SrcNotLocal => !p.srcLocal
    case HasSocket => p.hasSocket
    case Protocol(proto) => p.proto == proto
    case UdpTo(dport) => p.proto == Udp && p.dport == dport
    case ReplyDirection => p.reply
    case InCgroup(path) => p.cgroup.Some? && KernelPath(path) <= p.cgroup.value
    case NoOwnerSocket(onlyPrivate) => p.cgroup.None? && (onlyPrivate ==> p.srcPrivate)
    case MarkIs(mark) => p.mark == mark
    case Foreign(id) => id in p.foreign
  }

  // ---- Tables ----------------------------------------------------------------------------------

  type Table = map<Chain, seq<Rule>>

  datatype TableOp =
    | NewChain(chain: Chain)
    | Append(chain: Chain, rule: Rule)
    | Delete(chain: Chain, rule: Rule)
    | Flush(chain: Chain)
    | DeleteChain(chain: Chain)

  predicate Mentions(rules: seq<Rule>, chain: Chain)
  {
    exists i :: 0 <= i < |rules| && rules[i].target == Jump(chain)
  }

  predicate Referenced(t: Table, chain: Chain)
  {
    exists d :: d in t && Mentions(t[d], chain)
  }

  function RemoveFirst<T(==)>(s: seq<T>, x: T): (r: seq<T>)
    ensures x in s ==> |r| == |s| - 1
    ensures x !in s ==> r == s
  {
    if s == [] then [] else if s[0] == x then s[1..] else [s[0]] + RemoveFirst(s[1..], x)
  }

  predicate Jumpable(t: Table, target: Target)
  {
    target.Jump? ==> target.chain in t && !Builtin(target.chain)
  }

  /** One iptables invocation; None is a command that fails and changes nothing. */
  function TryOp(t: Table, op: TableOp): (r: Option<Table>)
  {
    match op
    case NewChain(c) =>
      if c in t then None else Some(t[c := []])
    case Append(c, rule) =>
      if c in t && Jumpable(t, rule.target) then Some(t[c := t[c] + [rule]]) else None
    case Delete(c, rule) =>
      if c in t && rule in t[c] then Some(t[c := RemoveFirst(t[c], rule)]) else None
    case Flush(c) =>
      if c in t then Some(t[c := []]) else None
    case DeleteChain(c) =>
      if c in t && !Builtin(c) && t[c] == [] && !Referenced(t, c) then Some(t - {c}) else None
  }

  /** The script does not stop at a failing command. */
  function RunOp(t: Table, op: TableOp): (r: Table)
  {
    TryOp(t, op).GetOr(t)
  }

  function RunOps(t: Table, ops: seq<TableOp>): (r: Table)
    decreases |ops|
  {
    if ops == [] then t else RunOps(RunOp(t, ops[0]), ops[1..])
  }

  lemma {:induction false} RunOpsConcat(t: Table, a: seq<TableOp>, b: seq<TableOp>)
    ensures RunOps(t, a + b) == RunOps(RunOps(t, a), b)
    decreases |a|
  {
    if a == [] {
      assert a + b == b;
    } else {
      assert (a + b)[1..] == a[1..] + b;
      RunOpsConcat(RunOp(t, a[0]), a[1..], b);
    }
  }

  // ---- Traversal -------------------------------------------------------------------------------

  datatype Verdict = Accepted | Dropped | Tproxied(onIp: string, onPort: int) | Masqueraded

  /** Fell: past the last rule. Returned: by RETURN. Stuck: out of fuel or a missing chain. */
  datatype Outcome = Fell(p: Packet) | Returned(p: Packet) | Final(v: Verdict, p: Packet) | Stuck

  /** `fuel` bounds the depth of jumps; see NeverStuck for how much is enough. */
  function Eval(t: Table, rules: seq<Rule>, p: Packet, fuel: nat): (o: Outcome)
    decreases fuel, |rules|
  {
    if rules == [] then Fell(p)
    else if !Matches(rules[0].cond, p) then Eval(t, rules[1..], p, fuel)
    else
      match rules[0].target
      case Return => Returned(p)
      case SetMark(m) => Eval(t, rules[1..], p.(mark := m), fuel)
      case Accept => Final(Accepted, p)
      case Drop => Final(Dropped, p)
      case Masquerade => Final(Masqueraded, p)
      case Tproxy(ip, port, m) => Final(Tproxied(ip, port), p.(mark := m))
      case Log => Eval(t, rules[1..], p, fuel)
      case Jump(c) =>
        if c !in t || fuel == 0 then Stuck
        else
          match Eval(t, t[c], p, fuel - 1)
          case Fell(p') => Eval(t, rules[1..], p', fuel)
          case Returned(p') => Eval(t, rules[1..], p', fuel)
          case Final(v, p') => Final(v, p')
          case Stuck => Stuck
  }

  function EvalChain(t: Table, chain: Chain, p: Packet, fuel: nat): (o: Outcome)
  {
    if chain in t then Eval(t, t[chain], p, fuel) else Stuck
  }

  /** Appended rules see exactly the packets that fall off the end. */
  lemma {:induction false} EvalConcat(t: Table, a: seq<Rule>, b: seq<Rule>, p: Packet, fuel: nat)
    ensures Eval(t, a + b, p, fuel) ==
            if Eval(t, a, p, fuel).Fell? then Eval(t, b, Eval(t, a, p, fuel).p, fuel) else Eval(t, a, p, fuel)
    decreases |a|
  {
    if a == [] {
      assert a + b == b;
    } else {
      assert (a + b)[1..] == a[1..] + b;
      if !Matches(a[0].cond, p) {
        EvalConcat(t, a[1..], b, p, fuel);
      } else {
        match a[0].target
        case SetMark(m) => EvalConcat(t, a[1..], b, p.(mark := m), fuel);
        case Log => EvalConcat(t, a[1..], b, p, fuel);
        case Jump(c) =>
          if c in t && fuel > 0 {
            var o := Eval(t, t[c], p, fuel - 1);
            if o.Fell? || o.Returned? {
              EvalConcat(t, a[1..], b, o.p, fuel);
            }
          }
        case _ =>
      }
    }
  }

  ghost predicate JumpsWithin(rules: seq<Rule>, chains: set<Chain>)
  {
    forall i :: 0 <= i < |rules| && rules[i].target.Jump? ==> rules[i].target.chain in chains
  }

  /** Two tables agree on a set of chains that no jump leaves. */
  ghost predicate AgreeOn(t: Table, u: Table, chains: set<Chain>)
  {
    forall c :: c in chains ==> c in t && c in u && t[c] == u[c] && JumpsWithin(t[c], chains)
  }

  /** Traversal depends only on the chains that can be reached. */
  lemma {:induction false} EvalAgrees(t: Table, u: Table, chains: set<Chain>, rules: seq<Rule>, p: Packet, fuel: nat)
    requires AgreeOn(t, u, chains) && JumpsWithin(rules, chains)
    ensures Eval(t, rules, p, fuel) == Eval(u, rules, p, fuel)
    decreases fuel, |rules|
  {
    if rules != [] {
      if !Matches(rules[0].cond, p) {
        EvalAgrees(t, u, chains, rules[1..], p, fuel);
      } else {
        match rules[0].target
        case SetMark(m) => EvalAgrees(t, u, chains, rules[1..], p.(mark := m), fuel);
        case Log => EvalAgrees(t, u, chains, rules[1..], p, fuel);
        case Jump(c) =>
          assert c in chains;
          if fuel > 0 {
            EvalAgrees(t, u, chains, t[c], p, fuel - 1);
            var o := Eval(t, t[c], p, fuel - 1);
            if o.Fell? || o.Returned? {
              EvalAgrees(t, u, chains, rules[1..], o.p, fuel);
            }
          }
        case _ =>
      }
    }
  }

  // ---- Well-formed tables ----------------------------------------------------------------------

  function UserChains(t: Table): (r: set<Chain>)
  {
    set c | c in t && !Builtin(c)
  }

  /** Every jump lands on an existing chain that is not a built-in one. */
  ghost predicate JumpsLand(t: Table)
  {
    forall c :: c in t ==> JumpsWithin(t[c], UserChains(t))
  }

  /** A rank that falls along every jump: the chain graph has no cycle. */
  ghost predicate RankFalls(t: Table, rank: map<Chain, nat>)
  {
    forall c, i :: c in t && 0 <= i < |t[c]| && t[c][i].target.Jump? ==>
      c in rank && t[c][i].target.chain in rank && rank[t[c][i].target.chain] < rank[c]
  }

  ghost predicate Acyclic(t: Table)
  {
    exists rank :: RankFalls(t, rank)
  }

  /** In a well-formed table, fuel no smaller than the rank of a chain is always enough. */
  lemma {:induction false} NeverStuck(t: Table, rank: map<Chain, nat>, chain: Chain, k: nat, p: Packet, fuel: nat)
    requires JumpsLand(t) && RankFalls(t, rank)
    requires chain in t && k <= |t[chain]|
    requires chain in rank ==> rank[chain] <= fuel
    ensures !Eval(t, t[chain][k..], p, fuel).Stuck?
    decreases fuel, |t[chain]| - k
  {
    if k < |t[chain]| {
      var rules, rule := t[chain][k..], t[chain][k];
      assert rules[0] == rule && rules[1..] == t[chain][k + 1..];
      if !Matches(rule.cond, p) {
        NeverStuck(t, rank, chain, k + 1, p, fuel);
      } else {
        match rule.target
        case SetMark(m) => NeverStuck(t, rank, chain, k + 1, p.(mark := m), fuel);
        case Log => NeverStuck(t, rank, chain, k + 1, p, fuel);
        case Jump(c) =>
          assert c in UserChains(t) && rank[c] < rank[chain];
          NeverStuck(t, rank, c, 0, p, fuel - 1);
          assert t[c][0..] == t[c];
          var o := Eval(t, t[c], p, fuel - 1);
          if o.Fell? || o.Returned? {
            NeverStuck(t, rank, chain, k + 1, o.p, fuel);
          }
        case _ =>
      }
    }
  }

  // ---- Policy routing ----------------------------------------------------------------------------

  /** `fwmark` None matches every packet. */
  datatype IpRule = IpRule(fwmark: Option<int>, table: int)

  /** LocalDefault is `local default dev lo`; others are told apart by a number. */
  datatype Route = LocalDefault | Via(id: nat)

  /** One address family. A routing table without routes is absent from `routes`. */
  datatype Net = Net(mangle: Table, natTable: Table, rules: seq<IpRule>, routes: map<int, seq<Route>>)

  datatype Action =
    | Mangle(op: TableOp)
    | Nat(op: TableOp)
    | RuleAdd(mark: int, table: int)
    | RuleDelete(mark: int, table: int)
    | RouteAdd(table: int)
    | RouteFlush(table: int)

  /** A rule without explicit priority lands just before the first rule after the local one. */
  function InsertRule(rules: seq<IpRule>, r: IpRule): (s: seq<IpRule>)
  {
    if rules == [] then [r] else [rules[0], r] + rules[1..]
  }

  function RoutesIn(routes: map<int, seq<Route>>, table: int): (s: seq<Route>)
  {
    if table in routes then routes[table] else []
  }

  function TryAct(n: Net, a: Action): (r: Option<Net>)
  {
    match a
    case Mangle(op) =>
      (match TryOp(n.mangle, op)
       case Some(t) => Some(n.(mangle := t))
       case None => None)
    case Nat(op) =>
      (match TryOp(n.natTable, op)
       case Some(t) => Some(n.(natTable := t))
       case None => None)
    case RuleAdd(m, t) =>
      var r := IpRule(Some(m), t);
      if r in n.rules then None else Some(n.(rules := InsertRule(n.rules, r)))
    case RuleDelete(m, t) =>
      var r := IpRule(Some(m), t);
      if r in n.rules then Some(n.(rules := RemoveFirst(n.rules, r))) else None
    case RouteAdd(t) =>
      var s := RoutesIn(n.routes, t);
      if LocalDefault in s then None else Some(n.(routes := n.routes[t := s + [LocalDefault]]))
    case RouteFlush(t) =>
      Some(n.(routes := n.routes - {t}))
  }

  function Act(n: Net, a: Action): (r: Net)
  {
    TryAct(n, a).GetOr(n)
  }

  function Acts(n: Net, s: seq<Action>): (r: Net)
    decreases |s|
  {
    if s == [] then n else Acts(Act(n, s[0]), s[1..])
  }

  /** The route that a table offers a packet; a covering route is more specific than the default. */
  function RouteFor(routes: seq<Route>, p: Packet): (r: Option<Route>)
  {
    if exists i :: 0 <= i < |routes| && routes[i].Via? && routes[i].id in p.covering then
      FirstCovering(routes, p)
    else if LocalDefault in routes then Some(LocalDefault)
    else None
  }

  function FirstCovering(routes: seq<Route>, p: Packet): (r: Option<Route>)
    ensures r.Some? ==> r.value.Via?
  {
    if routes == [] then None
    else if routes[0].Via? && routes[0].id in p.covering then Some(routes[0])
    else FirstCovering(routes[1..], p)
  }

  /** Policy routing: the first rule that matches the mark and whose table has a route. */
  function Lookup(rules: seq<IpRule>, routes: map<int, seq<Route>>, p: Packet): (r: Option<Route>)
  {
    if rules == [] then None
    else
      var here := RouteFor(RoutesIn(routes, rules[0].table), p);
      if (rules[0].fwmark == None || rules[0].fwmark == Some(p.mark)) && here.Some? then here
      else Lookup(rules[1..], routes, p)
  }

  // ---- Both families -------------------------------------------------------------------------------

  datatype Family = V4 | V6

  datatype Kernel = Kernel(v4: Net, v6: Net)

  function NetOf(k: Kernel, f: Family): (n: Net)
  {
    if f == V4 then k.v4 else k.v6
  }

  datatype Command = Command(family: Family, action: Action)

  function Execute(k: Kernel, c: Command): (r: Kernel)
  {
    match c.family
    case V4 => k.(v4 := Act(k.v4, c.action))
    case V6 => k.(v6 := Act(k.v6, c.action))
  }

  function ExecuteAll(k: Kernel, script: seq<Command>): (r: Kernel)
    decreases |script|
  {
    if script == [] then k else ExecuteAll(Execute(k, script[0]), script[1..])
  }

  lemma {:induction false} ExecuteAllConcat(k: Kernel, a: seq<Command>, b: seq<Command>)
    ensures ExecuteAll(k, a + b) == ExecuteAll(ExecuteAll(k, a), b)
    decreases |a|
  {
    if a == [] {
      assert a + b == b;
    } else {
      assert (a + b)[1..] == a[1..] + b;
      ExecuteAllConcat(Execute(k, a[0]), a[1..], b);
    }
  }

  // ---- Projections: each command touches one component of one family --------------------------------

  function ActionsOf(f: Family, script: seq<Command>): (s: seq<Action>)
  {
    if script == [] then []
    else
      var rest := ActionsOf(f, script[1..]);
      if script[0].family == f then [script[0].action] + rest else rest
  }

  function MangleOps(s: seq<Action>): (ops: seq<TableOp>)
  {
    if s == [] then []
    else
      var rest := MangleOps(s[1..]);
      if s[0].Mangle? then [s[0].op] + rest else rest
  }

  function NatOps(s: seq<Action>): (ops: seq<TableOp>)
  {
    if s == [] then []
    else
      var rest := NatOps(s[1..]);
      if s[0].Nat? then [s[0].op] + rest else rest
  }

  /** The actions on policy rules and routing tables. */
  function RoutingActs(s: seq<Action>): (r: seq<Action>)
  {
    if s == [] then []
    else
      var rest := RoutingActs(s[1..]);
      if s[0].Mangle? || s[0].Nat? then rest else [s[0]] + rest
  }

  lemma {:induction false} ProjectFamily(k: Kernel, f: Family, script: seq<Command>)
    ensures NetOf(ExecuteAll(k, script), f) == Acts(NetOf(k, f), ActionsOf(f, script))
    decreases |script|
  {
    if script != [] {
      ProjectFamily(Execute(k, script[0]), f, script[1..]);
      if script[0].family == f {
        var a, rest := script[0].action, ActionsOf(f, script[1..]);
        assert ([a] + rest)[0] == a && ([a] + rest)[1..] == rest;
      }
    }
  }

  lemma {:induction false} ProjectMangle(n: Net, s: seq<Action>)
    ensures Acts(n, s).mangle == RunOps(n.mangle, MangleOps(s))
    decreases |s|
  {
    if s != [] {
      var n', rest := Act(n, s[0]), MangleOps(s[1..]);
      ProjectMangle(n', s[1..]);
      if s[0].Mangle? {
        assert n'.mangle == RunOp(n.mangle, s[0].op);
        assert ([s[0].op] + rest)[1..] == rest;
      } else {
        assert n'.mangle == n.mangle;
      }
    }
  }

  lemma {:induction false} ProjectNat(n: Net, s: seq<Action>)
    ensures Acts(n, s).natTable == RunOps(n.natTable, NatOps(s))
    decreases |s|
  {
    if s != [] {
      var n', rest := Act(n, s[0]), NatOps(s[1..]);
      ProjectNat(n', s[1..]);
      if s[0].Nat? {
        assert n'.natTable == RunOp(n.natTable, s[0].op);
        assert ([s[0].op] + rest)[1..] == rest;
      } else {
        assert n'.natTable == n.natTable;
      }
    }
  }

  lemma {:induction false} ProjectRouting(n: Net, m: Net, s: seq<Action>)
    requires n.rules == m.rules && n.routes == m.routes
    ensures Acts(n, s).rules == Acts(m, RoutingActs(s)).rules
    ensures Acts(n, s).routes == Acts(m, RoutingActs(s)).routes
    decreases |s|
  {
    if s != [] {
      if s[0].Mangle? || s[0].Nat? {
        ProjectRouting(Act(n, s[0]), m, s[1..]);
      } else {
        ProjectRouting(Act(n, s[0]), Act(m, s[0]), s[1..]);
        var rest := RoutingActs(s[1..]);
        assert ([s[0]] + rest)[0] == s[0] && ([s[0]] + rest)[1..] == rest;
      }
    }
  }

  lemma {:induction false} ActionsOfConcat(f: Family, a: seq<Command>, b: seq<Command>)
    ensures ActionsOf(f, a + b) == ActionsOf(f, a) + ActionsOf(f, b)
  {
    if a == [] {
      assert a + b == b;
    } else {
      assert (a + b)[1..] == a[1..] + b;
      ActionsOfConcat(f, a[1..], b);
    }
  }

  lemma {:induction false} MangleOpsConcat(a: seq<Action>, b: seq<Action>)
    ensures MangleOps(a + b) == MangleOps(a) + MangleOps(b)
  {
    if a == [] {
      assert a + b == b;
    } else {
      assert (a + b)[1..] == a[1..] + b;
      MangleOpsConcat(a[1..], b);
    }
  }

  lemma {:induction false} NatOpsConcat(a: seq<Action>, b: seq<Action>)
    ensures NatOps(a + b) == NatOps(a) + NatOps(b)
  {
    if a == [] {
      assert a + b == b;
    } else {
      assert (a + b)[1..] == a[1..] + b;
      NatOpsConcat(a[1..], b);
    }
  }

  lemma {:induction false} RoutingActsConcat(a: seq<Action>, b: seq<Action>)
    ensures RoutingActs(a + b) == RoutingActs(a) + RoutingActs(b)
  {
    if a == [] {
      assert a + b == b;
    } else {
      assert (a + b)[1..] == a[1..] + b;
      RoutingActsConcat(a[1..], b);
    }
  }
}
