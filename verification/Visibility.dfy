/**
 What packets can observe while the script is at work: at every intermediate state each built-in
 chain, taken alone, behaves as in the base or as in the complete policy. Interruption puts the
 chains of one state together.
 */
module Visibility {
  import opened Netfilter
  import opened TproxyScript
  import opened Teardown

  ghost predicate KernelBase(k: Kernel)
  {
    && Base(k.v4.mangle) && POSTROUTING in k.v4.natTable
    && Base(k.v6.mangle) && POSTROUTING in k.v6.natTable
  }

  /** Interrupted anywhere: `i` commands of start, then `j` commands of stop. */
  function Midway(base: Kernel, p: Params, i: nat, j: nat): (k: Kernel)
    requires i <= |StartScript(p)| && j <= |StopScript(p)|
  {
    ExecuteAll(ExecuteAll(base, StartScript(p)[..i]), StopScript(p)[..j])
  }

  /** The mangle table of an interrupted start carries a safe shape. */
  lemma StartedShape(base: Kernel, p: Params, f: Family, i: nat) returns (s: Shape)
    requires KernelBase(base) && i <= |StartScript(p)|
    ensures NetOf(ExecuteAll(base, StartScript(p)[..i]), f).mangle == Realize(NetOf(base, f).mangle, s)
    ensures Safe(s, FullShape(f, p))
    ensures ViewOf(f, StartScript(p)[..i]).mangle != [] ==> s.ent.Some?
    ensures ViewOf(f, StartScript(p)[..i]).mangle == [] ==> s == NO_SHAPE
    ensures i == |StartScript(p)| ==> s == FullShape(f, p)
    ensures s.outHooked ==> ViewOf(f, StartScript(p)[..i]).mangle == StartMangle(f, p)
    ensures ViewOf(f, StartScript(p)[..i]).mangle == StartMangle(f, p) ==> s == FullShape(f, p)
  {
    var script, b := StartScript(p), NetOf(base, f).mangle;
    var ops := ViewOf(f, script[..i]).mangle;
    Effect(base, f, script[..i]);
    PrefixView(f, script, i);
    ViewOfStart(f, p);
    assert ops == StartMangle(f, p)[..|ops|];
    s := StartReaches(b, f, p, |ops|);
    if i == |script| {
      assert script[..i] == script;
    }
  }

  /** So does every state of a stop that follows it. */
  lemma MidwayShape(base: Kernel, p: Params, f: Family, i: nat, j: nat) returns (s: Shape)
    requires KernelBase(base) && i <= |StartScript(p)| && j <= |StopScript(p)|
    ensures NetOf(Midway(base, p, i, j), f).mangle == Realize(NetOf(base, f).mangle, s)
    ensures Safe(s, FullShape(f, p))
  {
    var mid, script := ExecuteAll(base, StartScript(p)[..i]), StopScript(p);
    var b := NetOf(base, f).mangle;
    var s0 := StartedShape(base, p, f, i);
    var ops := ViewOf(f, script[..j]).mangle;
    Effect(mid, f, script[..j]);
    PrefixView(f, script, j);
    ViewOfStop(f, p);
    assert ops == StopOps(f)[..|ops|] && |StopOps(f)| == 10;
    StopReaches(b, s0, f, |ops|);
    StopShapeSafe(s0, FullShape(f, p), f, |ops|);
    s := StopShape(s0, f, |ops|);
  }

  // ---- Safe shapes as packets see them -------------------------------------------------------------

  /** Without its hook a built-in chain behaves as in the base. */
  lemma UnhookedBehavesAsBase(base: Table, s: Shape, chain: Chain, k: Packet, fuel: nat)
    requires Base(base) && chain in base && !ScriptChain(chain) && HookFor(s, chain) == []
    ensures EvalChain(Realize(base, s), chain, k, fuel) == EvalChain(base, chain, k, fuel)
  {
    var t := Realize(base, s);
    forall c | c in base && HookFor(s, c) == [] ensures c in t && t[c] == base[c] {
      assert c !in Present(s) && base[c] + [] == base[c];
    }
    assert AgreeOn(t, base, UserChains(base));
    EvalAgrees(t, base, UserChains(base), base[chain], k, fuel);
  }

  /** With its hook it behaves as in the complete policy. */
  lemma HookedBehavesAsFull(base: Table, s: Shape, full: Shape, chain: Chain, k: Packet, fuel: nat)
    requires Base(base) && Safe(s, full) && (chain == PREROUTING || chain == OUTPUT) && HookFor(s, chain) != []
    ensures EvalChain(Realize(base, s), chain, k, fuel) == EvalChain(Realize(base, full), chain, k, fuel)
  {
    var t, u := Realize(base, s), Realize(base, full);
    var chains := UserChains(base) + Behind(chain);
    BaseChainsKept(base, s);
    BaseChainsKept(base, full);
    ChainsBehindHook(base, s, full, chain);
    assert AgreeOn(t, u, chains);
    assert t[chain] == base[chain] + HookFor(s, chain) == u[chain];
    assert JumpsWithin(t[chain], chains);
    EvalAgrees(t, u, chains, t[chain], k, fuel);
  }

  /** The chains that can be reached through a hook. */
  function Behind(chain: Chain): (r: set<Chain>)
  {
    if chain == PREROUTING then {TPROXY_PRE, TPROXY_ENT} else {TPROXY_OUT, TPROXY_MARK}
  }

  lemma ChainsBehindHook(base: Table, s: Shape, full: Shape, chain: Chain)
    requires Safe(s, full) && (chain == PREROUTING || chain == OUTPUT) && HookFor(s, chain) != []
    ensures HookFor(s, chain) == HookFor(full, chain)
    ensures AgreeOn(Realize(base, s), Realize(base, full), Behind(chain))
  {
    forall c | c in Behind(chain)
      ensures c in Present(s) && c in Present(full) && Get(s, c) == Get(full, c)
      ensures JumpsWithin(Get(s, c).value, Behind(chain))
    {
    }
  }

  lemma BaseChainsKept(base: Table, s: Shape)
    requires Base(base)
    ensures forall c :: c in UserChains(base) ==> c in Realize(base, s) && Realize(base, s)[c] == base[c]
  {
    forall c | c in UserChains(base) ensures c in Realize(base, s) && Realize(base, s)[c] == base[c] {
      assert c !in Present(s) && base[c] + [] == base[c];
    }
  }

  function ScriptRank(c: Chain): (n: nat)
  {
    if c == TPROXY_PRE || c == TPROXY_OUT then 1 else 0
  }

  /** A jump leads down within the script's chains, from a hook to them, or stays in the base. */
  lemma JumpCases(base: Table, s: Shape, full: Shape, c: Chain, i: nat)
    requires Base(base) && Safe(s, full) && c in Realize(base, s)
    requires i < |Realize(base, s)[c]| && Realize(base, s)[c][i].target.Jump?
    ensures var d := Realize(base, s)[c][i].target.chain;
            if c in Present(s) then d in Present(s) && ScriptRank(d) < ScriptRank(c)
            else d in Present(s) || (i < |base[c]| && base[c][i].target == Jump(d) && d in UserChains(base))
  {
    if c !in Present(s) {
      if i < |base[c]| {
        assert JumpsWithin(base[c], UserChains(base));
      }
    }
  }

  lemma ShapeJumpsLand(base: Table, s: Shape, full: Shape)
    requires Base(base) && Safe(s, full)
    ensures JumpsLand(Realize(base, s))
  {
    var t := Realize(base, s);
    forall c | c in t ensures JumpsWithin(t[c], UserChains(t)) {
      forall i | 0 <= i < |t[c]| && t[c][i].target.Jump? ensures t[c][i].target.chain in UserChains(t) {
        JumpCases(base, s, full, c, i);
      }
    }
  }

  lemma ShapeAcyclic(base: Table, s: Shape, full: Shape)
    requires Base(base) && Safe(s, full) && Acyclic(base)
    ensures Acyclic(Realize(base, s))
  {
    var t := Realize(base, s);
    var rank :| RankFalls(base, rank);
    var rank' := map c | c in t.Keys ::
      if c in Present(s) then ScriptRank(c) else if c in rank then rank[c] + 2 else 2;
    forall c, i | c in t && 0 <= i < |t[c]| && t[c][i].target.Jump?
      ensures c in rank' && t[c][i].target.chain in rank' && rank'[t[c][i].target.chain] < rank'[c]
    {
      var d := t[c][i].target.chain;
      JumpCases(base, s, full, c, i);
      if d !in Present(s) {
        assert rank[d] < rank[c];
      }
    }
    assert RankFalls(t, rank');
  }

  /**
   No half-built chain: interrupt start after any command, and stop after any command of the
   clean-up that follows. In both families each of PREROUTING and OUTPUT gives every packet
   either the base result or the result of the complete policy, every jump lands on an existing
   chain, and no cycle appears.
   */
  lemma NoHalfBuiltPolicy(base: Kernel, p: Params, f: Family, i: nat, j: nat, chain: Chain, k: Packet, fuel: nat)
    requires KernelBase(base) && i <= |StartScript(p)| && j <= |StopScript(p)|
    requires chain == PREROUTING || chain == OUTPUT
    ensures var t := NetOf(Midway(base, p, i, j), f).mangle;
            && (|| EvalChain(t, chain, k, fuel) == EvalChain(NetOf(base, f).mangle, chain, k, fuel)
                || EvalChain(t, chain, k, fuel) == EvalChain(NetOf(StartResult(base, p), f).mangle, chain, k, fuel))
            && JumpsLand(t)
            && (Acyclic(NetOf(base, f).mangle) ==> Acyclic(t))
  {
    var b, full, script := NetOf(base, f).mangle, FullShape(f, p), StartScript(p);
    var s := MidwayShape(base, p, f, i, j);
    var s1 := StartedShape(base, p, f, |script|);
    assert script[..|script|] == script;
    if HookFor(s, chain) == [] {
      UnhookedBehavesAsBase(b, s, chain, k, fuel);
    } else {
      HookedBehavesAsFull(b, s, full, chain, k, fuel);
    }
    ShapeJumpsLand(b, s, full);
    if Acyclic(b) {
      ShapeAcyclic(b, s, full);
    }
  }

  /** No packet gets stuck at any intermediate state: there is a depth of jumps that always suffices. */
  lemma NoPacketStuck(base: Kernel, p: Params, f: Family, i: nat, j: nat, chain: Chain) returns (depth: nat)
    requires KernelBase(base) && i <= |StartScript(p)| && j <= |StopScript(p)|
    requires Acyclic(NetOf(base, f).mangle) && chain in NetOf(Midway(base, p, i, j), f).mangle
    ensures forall k, fuel: nat :: fuel >= depth ==>
              !EvalChain(NetOf(Midway(base, p, i, j), f).mangle, chain, k, fuel).Stuck?
  {
    var t := NetOf(Midway(base, p, i, j), f).mangle;
    var s := MidwayShape(base, p, f, i, j);
    ShapeJumpsLand(NetOf(base, f).mangle, s, FullShape(f, p));
    ShapeAcyclic(NetOf(base, f).mangle, s, FullShape(f, p));
    var rank :| RankFalls(t, rank);
    depth := if chain in rank then rank[chain] else 0;
    forall k, fuel: nat | fuel >= depth ensures !EvalChain(t, chain, k, fuel).Stuck? {
      NeverStuck(t, rank, chain, 0, k, fuel);
      assert t[chain][0..] == t[chain];
    }
  }
}
