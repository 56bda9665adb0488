/**
 Every intermediate state of the mangle table, during start and during stop.

 A `Shape` is what the script has added so far: some of its four chains, perhaps not yet
 complete, and the two hooks. Start and stop are shown to move only between tables of the
 form Realize(base, shape) whose shape is Safe; everything else about intermediate states is
 then a statement about safe shapes.
 */
module Teardown {
  import opened Prelude
  import opened Netfilter
  import opened TproxyScript

  predicate ScriptChain(c: Chain)
  {
    c.TPROXY_ENT? || c.TPROXY_PRE? || c.TPROXY_MARK? || c.TPROXY_OUT?
  }

  /** A mangle table without the script's chains. */
  ghost predicate Base(t: Table)
  {
    JumpsLand(t) && PREROUTING in t && OUTPUT in t && forall c :: c in t ==> !ScriptChain(c)
  }

  datatype Shape = Shape(
    ent: Option<seq<Rule>>,
    pre: Option<seq<Rule>>,
    mark: Option<seq<Rule>>,
    out: Option<seq<Rule>>,
    preHooked: bool,
    outHooked: bool)

  const NO_SHAPE := Shape(None, None, None, None, false, false)

  function Get(s: Shape, c: Chain): (r: Option<seq<Rule>>)
  {
    match c
    case TPROXY_ENT => s.ent
    case TPROXY_PRE => s.pre
    case TPROXY_MARK => s.mark
    case TPROXY_OUT => s.out
    case _ => None
  }

  function Put(s: Shape, c: Chain, r: Option<seq<Rule>>): (s': Shape)
    ensures ScriptChain(c) ==> Get(s', c) == r
    ensures forall d :: d != c ==> Get(s', d) == Get(s, d)
  {
    match c
    case TPROXY_ENT => s.(ent := r)
    case TPROXY_PRE => s.(pre := r)
    case TPROXY_MARK => s.(mark := r)
    case TPROXY_OUT => s.(out := r)
    case _ => s
  }

  function HookFor(s: Shape, c: Chain): (r: seq<Rule>)
  {
    if c == PREROUTING && s.preHooked then [HOOK_PRE]
    else if c == OUTPUT && s.outHooked then [HOOK_OUT]
    else []
  }

  function Present(s: Shape): (r: set<Chain>)
  {
    set c | c in {TPROXY_ENT, TPROXY_PRE, TPROXY_MARK, TPROXY_OUT} && Get(s, c).Some?
  }

  function Realize(base: Table, s: Shape): (t: Table)
  {
    map c | c in base.Keys + Present(s) :: if c in Present(s) then Get(s, c).value else base[c] + HookFor(s, c)
  }

  function FullShape(f: Family, p: Params): (s: Shape)
  {
    Shape(Some(EntRules(f, p)), Some(PreRules(p)), Some(MarkRules(p)), Some(OutRules(p)), true, Enabled(f, p))
  }

  /** Every jump of `rules` goes to `target`, which must then be present. */
  ghost predicate JumpsOnly(rules: seq<Rule>, target: Chain, present: bool)
  {
    forall i :: 0 <= i < |rules| && rules[i].target.Jump? ==> rules[i].target == Jump(target) && present
  }

  ghost predicate NoJumps(rules: seq<Rule>)
  {
    forall i :: 0 <= i < |rules| ==> !rules[i].target.Jump?
  }

  /** Jumps go from PRE to ENT and from OUT to MARK only, and never to a missing chain. */
  ghost predicate Closed(s: Shape)
  {
    && (s.ent.Some? ==> NoJumps(s.ent.value))
    && (s.mark.Some? ==> NoJumps(s.mark.value))
    && (s.pre.Some? ==> JumpsOnly(s.pre.value, TPROXY_ENT, s.ent.Some?))
    && (s.out.Some? ==> JumpsOnly(s.out.value, TPROXY_MARK, s.mark.Some?))
  }

  /** A hook is present only while the chains behind it are complete. */
  ghost predicate Safe(s: Shape, full: Shape)
  {
    && Closed(s)
    && (s.preHooked ==> full.preHooked && s.pre == full.pre && s.ent == full.ent && s.pre.Some? && s.ent.Some?)
    && (s.outHooked ==> full.outHooked && s.out == full.out && s.mark == full.mark && s.out.Some? && s.mark.Some?)
  }

  // ---- Single commands on a realized shape -----------------------------------------------------

  lemma RealizeNothing(base: Table)
    requires Base(base)
    ensures Realize(base, NO_SHAPE) == base
  {
    var t := Realize(base, NO_SHAPE);
    assert Present(NO_SHAPE) == {};
    forall c | c in base ensures t[c] == base[c] {
      assert base[c] + [] == base[c];
    }
  }

  lemma RealizePut(base: Table, s: Shape, c: Chain, rules: seq<Rule>)
    requires ScriptChain(c)
    ensures Realize(base, s)[c := rules] == Realize(base, Put(s, c, Some(rules)))
  {
    var s' := Put(s, c, Some(rules));
    assert Present(s') == Present(s) + {c};
    forall d ensures HookFor(s, d) == HookFor(s', d) {
    }
  }

  lemma RealizeDrop(base: Table, s: Shape, c: Chain)
    requires ScriptChain(c) && c !in base
    ensures Realize(base, s) - {c} == Realize(base, Put(s, c, None))
  {
    var s' := Put(s, c, None);
    assert Present(s') == Present(s) - {c};
    forall d ensures HookFor(s, d) == HookFor(s', d) {
    }
  }

  /** Two shapes that differ in one hook differ in one built-in chain. */
  lemma RealizeHook(base: Table, s: Shape, s': Shape, c: Chain)
    requires Base(base) && c in base
    requires Present(s) == Present(s') && forall d :: Get(s, d) == Get(s', d)
    requires forall d :: d != c ==> HookFor(s, d) == HookFor(s', d)
    ensures Realize(base, s)[c := base[c] + HookFor(s', c)] == Realize(base, s')
    ensures c in Realize(base, s) && Realize(base, s)[c] == base[c] + HookFor(s, c)
  {
    assert c !in Present(s);
  }

  lemma BaseDoesNotMention(base: Table, c: Chain, d: Chain)
    requires Base(base) && ScriptChain(c) && d in base
    ensures !Mentions(base[d], c)
  {
  }

  lemma {:induction false} RemoveAppended<T>(s: seq<T>, x: T)
    requires x !in s
    ensures RemoveFirst(s + [x], x) == s
  {
    if s != [] {
      assert s[0] in s;
      assert (s + [x])[1..] == s[1..] + [x];
      RemoveAppended(s[1..], x);
    }
  }

  function Unhooked(s: Shape, chain: Chain): (r: Shape)
  {
    if chain == PREROUTING then s.(preHooked := false) else s.(outHooked := false)
  }

  function Hooked(s: Shape, chain: Chain): (r: Shape)
  {
    if chain == PREROUTING then s.(preHooked := true) else s.(outHooked := true)
  }

  predicate IsHook(chain: Chain, hook: Rule)
  {
    (chain == PREROUTING && hook == HOOK_PRE) || (chain == OUTPUT && hook == HOOK_OUT)
  }

  lemma UnhookStep(base: Table, s: Shape, chain: Chain, hook: Rule)
    requires Base(base) && IsHook(chain, hook)
    ensures RunOp(Realize(base, s), Delete(chain, hook)) == Realize(base, Unhooked(s, chain))
  {
    var t := Realize(base, s);
    assert hook !in base[chain] by {
      BaseDoesNotMention(base, hook.target.chain, chain);
    }
    assert base[chain] + [] == base[chain];
    RealizeHook(base, s, Unhooked(s, chain), chain);
    if HookFor(s, chain) == [] {
      assert Unhooked(s, chain) == s;
      assert TryOp(t, Delete(chain, hook)) == None;
    } else {
      RemoveAppended(base[chain], hook);
      assert hook in t[chain] && RemoveFirst(t[chain], hook) == base[chain];
    }
  }

  lemma HookStep(base: Table, s: Shape, chain: Chain, hook: Rule)
    requires Base(base) && IsHook(chain, hook)
    requires HookFor(s, chain) == [] && Get(s, hook.target.chain).Some?
    ensures RunOp(Realize(base, s), Append(chain, hook)) == Realize(base, Hooked(s, chain))
  {
    assert base[chain] + [] == base[chain];
    RealizeHook(base, s, Hooked(s, chain), chain);
    assert hook.target.chain in Present(s);
  }

  function Emptied(r: Option<seq<Rule>>): (e: Option<seq<Rule>>)
  {
    if r.Some? then Some([]) else None
  }

  lemma FlushStep(base: Table, s: Shape, c: Chain)
    requires Base(base) && ScriptChain(c)
    ensures RunOp(Realize(base, s), Flush(c)) == Realize(base, Put(s, c, Emptied(Get(s, c))))
  {
    assert c in Realize(base, s) <==> Get(s, c).Some?;
    RealizePut(base, s, c, []);
    if Get(s, c).None? {
      assert Put(s, c, None) == s;
    }
  }

  /** Deleting a chain works once no chain of the script has rules and nothing is hooked. */
  lemma DeleteStep(base: Table, s: Shape, c: Chain)
    requires Base(base) && ScriptChain(c) && !s.preHooked && !s.outHooked
    requires forall d :: Get(s, d) == Emptied(Get(s, d))
    ensures var t := Realize(base, s);
            && RunOp(t, DeleteChain(c)) == Realize(base, Put(s, c, None))
            && (c in t ==> TryOp(t, DeleteChain(c)).Some?)
  {
    var t := Realize(base, s);
    assert c in t <==> Get(s, c).Some?;
    forall d | d in t ensures !Mentions(t[d], c) {
      if d !in Present(s) {
        BaseDoesNotMention(base, c, d);
        assert t[d] == base[d] + [] == base[d];
      }
    }
    if Get(s, c).Some? {
      assert t[c] == [];
      RealizeDrop(base, s, c);
    } else {
      assert Put(s, c, None) == s;
    }
  }

  lemma NewStep(base: Table, s: Shape, c: Chain)
    requires Base(base) && ScriptChain(c) && Get(s, c).None?
    ensures RunOp(Realize(base, s), NewChain(c)) == Realize(base, Put(s, c, Some([])))
  {
    assert c !in Realize(base, s);
    RealizePut(base, s, c, []);
  }

  lemma AppendStep(base: Table, s: Shape, c: Chain, rule: Rule)
    requires ScriptChain(c) && Get(s, c).Some?
    requires rule.target.Jump? ==> Get(s, rule.target.chain).Some?
    ensures RunOp(Realize(base, s), Append(c, rule)) == Realize(base, Put(s, c, Some(Get(s, c).value + [rule])))
  {
    var t := Realize(base, s);
    assert c in Present(s) && t[c] == Get(s, c).value;
    assert rule.target.Jump? ==> rule.target.chain in Present(s);
    RealizePut(base, s, c, Get(s, c).value + [rule]);
  }

  // ---- Sequences of commands -------------------------------------------------------------------

  lemma {:induction false} RunOpsSnoc(t: Table, ops: seq<TableOp>, k: nat)
    requires k < |ops|
    ensures RunOps(t, ops[..k + 1]) == RunOp(RunOps(t, ops[..k]), ops[k])
  {
    assert ops[..k + 1] == ops[..k] + [ops[k]];
    RunOpsConcat(t, ops[..k], [ops[k]]);
    RunOne(RunOps(t, ops[..k]), ops[k]);
  }

  lemma RunOne(t: Table, op: TableOp)
    ensures RunOps(t, [op]) == RunOp(t, op)
  {
    assert [op][1..] == [];
  }

  lemma RunCons(t: Table, op: TableOp, ops: seq<TableOp>)
    ensures RunOps(t, [op] + ops) == RunOps(RunOp(t, op), ops)
  {
    assert ([op] + ops)[1..] == ops;
  }

  /** A prefix of `a + b` is a prefix of `a`, or all of `a` and a prefix of `b`. */
  lemma RunPrefix(t: Table, a: seq<TableOp>, b: seq<TableOp>, k: nat)
    requires k <= |a + b|
    ensures RunOps(t, (a + b)[..k]) ==
            if k <= |a| then RunOps(t, a[..k]) else RunOps(RunOps(t, a), b[..k - |a|])
  {
    if k <= |a| {
      assert (a + b)[..k] == a[..k];
    } else {
      assert (a + b)[..k] == a + b[..k - |a|];
      RunOpsConcat(t, a, b[..k - |a|]);
    }
  }

  // ---- Stop ------------------------------------------------------------------------------------

  /** The position of a chain in StopOrder. */
  function Turn(f: Family, c: Chain): (i: nat)
  {
    match c
    case TPROXY_PRE => 0
    case TPROXY_ENT => if f == V4 then 1 else 2
    case TPROXY_OUT => if f == V4 then 2 else 1
    case _ => 3
  }

  /** What is left of a chain after `k` of the ten mangle commands of stop. */
  function StopPart(r: Option<seq<Rule>>, turn: nat, k: nat): (r': Option<seq<Rule>>)
  {
    if k <= 2 + turn then r else if k <= 6 + turn then Emptied(r) else None
  }

  function StopShape(s: Shape, f: Family, k: nat): (r: Shape)
  {
    Shape(StopPart(s.ent, Turn(f, TPROXY_ENT), k), StopPart(s.pre, Turn(f, TPROXY_PRE), k),
          StopPart(s.mark, Turn(f, TPROXY_MARK), k), StopPart(s.out, Turn(f, TPROXY_OUT), k),
          s.preHooked && k < 1, s.outHooked && k < 2)
  }

  lemma StopShapeSafe(s: Shape, full: Shape, f: Family, k: nat)
    requires Safe(s, full)
    ensures Safe(StopShape(s, f, k), full)
    ensures StopShape(s, f, 0) == s && StopShape(s, f, 10) == NO_SHAPE
  {
  }

  /** Each command of stop takes the shape one step further. */
  lemma StopShapeNext(s: Shape, f: Family, k: nat)
    requires k < 10
    ensures var r, r' := StopShape(s, f, k), StopShape(s, f, k + 1);
            && |StopOps(f)| == 10
            && match StopOps(f)[k]
               case Delete(c, hook) => IsHook(c, hook) && r' == Unhooked(r, c)
               case Flush(c) => ScriptChain(c) && r' == Put(r, c, Emptied(Get(r, c)))
               case DeleteChain(c) =>
                 && ScriptChain(c) && !r.preHooked && !r.outHooked
                 && (forall d :: Get(r, d) == Emptied(Get(r, d)))
                 && r' == Put(r, c, None)
               case _ => false
  {
    if k < 2 {
      assert StopOps(f)[k] == UNHOOK[k];
    } else if k < 6 {
      assert StopOps(f)[k] == Flush(StopOrder(f)[k - 2]);
    } else {
      assert StopOps(f)[k] == DeleteChain(StopOrder(f)[k - 6]);
    }
  }

  lemma StopStep(base: Table, s: Shape, f: Family, k: nat)
    requires Base(base) && k < 10
    ensures |StopOps(f)| == 10
    ensures var t, op := Realize(base, StopShape(s, f, k)), StopOps(f)[k];
            && RunOp(t, op) == Realize(base, StopShape(s, f, k + 1))
            && (op.DeleteChain? && op.chain in t ==> TryOp(t, op).Some?)
  {
    StopShapeNext(s, f, k);
    var r := StopShape(s, f, k);
    match StopOps(f)[k]
    case Delete(c, hook) => UnhookStep(base, r, c, hook);
    case Flush(c) => FlushStep(base, r, c);
    case DeleteChain(c) => DeleteStep(base, r, c);
  }

  /** Stop passes through the shapes StopShape(s, f, _). */
  lemma {:induction false} StopReaches(base: Table, s: Shape, f: Family, k: nat)
    requires Base(base) && k <= 10
    ensures |StopOps(f)| == 10
    ensures RunOps(Realize(base, s), StopOps(f)[..k]) == Realize(base, StopShape(s, f, k))
    decreases k
  {
    if k > 0 {
      StopReaches(base, s, f, k - 1);
      StopStep(base, s, f, k - 1);
      RunOpsSnoc(Realize(base, s), StopOps(f), k - 1);
    } else {
      assert StopOps(f)[..0] == [];
      assert StopShape(s, f, 0) == s;
    }
  }

  /** No `-X` of an existing chain fails. */
  ghost predicate ChainDeletesSucceed(t: Table, ops: seq<TableOp>)
  {
    forall k :: 0 <= k < |ops| && ops[k].DeleteChain? ==>
      var u := RunOps(t, ops[..k]);
      ops[k].chain in u ==> TryOp(u, ops[k]).Some?
  }

  lemma StopFromSafe(base: Table, s: Shape, full: Shape, f: Family)
    requires Base(base) && Safe(s, full)
    ensures RunOps(Realize(base, s), StopOps(f)) == base
    ensures ChainDeletesSucceed(Realize(base, s), StopOps(f))
  {
    StopReaches(base, s, f, 10);
    StopShapeSafe(s, full, f, 10);
    RealizeNothing(base);
    assert StopOps(f)[..10] == StopOps(f);
    forall k | 0 <= k < 10 && StopOps(f)[k].DeleteChain?
      ensures var u := RunOps(Realize(base, s), StopOps(f)[..k]);
              StopOps(f)[k].chain in u ==> TryOp(u, StopOps(f)[k]).Some?
    {
      StopReaches(base, s, f, k);
      StopStep(base, s, f, k);
    }
  }

  // ---- Start -----------------------------------------------------------------------------------

  /** The jumps of `rules` find their target. */
  ghost predicate Ready(s: Shape, rules: seq<Rule>)
  {
    forall i :: 0 <= i < |rules| && rules[i].target.Jump? ==> Get(s, rules[i].target.chain).Some?
  }

  lemma PutTwice(s: Shape, c: Chain, a: Option<seq<Rule>>, b: Option<seq<Rule>>)
    ensures Put(Put(s, c, a), c, b) == Put(s, c, b)
    ensures Put(s, c, Get(s, c)) == s
  {
  }

  lemma ReadyNext(s: Shape, c: Chain, r: seq<Rule>, rules: seq<Rule>)
    requires Ready(s, rules) && rules != []
    ensures Ready(Put(s, c, Some(r)), rules[1..])
  {
    var s' := Put(s, c, Some(r));
    forall i | 0 <= i < |rules| - 1 && rules[1..][i].target.Jump?
      ensures Get(s', rules[1..][i].target.chain).Some?
    {
      var d := rules[i + 1].target.chain;
      assert Get(s, d).Some?;
    }
  }

  lemma {:induction false} AppendAll(base: Table, s: Shape, c: Chain, rules: seq<Rule>)
    requires ScriptChain(c) && Get(s, c).Some? && Ready(s, rules)
    ensures RunOps(Realize(base, s), Appends(c, rules)) == Realize(base, Put(s, c, Some(Get(s, c).value + rules)))
    decreases |rules|
  {
    var was := Get(s, c).value;
    if rules == [] {
      assert was + [] == was;
      PutTwice(s, c, None, None);
    } else {
      var now, rest := was + [rules[0]], rules[1..];
      var s' := Put(s, c, Some(now));
      AppendAll(base, s', c, rest) by {
        ReadyNext(s, c, now, rules);
      }
      assert Put(s', c, Some(now + rest)) == Put(s, c, Some(was + rules)) by {
        assert now + rest == was + rules;
        PutTwice(s, c, Some(now), Some(was + rules));
      }
      AppendStep(base, s, c, rules[0]);
      RunFirst(Realize(base, s), c, rules);
    }
  }

  lemma RunFirst(t: Table, c: Chain, rules: seq<Rule>)
    requires rules != []
    ensures RunOps(t, Appends(c, rules)) == RunOps(RunOp(t, Append(c, rules[0])), Appends(c, rules[1..]))
  {
    AppendsCons(c, rules);
    RunCons(t, Append(c, rules[0]), Appends(c, rules[1..]));
  }

  lemma AppendsCons(c: Chain, rules: seq<Rule>)
    requires rules != []
    ensures Appends(c, rules) == [Append(c, rules[0])] + Appends(c, rules[1..])
  {
  }

  lemma BuildChain(base: Table, s: Shape, c: Chain, rules: seq<Rule>)
    requires Base(base) && ScriptChain(c) && Get(s, c).None? && Ready(s, rules)
    ensures RunOps(Realize(base, s), Block(c, rules)) == Realize(base, Put(s, c, Some(rules)))
  {
    var s' := Put(s, c, Some([]));
    NewStep(base, s, c);
    RunCons(Realize(base, s), NewChain(c), Appends(c, rules));
    AppendAll(base, s', c, rules);
    assert [] + rules == rules;
  }

  /** The shape after `k` commands of a block. */
  function Partly(s: Shape, c: Chain, rules: seq<Rule>, k: nat): (r: Shape)
    requires k <= |rules| + 1
  {
    if k == 0 then s else Put(s, c, Some(rules[..k - 1]))
  }

  lemma BuildPart(base: Table, s: Shape, c: Chain, rules: seq<Rule>, k: nat)
    requires Base(base) && ScriptChain(c) && Get(s, c).None? && Ready(s, rules) && k <= |rules| + 1
    ensures |Block(c, rules)| == |rules| + 1
    ensures RunOps(Realize(base, s), Block(c, rules)[..k]) == Realize(base, Partly(s, c, rules, k))
  {
    if k == 0 {
      assert Block(c, rules)[..0] == [];
    } else {
      BuildChain(base, s, c, rules[..k - 1]);
      assert Block(c, rules)[..k] == Block(c, rules[..k - 1]);
    }
  }

  lemma RuleJumps(f: Family, p: Params)
    ensures NoJumps(EntRules(f, p)) && NoJumps(MarkRules(p))
    ensures JumpsOnly(PreRules(p), TPROXY_ENT, true) && JumpsOnly(OutRules(p), TPROXY_MARK, true)
  {
  }

  /** An inner chain, the outer chain that jumps to it, and the hook that jumps to the outer one. */
  datatype Half = Half(inner: Chain, innerRules: seq<Rule>, outer: Chain, outerRules: seq<Rule>, hooks: seq<TableOp>)

  function HalfOps(h: Half): (ops: seq<TableOp>)
  {
    Block(h.inner, h.innerRules) + Block(h.outer, h.outerRules) + h.hooks
  }

  function FirstHalf(f: Family, p: Params): (h: Half)
  {
    Half(TPROXY_ENT, EntRules(f, p), TPROXY_PRE, PreRules(p), [Append(PREROUTING, HOOK_PRE)])
  }

  function SecondHalf(f: Family, p: Params): (h: Half)
  {
    Half(TPROXY_MARK, MarkRules(p), TPROXY_OUT, OutRules(p), When(Enabled(f, p), [Append(OUTPUT, HOOK_OUT)]))
  }

  ghost predicate HalfOk(s: Shape, h: Half)
  {
    && ScriptChain(h.inner) && ScriptChain(h.outer) && h.inner != h.outer
    && Get(s, h.inner).None? && Get(s, h.outer).None?
    && NoJumps(h.innerRules) && JumpsOnly(h.outerRules, h.inner, true)
    && |h.hooks| <= 1
  }

  /** The shape after `k` commands of a half, its hook excepted. */
  function HalfPart(s: Shape, h: Half, k: nat): (r: Shape)
    requires k <= |h.innerRules| + |h.outerRules| + 2
  {
    var n := |h.innerRules| + 1;
    if k <= n then Partly(s, h.inner, h.innerRules, k)
    else Partly(Put(s, h.inner, Some(h.innerRules)), h.outer, h.outerRules, k - n)
  }

  function HalfBuilt(s: Shape, h: Half): (r: Shape)
  {
    Put(Put(s, h.inner, Some(h.innerRules)), h.outer, Some(h.outerRules))
  }

  lemma RunHalf(base: Table, s: Shape, h: Half, k: nat)
    requires Base(base) && HalfOk(s, h) && k <= |HalfOps(h)|
    ensures |HalfOps(h)| == |h.innerRules| + |h.outerRules| + 2 + |h.hooks|
    ensures RunOps(Realize(base, s), HalfOps(h)[..k]) ==
            if k <= |h.innerRules| + |h.outerRules| + 2 then Realize(base, HalfPart(s, h, k))
            else RunOp(Realize(base, HalfBuilt(s, h)), h.hooks[0])
  {
    var a, b := Block(h.inner, h.innerRules), Block(h.outer, h.outerRules);
    var s1, t := Put(s, h.inner, Some(h.innerRules)), Realize(base, s);
    RunPrefix(t, a + b, h.hooks, k);
    BuildChain(base, s, h.inner, h.innerRules);
    if k <= |a + b| {
      RunPrefix(t, a, b, k);
      if k <= |a| {
        BuildPart(base, s, h.inner, h.innerRules, k);
      } else {
        BuildPart(base, s1, h.outer, h.outerRules, k - |a|);
      }
    } else {
      RunOpsConcat(t, a, b);
      BuildChain(base, s1, h.outer, h.outerRules);
      assert h.hooks[..1] == [h.hooks[0]];
      RunOne(Realize(base, HalfBuilt(s, h)), h.hooks[0]);
    }
  }

  lemma HalfPartEnds(s: Shape, h: Half)
    ensures HalfPart(s, h, 0) == s
    ensures HalfPart(s, h, |h.innerRules| + |h.outerRules| + 2) == HalfBuilt(s, h)
  {
    assert h.outerRules[..|h.outerRules|] == h.outerRules;
  }

  /** Building a half next to what is already safe stays safe. */
  lemma HalfPartSafe(s: Shape, h: Half, k: nat, full: Shape)
    requires HalfOk(s, h) && Safe(s, full) && k <= |h.innerRules| + |h.outerRules| + 2
    requires (h.inner == TPROXY_ENT && h.outer == TPROXY_PRE) || (h.inner == TPROXY_MARK && h.outer == TPROXY_OUT)
    ensures Safe(HalfPart(s, h, k), full)
    ensures k >= 1 ==> Get(HalfPart(s, h, k), h.inner).Some?
    ensures forall c :: c != h.inner && c != h.outer ==> Get(HalfPart(s, h, k), c) == Get(s, c)
  {
    var n := |h.innerRules| + 1;
    if 1 <= k <= n {
      assert NoJumps(h.innerRules[..k - 1]);
    } else if k > n {
      assert JumpsOnly(h.outerRules[..k - n - 1], h.inner, true);
    }
  }

  function HalfShape(f: Family, p: Params): (s: Shape)
  {
    NO_SHAPE.(ent := Some(EntRules(f, p)), pre := Some(PreRules(p)), preHooked := true)
  }

  /** The first half: both prerouting chains, then the hook. */
  lemma PreroutingReaches(base: Table, f: Family, p: Params, k: nat) returns (s: Shape)
    requires Base(base) && k <= |PreroutingOps(f, p)|
    ensures RunOps(base, PreroutingOps(f, p)[..k]) == Realize(base, s)
    ensures Safe(s, FullShape(f, p))
    ensures k == |PreroutingOps(f, p)| ==> s == HalfShape(f, p)
    ensures k >= 1 ==> s.ent.Some?
    ensures k == 0 ==> s == NO_SHAPE
    ensures !s.outHooked
  {
    var h := FirstHalf(f, p);
    RuleJumps(f, p);
    RealizeNothing(base);
    RunHalf(base, NO_SHAPE, h, k);
    HalfPartEnds(NO_SHAPE, h);
    if k < |PreroutingOps(f, p)| {
      s := HalfPart(NO_SHAPE, h, k);
      HalfPartSafe(NO_SHAPE, h, k, FullShape(f, p));
    } else {
      s := HalfShape(f, p);
      HookStep(base, s.(preHooked := false), PREROUTING, HOOK_PRE);
    }
  }

  /** The second half, on top of a completed first half. */
  lemma OutputReaches(base: Table, f: Family, p: Params, k: nat) returns (s: Shape)
    requires Base(base) && k <= |OutputOps(f, p)|
    ensures RunOps(Realize(base, HalfShape(f, p)), OutputOps(f, p)[..k]) == Realize(base, s)
    ensures Safe(s, FullShape(f, p)) && s.ent.Some?
    ensures k == |OutputOps(f, p)| ==> s == FullShape(f, p)
    ensures s.outHooked ==> k == |OutputOps(f, p)|
  {
    var h, s0 := SecondHalf(f, p), HalfShape(f, p);
    RuleJumps(f, p);
    RunHalf(base, s0, h, k);
    HalfPartEnds(s0, h);
    if k <= |h.innerRules| + |h.outerRules| + 2 {
      s := HalfPart(s0, h, k);
      HalfPartSafe(s0, h, k, FullShape(f, p));
    } else {
      s := FullShape(f, p);
      HookStep(base, s.(outHooked := false), OUTPUT, HOOK_OUT);
    }
  }

  /** After any prefix of start's mangle commands the table is the base with a safe shape on it. */
  lemma StartReaches(base: Table, f: Family, p: Params, k: nat) returns (s: Shape)
    requires Base(base) && k <= |StartMangle(f, p)|
    ensures RunOps(base, StartMangle(f, p)[..k]) == Realize(base, s)
    ensures Safe(s, FullShape(f, p))
    ensures k == |StartMangle(f, p)| ==> s == FullShape(f, p)
    ensures k >= 1 ==> s.ent.Some?
    ensures k == 0 ==> s == NO_SHAPE
    ensures s.outHooked ==> k == |StartMangle(f, p)|
  {
    var a, b := PreroutingOps(f, p), OutputOps(f, p);
    RunPrefix(base, a, b, k);
    if k <= |a| {
      s := PreroutingReaches(base, f, p, k);
    } else {
      var s2 := PreroutingReaches(base, f, p, |a|);
      assert a[..|a|] == a;
      s := OutputReaches(base, f, p, k - |a|);
    }
  }
}
