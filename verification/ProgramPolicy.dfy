/**
 Where the two halves meet: what handle_pid decides for a program, and what the packet filter
 then does with the packets of its process.
 */
module ProgramPolicy {
  import opened Prelude
  import opened CgroupPath
  import opened Transport
  import opened Netfilter
  import opened TproxyScript
  import opened PacketPolicy
  import opened ConfigModel
  import opened ScriptVariables
  import opened ConfigRun
  import opened Attach
  import opened DaemonModel

  /** A configuration after a load: reserved slices lead their lists and occur once. */
  predicate Normal(c: Settings)
  {
    && WellTyped(c)
    && c.cgroupProxy != [] && c.cgroupProxy[0] == PROXY_SLICE && PROXY_SLICE !in c.cgroupProxy[1..]
    && c.cgroupNoproxy != [] && c.cgroupNoproxy[0] == NOPROXY_SLICE && NOPROXY_SLICE !in c.cgroupNoproxy[1..]
  }

  /** The parents of a process's cgroup exist. */
  ghost predicate ParentsExist(w: World, pid: int)
  {
    forall e :: BelongToCgroup(CgroupOf(w, pid), e) ==> e in w.dirs
  }

  /** A packet sent by the process. */
  predicate SentBy(w: World, pid: int, k: Packet)
  {
    k.cgroup == Some(KernelPath(CgroupOf(w, pid)))
  }

  /** Every existing entry lies in the tree below an existing one that arrives, usually itself. */
  predicate Covered(entries: seq<string>, dirs: set<string>)
  {
    forall e :: e in entries && e in dirs ==> CoveredIn(entries, dirs, e)
  }

  predicate CoveredIn(entries: seq<string>, dirs: set<string>, e: string)
  {
    exists x :: Arrives(entries, x) && x in dirs && KernelPath(x) <= KernelPath(e)
  }

  /** Some entry that arrives and exists covers the packet. */
  predicate ArrivingMatch(entries: seq<string>, dirs: set<string>, k: Packet)
  {
    exists e :: Arrives(entries, e) && e in dirs && Matches(InCgroup(e), k)
  }

  /** Some entry of a configured list exists and covers the packet. */
  predicate ExistingMatch(entries: seq<string>, dirs: set<string>, k: Packet)
  {
    exists e :: e in entries && e in dirs && Matches(InCgroup(e), k)
  }

  /** A list that arrives intact covers itself. */
  lemma IntactIsCovered(entries: seq<string>, dirs: set<string>)
    requires AllValidCgroups(entries) && LastIsUnique(entries)
    ensures Covered(entries, dirs)
  {
    ArrivingEntries(entries, dirs);
    forall e | e in entries && e in dirs ensures CoveredIn(entries, dirs, e) {
      assert Arrives(entries, e);
    }
  }

  /** A packet of a process below an existing entry of a covered list matches what arrives of it. */
  lemma BelowCovered(entries: seq<string>, dirs: set<string>, cg: string, k: Packet)
    requires Covered(entries, dirs) && k.cgroup == Some(KernelPath(cg))
    requires exists e :: e in entries && e in dirs && BelongToCgroup(cg, e)
    ensures ArrivingMatch(entries, dirs, k)
  {
    var e :| e in entries && e in dirs && BelongToCgroup(cg, e);
    assert CoveredIn(entries, dirs, e);
    var x :| Arrives(entries, x) && x in dirs && KernelPath(x) <= KernelPath(e);
    BelongImpliesKernelMatch(cg, e);
    assert Matches(InCgroup(x), k);
  }

  /** The head slice arrives, and exists once the prologue has completed. */
  lemma HeadCovers(entries: seq<string>, dirs: set<string>, cg: string, k: Packet)
    requires AllValidCgroups(entries) && entries != [] && entries[0] !in entries[1..] && entries[0] in dirs
    requires BelongToCgroup(cg, entries[0]) && k.cgroup == Some(KernelPath(cg))
    ensures ArrivingMatch(entries, dirs, k)
  {
    HeadSurvives(entries, dirs);
    ReceivedFields(entries);
    BelongImpliesKernelMatch(cg, entries[0]);
    assert Arrives(entries, entries[0]) && Matches(InCgroup(entries[0]), k);
  }

  /** The protocol switches as the configuration has them. */
  predicate SwitchedOn(c: Settings, k: Packet)
  {
    match k.proto
    case Tcp => c.enableTcp
    case Udp => c.enableUdp || (c.enableDns && k.dport == 53)
    case OtherProto => false
  }

  lemma ListMeaning(v: seq<string>, dirs: set<string>, k: Packet)
    requires AllValidCgroups(v)
    ensures InSome(Entries(RuleEntries(Received(v), dirs)), k) <==> ArrivingMatch(v, dirs, k)
    ensures LastIsUnique(v) ==> (ArrivingMatch(v, dirs, k) <==> ExistingMatch(v, dirs, k))
  {
    ArrivingEntries(v, dirs);
    if ArrivingMatch(v, dirs, k) {
      var e :| Arrives(v, e) && e in dirs && Matches(InCgroup(e), k);
      assert e in Entries(RuleEntries(Received(v), dirs));
    }
  }

  /**
   What a configuration means: through export, splitting, filtering and compilation, the outgoing
   policy is that of the entries that arrive and exist, and of the configured switches. When the
   last value of each list is unique these are simply the configured entries that exist.
   Gateway, families and port arrive too.
   */
  lemma ConfigMeaning(c: Settings, env: Variables, dirs: set<string>, k: Packet)
    requires Normal(c)
    ensures var p := ParamsOf(Exported(c, env), dirs);
            && (OutgoingDiverted(p, k) <==>
                  && !k.reply && k.dstUnicast && SwitchedOn(c, k)
                  && !ArrivingMatch(c.cgroupNoproxy, dirs, k) && ArrivingMatch(c.cgroupProxy, dirs, k))
            && (LastIsUnique(c.cgroupNoproxy) ==>
                  (ArrivingMatch(c.cgroupNoproxy, dirs, k) <==> ExistingMatch(c.cgroupNoproxy, dirs, k)))
            && (LastIsUnique(c.cgroupProxy) ==>
                  (ArrivingMatch(c.cgroupProxy, dirs, k) <==> ExistingMatch(c.cgroupProxy, dirs, k)))
            && (IncomingDiverted(p, k) <==>
                  k.dstUnicast && !k.dstLocal && SwitchedOn(c, k) && (k.srcLocal || c.enableGateway))
            && Enabled(V4, p) == c.enableIpv4 && Enabled(V6, p) == c.enableIpv6
            && p.port == c.port
            && p.tableTproxy == env.tableTproxy.GetOr(c.table) && p.tableReroute == env.tableReroute.GetOr(c.table)
            && p.fwmarkTproxy == env.fwmarkTproxy.GetOr(c.fwmark)
            && p.fwmarkReroute == env.fwmarkReroute.GetOr(c.fwmark)
  {
    var p := ParamsOf(Exported(c, env), dirs);
    HeadReceived(c.cgroupNoproxy);
    HeadReceived(c.cgroupProxy);
    ListMeaning(c.cgroupNoproxy, dirs, k);
    ListMeaning(c.cgroupProxy, dirs, k);
    assert Selected(p, k) <==> SwitchedOn(c, k);
  }

  // ---- Programs and their packets ------------------------------------------------------------------

  /** The rules were started from this configuration and no cgroup directory has come since. */
  ghost predicate StartedFrom(c: Settings, env: Variables, dirs: set<string>, obstacles: Obstacles, w: World)
  {
    var (dirs', p) := Prologue(Exported(c, env), dirs, obstacles);
    Normal(c) && p.Some? && w.dirs <= dirs'
  }

  lemma HeadsExist(c: Settings, env: Variables, dirs: set<string>, obstacles: Obstacles, w: World)
    requires StartedFrom(c, env, dirs, obstacles, w)
    ensures var (dirs', p) := Prologue(Exported(c, env), dirs, obstacles);
            && NOPROXY_SLICE in dirs' && PROXY_SLICE in dirs'
            && p.value == ParamsOf(Exported(c, env), dirs')
  {
    var v := Exported(c, env);
    PrologueExactly(v, dirs, obstacles);
    HeadReceived(c.cgroupNoproxy);
    HeadReceived(c.cgroupProxy);
    assert ProxyList(v) == Received(c.cgroupProxy) && NoproxyList(v) == Received(c.cgroupNoproxy);
  }

  /** Where handle_pid leaves a process whose program is listed only in program_noproxy. */
  lemma NoproxyProgramSettles(c: Settings, w: World, pid: int, faults: Faults)
    requires ExeOf(w, pid) != "" && ExeOf(w, pid) in c.programNoproxy && ExeOf(w, pid) !in c.programProxy
    requires CgroupOf(w, pid) != "" && Succeeds(c, w, pid, faults)
    ensures var cg, cg' := CgroupOf(w, pid), CgroupOf(Handled(c, w, pid, faults).0, pid);
            || BelongToCgroup(cg', PROXY_SLICE) || BelongToCgroup(cg', NOPROXY_SLICE)
            || (cg' == cg && BelongsToSome(cg', c.cgroupNoproxy))
  {
    HandledSucceeds(c, w, pid, faults);
    ReservedAreReserved();
    BelongIsTreeOrder(NOPROXY_SLICE, NOPROXY_SLICE, NOPROXY_SLICE);
    var cg := CgroupOf(w, pid);
    if !InReserved(cg) && !BelongsToSome(cg, c.cgroupNoproxy) {
      AttachedArrives(w, pid, NOPROXY_SLICE, faults);
    }
  }

  /** The rules have a RETURN for the reserved noproxy slice and above every existing noproxy entry. */
  ghost predicate Covers(p: Params, entries: seq<string>, dirs: set<string>)
  {
    && NOPROXY_SLICE in p.noproxy
    && forall e :: e in entries && e in dirs ==> exists x :: x in p.noproxy && KernelPath(x) <= KernelPath(e)
  }

  /** For any rules that cover the noproxy entries, a noproxy-only program is not diverted, or is in /proxy.slice. */
  lemma HandledIsCovered(c: Settings, p: Params, w: World, pid: int, faults: Faults, k: Packet)
    requires Covers(p, c.cgroupNoproxy, w.dirs) && ParentsExist(w, pid)
    requires ExeOf(w, pid) != "" && ExeOf(w, pid) in c.programNoproxy && ExeOf(w, pid) !in c.programProxy
    requires CgroupOf(w, pid) != "" && Succeeds(c, w, pid, faults)
    requires SentBy(Handled(c, w, pid, faults).0, pid, k)
    ensures BelongToCgroup(CgroupOf(Handled(c, w, pid, faults).0, pid), PROXY_SLICE) || !OutgoingDiverted(p, k)
  {
    var cg' := CgroupOf(Handled(c, w, pid, faults).0, pid);
    NoproxyProgramSettles(c, w, pid, faults);
    if !BelongToCgroup(cg', PROXY_SLICE) {
      var e :| (e == NOPROXY_SLICE || (e in c.cgroupNoproxy && e in w.dirs)) && BelongToCgroup(cg', e);
      var x :| x in p.noproxy && KernelPath(x) <= KernelPath(e);
      BelongImpliesKernelMatch(cg', e);
      assert Matches(InCgroup(x), k) && x in Entries(p.noproxy);
    }
  }

  /**
   Program policy meets packet policy. If what arrives of the noproxy list covers its existing
   entries, handle_pid leaves a live process of a noproxy-only program in /proxy.slice, where an
   explicit command had put it, or none of its packets is diverted.
   */
  lemma NoproxyProgramIsNotDiverted(c: Settings, env: Variables, dirs: set<string>, obstacles: Obstacles,
                                    w: World, pid: int, faults: Faults, k: Packet)
    requires StartedFrom(c, env, dirs, obstacles, w) && ParentsExist(w, pid)
    requires Covered(c.cgroupNoproxy, Prologue(Exported(c, env), dirs, obstacles).0)
    requires ExeOf(w, pid) != "" && ExeOf(w, pid) in c.programNoproxy && ExeOf(w, pid) !in c.programProxy
    requires CgroupOf(w, pid) != "" && Succeeds(c, w, pid, faults)
    requires SentBy(Handled(c, w, pid, faults).0, pid, k)
    ensures var p := Prologue(Exported(c, env), dirs, obstacles).1.value;
            BelongToCgroup(CgroupOf(Handled(c, w, pid, faults).0, pid), PROXY_SLICE) || !OutgoingDiverted(p, k)
  {
    var (dirs', p) := Prologue(Exported(c, env), dirs, obstacles);
    ReservedSurvivePrologue(c, env, dirs, obstacles);
    HeadReceived(c.cgroupNoproxy);
    ArrivingEntries(c.cgroupNoproxy, dirs');
    forall e | e in c.cgroupNoproxy && e in w.dirs
      ensures exists x :: x in p.value.noproxy && KernelPath(x) <= KernelPath(e)
    {
      assert CoveredIn(c.cgroupNoproxy, dirs', e);
    }
    HandledIsCovered(c, p.value, w, pid, faults, k);
  }

  /**
   The coverage is needed: take any existing noproxy entry for which none that arrives stands in.
   A process of a noproxy-only program in it is left where it is, and its packets are diverted
   as soon as they are selected and the cgroup is proxied.
   */
  lemma LostEntryIsDiverted(c: Settings, env: Variables, dirs: set<string>, obstacles: Obstacles,
                            w: World, pid: int, faults: Faults, k: Packet)
    requires StartedFrom(c, env, dirs, obstacles, w) && CgroupOf(w, pid) in c.cgroupNoproxy
    requires !CoveredIn(c.cgroupNoproxy, Prologue(Exported(c, env), dirs, obstacles).0, CgroupOf(w, pid))
    requires ExeOf(w, pid) in c.programNoproxy && ExeOf(w, pid) !in c.programProxy
    requires SentBy(w, pid, k)
    ensures Handled(c, w, pid, faults) == (w, 0)
    ensures var (dirs', p) := Prologue(Exported(c, env), dirs, obstacles);
            OutgoingDiverted(p.value, k) <==>
            !k.reply && k.dstUnicast && SwitchedOn(c, k) && ArrivingMatch(c.cgroupProxy, dirs', k)
  {
    var dirs', cg := Prologue(Exported(c, env), dirs, obstacles).0, CgroupOf(w, pid);
    EntryIsLeftAlone(c, w, pid, faults);
    HeadsExist(c, env, dirs, obstacles, w);
    ConfigMeaning(c, env, dirs', k);
    if ArrivingMatch(c.cgroupNoproxy, dirs', k) {
      MatchCovers(c.cgroupNoproxy, dirs', cg, k);
    }
  }

  lemma EntryIsLeftAlone(c: Settings, w: World, pid: int, faults: Faults)
    requires CgroupOf(w, pid) in c.cgroupNoproxy && ExeOf(w, pid) !in c.programProxy
    ensures Handled(c, w, pid, faults) == (w, 0)
  {
    var cg := CgroupOf(w, pid);
    BelongIsTreeOrder(cg, cg, cg);
    assert BelongsToSome(cg, c.cgroupNoproxy);
  }

  lemma MatchCovers(entries: seq<string>, dirs: set<string>, cg: string, k: Packet)
    requires k.cgroup == Some(KernelPath(cg)) && ArrivingMatch(entries, dirs, k)
    ensures CoveredIn(entries, dirs, cg)
  {
    var x :| Arrives(entries, x) && x in dirs && Matches(InCgroup(x), k);
  }

  /** Where handle_pid leaves a process whose program is listed only in program_proxy. */
  lemma ProxyProgramSettles(c: Settings, w: World, pid: int, faults: Faults)
    requires ExeOf(w, pid) != "" && ExeOf(w, pid) in c.programProxy && ExeOf(w, pid) !in c.programNoproxy
    requires CgroupOf(w, pid) != "" && Succeeds(c, w, pid, faults)
    ensures var cg, cg' := CgroupOf(w, pid), CgroupOf(Handled(c, w, pid, faults).0, pid);
            || BelongToCgroup(cg', PROXY_SLICE) || BelongToCgroup(cg', NOPROXY_SLICE)
            || (cg' == cg && BelongsToSome(cg', c.cgroupProxy))
  {
    HandledSucceeds(c, w, pid, faults);
    BelongIsTreeOrder(PROXY_SLICE, PROXY_SLICE, PROXY_SLICE);
    var cg := CgroupOf(w, pid);
    if !InReserved(cg) && !BelongsToSome(cg, c.cgroupProxy) {
      AttachedArrives(w, pid, PROXY_SLICE, faults);
    }
  }

  /**
   The documentation ranks program_proxy above cgroup_noproxy; the rules do not. A selected packet
   of a proxy-only program is diverted exactly when no noproxy entry covers the cgroup in which
   handle_pid leaves the process, which need not be the slice.
   */
  lemma ProxyProgramIsDiverted(c: Settings, env: Variables, dirs: set<string>, obstacles: Obstacles,
                               w: World, pid: int, faults: Faults, k: Packet)
    requires StartedFrom(c, env, dirs, obstacles, w) && ParentsExist(w, pid)
    requires Covered(c.cgroupProxy, Prologue(Exported(c, env), dirs, obstacles).0)
    requires ExeOf(w, pid) != "" && ExeOf(w, pid) in c.programProxy && ExeOf(w, pid) !in c.programNoproxy
    requires CgroupOf(w, pid) != "" && Succeeds(c, w, pid, faults)
    requires SentBy(Handled(c, w, pid, faults).0, pid, k) && !k.reply && k.dstUnicast && SwitchedOn(c, k)
    ensures var (dirs', p) := Prologue(Exported(c, env), dirs, obstacles);
            OutgoingDiverted(p.value, k) <==> !ArrivingMatch(c.cgroupNoproxy, dirs', k)
  {
    var dirs' := Prologue(Exported(c, env), dirs, obstacles).0;
    var cg' := CgroupOf(Handled(c, w, pid, faults).0, pid);
    HeadsExist(c, env, dirs, obstacles, w);
    ProxyProgramSettles(c, w, pid, faults);
    ConfigMeaning(c, env, dirs', k);
    if BelongToCgroup(cg', PROXY_SLICE) {
      HeadCovers(c.cgroupProxy, dirs', cg', k);
    } else if BelongToCgroup(cg', NOPROXY_SLICE) {
      HeadCovers(c.cgroupNoproxy, dirs', cg', k);
    } else {
      BelowCovered(c.cgroupProxy, dirs', cg', k);
    }
  }

  /** Such a process: in a proxy entry, so it is left there, below a noproxy entry, so it is not proxied. */
  lemma NoproxyEntryOutranksProgram(c: Settings, env: Variables, dirs: set<string>, obstacles: Obstacles,
                                    w: World, pid: int, faults: Faults, k: Packet)
    requires StartedFrom(c, env, dirs, obstacles, w) && ParentsExist(w, pid)
    requires Covered(c.cgroupNoproxy, Prologue(Exported(c, env), dirs, obstacles).0)
    requires ExeOf(w, pid) in c.programProxy && ExeOf(w, pid) !in c.programNoproxy
    requires BelongsToSome(CgroupOf(w, pid), c.cgroupProxy) && BelongsToSome(CgroupOf(w, pid), c.cgroupNoproxy)
    requires SentBy(w, pid, k)
    ensures Handled(c, w, pid, faults) == (w, 0)
    ensures !OutgoingDiverted(Prologue(Exported(c, env), dirs, obstacles).1.value, k)
  {
    var dirs' := Prologue(Exported(c, env), dirs, obstacles).0;
    HeadsExist(c, env, dirs, obstacles, w);
    ConfigMeaning(c, env, dirs', k);
    BelowCovered(c.cgroupNoproxy, dirs', CgroupOf(w, pid), k);
  }

  /**
   The documentation ranks program_noproxy above program_proxy. For a live process outside the
   reserved slices whose program is in both lists, handle_pid follows that ranking unless the
   process is already in some cgroup_noproxy entry and in no cgroup_proxy entry: then, and only
   then, it moves the process into /proxy.slice if it can.
   */
  lemma DoublyListedProgram(c: Settings, w: World, pid: int, faults: Faults)
    requires ExeOf(w, pid) != "" && ExeOf(w, pid) in c.programNoproxy && ExeOf(w, pid) in c.programProxy
    requires CgroupOf(w, pid) != "" && !InReserved(CgroupOf(w, pid))
    ensures var cg, cg' := CgroupOf(w, pid), CgroupOf(Handled(c, w, pid, faults).0, pid);
            && (cg' == PROXY_SLICE <==>
                  && BelongsToSome(cg, c.cgroupNoproxy) && !BelongsToSome(cg, c.cgroupProxy)
                  && CanMove(w, pid, PROXY_SLICE, faults))
            && (cg' == NOPROXY_SLICE <==>
                  !BelongsToSome(cg, c.cgroupNoproxy) && CanMove(w, pid, NOPROXY_SLICE, faults))
            && (InReserved(cg') || cg' == cg)
  {
    SettledIsHandled(c, w, pid, faults);
    ReservedAreReserved();
    SlicesDiffer();
    assert CgroupOf(Handled(c, w, pid, faults).0, pid) == Settled(c, w, pid, faults);
  }

  lemma SlicesDiffer()
    ensures PROXY_SLICE != NOPROXY_SLICE
  {
    assert |PROXY_SLICE| != |NOPROXY_SLICE|;
  }

  /**
   Global proxying: with "/" among the proxy entries every packet that a process of this host
   sends is subject to the policy, whatever its cgroup.
   */
  lemma RootProxiesEverything(p: Params, k: Packet)
    requires "/" in p.proxy && k.cgroup.Some?
    ensures OutgoingDiverted(p, k) <==>
            !k.reply && !InSome(Entries(p.noproxy), k) && k.dstUnicast && Selected(p, k)
  {
    assert Components("") == [""] && "/"[1..] == "";
    assert Components("/") == ["", ""];
    assert ["", ""][1..] == [""] && [""][1..] == [];
    assert NonEmpty([""]) == [];
    assert KernelPath("/") == [];
    assert Matches(InCgroup("/"), k) && "/" in Entries(p.proxy);
  }
}
