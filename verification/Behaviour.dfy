/**
 The daemon as its users see it: at any point of any run, what happens to a packet is what the
 current configuration says. Every layer of the model takes part: messages, export, prologue,
 generated chains, routing and clean-up.
 */
module Behaviour {
  import opened Prelude
  import opened Netfilter
  import opened TproxyScript
  import opened PacketPolicy
  import opened Visibility
  import opened Recovery
  import opened Diversion
  import opened ConfigModel
  import opened DaemonModel
  import opened ProgramPolicy

  /** A load leaves the reserved slices first and once. */
  lemma LoadIsNormal(c: Settings, m: Message, fs: Files)
    requires WellTyped(c) && ValidMessage(m)
    ensures Normal(Loaded(c, m, fs))
  {
    LoadKeepsWellTyped(c, m, fs);
  }

  /** Every configuration of a run is well typed, and normal once a message was accepted. */
  lemma {:induction false} RunIsNormal(s: Daemon, inputs: seq<Input>)
    requires WellTyped(s.config)
    ensures WellTyped(Run(s, inputs).config)
    ensures Configured(inputs) ==> Normal(Run(s, inputs).config)
    decreases |inputs|
  {
    if inputs != [] {
      var before, input := inputs[..|inputs| - 1], inputs[|inputs| - 1];
      RunIsNormal(s, before);
      ConfiguredSnoc(inputs);
      StepFrame(Run(s, before), input);
      if AcceptedConfig(input).Some? {
        LoadIsNormal(Run(s, before).config, AcceptedConfig(input).value, input.fs);
      }
    }
  }

  /**
   The policy rules and routes of the configured marks and tables are there in both families; the
   names for single marks and tables, where the daemon was started with them, take precedence.
   */
  lemma ConfiguredRouting(s: Daemon, inputs: seq<Input>, base: Kernel, f: Family)
    requires KernelBase(base) && s.kernel == base
    requires SupersededUndoable(s, inputs, base) && InForce(s, inputs).Some?
    ensures var c, n := Run(s, inputs).config, NetOf(Run(s, inputs).kernel, f);
            var mark, table := s.env.fwmarkTproxy.GetOr(c.fwmark), s.env.tableTproxy.GetOr(c.table);
            var mark', table' := s.env.fwmarkReroute.GetOr(c.fwmark), s.env.tableReroute.GetOr(c.table);
            && IpRule(Some(mark), table) in n.rules && LocalDefault in RoutesIn(n.routes, table)
            && (mark' != mark ==> IpRule(Some(mark'), table') in n.rules && LocalDefault in RoutesIn(n.routes, table'))
  {
    var p := InForce(s, inputs).value;
    KernelFollowsConfig(s, inputs, base);
    InForceNumbers(s, inputs);
    StartedRule(base, p, f);
  }

  /** The numbers in force, by the current configuration. */
  lemma InForceNumbers(s: Daemon, inputs: seq<Input>)
    requires InForce(s, inputs).Some?
    ensures var p, c := InForce(s, inputs).value, Run(s, inputs).config;
            && p.port == c.port
            && p.tableTproxy == s.env.tableTproxy.GetOr(c.table) && p.tableReroute == s.env.tableReroute.GetOr(c.table)
            && p.fwmarkTproxy == s.env.fwmarkTproxy.GetOr(c.fwmark)
            && p.fwmarkReroute == s.env.fwmarkReroute.GetOr(c.fwmark)
  {
    InForceIsCurrent(s, inputs);
  }

  /** The policy in force, by the current configuration. */
  lemma InForceMeaning(s: Daemon, inputs: seq<Input>, k: Packet)
    requires WellTyped(s.config) && InForce(s, inputs).Some?
    ensures var p, c, dirs := InForce(s, inputs).value, Run(s, inputs).config, StartDirs(s, inputs);
            && Normal(c)
            && (OutgoingDiverted(p, k) <==>
                  && !k.reply && k.dstUnicast && SwitchedOn(c, k)
                  && !ArrivingMatch(c.cgroupNoproxy, dirs, k) && ArrivingMatch(c.cgroupProxy, dirs, k))
            && Enabled(V4, p) == c.enableIpv4 && Enabled(V6, p) == c.enableIpv6
  {
    InForceIsCurrent(s, inputs);
    RunIsNormal(s, inputs);
    ConfigMeaning(Run(s, inputs).config, s.env, StartDirs(s, inputs), k);
  }

  /**
   The whole system. At any point of any run at which a configuration is in force, a locally
   generated packet is delivered to the configured port, or to the transparent socket that owns
   it, exactly when the current configuration enables its family and its protocol, it is no
   reply, it goes to a unicast address, and its process is in an existing proxy entry and in no
   existing noproxy entry, as far as the entries arrive. All other packets leave the host as they
   are.
   */
  lemma ConfiguredJourney(s: Daemon, inputs: seq<Input>, base: Kernel, f: Family, k: Packet, fuel: nat)
    requires s.kernel == base && WellTyped(s.config) && fuel >= 2
    requires InForce(s, inputs).Some? && Unused(base, InForce(s, inputs).value)
    requires SupersededUndoable(s, inputs, base)
    requires var p := InForce(s, inputs).value;
             LocallyGenerated(p, k) && TablesPrivate(NetOf(base, f), p) && BaseLetsThrough(NetOf(base, f), p, k, fuel)
    ensures var c, dirs := Run(s, inputs).config, StartDirs(s, inputs);
            var enabled := if f == V4 then c.enableIpv4 else c.enableIpv6;
            var proxied := ArrivingMatch(c.cgroupProxy, dirs, k) && !ArrivingMatch(c.cgroupNoproxy, dirs, k);
            var toPort := Tproxied(if f == V4 then "127.0.0.1" else "::1", c.port);
            Journey(NetOf(Run(s, inputs).kernel, f), k, fuel) ==
            if enabled && SwitchedOn(c, k) && !k.reply && k.dstUnicast && proxied then
              Delivered(if k.hasSocket then Accepted else toPort, k.(mark := s.env.fwmarkTproxy.GetOr(c.fwmark)))
            else
              SentAway(k)
  {
    var p := InForce(s, inputs).value;
    KernelFollowsConfig(s, inputs, base);
    InForceMeaning(s, inputs, k);
    InForceNumbers(s, inputs);
    EndToEnd(base, p, f, k, fuel);
  }
}
