/**
 The cgproxyd class: its handlers change the configuration, the environment, the kernel and the
 processes in place. Each is proved to do what the state machine of DaemonModel says.
 */
module DaemonRun {
  import opened Prelude
  import opened CgroupPath
  import opened TproxyRun
  import opened ConfigModel
  import opened ScriptVariables
  import opened ConfigRun
  import opened Attach
  import opened DaemonModel

  const MSG_ERROR: int := 2

  class Cgproxyd {
    const config: Config
    const machine: Machine
    const system: System
    var env: Variables

    ghost predicate Valid()
      reads this, machine
    {
      machine.Valid()
    }

    function State(): (s: DaemonModel.Daemon)
      reads this, config, machine, system
    {
      Daemon(config.Value(), env, machine.State(), system.State())
    }

    constructor (env: Variables, machine: Machine, system: System)
      requires machine.Valid()
      ensures Valid() && this.machine == machine && this.system == system && fresh(config)
      ensures State() == Daemon(DEFAULTS, env, machine.State(), system.State())
    {
      var c := new Config();
      this.config, this.machine, this.system, this.env := c, machine, system, env;
    }

    /** applyConfig: the clean-up runs before the new environment is exported. */
    method ApplyConfig(obstacles: Obstacles) returns (status: int)
      requires Valid()
      modifies this, machine, system
      ensures Valid()
      ensures State() == AppliedConfig(old(State()), obstacles)
      ensures status == 0
    {
      RunStop(machine, env);
      env := config.ToEnv(env);
      var dirs := RunStart(machine, env, system.dirs, obstacles);
      system.dirs := dirs;
      return 0;
    }

    /** handle_pid */
    method HandlePid(pid: int, faults: Faults) returns (code: int)
      requires Valid()
      modifies system
      ensures Valid()
      ensures (system.State(), code) == Handled(old(State()).config, old(State()).world, pid, faults)
    {
      var path := if pid in system.procs then system.procs[pid].exe else "";
      if path == "" {
        return 0;
      }
      if path in config.programNoproxy {
        var cg := system.GetCgroup(pid);
        if cg == "" {
          return 0;
        }
        if BelongToCgroup(cg, PROXY_SLICE) || BelongToCgroup(cg, NOPROXY_SLICE) {
          return 0;
        }
        var inside := BelongToAny(cg, config.cgroupNoproxy);
        if !inside {
          code := system.Attach(pid, NOPROXY_SLICE, faults, None);
          return;
        }
      }
      if path in config.programProxy {
        var cg := system.GetCgroup(pid);
        if cg == "" {
          return 0;
        }
        if BelongToCgroup(cg, PROXY_SLICE) || BelongToCgroup(cg, NOPROXY_SLICE) {
          return 0;
        }
        var inside := BelongToAny(cg, config.cgroupProxy);
        if !inside {
          code := system.Attach(pid, PROXY_SLICE, faults, None);
          return;
        }
      }
      return 0;
    }

    /** handle_pid_static, which the exec tracker calls for every event. */
    method HandlePidStatic(pid: int, faults: Faults) returns (code: int)
      requires Valid()
      modifies system
      ensures Valid()
      ensures State() == Step(old(State()), ExecEvent(pid, faults))
      ensures code == 0 <==> Succeeds(old(State()).config, old(State()).world, pid, faults)
      ensures pid in system.procs ==>
                LeftByHandler(old(State()).config, old(State()).world, pid, faults, CgroupOf(system.State(), pid))
      ensures var cg := CgroupOf(old(State()).world, pid);
              Components(PROXY_SLICE) <= Components(cg) || Components(NOPROXY_SLICE) <= Components(cg) ==>
                system.State() == old(State()).world && code == 0
    {
      HandledPlaces(config.Value(), system.State(), pid, faults);
      code := HandlePid(pid, faults);
    }

    /** handle_msg */
    method HandleMsg(msg: Msg, fs: Files, obstacles: Obstacles, faults: Faults) returns (status: int)
      requires Valid()
      modifies this, config, machine, system
      ensures Valid()
      ensures State() == Step(old(State()), Receive(msg, fs, obstacles, faults))
      ensures msg.ConfigJson? ==> status == if ValidMessage(msg.m) then SUCCESS else PARAM_ERROR
      ensures msg.ConfigPath? ==>
                status == if msg.content.None? then FILE_ERROR
                          else if ValidMessage(msg.content.value) then SUCCESS else PARAM_ERROR
      ensures msg.ProxyPid? ==> status == Attached(old(State()).world, msg.pid, PROXY_SLICE, faults).1
      ensures msg.NoproxyPid? ==> status == Attached(old(State()).world, msg.pid, NOPROXY_SLICE, faults).1
      ensures msg.BadMsg? ==> status == MSG_ERROR
    {
      match msg
      case ConfigJson(m) =>
        status := config.Load(m, fs);
        if status == SUCCESS {
          status := ApplyConfig(obstacles);
        }
      case ConfigPath(content) =>
        status := config.LoadFile(content, fs);
        if status == SUCCESS {
          status := ApplyConfig(obstacles);
        }
      case ProxyPid(pid) =>
        status := system.Attach(pid, PROXY_SLICE, faults, None);
      case NoproxyPid(pid) =>
        status := system.Attach(pid, NOPROXY_SLICE, faults, None);
      case BadMsg =>
        status := MSG_ERROR;
    }

    /** One pid of one of the loops of processRunningProgram. */
    method ScanPid(pid: int, entries: seq<string>, slice: string, faults: Faults)
      requires slice != ""
      modifies system
      ensures var w, cg := old(system.State()), CgroupOf(old(system.State()), pid);
              system.State() ==
              if cg == "" || InReserved(cg) || BelongsToSome(cg, entries) then w else Attached(w, pid, slice, faults).0
      ensures var cg := CgroupOf(old(system.State()), pid);
              Components(PROXY_SLICE) <= Components(cg) || Components(NOPROXY_SLICE) <= Components(cg) ==>
                system.State() == old(system.State())
    {
      ReservedIsSubtree(CgroupOf(system.State(), pid));
      var cg := system.GetCgroup(pid);
      if cg == "" {
        return;
      }
      if BelongToCgroup(cg, PROXY_SLICE) || BelongToCgroup(cg, NOPROXY_SLICE) {
        return;
      }
      var inside := BelongToAny(cg, entries);
      if !inside {
        var _ := system.Attach(pid, slice, faults, None);
      }
    }

    /** One of the loops, over every program and every pid that runs it. */
    method ScanPrograms(programs: seq<string>, entries: seq<string>, slice: string, pidof: string -> seq<int>,
                        faults: Faults)
      requires InReserved(slice) && slice != "" && PidofIs(pidof, system.State())
      modifies system
      ensures system.procs == PassedProcs(programs, entries, slice, old(system.State()), faults)
      ensures DirsGrow(old(system.dirs), system.dirs, faults)
    {
      ghost var w := system.State();
      for i := 0 to |programs|
        invariant DirsGrow(w.dirs, system.dirs, faults)
        invariant Progress(programs, entries, slice, w, system.State(), faults, Running(w, programs[..i]))
      {
        var pids := pidof(programs[i]);
        ghost var done := Running(w, programs[..i]);
        for j := 0 to |pids|
          invariant DirsGrow(w.dirs, system.dirs, faults)
          invariant Progress(programs, entries, slice, w, system.State(), faults, done + Among(pids[..j]))
        {
          var pid := pids[j];
          assert pid in pidof(programs[i]);
          ghost var before := system.State();
          ScanPid(pid, entries, slice, faults);
          ScanPidProgress(programs, entries, slice, w, before, system.State(), pid, faults, done + Among(pids[..j]));
          AmongSnoc(done, pids, j);
        }
        assert pids[..|pids|] == pids;
        RunningSnoc(w, programs, i, pidof);
      }
      assert programs[..|programs|] == programs;
    }

    /** processRunningProgram */
    method ProcessRunningProgram(pidof: string -> seq<int>, faults: Faults)
      requires Valid() && PidofIs(pidof, system.State())
      modifies system
      ensures Valid()
      ensures State() == Step(old(State()), Scan(faults, system.dirs))
      ensures system.procs.Keys == old(system.procs).Keys
      ensures forall pid :: pid in system.procs ==>
                && LeftByScan(old(State()).config, old(State()).world, pid, faults, system.procs[pid].cg)
                && system.procs[pid].exe == old(system.procs)[pid].exe
      ensures DirsGrow(old(system.dirs), system.dirs, faults)
    {
      ghost var w := system.State();
      ScanPlaces(State(), faults, {});
      ReservedAreReserved();
      ScanPrograms(config.programNoproxy, config.cgroupNoproxy, NOPROXY_SLICE, pidof, faults);
      TwoPassesScan(config.Value(), w, system.State(), faults);
      ScanPrograms(config.programProxy, config.cgroupProxy, PROXY_SLICE, pidof, faults);
    }

    method Stop()
      requires Valid()
      modifies machine
      ensures Valid()
      ensures State() == Step(old(State()), StopSignal)
    {
      RunStop(machine, env);
    }
  }

  ghost function Among(pids: seq<int>): (r: set<int>)
  {
    set pid | pid in pids
  }

  lemma AmongSnoc(done: set<int>, pids: seq<int>, j: nat)
    requires j < |pids|
    ensures done + Among(pids[..j + 1]) == done + Among(pids[..j]) + {pids[j]}
  {
    assert pids[..j + 1] == pids[..j] + [pids[j]];
    assert forall pid :: pid in pids[..j + 1] <==> pid in pids[..j] || pid == pids[j];
  }

  /** The pids that run one of the programs. */
  ghost function Running(w: World, programs: seq<string>): (r: set<int>)
  {
    set pid | pid in w.procs && w.procs[pid].exe != "" && w.procs[pid].exe in programs
  }

  lemma RunningSnoc(w: World, programs: seq<string>, i: nat, pidof: string -> seq<int>)
    requires i < |programs| && PidofIs(pidof, w)
    ensures Running(w, programs[..i + 1]) == Running(w, programs[..i]) + Among(pidof(programs[i]))
  {
    assert programs[..i + 1] == programs[..i] + [programs[i]];
    forall pid
      ensures pid in Running(w, programs[..i + 1]) <==>
              pid in Running(w, programs[..i]) + Among(pidof(programs[i]))
    {
      assert pid in Among(pidof(programs[i])) <==> pid in pidof(programs[i]);
    }
  }

  /** The processes in `done` have been through the loop, the others are as they were. */
  ghost predicate Progress(programs: seq<string>, entries: seq<string>, slice: string, w: World, now: World,
                           faults: Faults, done: set<int>)
  {
    && now.procs.Keys == w.procs.Keys
    && forall pid :: pid in w.procs ==>
         now.procs[pid] ==
         if pid in done then w.procs[pid].(cg := Passed(programs, entries, slice, w, pid, faults)) else w.procs[pid]
  }

  lemma ScanPidProgress(programs: seq<string>, entries: seq<string>, slice: string, w: World, before: World, now: World,
                        pid: int, faults: Faults, done: set<int>)
    requires InReserved(slice) && slice != ""
    requires pid in w.procs && w.procs[pid].exe in programs && w.procs[pid].exe != ""
    requires DirsGrow(w.dirs, before.dirs, faults)
    requires Progress(programs, entries, slice, w, before, faults, done)
    requires var cg := CgroupOf(before, pid);
             now == if cg == "" || InReserved(cg) || BelongsToSome(cg, entries) then before
                    else Attached(before, pid, slice, faults).0
    ensures Progress(programs, entries, slice, w, now, faults, done + {pid})
    ensures DirsGrow(w.dirs, now.dirs, faults)
  {
    assert CanMove(before, pid, slice, faults) == CanMove(w, pid, slice, faults);
  }
}
