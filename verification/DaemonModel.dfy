/**
 The daemon as a state machine (src/cgproxyd.hpp): configuration, exported environment, kernel
 state and processes, and what each message, exec event, scan and stop does to them. Handlers
 are atomic here; Attach has the step-by-step view of a single move.
 */
module DaemonModel {
  import opened Prelude
  import opened CgroupPath
  import opened Netfilter
  import opened TproxyScript
  import opened Visibility
  import opened Recovery
  import opened ConfigModel
  import opened ScriptVariables
  import opened ConfigRun
  import opened Attach

  datatype Daemon = Daemon(config: Settings, env: Variables, kernel: Kernel, world: World)

  datatype Msg =
    | ConfigJson(m: Message)
    | ConfigPath(content: Option<Message>)
    | ProxyPid(pid: int)
    | NoproxyPid(pid: int)
    | BadMsg

  /** What reaches the daemon, and what happens to processes and cgroup directories around it. */
  datatype Input =
    | Receive(msg: Msg, fs: Files, obstacles: Obstacles, faults: Faults)
    | ExecEvent(pid: int, faults: Faults)
    | Scan(faults: Faults, dirsAfter: set<string>)
    | StopSignal
    | Executes(pid: int, exe: string)
    | Appears(pid: int, proc: Proc)
    | Exits(pid: int)
    | MovedByOthers(pid: int, cg: string)
    | Directories(dirs: set<string>)

  // ---- Single processes --------------------------------------------------------------------------------

  predicate InReserved(cg: string)
  {
    BelongToCgroup(cg, PROXY_SLICE) || BelongToCgroup(cg, NOPROXY_SLICE)
  }

  /** Inside a reserved slice: at the slice or anywhere below it in the tree. */
  lemma ReservedIsSubtree(cg: string)
    ensures InReserved(cg) <==>
            Components(PROXY_SLICE) <= Components(cg) || Components(NOPROXY_SLICE) <= Components(cg)
  {
    BelongIsComponentPrefix(cg, PROXY_SLICE);
    BelongIsComponentPrefix(cg, NOPROXY_SLICE);
  }

  /** The second block of handle_pid. */
  function HandledProxy(c: Settings, w: World, pid: int, faults: Faults): (r: (World, int))
  {
    var cg := CgroupOf(w, pid);
    if ExeOf(w, pid) !in c.programProxy || cg == "" || InReserved(cg) || BelongsToSome(cg, c.cgroupProxy) then (w, 0)
    else Attached(w, pid, PROXY_SLICE, faults)
  }

  /** handle_pid: a process already in a noproxy entry falls through to the proxy block. */
  function Handled(c: Settings, w: World, pid: int, faults: Faults): (r: (World, int))
  {
    var cg := CgroupOf(w, pid);
    if ExeOf(w, pid) == "" then (w, 0)
    else if ExeOf(w, pid) in c.programNoproxy then
      if cg == "" || InReserved(cg) then (w, 0)
      else if !BelongsToSome(cg, c.cgroupNoproxy) then Attached(w, pid, NOPROXY_SLICE, faults)
      else HandledProxy(c, w, pid, faults)
    else HandledProxy(c, w, pid, faults)
  }

  /** attach to `target` would move the process. */
  predicate CanMove(w: World, pid: int, target: string, faults: Faults)
  {
    (target in w.dirs || target !in faults.unmakeable) && (pid, target) !in faults.refused
  }

  /** The program is listed and its process is neither in a reserved slice nor in an entry. */
  predicate Wants(programs: seq<string>, entries: seq<string>, exe: string, cg: string)
  {
    exe != "" && exe in programs && cg != "" && !InReserved(cg) && !BelongsToSome(cg, entries)
  }

  /** The same on tree positions: a listed, live process below no reserved slice and below no entry. */
  ghost predicate Outside(programs: seq<string>, entries: seq<string>, exe: string, cg: string)
  {
    && exe != "" && exe in programs && cg != ""
    && !(Components(PROXY_SLICE) <= Components(cg)) && !(Components(NOPROXY_SLICE) <= Components(cg))
    && forall e :: e in entries ==> !(Components(e) <= Components(cg))
  }

  lemma WantsIsOutside(programs: seq<string>, entries: seq<string>, exe: string, cg: string)
    ensures Wants(programs, entries, exe, cg) <==> Outside(programs, entries, exe, cg)
  {
    ReservedIsSubtree(cg);
    forall e ensures BelongToCgroup(cg, e) <==> Components(e) <= Components(cg) {
      BelongIsComponentPrefix(cg, e);
    }
  }

  predicate WantsNoproxy(c: Settings, exe: string, cg: string)
  {
    Wants(c.programNoproxy, c.cgroupNoproxy, exe, cg)
  }

  predicate WantsProxy(c: Settings, exe: string, cg: string)
  {
    Wants(c.programProxy, c.cgroupProxy, exe, cg)
  }

  /** The cgroup in which one of the two loops of processRunningProgram leaves a process. */
  function Passed(programs: seq<string>, entries: seq<string>, slice: string, w: World, pid: int, faults: Faults)
    : (cg: string)
  {
    var cg := CgroupOf(w, pid);
    if Wants(programs, entries, ExeOf(w, pid), cg) && CanMove(w, pid, slice, faults) then slice else cg
  }

  function PassedProcs(programs: seq<string>, entries: seq<string>, slice: string, w: World, faults: Faults)
    : (procs: map<int, Proc>)
  {
    map pid | pid in w.procs :: w.procs[pid].(cg := Passed(programs, entries, slice, w, pid, faults))
  }

  /** Directories only come, and only those that can be made. */
  predicate DirsGrow(dirs: set<string>, dirs': set<string>, faults: Faults)
  {
    dirs <= dirs' && forall d :: d in dirs' ==> d in dirs || d !in faults.unmakeable
  }

  /** The cgroup in which one handle_pid leaves a process. */
  function Settled(c: Settings, w: World, pid: int, faults: Faults): (cg: string)
  {
    var exe, cg := ExeOf(w, pid), CgroupOf(w, pid);
    if WantsNoproxy(c, exe, cg) then if CanMove(w, pid, NOPROXY_SLICE, faults) then NOPROXY_SLICE else cg
    else if WantsProxy(c, exe, cg) && CanMove(w, pid, PROXY_SLICE, faults) then PROXY_SLICE
    else cg
  }

  /** The cgroup in which the two loops of processRunningProgram leave it. */
  function Scanned(c: Settings, w: World, pid: int, faults: Faults): (cg: string)
  {
    var exe, cg := ExeOf(w, pid), CgroupOf(w, pid);
    var cg1 := if WantsNoproxy(c, exe, cg) && CanMove(w, pid, NOPROXY_SLICE, faults) then NOPROXY_SLICE else cg;
    if WantsProxy(c, exe, cg1) && CanMove(w, pid, PROXY_SLICE, faults) then PROXY_SLICE else cg1
  }

  /** What one handle_pid may leave of a process: a refused noproxy move ends it. */
  ghost predicate LeftByHandler(c: Settings, w: World, pid: int, faults: Faults, cg': string)
  {
    var exe, cg := ExeOf(w, pid), CgroupOf(w, pid);
    var first := Outside(c.programNoproxy, c.cgroupNoproxy, exe, cg);
    var second := Outside(c.programProxy, c.cgroupProxy, exe, cg);
    && (first && CanMove(w, pid, NOPROXY_SLICE, faults) ==> cg' == NOPROXY_SLICE)
    && (!first && second && CanMove(w, pid, PROXY_SLICE, faults) ==> cg' == PROXY_SLICE)
    && (first && !CanMove(w, pid, NOPROXY_SLICE, faults) ==> cg' == cg)
    && (!first && !(second && CanMove(w, pid, PROXY_SLICE, faults)) ==> cg' == cg)
  }

  /** What the two loops may leave of it: a refused noproxy move does not keep the second loop away. */
  ghost predicate LeftByScan(c: Settings, w: World, pid: int, faults: Faults, cg': string)
  {
    var exe, cg := ExeOf(w, pid), CgroupOf(w, pid);
    var first := Outside(c.programNoproxy, c.cgroupNoproxy, exe, cg) && CanMove(w, pid, NOPROXY_SLICE, faults);
    var second := Outside(c.programProxy, c.cgroupProxy, exe, cg) && CanMove(w, pid, PROXY_SLICE, faults);
    && (first ==> cg' == NOPROXY_SLICE)
    && (!first && second ==> cg' == PROXY_SLICE)
    && (!first && !second ==> cg' == cg)
  }

  lemma PlacesOfOne(c: Settings, w: World, pid: int, faults: Faults)
    ensures LeftByHandler(c, w, pid, faults, Settled(c, w, pid, faults))
    ensures LeftByScan(c, w, pid, faults, Scanned(c, w, pid, faults))
  {
    ReservedAreReserved();
    WantsIsOutside(c.programNoproxy, c.cgroupNoproxy, ExeOf(w, pid), CgroupOf(w, pid));
    WantsIsOutside(c.programProxy, c.cgroupProxy, ExeOf(w, pid), CgroupOf(w, pid));
  }

  function ScannedProcs(c: Settings, w: World, faults: Faults): (procs: map<int, Proc>)
  {
    map pid | pid in w.procs :: w.procs[pid].(cg := Scanned(c, w, pid, faults))
  }

  /** The second loop works on what the first has left. */
  lemma TwoPassesScan(c: Settings, w: World, w1: World, faults: Faults)
    requires w1.procs == PassedProcs(c.programNoproxy, c.cgroupNoproxy, NOPROXY_SLICE, w, faults)
    requires DirsGrow(w.dirs, w1.dirs, faults)
    ensures PassedProcs(c.programProxy, c.cgroupProxy, PROXY_SLICE, w1, faults) == ScannedProcs(c, w, faults)
  {
    forall pid | pid in w.procs
      ensures Passed(c.programProxy, c.cgroupProxy, PROXY_SLICE, w1, pid, faults) == Scanned(c, w, pid, faults)
    {
      assert CanMove(w1, pid, PROXY_SLICE, faults) == CanMove(w, pid, PROXY_SLICE, faults);
    }
  }

  /** pidof lists the pids that run a program, in some order. */
  ghost predicate PidofIs(pidof: string -> seq<int>, w: World)
  {
    forall path, pid :: pid in pidof(path) <==> path != "" && pid in w.procs && w.procs[pid].exe == path
  }

  // ---- The machine -------------------------------------------------------------------------------------

  /** applyConfig: clean under the environment as it is, export, start. */
  function AppliedConfig(s: Daemon, obstacles: Obstacles): (s': Daemon)
  {
    var cleaned := CleanResult(s.kernel, s.env);
    var env := Exported(s.config, s.env);
    var (dirs, _) := Prologue(env, s.world.dirs, obstacles);
    s.(env := env, kernel := ScriptResult(cleaned, env, s.world.dirs, obstacles), world := s.world.(dirs := dirs))
  }

  function LoadedAndApplied(s: Daemon, m: Message, fs: Files, obstacles: Obstacles): (s': Daemon)
  {
    if ValidMessage(m) then AppliedConfig(s.(config := Loaded(s.config, m, fs)), obstacles) else s
  }

  function Step(s: Daemon, input: Input): (s': Daemon)
  {
    match input
    case Receive(msg, fs, obstacles, faults) =>
      (match msg
       case ConfigJson(m) => LoadedAndApplied(s, m, fs, obstacles)
       case ConfigPath(content) => if content.Some? then LoadedAndApplied(s, content.value, fs, obstacles) else s
       case ProxyPid(pid) => s.(world := Attached(s.world, pid, PROXY_SLICE, faults).0)
       case NoproxyPid(pid) => s.(world := Attached(s.world, pid, NOPROXY_SLICE, faults).0)
       case BadMsg => s)
    case ExecEvent(pid, faults) => s.(world := Handled(s.config, s.world, pid, faults).0)
    case Scan(faults, dirsAfter) => s.(world := World(dirsAfter, ScannedProcs(s.config, s.world, faults)))
    case StopSignal => s.(kernel := CleanResult(s.kernel, s.env))
    case Executes(pid, exe) =>
      if pid in s.world.procs
      then s.(world := s.world.(procs := s.world.procs[pid := s.world.procs[pid].(exe := exe)]))
      else s
    case Appears(pid, proc) =>
      if pid in s.world.procs then s else s.(world := s.world.(procs := s.world.procs[pid := proc]))
    case Exits(pid) => s.(world := s.world.(procs := s.world.procs - {pid}))
    case MovedByOthers(pid, cg) => if pid in s.world.procs then s.(world := Moved(s.world, pid, cg)) else s
    case Directories(dirs) => s.(world := s.world.(dirs := dirs))
  }

  function Run(s: Daemon, inputs: seq<Input>): (s': Daemon)
  {
    if inputs == [] then s else Step(Run(s, inputs[..|inputs| - 1]), inputs[|inputs| - 1])
  }

  // ---- The kernel follows the configuration ------------------------------------------------------------

  /** The message of a configuration input that is accepted. */
  function AcceptedConfig(input: Input): (m: Option<Message>)
  {
    if !input.Receive? then None
    else if input.msg.ConfigJson? && ValidMessage(input.msg.m) then Some(input.msg.m)
    else if input.msg.ConfigPath? && input.msg.content.Some? && ValidMessage(input.msg.content.value)
    then input.msg.content
    else None
  }

  /** The parameters with which an accepted message starts the script, unless the script gives up. */
  function AppliedParams(s: Daemon, m: Message, fs: Files, obstacles: Obstacles): (p: Option<Params>)
  {
    Prologue(Exported(Loaded(s.config, m, fs), s.env), s.world.dirs, obstacles).1
  }

  /**
   The parameters of the last applied configuration: those of the last accepted message, unless
   its start gave up or the daemon was stopped since.
   */
  function InForce(s: Daemon, inputs: seq<Input>): (p: Option<Params>)
  {
    if inputs == [] then None
    else
      var before, input := inputs[..|inputs| - 1], inputs[|inputs| - 1];
      var t := Run(s, before);
      if AcceptedConfig(input).Some? then
        AppliedParams(t, AcceptedConfig(input).value, input.fs, input.obstacles)
      else if input.StopSignal? then None
      else InForce(s, before)
  }

  function Expected(base: Kernel, p: Option<Params>): (k: Kernel)
  {
    if p.Some? then StartResult(base, p.value) else base
  }

  /** Cleaning under an environment that names the marks and tables in use. */
  lemma CleaningRestores(base: Kernel, env: Variables, p: Option<Params>)
    requires KernelBase(base)
    requires p.Some? ==> NamedBy(env, p.value)
    ensures CleanResult(Expected(base, p), env) == base <==> (p.Some? ==> Undoable(base, p.value))
  {
    if p.Some? {
      StopUndoesCompleteStart(base, p.value);
      assert StopScript(ParamsOf(env, {})) == StopScript(p.value);
    }
  }

  /** The inputs that make the daemon run the clean-up. */
  predicate Cleans(input: Input)
  {
    AcceptedConfig(input).Some? || input.StopSignal?
  }

  /** Every clean-up of the run gives the base back. */
  ghost predicate CleanUpsRestore(s: Daemon, inputs: seq<Input>, base: Kernel)
  {
    inputs != [] ==>
      var before, input := inputs[..|inputs| - 1], inputs[|inputs| - 1];
      var t := Run(s, before);
      CleanUpsRestore(s, before, base) && (Cleans(input) ==> CleanResult(t.kernel, t.env) == base)
  }

  /** Every configuration that the run supersedes or stops can be undone on this base. */
  ghost predicate SupersededUndoable(s: Daemon, inputs: seq<Input>, base: Kernel)
    requires KernelBase(base)
  {
    inputs != [] ==>
      var before, input := inputs[..|inputs| - 1], inputs[|inputs| - 1];
      var p := InForce(s, before);
      SupersededUndoable(s, before, base) && (Cleans(input) && p.Some? ==> Undoable(base, p.value))
  }

  /** Only accepted configurations and the stop signal reach the kernel and the environment. */
  lemma StepKernel(t: Daemon, input: Input)
    ensures AcceptedConfig(input).Some? ==>
            Step(t, input) == LoadedAndApplied(t, AcceptedConfig(input).value, input.fs, input.obstacles)
    ensures AcceptedConfig(input).None? && !input.StopSignal? ==>
            Step(t, input).kernel == t.kernel && Step(t, input).env == t.env
  {
  }

  /** What each input leaves alone. */
  lemma StepFrame(s: Daemon, input: Input)
    ensures var t, m := Step(s, input), AcceptedConfig(input);
            && t.config == (if m.Some? then Loaded(s.config, m.value, input.fs) else s.config)
            && t.env == (if m.Some? then Exported(t.config, s.env) else s.env)
            && (!Cleans(input) ==> t.kernel == s.kernel)
            && (Cleans(input) ==> t.world.procs == s.world.procs)
            && (input.StopSignal? ==> t.world == s.world)
            && (m.Some? ==>
                  t.world.dirs ==
                  if input.obstacles.mounted && Available(Heads(t.env), s.world.dirs, input.obstacles)
                  then s.world.dirs + Heads(t.env)
                  else if input.obstacles.mounted && Available(Head(ProxyList(t.env)), s.world.dirs, input.obstacles)
                  then s.world.dirs + Head(ProxyList(t.env))
                  else s.world.dirs)
            && (input.Receive? && !input.msg.ProxyPid? && !input.msg.NoproxyPid? && m.None? ==> t == s)
  {
    StepKernel(s, input);
    if AcceptedConfig(input).Some? {
      var env := Exported(Loaded(s.config, AcceptedConfig(input).value, input.fs), s.env);
      PrologueExactly(env, s.world.dirs, input.obstacles);
    }
  }

  /** Some configuration message of the run was accepted. */
  predicate Configured(inputs: seq<Input>)
  {
    exists i :: 0 <= i < |inputs| && AcceptedConfig(inputs[i]).Some?
  }

  lemma ConfiguredSnoc(inputs: seq<Input>)
    requires inputs != []
    ensures Configured(inputs) <==>
            Configured(inputs[..|inputs| - 1]) || AcceptedConfig(inputs[|inputs| - 1]).Some?
  {
    var before := inputs[..|inputs| - 1];
    assert forall i :: 0 <= i < |before| ==> before[i] == inputs[i];
  }

  /** The environment always is the export of the current configuration over what the daemon began with. */
  lemma {:induction false} EnvironmentIsExported(s: Daemon, inputs: seq<Input>)
    ensures Run(s, inputs).env == if Configured(inputs) then Exported(Run(s, inputs).config, s.env) else s.env
    ensures !Configured(inputs) ==> Run(s, inputs).config == s.config && InForce(s, inputs) == None
    decreases |inputs|
  {
    if inputs != [] {
      EnvironmentIsExported(s, inputs[..|inputs| - 1]);
      ConfiguredSnoc(inputs);
      StepFrame(Run(s, inputs[..|inputs| - 1]), inputs[|inputs| - 1]);
    }
  }

  /** The directories that existed when the configuration in force was started. */
  function StartDirs(s: Daemon, inputs: seq<Input>): (dirs: set<string>)
  {
    if inputs == [] then s.world.dirs
    else
      var before, input := inputs[..|inputs| - 1], inputs[|inputs| - 1];
      if AcceptedConfig(input).Some? then Step(Run(s, before), input).world.dirs else StartDirs(s, before)
  }

  /** What is in force is what the current configuration and the initial environment say. */
  lemma {:induction false} InForceIsCurrent(s: Daemon, inputs: seq<Input>)
    ensures InForce(s, inputs).Some? ==>
              && Configured(inputs)
              && InForce(s, inputs).value ==
                 ParamsOf(Exported(Run(s, inputs).config, s.env), StartDirs(s, inputs))
    decreases |inputs|
  {
    if inputs != [] {
      var before, input := inputs[..|inputs| - 1], inputs[|inputs| - 1];
      var t := Run(s, before);
      InForceIsCurrent(s, before);
      EnvironmentIsExported(s, before);
      ConfiguredSnoc(inputs);
      StepFrame(t, input);
      if AcceptedConfig(input).Some? {
        PrologueExactly(Exported(Run(s, inputs).config, t.env), t.world.dirs, input.obstacles);
      }
    }
  }

  /** An accepted configuration is in force as soon as nothing obstructs the script. */
  lemma AcceptedIsInForce(s: Daemon, inputs: seq<Input>, input: Input)
    requires AcceptedConfig(input).Some?
    ensures var t, env := Run(s, inputs), Run(s, inputs + [input]).env;
            InForce(s, inputs + [input]).Some? <==>
            input.obstacles.mounted && Available(Heads(env), t.world.dirs, input.obstacles)
  {
    var t := Run(s, inputs);
    assert (inputs + [input])[..|inputs|] == inputs;
    StepFrame(t, input);
    PrologueExactly(Exported(Loaded(t.config, AcceptedConfig(input).value, input.fs), t.env), t.world.dirs,
                    input.obstacles);
  }

  /**
   Over any run, whatever messages, exec events, scans and outside changes occur, the kernel
   state is exactly the base plus the rules of the configuration in force, provided that the
   configurations superseded so far can be undone on the base; and that is exactly when every
   clean-up of the run has given the base back. Nothing of an earlier configuration survives
   then, even if its table, mark or gateway setting differed: the clean-up runs before the new
   environment is exported.
   */
  lemma {:induction false} KernelFollowsConfig(s: Daemon, inputs: seq<Input>, base: Kernel)
    requires KernelBase(base) && s.kernel == base
    ensures CleanUpsRestore(s, inputs, base) <==> SupersededUndoable(s, inputs, base)
    ensures SupersededUndoable(s, inputs, base) ==> Run(s, inputs).kernel == Expected(base, InForce(s, inputs))
    ensures SupersededUndoable(s, inputs, base) && InForce(s, inputs).Some? ==>
              NamedBy(Run(s, inputs).env, InForce(s, inputs).value)
    decreases |inputs|
  {
    if inputs != [] {
      var n := |inputs| - 1;
      var before, input := inputs[..n], inputs[n];
      KernelFollowsConfig(s, before, base);
      if SupersededUndoable(s, before, base) {
        CleaningRestores(base, Run(s, before).env, InForce(s, before));
        if SupersededUndoable(s, inputs, base) {
          KernelStepFollows(Run(s, before), input, base, InForce(s, before));
        }
      }
    }
  }

  lemma KernelStepFollows(t: Daemon, input: Input, base: Kernel, p: Option<Params>)
    requires KernelBase(base) && t.kernel == Expected(base, p)
    requires p.Some? ==> NamedBy(t.env, p.value)
    requires Cleans(input) && p.Some? ==> Undoable(base, p.value)
    ensures var q :=
              if AcceptedConfig(input).Some? then
                AppliedParams(t, AcceptedConfig(input).value, input.fs, input.obstacles)
              else if input.StopSignal? then None
              else p;
            Step(t, input).kernel == Expected(base, q) && (q.Some? ==> NamedBy(Step(t, input).env, q.value))
  {
    StepKernel(t, input);
    CleaningRestores(base, t.env, p);
    if AcceptedConfig(input).Some? {
      AppliedKernel(t, AcceptedConfig(input).value, input.fs, input.obstacles, base);
    }
  }

  lemma AppliedKernel(t: Daemon, m: Message, fs: Files, obstacles: Obstacles, base: Kernel)
    requires ValidMessage(m) && CleanResult(t.kernel, t.env) == base
    ensures var env := Exported(Loaded(t.config, m, fs), t.env);
            var p := AppliedParams(t, m, fs, obstacles);
            var s' := LoadedAndApplied(t, m, fs, obstacles);
            s'.kernel == Expected(base, p) && s'.env == env && (p.Some? ==> NamedBy(env, p.value))
  {
  }

  // ---- Explicit commands win ---------------------------------------------------------------------------

  /** An explicit command about the process, or an outside move of it. */
  predicate Touches(input: Input, pid: int)
  {
    || (input.Receive? && input.msg.ProxyPid? && input.msg.pid == pid)
    || (input.Receive? && input.msg.NoproxyPid? && input.msg.pid == pid)
    || (input.MovedByOthers? && input.pid == pid)
    || (input.Exits? && input.pid == pid)
  }

  lemma OthersUntouched(w: World, pid: int, other: int, target: string, faults: Faults)
    requires pid != other
    ensures CgroupOf(Attached(w, other, target, faults).0, pid) == CgroupOf(w, pid)
  {
  }

  lemma ReservedLeftAlone(c: Settings, w: World, pid: int, other: int, faults: Faults)
    requires InReserved(CgroupOf(w, pid))
    ensures CgroupOf(Handled(c, w, other, faults).0, pid) == CgroupOf(w, pid)
    ensures Scanned(c, w, pid, faults) == CgroupOf(w, pid)
  {
    if pid != other {
      OthersUntouched(w, pid, other, NOPROXY_SLICE, faults);
      OthersUntouched(w, pid, other, PROXY_SLICE, faults);
    }
  }

  lemma {:induction false} ReservedStays(s: Daemon, inputs: seq<Input>, pid: int)
    requires InReserved(CgroupOf(s.world, pid))
    requires forall i :: 0 <= i < |inputs| ==> !Touches(inputs[i], pid)
    ensures CgroupOf(Run(s, inputs).world, pid) == CgroupOf(s.world, pid)
    decreases |inputs|
  {
    if inputs != [] {
      var before, input := inputs[..|inputs| - 1], inputs[|inputs| - 1];
      ReservedStays(s, before, pid);
      var t := Run(s, before);
      NoProcessIsNotReserved();
      assert pid in t.world.procs;
      match input
      case Receive(msg, fs, obstacles, faults) =>
        if msg.ProxyPid? || msg.NoproxyPid? {
          OthersUntouched(t.world, pid, msg.pid, if msg.ProxyPid? then PROXY_SLICE else NOPROXY_SLICE, faults);
        }
      case ExecEvent(other, faults) => ReservedLeftAlone(t.config, t.world, pid, other, faults);
      case Scan(faults, _) => ReservedLeftAlone(t.config, t.world, pid, pid, faults);
      case _ =>
    }
  }

  /**
   A process in or below a reserved slice has its cgroup changed only by an explicit command, across
   any number of exec events, scans, reloads and other messages.
   */
  lemma ExplicitCommandsWin(s: Daemon, inputs: seq<Input>, pid: int)
    requires var cg := CgroupOf(s.world, pid);
             Components(PROXY_SLICE) <= Components(cg) || Components(NOPROXY_SLICE) <= Components(cg)
    requires forall i :: 0 <= i < |inputs| ==> !Touches(inputs[i], pid)
    ensures CgroupOf(Run(s, inputs).world, pid) == CgroupOf(s.world, pid)
  {
    ReservedIsSubtree(CgroupOf(s.world, pid));
    ReservedStays(s, inputs, pid);
  }

  lemma NoProcessIsNotReserved()
    ensures !InReserved("")
  {
    assert |"" + "/"| < |PROXY_SLICE + "/"|;
    assert |"" + "/"| < |NOPROXY_SLICE + "/"|;
  }

  lemma AttachedArrives(w: World, pid: int, target: string, faults: Faults)
    requires CgroupOf(w, pid) != "" && Attached(w, pid, target, faults).1 == 0
    ensures CgroupOf(Attached(w, pid, target, faults).0, pid) == target
  {
  }

  lemma CommandEffect(s: Daemon, pid: int, proxied: bool, fs: Files, obstacles: Obstacles, faults: Faults)
    ensures var command := Receive(if proxied then ProxyPid(pid) else NoproxyPid(pid), fs, obstacles, faults);
            Step(s, command).world == Attached(s.world, pid, if proxied then PROXY_SLICE else NOPROXY_SLICE, faults).0
  {
  }

  /** A successful command on a live process puts it into the slice, where it then stays. */
  lemma CommandSticks(s: Daemon, pid: int, proxied: bool, fs: Files, obstacles: Obstacles, faults: Faults,
                      inputs: seq<Input>)
    requires CgroupOf(s.world, pid) != ""
    requires Attached(s.world, pid, if proxied then PROXY_SLICE else NOPROXY_SLICE, faults).1 == 0
    requires forall i :: 0 <= i < |inputs| ==> !Touches(inputs[i], pid)
    ensures var command := Receive(if proxied then ProxyPid(pid) else NoproxyPid(pid), fs, obstacles, faults);
            CgroupOf(Run(Step(s, command), inputs).world, pid) == if proxied then PROXY_SLICE else NOPROXY_SLICE
  {
    var target := if proxied then PROXY_SLICE else NOPROXY_SLICE;
    var command := Receive(if proxied then ProxyPid(pid) else NoproxyPid(pid), fs, obstacles, faults);
    var t := Step(s, command);
    AttachedArrives(s.world, pid, target, faults);
    CommandEffect(s, pid, proxied, fs, obstacles, faults);
    assert InReserved(CgroupOf(t.world, pid)) by {
      ReservedAreReserved();
    }
    ReservedStays(t, inputs, pid);
  }

  // ---- The scan and the handler --------------------------------------------------------------------------

  lemma SettledIsHandled(c: Settings, w: World, pid: int, faults: Faults)
    ensures var w' := Handled(c, w, pid, faults).0;
            && w'.procs == (if pid in w.procs
                            then w.procs[pid := w.procs[pid].(cg := Settled(c, w, pid, faults))]
                            else w.procs)
            && DirsGrow(w.dirs, w'.dirs, faults)
  {
    ReservedAreReserved();
    if pid in w.procs {
      assert w.procs[pid := w.procs[pid]] == w.procs;
      assert w.procs[pid].(cg := w.procs[pid].cg) == w.procs[pid];
    }
  }

  /** The first move that handle_pid wants is possible, or it wants none. */
  predicate Succeeds(c: Settings, w: World, pid: int, faults: Faults)
  {
    var exe, cg := ExeOf(w, pid), CgroupOf(w, pid);
    if WantsNoproxy(c, exe, cg) then CanMove(w, pid, NOPROXY_SLICE, faults)
    else WantsProxy(c, exe, cg) ==> CanMove(w, pid, PROXY_SLICE, faults)
  }

  /** The return code of handle_pid, from what can be seen before the call. */
  lemma HandledSucceeds(c: Settings, w: World, pid: int, faults: Faults)
    ensures Handled(c, w, pid, faults).1 == 0 <==> Succeeds(c, w, pid, faults)
  {
    ReservedAreReserved();
  }

  lemma ReservedAreReserved()
    ensures InReserved(PROXY_SLICE) && InReserved(NOPROXY_SLICE)
  {
    BelongIsTreeOrder(PROXY_SLICE, PROXY_SLICE, PROXY_SLICE);
    BelongIsTreeOrder(NOPROXY_SLICE, NOPROXY_SLICE, NOPROXY_SLICE);
  }

  /** handle_pid once for every pid in the order given. */
  function HandledAll(c: Settings, w: World, order: seq<int>, faults: Faults): (w': World)
  {
    if order == [] then w
    else Handled(c, HandledAll(c, w, order[..|order| - 1], faults), order[|order| - 1], faults).0
  }

  lemma {:induction false} HandledAllSettles(c: Settings, w: World, order: seq<int>, faults: Faults)
    ensures var w' := HandledAll(c, w, order, faults);
            && w'.procs.Keys == w.procs.Keys
            && (forall pid :: pid in w.procs ==>
                  w'.procs[pid] ==
                  w.procs[pid].(cg := if pid in order then Settled(c, w, pid, faults) else w.procs[pid].cg))
            && DirsGrow(w.dirs, w'.dirs, faults)
    decreases |order|
  {
    if order != [] {
      var before, last := order[..|order| - 1], order[|order| - 1];
      assert order == before + [last];
      HandledAllSettles(c, w, before, faults);
      var w1 := HandledAll(c, w, before, faults);
      SettledIsHandled(c, w1, last, faults);
      SettlingIsIdempotent(c, w, w1, last, faults);
    }
  }

  /** Handling a process a second time, with more directories around, changes nothing. */
  lemma SettlingIsIdempotent(c: Settings, w: World, w1: World, pid: int, faults: Faults)
    requires ExeOf(w1, pid) == ExeOf(w, pid)
    requires CgroupOf(w1, pid) == CgroupOf(w, pid) || CgroupOf(w1, pid) == Settled(c, w, pid, faults)
    requires DirsGrow(w.dirs, w1.dirs, faults)
    ensures Settled(c, w1, pid, faults) == Settled(c, w, pid, faults)
  {
    ReservedAreReserved();
    assert CanMove(w1, pid, PROXY_SLICE, faults) == CanMove(w, pid, PROXY_SLICE, faults);
    assert CanMove(w1, pid, NOPROXY_SLICE, faults) == CanMove(w, pid, NOPROXY_SLICE, faults);
  }

  /**
   The only disagreement: listed in both programs, wanted by both blocks, refused by the first
   slice and accepted by the second. The handler returns after the refusal, the scan goes on.
   */
  predicate Contested(c: Settings, w: World, pid: int, faults: Faults)
  {
    var exe, cg := ExeOf(w, pid), CgroupOf(w, pid);
    && WantsNoproxy(c, exe, cg) && !CanMove(w, pid, NOPROXY_SLICE, faults)
    && WantsProxy(c, exe, cg) && CanMove(w, pid, PROXY_SLICE, faults)
  }

  lemma ScanAgreesUnlessContested(c: Settings, w: World, pid: int, faults: Faults)
    ensures Scanned(c, w, pid, faults) == Settled(c, w, pid, faults) <==> !Contested(c, w, pid, faults)
  {
    ReservedAreReserved();
  }

  /** One exec event for every pid in the order given. */
  function ExecEvents(order: seq<int>, faults: Faults): (inputs: seq<Input>)
  {
    seq(|order|, i requires 0 <= i < |order| => ExecEvent(order[i], faults))
  }

  lemma {:induction false} RunOfExecEvents(s: Daemon, order: seq<int>, faults: Faults)
    ensures Run(s, ExecEvents(order, faults)) == s.(world := HandledAll(s.config, s.world, order, faults))
    decreases |order|
  {
    if order != [] {
      var before := order[..|order| - 1];
      assert ExecEvents(order, faults)[..|order| - 1] == ExecEvents(before, faults);
      RunOfExecEvents(s, before, faults);
    }
  }

  /** What an exec event does: to the process as the lists and the tree say, and to nothing else. */
  lemma ExecEventPlaces(s: Daemon, pid: int, faults: Faults)
    ensures var t := Step(s, ExecEvent(pid, faults));
            && t == s.(world := t.world) && t.world.procs.Keys == s.world.procs.Keys
            && (pid in s.world.procs ==>
                  && LeftByHandler(s.config, s.world, pid, faults, t.world.procs[pid].cg)
                  && t.world.procs[pid].exe == s.world.procs[pid].exe)
            && (forall other :: other in s.world.procs && other != pid ==> t.world.procs[other] == s.world.procs[other])
            && DirsGrow(s.world.dirs, t.world.dirs, faults)
  {
    SettledIsHandled(s.config, s.world, pid, faults);
    PlacesOfOne(s.config, s.world, pid, faults);
  }

  /** The outcome of handle_pid, by the lists and the tree; below a reserved slice there is nothing to do. */
  lemma HandledPlaces(c: Settings, w: World, pid: int, faults: Faults)
    ensures var (w', code) := Handled(c, w, pid, faults);
            && (pid in w'.procs ==> LeftByHandler(c, w, pid, faults, CgroupOf(w', pid)))
            && (code == 0 <==> Succeeds(c, w, pid, faults))
    ensures var cg := CgroupOf(w, pid);
            Components(PROXY_SLICE) <= Components(cg) || Components(NOPROXY_SLICE) <= Components(cg) ==>
              Handled(c, w, pid, faults) == (w, 0)
  {
    SettledIsHandled(c, w, pid, faults);
    PlacesOfOne(c, w, pid, faults);
    HandledSucceeds(c, w, pid, faults);
    ReservedIsSubtree(CgroupOf(w, pid));
  }

  /** What a scan does: to every process as the lists and the tree say. */
  lemma ScanPlaces(s: Daemon, faults: Faults, dirsAfter: set<string>)
    ensures var t := Step(s, Scan(faults, dirsAfter));
            && t == s.(world := t.world) && t.world.procs.Keys == s.world.procs.Keys
            && forall pid :: pid in s.world.procs ==>
                 && LeftByScan(s.config, s.world, pid, faults, t.world.procs[pid].cg)
                 && t.world.procs[pid].exe == s.world.procs[pid].exe
  {
    forall pid | pid in s.world.procs
      ensures LeftByScan(s.config, s.world, pid, faults, Step(s, Scan(faults, dirsAfter)).world.procs[pid].cg)
    {
      PlacesOfOne(s.config, s.world, pid, faults);
    }
  }

  /**
   A scan, and one exec event for every running pid in any order and any number of times, leave
   the same pid -> cgroup map exactly when no process is contested; in particular whenever no
   move is refused.
   */
  lemma ScanAgreesWithHandler(s: Daemon, order: seq<int>, faults: Faults, dirsAfter: set<string>)
    requires forall pid :: pid in s.world.procs ==> pid in order
    ensures var scanned, handled := Step(s, Scan(faults, dirsAfter)), Run(s, ExecEvents(order, faults));
            && handled.world == HandledAll(s.config, s.world, order, faults)
            && (scanned.world.procs == handled.world.procs <==>
                  forall pid :: pid in s.world.procs ==> !Contested(s.config, s.world, pid, faults))
            && (faults == NO_FAULTS ==> scanned.world.procs == handled.world.procs)
  {
    RunOfExecEvents(s, order, faults);
    MapsAgree(s.config, s.world, order, faults);
  }

  lemma MapsAgree(c: Settings, w: World, order: seq<int>, faults: Faults)
    requires forall pid :: pid in w.procs ==> pid in order
    ensures HandledAll(c, w, order, faults).procs == ScannedProcs(c, w, faults) <==>
            forall pid :: pid in w.procs ==> !Contested(c, w, pid, faults)
    ensures faults == NO_FAULTS ==> HandledAll(c, w, order, faults).procs == ScannedProcs(c, w, faults)
  {
    var handled, scanned := HandledAll(c, w, order, faults).procs, ScannedProcs(c, w, faults);
    HandledAllSettles(c, w, order, faults);
    forall pid | pid in w.procs ensures handled[pid] == scanned[pid] <==> !Contested(c, w, pid, faults) {
      ScanAgreesUnlessContested(c, w, pid, faults);
      assert handled[pid] == scanned[pid] <==> handled[pid].cg == scanned[pid].cg;
    }
    assert handled.Keys == scanned.Keys;
    assert handled == scanned <==> forall pid :: pid in w.procs ==> handled[pid] == scanned[pid];
  }
}
