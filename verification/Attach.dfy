/**
 Moving a process into a cgroup (src/cgroup_attach.cpp): the atomic effect of attach, which
 the daemon's handlers use, and its single steps, interleaved with other movers.
 */
module Attach {
  import opened Prelude

  // ---- Processes and directories ---------------------------------------------------------------------

  /** An unreadable executable link or cgroup file is the empty string. */
  datatype Proc = Proc(exe: string, cg: string)

  datatype World = World(dirs: set<string>, procs: map<int, Proc>)

  function CgroupOf(w: World, pid: int): (cg: string)
  {
    if pid in w.procs then w.procs[pid].cg else ""
  }

  function ExeOf(w: World, pid: int): (exe: string)
  {
    if pid in w.procs then w.procs[pid].exe else ""
  }

  function Moved(w: World, pid: int, cg: string): (w': World)
    requires pid in w.procs
  {
    w.(procs := w.procs[pid := w.procs[pid].(cg := cg)])
  }

  /** The directories that cannot be created and the moves that the kernel refuses. */
  datatype Faults = Faults(unmakeable: set<string>, refused: set<(int, string)>)

  const NO_FAULTS := Faults({}, {})

  /** attach with nobody else moving the process meanwhile: the new world and the return code. */
  function Attached(w: World, pid: int, target: string, faults: Faults): (r: (World, int))
  {
    if target !in w.dirs && target in faults.unmakeable then (w, -1)
    else
      var w' := w.(dirs := w.dirs + {target});
      var cg := CgroupOf(w, pid);
      if cg == "" || cg == target then (w', 0)
      else if (pid, target) in faults.refused then (w', -1)
      else (Moved(w', pid, target), 0)
  }

  /** Somebody else moves the process while attach waits; the second write may be refused. */
  datatype Interference = Interference(cg: string, writable: bool)

  /** attach with its wait and second look. */
  function AttachedAmid(w: World, pid: int, target: string, faults: Faults, meanwhile: Option<Interference>)
    : (r: (World, int))
  {
    var (w', code) := Attached(w, pid, target, faults);
    var cg := CgroupOf(w, pid);
    if code != 0 || cg == "" || cg == target || meanwhile.None? then (w', code)
    else
      var later := Moved(w', pid, meanwhile.value.cg);
      if meanwhile.value.cg == "" || meanwhile.value.cg == target then (later, 0)
      else if meanwhile.value.writable then (Moved(later, pid, target), 0)
      else (later, -1)
  }

  class System {
    var dirs: set<string>
    var procs: map<int, Proc>

    function State(): (w: World)
      reads this
    {
      World(dirs, procs)
    }

    constructor (w: World)
      ensures State() == w
    {
      dirs, procs := w.dirs, w.procs;
    }

    method GetCgroup(pid: int) returns (cg: string)
      ensures cg == CgroupOf(State(), pid)
    {
      cg := if pid in procs then procs[pid].cg else "";
    }

    method WriteProcs(pid: int, target: string, writable: bool) returns (code: int)
      modifies this
      ensures code == if pid in old(procs) && writable then 0 else -1
      ensures State() == if code == 0 then Moved(old(State()), pid, target) else old(State())
    {
      if pid !in procs || !writable {
        return -1;
      }
      procs := procs[pid := procs[pid].(cg := target)];
      return 0;
    }

    /** The wait of 100 milliseconds. */
    method Sleep(pid: int, meanwhile: Option<Interference>)
      requires pid in procs
      modifies this
      ensures State() == if meanwhile.Some? then Moved(old(State()), pid, meanwhile.value.cg) else old(State())
    {
      if meanwhile.Some? {
        procs := procs[pid := procs[pid].(cg := meanwhile.value.cg)];
      }
    }

    method Attach(pid: int, target: string, faults: Faults, meanwhile: Option<Interference>) returns (code: int)
      requires target != ""
      modifies this
      ensures (State(), code) == AttachedAmid(old(State()), pid, target, faults, meanwhile)
      ensures code == 0 ==> CgroupOf(State(), pid) == target || CgroupOf(State(), pid) == ""
      ensures procs.Keys == old(procs).Keys && ExeOf(State(), pid) == old(ExeOf(State(), pid))
      ensures forall other :: other in procs && other != pid ==> procs[other] == old(procs)[other]
    {
      if target !in dirs {
        if target in faults.unmakeable {
          return -1;
        }
      }
      dirs := dirs + {target};
      var cg := GetCgroup(pid);
      if cg == "" || cg == target {
        return 0;
      }
      code := WriteProcs(pid, target, (pid, target) !in faults.refused);
      if code != 0 {
        return -1;
      }
      Sleep(pid, meanwhile);
      cg := GetCgroup(pid);
      if cg == "" {
        return 0;
      }
      if cg != target {
        code := WriteProcs(pid, target, meanwhile.Some? && meanwhile.value.writable);
        if code != 0 {
          return -1;
        }
      }
      return 0;
    }
  }

  // ---- Steps -------------------------------------------------------------------------------------------

  datatype Pc = Reading | Writing | Rereading | Rewriting | Done(ok: bool)

  datatype Attacher = Attacher(target: string, pc: Pc, writes: nat)

  /** One process, its cgroup ("" once it is gone), and the attaches in progress on it. */
  datatype Race = Race(cg: string, attachers: seq<Attacher>)

  /** An attach takes its next step, or somebody else moves the process or it exits. */
  datatype Event = Own(i: nat, writable: bool) | Foreign(cg: string)

  function Arrived(a: Attacher, pc: Pc): (r: Attacher)
  {
    a.(pc := pc)
  }

  function Wrote(a: Attacher, pc: Pc): (r: Attacher)
  {
    a.(pc := pc, writes := a.writes + 1)
  }

  /** The cgroup and the attacher after the attacher's next step. */
  function Advance(cg: string, a: Attacher, writable: bool): (r: (string, Attacher))
  {
    match a.pc
    case Reading => (cg, Arrived(a, if cg == "" || cg == a.target then Done(true) else Writing))
    case Writing => if cg != "" && writable then (a.target, Wrote(a, Rereading)) else (cg, Wrote(a, Done(false)))
    case Rereading => (cg, Arrived(a, if cg == "" || cg == a.target then Done(true) else Rewriting))
    case Rewriting => if cg != "" && writable then (a.target, Wrote(a, Done(true))) else (cg, Wrote(a, Done(false)))
    case Done(_) => (cg, a)
  }

  function RaceStep(s: Race, e: Event): (s': Race)
    ensures |s'.attachers| == |s.attachers|
  {
    match e
    case Foreign(cg) => s.(cg := cg)
    case Own(i, writable) =>
      if i < |s.attachers| then
        var (cg, a) := Advance(s.cg, s.attachers[i], writable);
        Race(cg, s.attachers[i := a])
      else s
  }

  function RaceRun(s: Race, events: seq<Event>): (s': Race)
    ensures |s'.attachers| == |s.attachers|
  {
    if events == [] then s else RaceStep(RaceRun(s, events[..|events| - 1]), events[|events| - 1])
  }

  predicate Fresh(s: Race)
  {
    forall i :: 0 <= i < |s.attachers| ==>
      s.attachers[i].pc == Reading && s.attachers[i].writes == 0 && s.attachers[i].target != ""
  }

  predicate InStep(a: Attacher)
  {
    match a.pc
    case Reading => a.writes == 0
    case Writing => a.writes == 0
    case Rereading => a.writes == 1
    case Rewriting => a.writes == 1
    case Done(_) => a.writes <= 2
  }

  lemma {:induction false} RunKeepsInStep(s: Race, events: seq<Event>, i: nat)
    requires Fresh(s) && i < |s.attachers|
    ensures var a := RaceRun(s, events).attachers[i];
            InStep(a) && a.target == s.attachers[i].target
    decreases |events|
  {
    if events != [] {
      RunKeepsInStep(s, events[..|events| - 1], i);
    }
  }

  /**
   Whatever other movers do in between: an attach that has returned success found the process
   gone, or left it in the target at its own last read or write, after at most two writes.
   `k` is the moment of that last step; nothing of the attacher changes afterwards.
   */
  lemma {:induction false} SuccessLeavesInTarget(s: Race, events: seq<Event>, i: nat) returns (k: nat)
    requires Fresh(s) && i < |s.attachers|
    requires RaceRun(s, events).attachers[i].pc == Done(true)
    ensures 1 <= k <= |events| && events[k - 1].Own? && events[k - 1].i == i
    ensures RaceRun(s, events[..k - 1]).attachers[i].pc != Done(true)
    ensures RaceRun(s, events[..k]).attachers[i] == RaceRun(s, events).attachers[i]
    ensures RaceRun(s, events[..k]).cg == s.attachers[i].target || RaceRun(s, events[..k]).cg == ""
    ensures RaceRun(s, events).attachers[i].writes <= 2
    decreases |events|
  {
    var n := |events|;
    assert events != [];
    var before := events[..n - 1];
    RunKeepsInStep(s, before, i);
    if RaceRun(s, before).attachers[i].pc == Done(true) {
      k := SuccessLeavesInTarget(s, before, i);
      assert k <= |before|;
      assert before[..k] == events[..k];
      assert before[..k - 1] == events[..k - 1];
    } else {
      k := n;
      assert events[..n] == events;
    }
  }

  /** The attach has moved the process, or has returned success. */
  predicate HasArrived(a: Attacher)
  {
    a.pc == Rereading || a.pc == Rewriting || a.pc == Done(true)
  }

  predicate IsTarget(s: Race, cg: string)
  {
    exists i :: 0 <= i < |s.attachers| && s.attachers[i].target == cg
  }

  predicate OnlyOwn(events: seq<Event>)
  {
    forall j :: 0 <= j < |events| ==> events[j].Own?
  }

  /**
   Any number of concurrent attaches of one live process and no other mover: as soon as one of
   them has returned success the process is in one of the targets, and stays in one.
   */
  lemma {:induction false} ConcurrentAttaches(s: Race, events: seq<Event>, i: nat)
    requires Fresh(s) && s.cg != "" && i < |s.attachers| && OnlyOwn(events)
    ensures RaceRun(s, events).cg != ""
    ensures HasArrived(RaceRun(s, events).attachers[i]) ==> IsTarget(s, RaceRun(s, events).cg)
    decreases |events|
  {
    if events != [] {
      var before, e := events[..|events| - 1], events[|events| - 1];
      var t := RaceRun(s, before);
      ConcurrentAttaches(s, before, i);
      if e.i < |s.attachers| {
        RunKeepsInStep(s, before, e.i);
        assert IsTarget(s, t.attachers[e.i].target);
      }
    }
  }

  // ---- Progress of an attach -----------------------------------------------------------------------------

  function OwnSteps(events: seq<Event>, i: nat): (n: nat)
  {
    if events == [] then 0
    else
      var e := events[|events| - 1];
      OwnSteps(events[..|events| - 1], i) + if e.Own? && e.i == i then 1 else 0
  }

  /** How many steps an attach has behind it at least. */
  function StepsTaken(pc: Pc): (n: nat)
  {
    match pc
    case Reading => 0
    case Writing => 1
    case Rereading => 2
    case Rewriting => 3
    case Done(_) => 4
  }

  /** Every attach is done after at most four steps of its own, whatever the others do. */
  lemma {:induction false} AttachTerminates(s: Race, events: seq<Event>, i: nat)
    requires Fresh(s) && i < |s.attachers|
    ensures StepsTaken(RaceRun(s, events).attachers[i].pc) >= if OwnSteps(events, i) < 4 then OwnSteps(events, i) else 4
    ensures OwnSteps(events, i) >= 4 ==> RaceRun(s, events).attachers[i].pc.Done?
    decreases |events|
  {
    if events != [] {
      AttachTerminates(s, events[..|events| - 1], i);
    }
  }

  /**
   An attach fails for one reason only: at some step of its own a write was refused, or came
   when the process had gone. A process moved away meanwhile is moved back instead.
   */
  lemma {:induction false} FailureHasCause(s: Race, events: seq<Event>, i: nat) returns (k: nat)
    requires Fresh(s) && i < |s.attachers|
    requires RaceRun(s, events).attachers[i].pc == Done(false)
    ensures 1 <= k <= |events| && events[k - 1].Own? && events[k - 1].i == i
    ensures !events[k - 1].writable || RaceRun(s, events[..k - 1]).cg == ""
    ensures RaceRun(s, events[..k]).attachers[i].writes == RaceRun(s, events[..k - 1]).attachers[i].writes + 1
    decreases |events|
  {
    var n := |events|;
    assert events != [];
    var before := events[..n - 1];
    if RaceRun(s, before).attachers[i].pc == Done(false) {
      k := FailureHasCause(s, before, i);
      assert k <= |before|;
      assert before[..k] == events[..k];
      assert before[..k - 1] == events[..k - 1];
    } else {
      k := n;
      assert events[..n] == events;
    }
  }

  // ---- The steps and the atomic effect -------------------------------------------------------------------

  /** attach finds or makes its directory, finds the process elsewhere and may write. */
  predicate Waits(w: World, pid: int, target: string, faults: Faults)
  {
    && (target in w.dirs || target !in faults.unmakeable)
    && CgroupOf(w, pid) != "" && CgroupOf(w, pid) != target && (pid, target) !in faults.refused
  }

  /** Two own steps, what happens during the wait if it comes to that, and two more own steps. */
  function Schedule(w: World, pid: int, target: string, faults: Faults, meanwhile: Option<Interference>)
    : (events: seq<Event>)
  {
    var first := Own(0, (pid, target) !in faults.refused);
    if Waits(w, pid, target, faults) && meanwhile.Some? then
      var second := Own(0, meanwhile.value.writable);
      [first, first, Foreign(meanwhile.value.cg), second, second]
    else
      [first, first, first, first]
  }

  /**
   The atomic effect refines the steps: with or without interference, the steps in the order of
   the program leave the process where AttachedAmid says, and report its code.
   */
  lemma AttachRefinesSteps(w: World, pid: int, target: string, faults: Faults, meanwhile: Option<Interference>)
    requires target != "" && (target in w.dirs || target !in faults.unmakeable)
    ensures var s := RaceRun(Race(CgroupOf(w, pid), [Attacher(target, Reading, 0)]),
                             Schedule(w, pid, target, faults, meanwhile));
            var (w', code) := AttachedAmid(w, pid, target, faults, meanwhile);
            s.cg == CgroupOf(w', pid) && s.attachers[0].pc == Done(code == 0)
  {
    var s0 := Race(CgroupOf(w, pid), [Attacher(target, Reading, 0)]);
    var first := Own(0, (pid, target) !in faults.refused);
    if Waits(w, pid, target, faults) && meanwhile.Some? {
      var second := Own(0, meanwhile.value.writable);
      var away := Foreign(meanwhile.value.cg);
      RunFive(s0, first, first, away, second, second);
      var s2 := RaceStep(RaceStep(s0, first), first);
      assert s2 == Race(target, [Attacher(target, Rereading, 1)]);
      assert RaceStep(s2, away) == Race(meanwhile.value.cg, [Attacher(target, Rereading, 1)]);
    } else {
      SoloSteps(w, pid, target, faults, first);
    }
  }

  lemma SoloSteps(w: World, pid: int, target: string, faults: Faults, step: Event)
    requires target != "" && (target in w.dirs || target !in faults.unmakeable)
    requires step == Own(0, (pid, target) !in faults.refused)
    ensures var s := RaceRun(Race(CgroupOf(w, pid), [Attacher(target, Reading, 0)]), [step, step, step, step]);
            var (w', code) := Attached(w, pid, target, faults);
            s.cg == CgroupOf(w', pid) && s.attachers[0].pc == Done(code == 0)
  {
    var s0 := Race(CgroupOf(w, pid), [Attacher(target, Reading, 0)]);
    var s1 := RaceStep(s0, step);
    var s2 := RaceStep(s1, step);
    var s3 := RaceStep(s2, step);
    RunFour(s0, step, step, step, step);
    assert RaceStep(s3, step).attachers[0].pc.Done?;
  }

  /** Without interleaving the steps of one attach have exactly the atomic effect. */
  lemma SoloRunIsAtomic(w: World, pid: int, target: string, faults: Faults)
    requires target != "" && (target in w.dirs || target !in faults.unmakeable)
    ensures var step := Own(0, (pid, target) !in faults.refused);
            var s := RaceRun(Race(CgroupOf(w, pid), [Attacher(target, Reading, 0)]), [step, step, step, step]);
            var (w', code) := Attached(w, pid, target, faults);
            s.cg == CgroupOf(w', pid) && s.attachers[0].pc == Done(code == 0)
  {
    SoloSteps(w, pid, target, faults, Own(0, (pid, target) !in faults.refused));
  }

  lemma RunSnoc(s: Race, events: seq<Event>, e: Event)
    ensures RaceRun(s, events + [e]) == RaceStep(RaceRun(s, events), e)
  {
    assert (events + [e])[..|events|] == events;
  }

  lemma RunFour(s: Race, a: Event, b: Event, c: Event, d: Event)
    ensures RaceRun(s, [a, b, c, d]) == RaceStep(RaceStep(RaceStep(RaceStep(s, a), b), c), d)
  {
    RunSnoc(s, [], a);
    RunSnoc(s, [a], b);
    RunSnoc(s, [a, b], c);
    RunSnoc(s, [a, b, c], d);
    assert [] + [a] == [a] && [a] + [b] == [a, b] && [a, b] + [c] == [a, b, c] && [a, b, c] + [d] == [a, b, c, d];
  }

  lemma RunFive(s: Race, a: Event, b: Event, c: Event, d: Event, e: Event)
    ensures RaceRun(s, [a, b, c, d, e]) == RaceStep(RaceStep(RaceStep(RaceStep(RaceStep(s, a), b), c), d), e)
  {
    RunFour(s, a, b, c, d);
    RunSnoc(s, [a, b, c, d], e);
    assert [a, b, c, d] + [e] == [a, b, c, d, e];
  }

  /**
   The outcome of attach from what holds before it: the directory is there afterwards unless it
   cannot be made, nothing else about directories and other processes changes, a success means
   that the process is in the target or gone, and when the second look can repair what happened
   meanwhile there is a success.
   */
  lemma AttachOutcome(w: World, pid: int, target: string, faults: Faults, meanwhile: Option<Interference>)
    requires target != ""
    ensures var (w', code) := AttachedAmid(w, pid, target, faults, meanwhile);
            var cg, cg' := CgroupOf(w, pid), CgroupOf(w', pid);
            var made := target in w.dirs || target !in faults.unmakeable;
            && w'.dirs == (if made then w.dirs + {target} else w.dirs)
            && w'.procs.Keys == w.procs.Keys && ExeOf(w', pid) == ExeOf(w, pid)
            && (forall other :: other in w.procs && other != pid ==> w'.procs[other] == w.procs[other])
            && (code == 0 || code == -1)
            && (code == 0 ==> made && (cg' == target || cg' == ""))
            && (!made || (cg != "" && cg != target && (pid, target) in faults.refused) ==> code == -1 && cg' == cg)
            && (made && (cg == "" || cg == target) ==> code == 0 && cg' == cg)
            && (made && (pid, target) !in faults.refused && (meanwhile.Some? ==> meanwhile.value.writable) ==>
                  code == 0)
  {
  }
}
