# cgproxy, modelled and verified in Dafny

cgproxy diverts the traffic of chosen cgroups to a local transparent proxy. A shell script compiles
cgroup lists, protocol switches, marks and routing tables into netfilter chains and policy routes; a
daemon keeps these in step with its configuration and moves processes between cgroups; a BPF program
reports every successful `execve` to the daemon. This project models all of them and proves what they
promise, for every input and every run. `dafny verify dfyconfig.toml` checks it.

## How the model is built

| file | models |
|---|---|
| `Netfilter.dfy` | packets, rules, tables, traversal, policy routing, and what each `iptables` / `ip` command does, failures included |
| `TproxyScript.dfy`, `TproxyRun.dfy`, `ScriptVariables.dfy` | `cgroup-tproxy.sh`: the command sequences of start and stop, the program that issues them on a kernel edited in place, and its prologue |
| `Teardown.dfy`, `Visibility.dfy`, `Recovery.dfy` | every intermediate state of start and stop; what each built-in chain does there; when stop gives the base state back |
| `PacketPolicy.dfy`, `Diversion.dfy`, `Interruption.dfy` | the declarative policy, compiler correctness, the way of a packet through OUTPUT, routing, PREROUTING and routing again, and that way at every intermediate state |
| `CgroupPath.dfy`, `Transport.dfy` | `src/common.cpp`: path order, the two joins, and the script's splitting of what they produce |
| `ConfigModel.dfy`, `ConfigRun.dfy` | `src/config.cpp`: validation, overlay, normalisation, export |
| `Attach.dfy` | `src/cgroup_attach.cpp`: the effect of attach, and its steps interleaved with other movers |
| `DaemonModel.dfy`, `DaemonRun.dfy`, `ProgramPolicy.dfy`, `Behaviour.dfy` | `src/cgproxyd.hpp`: the daemon as a state machine and as a class, where its decisions meet the packet filter, and the whole system from messages to packets |
| `ExecTracker.dfy` | `execsnoop-libbpf/execsnoop.bpf.c` |

Code that changes things in place is a class or a method with loops (`Machine`, `Config`, `System`,
`Cgproxyd`, `Tracker`), proved equal to a function on values; the theorems are about these functions.

The central idea for the script is `Teardown.Shape`: what the script has added so far to a mangle
table. Every command of start and stop is shown to take a *safe* shape to a safe shape, where a hook
is present only while the chains behind it are complete. Recovery, the absence of half-built
chains, acyclicity and compiler correctness are then statements about safe shapes.

## Main results

1. **Interrupted start** (`Recovery.InterruptedStart`). After any prefix of start with at least three
   commands, stop restores both mangle tables for all parameters, no `-X` of an existing chain fails,
   and the *whole* state comes back if and only if the base held neither of the two `ip rule`s, had
   both routing tables empty, and met a stated condition on MASQUERADE. After one or two commands
   stop sees no `TPROXY_ENT` and does nothing, so the base is there if and only if it already had
   the policy rule and, after the second command, the route.
2. **Intermediate states**, for a start interrupted anywhere and the stop after it. Each of PREROUTING
   and OUTPUT, taken alone, behaves as in the base or as in the complete policy
   (`Visibility.NoHalfBuiltPolicy`), and no packet gets stuck (`Visibility.NoPacketStuck`). Taken
   together with the routing, a local packet travels as in the base or as after a complete start,
   with one exact exception (`Interruption.JourneyMidway`): stop deletes the PREROUTING hook before
   the OUTPUT hook, and in the state between the two a packet for the proxy is looped back and
   caught by nobody.
3. **Compiler correctness** (`PacketPolicy.PreRulesCorrect`, `OutRulesCorrect`, `ListsActAsSets`) and
   **end-to-end diversion** up to delivery, through both lookups by mark (`Diversion.EndToEnd`), for
   equal and for different marks.
4. **The kernel follows the configuration** over any run of the daemon, exactly as long as each
   superseded configuration can be undone on the base (`DaemonModel.KernelFollowsConfig`), with
   `Recovery.StopUnderOtherVariablesLeaks` showing why the clean-up must come before the export.
   On top of it, **the whole system** (`Behaviour.ConfiguredJourney`): at any point of any run with a
   configuration in force, the journey of a local packet is the one that the *current* configuration
   describes, down to port and mark, and `ConfiguredRouting` has the rules and routes for it.
5. **Explicit commands win** (`DaemonModel.ExplicitCommandsWin`), in the slices and anywhere below
   them; exec events and scans place every process as the lists and the tree say
   (`ExecEventPlaces`, `ScanPlaces`), and **the scan agrees with the exec events** exactly when no
   process is contested (`ScanAgreesWithHandler`).
6. **A configuration's meaning**, from its lists and switches to single packets, for every
   configuration (`ProgramPolicy.ConfigMeaning`), and **program policy meets packet policy**:
   `NoproxyProgramIsNotDiverted` with `LostEntryIsDiverted` for the lists it does not hold of, and
   `ProxyProgramIsDiverted` as an if-and-only-if.
7. **Interleaved attach**: success leaves the process in the target (`Attach.SuccessLeavesInTarget`),
   failure has one cause (`FailureHasCause`), four own steps suffice (`AttachTerminates`), any number
   of attaches at once (`ConcurrentAttaches`), and the atomic effect refines the steps with and
   without interference (`AttachRefinesSteps`).
8. **Lists and paths**: `Transport.ListTransport` and, for every list, `Transport.ReceivedFields`;
   `CgroupPath.BelongIsComponentPrefix`; `ConfigRun.ReservedReachRules`.
9. **Configuration**: exactly which messages are accepted (`ConfigModel.ValidationExactly`),
   `ConfigFixedPoint`, and the overlay lemmas; exactly when the script goes on to start
   (`ScriptVariables.PrologueExactly`).
10. **Exec tracker**: conservation and no invented events over arbitrary event orders, exactness over
    alternating ones.

## Where the code and its documentation differ

The model follows the code.

- `readme.md` ranks `program_noproxy` above `program_proxy`. A process of a program in both lists that
  already is in a `cgroup_noproxy` entry and in no `cgroup_proxy` entry is moved to `/proxy.slice`;
  `ProgramPolicy.DoublyListedProgram` gives this exact condition.
- It also ranks `program_proxy` above `cgroup_noproxy`. A process of such a program that sits in a
  `cgroup_proxy` entry below a `cgroup_noproxy` entry (`/a` noproxy, `/a/b` proxy) is left there, and
  its packets return unmarked (`ProgramPolicy.ProxyProgramIsDiverted`, `NoproxyEntryOutranksProgram`).
- `join2str` over a vector compares values with the last element, so a list whose last value occurs
  earlier reaches the script damaged: `Transport.JoinRoundTrip` (iff), `VectorJoinLosesDelimiters`
  (by how much), `ReceivedFields` (what arrives instead), `ProgramPolicy.LostEntryIsDiverted` (what
  follows). The reserved head of a list survives even then (`ConfigRun.ReservedReachRules`).
- The text comparison of `belongToCgroup` puts nothing under `/`, while the packet filter matches
  every process there (`CgroupPath.TextAgreesWithKernel`).
- `validate` in `src/cgroup_attach.cpp` ends in `return -1` from a `bool` function and so never rejects;
  attach is therefore modelled without that check, for any pid and a non-empty target.
- A `cgroup_proxy` given as one string passes validation but is not assigned, because only arrays
  convert to a list (`ConfigModel.Overlaid` through `AsStrings`).

## What is assumed of the environment

- Chain names are `TPROXY_*`, the built-in ones, or others. A base table has only jumps to its own user
  chains (`Teardown.Base`). `ip rule add` fails on an identical rule and otherwise inserts after the
  first rule; `ip route add` fails on an identical route.
- Rules and routes of other programs match on things kept abstract (`Foreign`, `covering`) or on the mark.
- `readlink -e` prints absolute paths; `pidof PATH` lists the pids whose executable is PATH.
- A cgroup named by `test -d` exists or not; creating a directory, mounting, and moving a process may
  fail (`Obstacles`, `Faults`).

## Model

| member | source | states |
|---|---|---|
| CgroupPath.BelongToAny | src/common.cpp:98-103 | the list overload answers whether some entry is above the cgroup |
| CgroupPath.ValidCgroups | src/common.cpp:31-36 | the list overload accepts exactly lists of valid cgroups |
| CgroupPath.ValidCgroupExactly | src/common.cpp:27-29 | the valid paths are a slash followed by characters of the alphabet, given as sets |
| CgroupPath.GetCgroup | src/common.cpp:112-121 | the path of the one unified-hierarchy line is returned wherever that line stands; no such line gives the empty string |
| CgroupPath.BelongIsComponentPrefix | src/common.cpp:96 | for all strings, membership is the prefix order on '/'-separated components, empty ones kept |
| CgroupPath.BelongIsTreeOrder | src/common.cpp:96 | membership is a partial order in which two ancestors of one cgroup are comparable |
| CgroupPath.BelongImpliesKernelMatch | src/common.cpp:96 | what the daemon takes to be inside a cgroup, `-m cgroup --path` matches too, for all strings |
| CgroupPath.TextAgreesWithKernel | src/common.cpp:96 | on canonical paths both views agree, except that "/" is above nothing as text and above everything in the kernel |
| Transport.Join2Str | src/common.cpp:10-14 | the loop over a vector computes the value-comparing join |
| Transport.Join2StrArgs | src/common.cpp:16-23 | the loop over argv computes the positional join |
| Transport.VectorJoinLosesDelimiters | src/common.cpp:10-23 | the vector join is shorter than the positional one by the number of earlier occurrences of the last value |
| Transport.JoinRoundTrip | src/common.cpp:10-14 | the script's `read -a` recovers the daemon's list iff the last value does not occur earlier |
| Transport.FilterExisting | cgroup-tproxy.sh:157-169 | the filter loop leaves exactly the existing entries, in order, joined with spaces |
| Transport.RuleEntriesAreKept | cgroup-tproxy.sh:157-169 | the second word split changes nothing: rule loops see the filtered words |
| Transport.ListTransport | cgroup-tproxy.sh:42-49 | a list of valid cgroups is received intact iff its last value is unique, and then exactly its existing entries reach the rules, in order |
| Transport.HeadSurvives | cgroup-tproxy.sh:153-169 | an existing head that occurs once reaches the rules even when the join lost delimiters |
| Transport.ReceivedFields | src/common.cpp:10-14 | what the script receives of any list: its entries in order, each earlier occurrence of the last value glued to its successor |
| Transport.ArrivingEntries | cgroup-tproxy.sh:157-169 | an entry gets a rule iff it is one of these fields and exists; for a unique last value the fields are the entries |
| TproxyRun.DeleteRule | cgroup-tproxy.sh:79-80 | `-D` finds and removes the first equal rule |
| TproxyRun.EditTable | cgroup-tproxy.sh:79-90 | `-N/-A/-D/-F/-X` succeed and fail as the kernel has them, and change the table accordingly |
| TproxyRun.Machine.Run | cgroup-tproxy.sh:76-117 | one command's effect on one component of one family; a failing command changes nothing |
| TproxyRun.Machine.Start | cgroup-tproxy.sh:172-268 | the program issues exactly the start script and reaches its result |
| TproxyRun.Machine.Stop | cgroup-tproxy.sh:75-117 | the program does nothing without TPROXY_ENT and otherwise reaches the result of the stop script |
| TproxyRun.Machine.BuildPre | cgroup-tproxy.sh:184-190 | line by line, the switches select the rules of TPROXY_PRE |
| TproxyRun.Machine.BuildOut | cgroup-tproxy.sh:206-213 | the two loops append one RETURN per noproxy entry, then one jump per proxy entry |
| ScriptVariables.RunStart | cgroup-tproxy.sh:147-169 | starts iff cgroup2 is mounted and both heads exist or can be made, and then has made exactly the heads and filtered the lists; otherwise the kernel is untouched |
| ScriptVariables.PrologueExactly | cgroup-tproxy.sh:147-155 | when the script goes on, as an iff on its inputs, and which directories it leaves in either case |
| ScriptVariables.UnobstructedStart | cgroup-tproxy.sh:154-155 | on a mounted cgroup2 where every directory can be made the script always starts |
| ScriptVariables.RunStop | cgroup-tproxy.sh:127-130 | stop runs with the marks and tables of the current variables |
| ScriptVariables.StopUsesMarksAndTables | cgroup-tproxy.sh:75-117 | any two environments that name the same marks and tables stop alike, whatever their other variables and the directories |
| Netfilter.EvalAgrees | cgroup-tproxy.sh:184-215 | traversal depends only on reachable chains |
| Netfilter.NeverStuck | cgroup-tproxy.sh:172-259 | in a table with landing, acyclic jumps traversal always finishes |
| Teardown.StartReaches | cgroup-tproxy.sh:177-215 | after any prefix of start the mangle table is the base with a safe shape |
| Teardown.StopReaches | cgroup-tproxy.sh:79-108 | stop takes any shape through known shapes, in both families' orders |
| Teardown.StopFromSafe | cgroup-tproxy.sh:79-108 | from any safe shape stop restores the mangle table and no `-X` of an existing chain fails |
| Visibility.NoHalfBuiltPolicy | cgroup-tproxy.sh:79-259 | at every intermediate state of start and stop each built-in chain, taken alone, gives every packet the base or the complete result, jumps land, and no cycle appears |
| Visibility.NoPacketStuck | cgroup-tproxy.sh:75-259 | at every such state no packet gets stuck in any chain, if the base has no jump cycle |
| Interruption.JourneyMidway | cgroup-tproxy.sh:79-98 | at every such state a local packet travels as in the base or as after a complete start iff it is not for the proxy or the family is not between the deletions of its two hooks; the exception's fate |
| Interruption.FateMidway | cgroup-tproxy.sh:75-259 | which of the three fates a local packet has, by the position in start and stop |
| Visibility.MidwayShape | cgroup-tproxy.sh:75-259 | every such state, in both families, carries a safe shape |
| Recovery.InterruptedStart | cgroup-tproxy.sh:75-117 | exactly when stop restores an interrupted start, at every interruption point, the two unguarded ones included |
| Recovery.FamilyRestored | cgroup-tproxy.sh:79-117 | per family: mangle always restored, the rest iff rules, routes and MASQUERADE were free |
| Recovery.RoutingRestored | cgroup-tproxy.sh:92-95 | after any part of the set-up, rules come back iff neither was there before, routes iff both tables were empty |
| Recovery.NatRestored | cgroup-tproxy.sh:115-117 | the POSTROUTING chain comes back iff the base has no equal rule or, when start appended one, nothing else from its first occurrence on |
| Recovery.GuardProgress | cgroup-tproxy.sh:76 | TPROXY_ENT is in the IPv4 mangle table iff at least three commands of start have run |
| Recovery.StopUndoesStart | cgroup-tproxy.sh:172-268 | on an unused base stop inverts every start that created TPROXY_ENT |
| Recovery.StopUndoesCompleteStart | cgroup-tproxy.sh:75-268 | stop inverts a complete start iff rules, routes and MASQUERADE were free in both families |
| Recovery.StartedRule | cgroup-tproxy.sh:175-198 | after a complete start the policy rules and routes are there in both families, whatever was there before |
| Recovery.StopUnderOtherVariablesLeaks | cgroup-tproxy.sh:10-11 | after a stop under other marks or tables the policy rule of the old start is still there |
| PacketPolicy.EntDecides | cgroup-tproxy.sh:178-182 | TCP and UDP never return from TPROXY_ENT: ACCEPT with a socket, else TPROXY, with the tproxy mark |
| PacketPolicy.PreRulesCorrect | cgroup-tproxy.sh:178-192 | PREROUTING compiler correctness: who enters TPROXY_ENT, and that all others come back unchanged |
| PacketPolicy.MarkRulesCorrect | cgroup-tproxy.sh:200-204 | TPROXY_MARK always returns and marks exactly selected unicast packets |
| PacketPolicy.OutRulesCorrect | cgroup-tproxy.sh:200-215 | OUTPUT compiler correctness: the chain always returns and the mark is set iff the policy says so |
| PacketPolicy.ListsActAsSets | cgroup-tproxy.sh:208-213 | the result depends on the sets of entries, shrinks with noproxy and grows with proxy |
| Diversion.CompleteOutput | cgroup-tproxy.sh:194-215 | OUTPUT after a complete start: base rules first, then the policy, if the family is enabled |
| Diversion.CompletePrerouting | cgroup-tproxy.sh:174-192 | PREROUTING after a complete start |
| Diversion.CompletePostrouting | cgroup-tproxy.sh:262-264 | a gateway masquerades undecided forwarded traffic, for IPv6 only from private addresses |
| Diversion.MarkedLoopsBack | cgroup-tproxy.sh:175-198 | both marks lead to the loopback device, for equal and for different marks |
| Diversion.UnmarkedRoutesAsBefore | cgroup-tproxy.sh:175-198 | packets with neither mark are routed as in the base |
| Diversion.EndToEnd | cgroup-tproxy.sh:175-215 | a local packet is delivered to the proxy port or its transparent socket, through both lookups by mark, iff its family is enabled and the policy selects it; all others leave as before |
| ConfigModel.ResolvedIsFixed | src/common.cpp:86-94 | a resolved program path resolves to itself |
| ConfigModel.ResolvesExactly | src/common.cpp:86-94 | when a name resolves, and to what |
| ConfigModel.ResolvedInPlace | src/config.cpp:155-164 | each resolvable name has its path in the result, in order; the others leave nothing |
| ConfigModel.ValidationExactly | src/config.cpp:117-145 | a message is accepted iff its keys are known and its lists, port and switches have the stated form |
| ConfigModel.ConversionsExactly | src/config.cpp:11-14 | the values that a switch, a number or a list can be assigned from |
| ConfigModel.MergedFixed | src/config.cpp:15-19 | merging the reserved cgroup is idempotent |
| ConfigModel.KeptInPlace | src/config.cpp:15-19 | the other entries keep their places when the reserved one is taken out |
| ConfigModel.LoadKeepsWellTyped | src/config.cpp:117-145 | valid cgroups, a positive port and int ranges survive every load |
| ConfigModel.SaveRoundTrip | src/config.cpp:50-67 | a saved configuration is a valid message that assigns every field its own value |
| ConfigModel.ConfigFixedPoint | src/config.cpp:82-110 | loading what a load produced succeeds and changes no field |
| ConfigModel.LoadsOverlaySwitch | src/config.cpp:92-98 | after any messages every switch has its latest assignable value |
| ConfigModel.LoadsOverlayNumber | src/config.cpp:93-101 | after any messages every number has its latest assignable value |
| ConfigModel.LoadsOverlayList | src/config.cpp:88-107 | lists have theirs, resolved or merged once a message was accepted |
| ConfigModel.LoadsAssignLists | src/config.cpp:88-115 | list by list: resolved programs, and the reserved slice in front of the remaining entries |
| ConfigModel.RejectedChangeNothing | src/config.cpp:83-86 | rejected messages change nothing |
| ConfigModel.ReservedLeads | src/config.cpp:112-115 | each reserved slice heads its list, occurs once, and keeps the order of the others |
| ConfigRun.ValidateMessage | src/config.cpp:117-145 | the key loop accepts exactly valid messages, in whatever order it visits them |
| ConfigRun.GetRealExistPath | src/common.cpp:86-94 | existing absolute names are kept, others looked up, resolved and checked |
| ConfigRun.ToRealProgramPath | src/config.cpp:155-164 | the loop keeps the resolvable programs, resolved, in order |
| ConfigRun.MergeReserved | src/config.cpp:15-19 | erase and insert give the reserved entry first and once |
| ConfigRun.Config.Load | src/config.cpp:82-110 | validation is all or nothing; an accepted message is assigned field by field and normalised |
| ConfigRun.Config.LoadFile | src/config.cpp:69-80 | a file that cannot be opened changes nothing and reports FILE_ERROR |
| ConfigRun.Config.ToEnv | src/config.cpp:23-39 | all fifteen variables, each with its field's value, the four lists joined by ':'; the names for single marks and tables stay as they were |
| ConfigRun.ReservedReachRules | cgroup-tproxy.sh:153-213 | every completed start has a RETURN rule for /noproxy.slice and a marking rule for /proxy.slice |
| ConfigRun.DefaultsAgree | src/config.h:20-31 | the daemon's defaults and the script's defaults mean the same, and which numbers they are |
| Attach.System.Attach | src/cgroup_attach.cpp:29-74 | mkdir, read, write, wait, re-read and re-write; success means that the process is in the target or gone, and no other process is touched |
| Attach.AttachRefinesSteps | src/cgroup_attach.cpp:55-73 | with or without interference the program's steps leave the process where the atomic effect says, with its code |
| Attach.AttachOutcome | src/cgroup_attach.cpp:43-73 | directories, other processes, and success or failure, from what holds before the call |
| Attach.System.WriteProcs | src/cgroup_attach.cpp:76-92 | a write moves a live process or fails without effect |
| Attach.SuccessLeavesInTarget | src/cgroup_attach.cpp:55-73 | for every interleaving a successful attach found the process gone or left it in the target at its last own access, after at most two writes |
| Attach.FailureHasCause | src/cgroup_attach.cpp:63-73 | for every interleaving a failed attach had a write refused or came too late |
| Attach.AttachTerminates | src/cgroup_attach.cpp:55-73 | every attach is done after at most four own steps |
| Attach.ConcurrentAttaches | src/cgroup_attach.cpp:55-73 | concurrent attaches with no other mover leave the process in one of the targets once one has succeeded |
| Attach.SoloRunIsAtomic | src/cgroup_attach.cpp:55-73 | without interleaving the steps have the atomic effect |
| DaemonModel.KernelFollowsConfig | src/cgproxyd.hpp:187-199 | over any run the kernel is the base plus the rules of the configuration in force, if each superseded one can be undone on the base; iff so, every clean-up gives the base back |
| DaemonModel.CleaningRestores | src/cgproxyd.hpp:327-331 | the clean-up under the exported environment gives the base back iff the configuration can be undone on it |
| DaemonModel.ExplicitCommandsWin | src/cgproxyd.hpp:101-130 | a process in a reserved slice or below it in the tree is moved only by explicit commands, across any run |
| DaemonModel.ReservedIsSubtree | src/cgproxyd.hpp:101-106 | "in a reserved slice" means at the slice or below it, component by component |
| DaemonModel.CommandSticks | src/cgproxyd.hpp:200-211 | a successful command puts a live process into the slice, where it stays |
| DaemonModel.HandledAllSettles | src/cgproxyd.hpp:83-142 | handle_pid on any sequence of pids settles each listed process once and touches no other |
| DaemonModel.ScanAgreesWithHandler | src/cgproxyd.hpp:263-299 | a scan step and a run of exec events for every pid leave the same pid to cgroup map iff no process is contested, so always when no move is refused |
| DaemonModel.HandledPlaces | src/cgproxyd.hpp:83-142 | where handle_pid leaves the process, by lists and tree positions, and its code; below a reserved slice it does nothing |
| DaemonModel.ExecEventPlaces | src/cgproxyd.hpp:83-142 | an exec event places its process so and touches nothing else |
| DaemonModel.ScanPlaces | src/cgproxyd.hpp:263-299 | a scan places every process by lists and tree positions and touches nothing else |
| DaemonModel.StepFrame | src/cgproxyd.hpp:174-220 | which part of the daemon each input leaves alone; rejected messages change nothing |
| DaemonModel.InForceIsCurrent | src/cgproxyd.hpp:327-334 | what is in force is what the current configuration and the initial environment say |
| DaemonModel.AcceptedIsInForce | src/cgproxyd.hpp:187-199 | an accepted configuration is in force iff nothing obstructs the script |
| Behaviour.ConfiguredJourney | src/cgproxyd.hpp:187-199 | at any point of any run with a configuration in force, a local packet is delivered iff the current configuration says so, to its port and with its mark; all others leave as they are |
| Behaviour.ConfiguredRouting | src/config.cpp:36-37 | the rules and routes of the configured table and mark are there in both families |
| DaemonRun.Cgproxyd.ApplyConfig | src/cgproxyd.hpp:327-334 | clean under the old environment, export, start |
| DaemonRun.Cgproxyd.HandlePid | src/cgproxyd.hpp:83-142 | new world and return code, including the fall-through from the noproxy block; `HandledPlaces` says what they are |
| DaemonRun.Cgproxyd.HandlePidStatic | src/cgproxyd.hpp:75-81 | an exec event leaves the process where lists and tree positions say, and does nothing at or below a reserved slice |
| DaemonRun.Cgproxyd.HandleMsg | src/cgproxyd.hpp:174-220 | each message type does its step of the state machine; status codes, PARAM_ERROR and FILE_ERROR included |
| DaemonRun.Cgproxyd.ScanPrograms | src/cgproxyd.hpp:265-281 | one of the nested loops moves exactly the processes that want it, whatever the order and repetition |
| DaemonRun.Cgproxyd.ProcessRunningProgram | src/cgproxyd.hpp:263-299 | both loops together do the scan step and leave every process where lists and tree positions say |
| DaemonRun.Cgproxyd.Stop | src/cgproxyd.hpp:336-340 | stop cleans under the exported environment |
| ProgramPolicy.ConfigMeaning | cgroup-tproxy.sh:153-215 | from any configuration to packets: outgoing traffic is diverted iff the configured switches and the arriving, existing noproxy and proxy entries say so, which are the configured ones for intact lists; gateway, families, port, table and mark arrive |
| ProgramPolicy.IntactIsCovered | src/common.cpp:10-14 | what arrives of a list whose last value is unique covers its existing entries |
| ProgramPolicy.HandledIsCovered | src/cgproxyd.hpp:94-116 | under any rules that cover the noproxy slice and the existing noproxy entries, a noproxy-only program ends in /proxy.slice by command or is not diverted |
| ProgramPolicy.NoproxyProgramIsNotDiverted | src/cgproxyd.hpp:94-116 | after a successful handle_pid a noproxy-only program is in /proxy.slice by command or none of its packets is diverted, if what arrives of the list covers its existing entries |
| ProgramPolicy.DoublyListedProgram | src/cgproxyd.hpp:107-139 | exactly when a program in both lists ends in either slice, with refusals |
| ProgramPolicy.ProxyProgramIsDiverted | src/cgproxyd.hpp:118-139 | a selected packet of a proxy-only program is diverted iff no noproxy entry covers the cgroup in which handle_pid leaves it |
| ProgramPolicy.NoproxyEntryOutranksProgram | readme.md:162 | a process of such a program in a proxy entry below a noproxy entry is left there and never diverted |
| ProgramPolicy.LostEntryIsDiverted | src/common.cpp:10-14 | any noproxy entry for which no arriving entry stands in: the daemon leaves its processes there, and their selected packets are diverted iff the cgroup is proxied |
| ProgramPolicy.RootProxiesEverything | readme.md:177 | "/" as a proxy entry subjects every local packet to the policy |
| ExecTracker.Tracker.EnterExecve | execsnoop-libbpf/execsnoop.bpf.c:46-71 | the insertion and the in-place updates together record the entry, or nothing |
| ExecTracker.Tracker.ExitExecve | execsnoop-libbpf/execsnoop.bpf.c:74-89 | a recorded call is emitted unless it failed, and removed |
| ExecTracker.RecordsAreFiled | execsnoop-libbpf/execsnoop.bpf.c:31-36 | records are filed under their own pid and never exceed 10240 |
| ExecTracker.RecordsAreGenuine | execsnoop-libbpf/execsnoop.bpf.c:57-88 | in any order of events, a record repeats the ids of an entry, and what is emitted was completed by a later successful exit |
| ExecTracker.Conservation | execsnoop-libbpf/execsnoop.bpf.c:46-89 | in any order of events, accepted entries are emitted, discarded by failed exits, or still recorded |
| ExecTracker.AlternatingIsExact | execsnoop-libbpf/execsnoop.bpf.c:57-88 | on alternating runs the map is exactly the accepted calls in flight and the output exactly the successful ones, in exit order |
| ExecTracker.OverflowIsSilent | execsnoop-libbpf/execsnoop.bpf.c:57-80 | on alternating runs a call that found no room is not reported |

## Left out

- Mounting and unmounting cgroup2 beyond one flag, and the sysctl forwarding switches, which stop does not restore.
- The comparison of the two marks as text: marks and tables are numbers here, so `0x9973` and `39283` count as equal, and a malformed number does not make a command fail.
- A mark of 0, which `ip rule` would take to match every packet: a rule matches exactly its mark.
- The kernel's own check against jump loops: no command issued here closes one, as `Visibility.NoHalfBuiltPolicy` shows.
- Pathname expansion of unquoted list entries: valid cgroups contain no pattern characters.
- A script killed while the daemon waits for it: `DaemonModel` has starts that complete or give up before their first command; `InterruptedStart` covers the script by itself.
- Diversion.EndToEnd: assumes that the rules and routes of other programs let this packet pass; otherwise it depends on them.
- Interruption.JourneyMidway: makes the same assumption about other programs.
- Behaviour.ConfiguredJourney: makes it too, and takes marks, rules and tables that the base does not use; `ConfiguredRouting` does without.
- ProgramPolicy.ProxyProgramIsDiverted: takes a cgroup_proxy list of which what arrives covers the existing entries; `ConfigMeaning` answers for all others.
- JSON text, floating-point numbers in int fields, and which error code an exception produces: a rejected message has one code here.
- Within one event, a refusal of a move is a property of the pid and the target, so repeated attempts in one scan fare alike.
- Handlers running at the same time: the socket and execsnoop threads share no lock; runs take handlers as atomic, and only attach is interleaved.
- Sockets, threads, dlopen, the lock file, signals other than as one stop step, argument parsing, logging.
- The kernel-module and bcc variants of the exec tracker, which have the same logic, and packaging.
