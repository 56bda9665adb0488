/**
 The execve tracker (execsnoop-libbpf/execsnoop.bpf.c): a bounded map of the calls in flight,
 filled when a thread enters execve and emptied when it leaves.
 */
module ExecTracker {
  import opened Prelude

  const MAX_ENTRIES: nat := 10240

  datatype Record = Record(comm: string, pid: int, tgid: int, ppid: int, uid: int)

  /** `room` is false when the kernel refuses an insertion for a reason of its own. */
  datatype Event =
    | Enter(pid: int, tgid: int, ppid: int, uid: int, room: bool)
    | Exit(pid: int, ret: int, comm: string)

  datatype State = State(records: map<int, Record>, emitted: seq<Record>)

  const INITIAL := State(map[], [])

  /** BPF_NOEXIST on a map of bounded size. */
  predicate Accepts(s: State, e: Event)
  {
    e.Enter? && e.pid !in s.records && |s.records| < MAX_ENTRIES && e.room
  }

  /** The record that an accepted entry leaves behind; comm is filled in at the exit. */
  function Entered(e: Event): (r: Record)
    requires e.Enter?
  {
    Record("", e.pid, e.tgid, e.ppid, e.uid)
  }

  function Step(s: State, e: Event): (s': State)
  {
    match e
    case Enter(pid, _, _, _, _) =>
      if Accepts(s, e) then s.(records := s.records[pid := Entered(e)]) else s
    case Exit(pid, ret, comm) =>
      if pid !in s.records then s
      else
        State(s.records - {pid}, if ret < 0 then s.emitted else s.emitted + [s.records[pid].(comm := comm)])
  }

  function Run(events: seq<Event>): (s: State)
  {
    if events == [] then INITIAL else Step(Run(events[..|events| - 1]), events[|events| - 1])
  }

  // ---- The handlers ------------------------------------------------------------------------------------

  class Tracker {
    var records: map<int, Record>
    var emitted: seq<Record>

    function Value(): (s: State)
      reads this
    {
      State(records, emitted)
    }

    constructor ()
      ensures Value() == INITIAL
    {
      records, emitted := map[], [];
    }

    method UpdateNoExist(pid: int, r: Record, room: bool) returns (ok: bool)
      modifies `records
      ensures ok <==> pid !in old(records) && |old(records)| < MAX_ENTRIES && room
      ensures records == if ok then old(records)[pid := r] else old(records)
    {
      ok := pid !in records && |records| < MAX_ENTRIES && room;
      if ok {
        records := records[pid := r];
      }
    }

    method EnterExecve(e: Event)
      requires e.Enter?
      modifies this
      ensures Value() == Step(old(Value()), e)
      ensures e.pid in records && e.pid !in old(records) <==>
                e.pid !in old(records) && |old(records)| < 10240 && e.room
      ensures e.pid in records && e.pid !in old(records) ==>
                var r := records[e.pid];
                r.pid == e.pid && r.tgid == e.tgid && r.ppid == e.ppid && r.uid == e.uid && r.comm == ""
    {
      var ok := UpdateNoExist(e.pid, Record("", 0, 0, 0, 0), e.room);
      if !ok {
        return;
      }
      var event := records[e.pid];
      records := records[e.pid := event.(pid := e.pid, tgid := e.tgid, uid := e.uid)];
      event := records[e.pid];
      records := records[e.pid := event.(ppid := e.ppid)];
      assert records == old(records)[e.pid := Entered(e)];
    }

    method ExitExecve(e: Event)
      requires e.Exit?
      modifies this
      ensures Value() == Step(old(Value()), e)
    {
      if e.pid !in records {
        return;
      }
      if e.ret >= 0 {
        records := records[e.pid := records[e.pid].(comm := e.comm)];
        emitted := emitted + [records[e.pid]];
      }
      records := records - {e.pid};
      assert records == old(records) - {e.pid};
    }
  }

  // ---- Every order of events ---------------------------------------------------------------------------

  function Accepted(events: seq<Event>, pid: int): (n: nat)
  {
    if events == [] then 0
    else
      var before, e := events[..|events| - 1], events[|events| - 1];
      Accepted(before, pid) + if Accepts(Run(before), e) && e.pid == pid then 1 else 0
  }

  /** Records thrown away because their call failed. */
  function Discarded(events: seq<Event>, pid: int): (n: nat)
  {
    if events == [] then 0
    else
      var before, e := events[..|events| - 1], events[|events| - 1];
      Discarded(before, pid) + if e.Exit? && e.pid == pid && e.ret < 0 && pid in Run(before).records then 1 else 0
  }

  function EmittedFor(emitted: seq<Record>, pid: int): (n: nat)
  {
    if emitted == [] then 0
    else EmittedFor(emitted[..|emitted| - 1], pid) + if emitted[|emitted| - 1].pid == pid then 1 else 0
  }

  lemma EmittedSnoc(emitted: seq<Record>, r: Record, pid: int)
    ensures EmittedFor(emitted + [r], pid) == EmittedFor(emitted, pid) + if r.pid == pid then 1 else 0
  {
    assert (emitted + [r])[..|emitted|] == emitted;
  }

  /** A record is filed under its own pid, and the map never outgrows its bound. */
  lemma {:induction false} RecordsAreFiled(events: seq<Event>)
    ensures forall pid :: pid in Run(events).records ==> Run(events).records[pid].pid == pid
    ensures |Run(events).records| <= 10240
    decreases |events|
  {
    if events != [] {
      var before, e := events[..|events| - 1], events[|events| - 1];
      RecordsAreFiled(before);
      if e.Exit? && e.pid in Run(before).records {
        var r := Run(before).records;
        assert (r - {e.pid}).Keys == r.Keys - {e.pid};
        assert |r - {e.pid}| == |(r - {e.pid}).Keys| && |r| == |r.Keys|;
      } else if Accepts(Run(before), e) {
        var r := Run(before).records;
        assert r[e.pid := Entered(e)].Keys == r.Keys + {e.pid};
        assert |r[e.pid := Entered(e)]| == |r[e.pid := Entered(e)].Keys| && |r| == |r.Keys|;
      }
    }
  }

  /**
   Conservation, for events in any order whatever: each accepted entry is emitted, thrown away
   by a failed exit, or still in the map.
   */
  lemma {:induction false} Conservation(events: seq<Event>, pid: int)
    ensures Accepted(events, pid) ==
            EmittedFor(Run(events).emitted, pid) + Discarded(events, pid) + if pid in Run(events).records then 1 else 0
    decreases |events|
  {
    if events != [] {
      var before, e := events[..|events| - 1], events[|events| - 1];
      Conservation(before, pid);
      RecordsAreFiled(before);
      var s := Run(before);
      if e.Exit? && e.pid in s.records && e.ret >= 0 {
        EmittedSnoc(s.emitted, s.records[e.pid].(comm := e.comm), pid);
      }
    }
  }

  /** The record says of its process what the entry `e` said. */
  predicate SaysOf(r: Record, e: Event)
  {
    e.Enter? && r.pid == e.pid && r.tgid == e.tgid && r.ppid == e.ppid && r.uid == e.uid
  }

  /** The record comes from one of the entries. */
  predicate FromEntry(events: seq<Event>, r: Record)
  {
    exists i :: 0 <= i < |events| && SaysOf(r, events[i])
  }

  /** The report was completed by a successful exit, after the entry that it comes from. */
  predicate Reported(events: seq<Event>, r: Record)
  {
    exists j :: 0 <= j < |events| && events[j].Exit? && events[j].pid == r.pid && events[j].ret >= 0
                && events[j].comm == r.comm && FromEntry(events[..j], r)
  }

  lemma FromEntrySnoc(events: seq<Event>, r: Record)
    requires events != []
    ensures FromEntry(events, r) <==> FromEntry(events[..|events| - 1], r) || SaysOf(r, events[|events| - 1])
  {
    var before := events[..|events| - 1];
    assert forall i :: 0 <= i < |before| ==> before[i] == events[i];
  }

  lemma ReportedSnoc(events: seq<Event>, r: Record)
    requires events != [] && Reported(events[..|events| - 1], r)
    ensures Reported(events, r)
  {
    var before := events[..|events| - 1];
    var j :| 0 <= j < |before| && before[j].Exit? && before[j].pid == r.pid && before[j].ret >= 0
             && before[j].comm == r.comm && FromEntry(before[..j], r);
    assert events[j] == before[j] && events[..j] == before[..j];
  }

  /**
   No invented events, in any order of them: a record repeats the pid, thread group, parent and
   user of an entry, and what is emitted was completed by a later successful exit of the same pid.
   */
  lemma {:induction false} RecordsAreGenuine(events: seq<Event>)
    ensures forall pid :: pid in Run(events).records ==> FromEntry(events, Run(events).records[pid])
    ensures forall i :: 0 <= i < |Run(events).emitted| ==> Reported(events, Run(events).emitted[i])
    decreases |events|
  {
    if events != [] {
      var n := |events| - 1;
      var before, e, s, s' := events[..n], events[n], Run(events[..n]), Run(events);
      RecordsAreGenuine(before);
      RecordsAreFiled(before);
      forall pid | pid in s'.records ensures FromEntry(events, s'.records[pid]) {
        FromEntrySnoc(events, s'.records[pid]);
      }
      forall i | 0 <= i < |s'.emitted| ensures Reported(events, s'.emitted[i]) {
        if i < |s.emitted| {
          ReportedSnoc(events, s'.emitted[i]);
        } else {
          var was := s.records[e.pid];
          var k :| 0 <= k < |before| && SaysOf(was, before[k]);
          assert SaysOf(s'.emitted[i], before[k]);
          assert FromEntry(events[..n], s'.emitted[i]);
        }
      }
    }
  }

  // ---- Alternating runs ----------------------------------------------------------------------------------

  /** The index of the last event of a pid. */
  function LastOf(events: seq<Event>, pid: int): (r: Option<nat>)
    ensures r.Some? ==> r.value < |events| && events[r.value].pid == pid
  {
    if events == [] then None
    else if events[|events| - 1].pid == pid then Some(|events| - 1)
    else LastOf(events[..|events| - 1], pid)
  }

  /** Each pid enters before it exits, and exits before it enters again. */
  predicate Alternating(events: seq<Event>)
  {
    forall i :: 0 <= i < |events| ==>
      var last := LastOf(events[..i], events[i].pid);
      if events[i].Enter? then last == None || events[last.value].Exit? else last.Some? && events[last.value].Enter?
  }

  /** The call of `pid` that is in flight, provided there was room for it when it began. */
  function InFlight(events: seq<Event>, pid: int): (r: Option<Record>)
  {
    var last := LastOf(events, pid);
    if last.Some? && events[last.value].Enter? && events[last.value].room
       && |Run(events[..last.value]).records| < MAX_ENTRIES
    then Some(Entered(events[last.value]))
    else None
  }

  /** One record for each successful exit of a call that was in flight, in the order of the exits. */
  function Expected(events: seq<Event>): (emitted: seq<Record>)
  {
    if events == [] then []
    else
      var before, e := events[..|events| - 1], events[|events| - 1];
      var call := InFlight(before, e.pid);
      if e.Exit? && e.ret >= 0 && call.Some? then Expected(before) + [call.value.(comm := e.comm)] else Expected(before)
  }

  /** What one more event does to the call in flight. */
  lemma InFlightSnoc(events: seq<Event>, pid: int)
    requires events != []
    ensures var before, e := events[..|events| - 1], events[|events| - 1];
            InFlight(events, pid) ==
            if e.pid != pid then InFlight(before, pid)
            else if e.Enter? && e.room && |Run(before).records| < MAX_ENTRIES then Some(Entered(e))
            else None
  {
    var before := events[..|events| - 1];
    var last := LastOf(before, pid);
    if events[|events| - 1].pid != pid && last.Some? {
      assert before[..last.value] == events[..last.value];
    }
  }

  lemma AlternatingPrefix(events: seq<Event>)
    requires Alternating(events) && events != []
    ensures Alternating(events[..|events| - 1])
  {
    var before := events[..|events| - 1];
    forall i | 0 <= i < |before|
      ensures var last := LastOf(before[..i], before[i].pid);
              if before[i].Enter? then last == None || before[last.value].Exit?
              else last.Some? && before[last.value].Enter?
    {
      assert before[..i] == events[..i] && before[i] == events[i];
    }
  }

  /**
   Exactness: when each pid alternates entries and exits, the map holds exactly the calls in
   flight whose insertion had room, and the emitted events are exactly those of the successful
   ones among them, each once and at its exit.
   */
  lemma {:induction false} AlternatingIsExact(events: seq<Event>)
    requires Alternating(events)
    ensures forall pid :: (pid in Run(events).records <==> InFlight(events, pid).Some?)
    ensures forall pid :: pid in Run(events).records ==> Run(events).records[pid] == InFlight(events, pid).value
    ensures Run(events).emitted == Expected(events)
    decreases |events|
  {
    if events != [] {
      var n := |events| - 1;
      var before, e := events[..n], events[n];
      AlternatingPrefix(events);
      AlternatingIsExact(before);
      assert e.Enter? ==> InFlight(before, e.pid) == None;
      forall pid
        ensures pid in Run(events).records <==> InFlight(events, pid).Some?
        ensures pid in Run(events).records ==> Run(events).records[pid] == InFlight(events, pid).value
      {
        InFlightSnoc(events, pid);
      }
    }
  }

  /** A pid whose entry found no room is not reported, even if its call succeeds. */
  lemma OverflowIsSilent(events: seq<Event>, e: Event)
    requires Alternating(events) && e.Exit? && InFlight(events, e.pid) == None
    ensures Run(events + [e]) == Run(events)
  {
    AlternatingIsExact(events);
    assert (events + [e])[..|events|] == events;
  }
}
