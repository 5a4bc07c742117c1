/**
 The supervisor of the control-loop process (POSIX branch), against an environment in which
 processes exit, process ids are reused, heartbeats appear and the clock goes on between any
 two observations. Times are in milliseconds.
 */
module Supervisor {
  import opened Prelude

  type Id = string

  datatype BeatStatus = BeatPass | BeatStarted | BeatFail | BeatOther

  /** `writtenAt` is absent when the time cannot be read. */
  datatype Heartbeat = Heartbeat(pid: nat, writtenAt: Option<int>, status: BeatStatus)

  /** A running process; `serial` counts the processes the supervisor has started. */
  datatype Process = Foreign | Ours(serial: nat)

  /** The state file; `interval` is absent when it cannot be read as a number. */
  datatype Record = Record(pid: nat, endpoint: Id, interval: Option<int>)

  datatype SignalKind = Terminate | Kill

  /** What a signal is sent for: the heartbeat that justifies it and when that was read. */
  datatype Warrant = Warrant(kind: SignalKind, pid: nat, record: Record, beat: Option<Heartbeat>, readAt: int)

  /** A signal that was sent, the process it reached, and how many events had happened by then. */
  datatype Signal = Signal(warrant: Warrant, victim: Process, at: nat)

  datatype Action = Exit(pid: nat) | Appear(pid: nat) | Beat(beat: Option<Heartbeat>) | Pass(millis: nat)

  datatype Event = Happened(action: Action) | Spawned(pid: nat)

  /** `schedule` says what the environment does at each of the coming observations; `history` what happened. */
  datatype World = World(
    processes: map<nat, Process>, beat: Option<Heartbeat>, clock: int, record: Option<Record>,
    started: nat, signals: seq<Signal>, schedule: seq<seq<Action>>, history: seq<Event>)

  // ----------------------------------------------------------------- environment

  /** The environment never starts one of our processes, writes the state file or sends our signals. */
  predicate Later(w: World, r: World) {
    && r.record == w.record && r.started == w.started && r.signals == w.signals
    && forall pid | pid in r.processes && r.processes[pid].Ours? ::
         pid in w.processes && w.processes[pid] == r.processes[pid]
  }

  function Act(w: World, a: Action): (r: World)
    ensures r.clock >= w.clock && Later(w, r)
  {
    var n := w.(history := w.history + [Happened(a)]);
    match a
    case Exit(pid) => n.(processes := w.processes - {pid})
    case Appear(pid) => if pid in w.processes then n else n.(processes := w.processes[pid := Foreign])
    case Beat(beat) => n.(beat := beat)
    case Pass(millis) => n.(clock := w.clock + millis)
  }

  function ActAll(w: World, actions: seq<Action>): (r: World)
    ensures r.clock >= w.clock && Later(w, r)
  {
    if actions == [] then w else Act(ActAll(w, actions[..|actions| - 1]), actions[|actions| - 1])
  }

  /** The environment's turn. */
  function Yield(w: World): (r: World)
    ensures r.clock >= w.clock && Later(w, r)
  {
    if w.schedule == [] then w else ActAll(w.(schedule := w.schedule[1..]), w.schedule[0])
  }

  /** The environment's turn during a sleep. */
  function Sleep(w: World, millis: nat): (r: World)
    ensures r.clock >= w.clock + millis && Later(w, r)
  {
    var r := Yield(w);
    r.(clock := r.clock + millis)
  }

  // ----------------------------------------------------------------- observations

  predicate Alive(w: World, pid: nat) {
    pid > 0 && pid in w.processes
  }

  function Max(a: int, b: int): (m: int) {
    if a >= b then a else b
  }

  /** How old a heartbeat may be. */
  function Limit(record: Record): (millis: int) {
    Max(30000, (if record.interval.Some? then record.interval.value else 10000) * 3)
  }

  /** A fresh heartbeat of the recorded process id, healthy or not. */
  predicate Owned(record: Record, beat: Option<Heartbeat>, now: int) {
    && beat.Some? && record.pid > 0 && beat.value.pid == record.pid
    && beat.value.writtenAt.Some? && now - beat.value.writtenAt.value <= Limit(record)
  }

  predicate Healthy(record: Record, beat: Option<Heartbeat>, now: int) {
    Owned(record, beat, now) && beat.value.status in {BeatPass, BeatStarted}
  }

  // ------------------------------------------------------------------------ stop

  /** Polls until the process is gone or the deadline has passed. */
  function WaitGone(w: World, pid: nat, deadline: int, nap: nat): (r: World)
    requires nap > 0
    ensures Later(w, r)
    decreases deadline - w.clock
  {
    if w.clock < deadline && Alive(w, pid) then WaitGone(Sleep(w, nap), pid, deadline, nap) else w
  }

  datatype StopResult = AlreadyStopped | OwnershipUnverified | Stopped | StopFailed

  /** Sends the signal, unless nobody has the process id any more. */
  function Send(w: World, s: Warrant): (r: Option<World>) {
    if s.pid in w.processes then Some(w.(signals := w.signals + [Signal(s, w.processes[s.pid], |w.history|)])) else None
  }

  /** Waits after the last signal and looks whether the process is gone. */
  function Conclude(w: World, pid: nat): (r: (World, StopResult)) {
    var gone := Yield(WaitGone(w, pid, w.clock + 2000, 50));
    (gone, if Alive(gone, pid) then StopFailed else Stopped)
  }

  /** A process that outlived SIGTERM by four seconds gets SIGKILL. */
  function KillIfAlive(w: World, s: Warrant): (r: (World, StopResult)) {
    if !Alive(w, s.pid) then Conclude(w, s.pid)
    else
      var before := Yield(w);
      match Send(before, s.(kind := Kill))
      case None => (before, StopFailed)
      case Some(sent) => Conclude(sent, s.pid)
  }

  /** What follows the attempt to send SIGTERM. */
  function AfterTerminate(before: World, sent: Option<World>, s: Warrant): (r: (World, StopResult)) {
    match sent
    case None => (before, StopFailed)
    case Some(w) => KillIfAlive(WaitGone(w, s.pid, w.clock + 4000, 100), s)
  }

  function StopOwned(w: World, s: Warrant): (r: (World, StopResult)) {
    AfterTerminate(Yield(w), Send(Yield(w), s), s)
  }

  function Stop(w: World): (r: (World, StopResult)) {
    if w.record.None? || !Alive(w, w.record.value.pid) then (w, AlreadyStopped)
    else
      var record, seen := w.record.value, Yield(w);
      if !Owned(record, seen.beat, seen.clock) then (seen, OwnershipUnverified)
      else StopOwned(seen, Warrant(Terminate, record.pid, record, seen.beat, seen.clock))
  }

  // ----------------------------------------------------------------------- start

  datatype StartResult =
    | EndpointRequired | RunningUnverified | AlreadyRunning | ExistingStopFailed | RuntimeMissing
    | SpawnFailed | ProcessExited | Started | FirstTickFailed | HeartbeatTimeout

  /** What a start is given; `pid` is the id the system hands out for the new process. */
  datatype Request = Request(endpoint: Id, interval: Option<int>, runtimeOk: bool, pid: nat)

  predicate ChildAlive(w: World, pid: nat, serial: nat) {
    pid in w.processes && w.processes[pid] == Ours(serial)
  }

  /** Polls for the first heartbeat of the new process, for twelve seconds. */
  function AwaitBeat(w: World, pid: nat, serial: nat, deadline: int): (r: (World, StartResult))
    decreases deadline - w.clock
  {
    if w.clock >= deadline then (Stop(w).0, HeartbeatTimeout)
    else if !ChildAlive(w, pid, serial) then (w, ProcessExited)
    else
      var seen := Yield(w);
      if seen.beat.Some? && seen.beat.value.status.BeatPass? && seen.beat.value.pid == pid then (seen, Started)
      else if seen.beat.Some? && seen.beat.value.status.BeatFail? && seen.beat.value.pid == pid
        then (Stop(seen).0, FirstTickFailed)
      else AwaitBeat(Sleep(seen, 100), pid, serial, deadline)
  }

  function WithChild(w: World, q: Request): (r: World) {
    w.(processes := w.processes[q.pid := Ours(w.started)], started := w.started + 1,
      history := w.history + [Spawned(q.pid)])
  }

  /** The new process runs; the environment has its turn before the state file is written. */
  function SpawnedAndRecorded(w: World, q: Request): (r: World) {
    Yield(WithChild(w, q)).(record := Some(Record(q.pid, q.endpoint, q.interval)))
  }

  function Launch(w: World, q: Request): (r: (World, StartResult)) {
    var ready := Yield(w);
    if !q.runtimeOk then (ready, RuntimeMissing)
    else if q.pid == 0 || q.pid in ready.processes then (ready, SpawnFailed)
    else
      var recorded := SpawnedAndRecorded(ready, q);
      AwaitBeat(recorded, q.pid, ready.started, recorded.clock + 12000)
  }

  function Start(w: World, q: Request): (r: (World, StartResult)) {
    if q.endpoint == "" then (w, EndpointRequired)
    else if w.record.None? || !Alive(w, w.record.value.pid) then Launch(w, q)
    else
      var record, seen := w.record.value, Yield(w);
      if !Owned(record, seen.beat, seen.clock) then (seen, RunningUnverified)
      else if record.endpoint == q.endpoint && Healthy(record, seen.beat, seen.clock) then (seen, AlreadyRunning)
      else
        var stop := Stop(seen);
        if stop.1 in {AlreadyStopped, Stopped} then Launch(stop.0, q) else (stop.0, ExistingStopFailed)
  }

  // ------------------------------------------------------------------ whole runs

  datatype Call = CallStart(request: Request) | CallStop | Environment(actions: seq<Action>)

  function Step(w: World, call: Call): (r: World) {
    match call
    case CallStart(request) => Start(w, request).0
    case CallStop => Stop(w).0
    case Environment(actions) => ActAll(w, actions)
  }

  function Run(w: World, calls: seq<Call>): (r: World) {
    if calls == [] then w else Step(Run(w, calls[..|calls| - 1]), calls[|calls| - 1])
  }

  // -------------------------------------------------------------------- no orphans

  /** Every process of ours that is alive is the recorded one. */
  ghost predicate NoOrphan(w: World) {
    forall pid | pid in w.processes && w.processes[pid].Ours? ::
      pid > 0 && w.record.Some? && w.record.value.pid == pid
  }

  /** Every signal went to the recorded process id, on the strength of a fresh heartbeat of it. */
  ghost predicate SignalsBacked(w: World) {
    forall s | s in w.signals ::
      s.warrant.pid == s.warrant.record.pid && Owned(s.warrant.record, s.warrant.beat, s.warrant.readAt)
  }

  ghost predicate Supervised(w: World) {
    NoOrphan(w) && SignalsBacked(w)
  }

  lemma {:induction false} LaterSupervised(w: World, r: World)
    requires Supervised(w) && Later(w, r)
    ensures Supervised(r)
  {
  }

  lemma {:induction false} SendSupervised(w: World, s: Warrant)
    requires Supervised(w) && Send(w, s).Some? && s.pid == s.record.pid && Owned(s.record, s.beat, s.readAt)
    ensures Supervised(Send(w, s).value) && Send(w, s).value.record == w.record
  {
  }

  lemma {:induction false} ConcludeSupervised(w: World, pid: nat)
    requires Supervised(w)
    ensures Supervised(Conclude(w, pid).0) && Conclude(w, pid).0.record == w.record
  {
    var waited := WaitGone(w, pid, w.clock + 2000, 50);
    LaterSupervised(w, waited);
    LaterSupervised(waited, Yield(waited));
  }

  lemma {:induction false} KillSupervised(w: World, s: Warrant)
    requires Supervised(w) && s.pid == s.record.pid && Owned(s.record, s.beat, s.readAt)
    ensures Supervised(KillIfAlive(w, s).0) && KillIfAlive(w, s).0.record == w.record
  {
    if !Alive(w, s.pid) {
      ConcludeSupervised(w, s.pid);
    } else {
      var before := Yield(w);
      LaterSupervised(w, before);
      if Send(before, s.(kind := Kill)).Some? {
        SendSupervised(before, s.(kind := Kill));
        ConcludeSupervised(Send(before, s.(kind := Kill)).value, s.pid);
      }
    }
  }

  lemma {:induction false} StopSupervised(w: World)
    requires Supervised(w)
    ensures Supervised(Stop(w).0) && Stop(w).0.record == w.record
  {
    if w.record.Some? && Alive(w, w.record.value.pid) {
      var record, seen := w.record.value, Yield(w);
      LaterSupervised(w, seen);
      if Owned(record, seen.beat, seen.clock) {
        StopOwnedSupervised(seen, Warrant(Terminate, record.pid, record, seen.beat, seen.clock));
      }
    }
  }

  lemma {:induction false} StopOwnedSupervised(w: World, s: Warrant)
    requires Supervised(w) && s.pid == s.record.pid && Owned(s.record, s.beat, s.readAt)
    ensures Supervised(StopOwned(w, s).0) && StopOwned(w, s).0.record == w.record
  {
    LaterSupervised(w, Yield(w));
    if Send(Yield(w), s).Some? {
      SendSupervised(Yield(w), s);
    }
    AfterTerminateSupervised(Yield(w), Send(Yield(w), s), s);
  }

  lemma {:induction false} AfterTerminateSupervised(before: World, sent: Option<World>, s: Warrant)
    requires Supervised(before) && s.pid == s.record.pid && Owned(s.record, s.beat, s.readAt)
    requires sent.Some? ==> Supervised(sent.value) && sent.value.record == before.record
    ensures Supervised(AfterTerminate(before, sent, s).0) && AfterTerminate(before, sent, s).0.record == before.record
  {
    if sent.Some? {
      TerminatedSupervised(sent.value, s);
    }
  }

  lemma {:induction false} TerminatedSupervised(w: World, s: Warrant)
    requires Supervised(w) && s.pid == s.record.pid && Owned(s.record, s.beat, s.readAt)
    ensures var r := KillIfAlive(WaitGone(w, s.pid, w.clock + 4000, 100), s).0; Supervised(r) && r.record == w.record
  {
    var waited := WaitGone(w, s.pid, w.clock + 4000, 100);
    LaterSupervised(w, waited);
    KillSupervised(waited, s);
  }

  /** A stop that reports success leaves nobody under the recorded process id. */
  lemma {:induction false} StoppedIsGone(w: World)
    requires Stop(w).1 in {AlreadyStopped, Stopped}
    ensures w.record.Some? ==> !Alive(Stop(w).0, w.record.value.pid)
  {
  }

  /** A stop signals only the process id in the state file: SIGTERM, and SIGKILL after it at most. */
  lemma {:induction false} StopSignals(w: World)
    ensures var before, after := w.signals, Stop(w).0.signals;
      && before <= after && |after| <= |before| + 2
      && (|after| > |before| ==>
            w.record.Some? && after[|before|].warrant.kind.Terminate?
            && after[|before|].warrant.pid == w.record.value.pid)
      && (|after| == |before| + 2 ==>
            after[|before| + 1].warrant.kind.Kill?
            && after[|before| + 1].warrant.pid == w.record.value.pid)
  {
    if w.record.Some? && Alive(w, w.record.value.pid) {
      var record, seen := w.record.value, Yield(w);
      if Owned(record, seen.beat, seen.clock) {
        OwnedSignals(seen, Warrant(Terminate, record.pid, record, seen.beat, seen.clock));
      }
    }
  }

  lemma {:induction false} OwnedSignals(w: World, s: Warrant)
    ensures var before, after := w.signals, StopOwned(w, s).0.signals;
      && before <= after && |after| <= |before| + 2
      && (|after| > |before| ==> after[|before|].warrant == s)
      && (|after| == |before| + 2 ==> after[|before| + 1].warrant == s.(kind := Kill))
  {
    var sent := Send(Yield(w), s);
    if sent.Some? {
      KillSignals(WaitGone(sent.value, s.pid, sent.value.clock + 4000, 100), s);
    }
  }

  lemma {:induction false} KillSignals(w: World, s: Warrant)
    ensures var after := KillIfAlive(w, s).0.signals;
      after == w.signals || (|after| == |w.signals| + 1 && w.signals <= after
        && after[|w.signals|].warrant == s.(kind := Kill))
  {
  }

  ghost predicate NoneOurs(w: World) {
    forall pid | pid in w.processes :: w.processes[pid].Foreign?
  }

  lemma {:induction false} NoneLeft(w: World)
    requires NoOrphan(w) && (w.record.Some? ==> !Alive(w, w.record.value.pid))
    ensures NoneOurs(w)
  {
  }

  lemma {:induction false} SpawnSupervised(w: World, q: Request)
    requires NoneOurs(w) && SignalsBacked(w) && q.pid > 0
    ensures Supervised(SpawnedAndRecorded(w, q))
  {
    var spawned := WithChild(w, q);
    var turned := Yield(spawned);
    assert forall pid | pid in turned.processes && turned.processes[pid].Ours? :: pid == q.pid;
  }

  lemma {:induction false} AwaitSupervised(w: World, pid: nat, serial: nat, deadline: int)
    requires Supervised(w)
    ensures Supervised(AwaitBeat(w, pid, serial, deadline).0)
    decreases deadline - w.clock
  {
    if w.clock >= deadline {
      StopSupervised(w);
    } else if ChildAlive(w, pid, serial) {
      var seen := Yield(w);
      LaterSupervised(w, seen);
      StopSupervised(seen);
      LaterSupervised(seen, Sleep(seen, 100));
      AwaitSupervised(Sleep(seen, 100), pid, serial, deadline);
    }
  }

  lemma {:induction false} LaunchSupervised(w: World, q: Request)
    requires Supervised(w) && NoneOurs(w)
    ensures Supervised(Launch(w, q).0)
  {
    var ready := Yield(w);
    LaterSupervised(w, ready);
    if q.runtimeOk && q.pid != 0 && q.pid !in ready.processes {
      var recorded := SpawnedAndRecorded(ready, q);
      SpawnSupervised(ready, q);
      AwaitSupervised(recorded, q.pid, ready.started, recorded.clock + 12000);
    }
  }

  lemma {:induction false} StartSupervised(w: World, q: Request)
    requires Supervised(w)
    ensures Supervised(Start(w, q).0)
  {
    if q.endpoint != "" {
      if w.record.None? || !Alive(w, w.record.value.pid) {
        NoneLeft(w);
        LaunchSupervised(w, q);
      } else {
        var seen := Yield(w);
        LaterSupervised(w, seen);
        StopSupervised(seen);
        if Stop(seen).1 in {AlreadyStopped, Stopped} {
          StoppedIsGone(seen);
          NoneLeft(Stop(seen).0);
          LaunchSupervised(Stop(seen).0, q);
        }
      }
    }
  }

  /**
   No orphans: over any sequence of calls that run to their end and any behaviour of the
   environment before, between and during them, every process the supervisor ever started that is
   still alive is the one in the state file, and every signal it ever sent went to a process id
   whose own heartbeat, when read, was at most max(30 s, 3 intervals) old.
   */
  lemma {:induction false} AlwaysSupervised(w: World, calls: seq<Call>)
    requires NoneOurs(w) && w.signals == []
    ensures Supervised(Run(w, calls))
  {
    if calls != [] {
      var front, call := calls[..|calls| - 1], calls[|calls| - 1];
      AlwaysSupervised(w, front);
      var before := Run(w, front);
      match call
      case CallStart(request) => StartSupervised(before, request);
      case CallStop => StopSupervised(before);
      case Environment(actions) => LaterSupervised(before, ActAll(before, actions));
    }
  }

  lemma {:induction false} BeatSeen(w: World, pid: nat, serial: nat, deadline: int)
    requires AwaitBeat(w, pid, serial, deadline).1.Started?
    ensures var r := AwaitBeat(w, pid, serial, deadline).0;
      r.record == w.record && r.beat.Some? && r.beat.value.pid == pid && r.beat.value.status.BeatPass?
    decreases deadline - w.clock
  {
    var seen := Yield(w);
    if !(seen.beat.Some? && seen.beat.value.status.BeatPass? && seen.beat.value.pid == pid) {
      BeatSeen(Sleep(seen, 100), pid, serial, deadline);
    }
  }

  /** A start that reports STARTED has recorded the new process and seen its own passing heartbeat. */
  lemma {:induction false} StartedIsRecorded(w: World, q: Request)
    requires Start(w, q).1.Started?
    ensures var r := Start(w, q).0;
      && r.record == Some(Record(q.pid, q.endpoint, q.interval))
      && r.beat.Some? && r.beat.value.pid == q.pid && r.beat.value.status.BeatPass?
  {
    if w.record.None? || !Alive(w, w.record.value.pid) {
      LaunchRecords(w, q);
    } else {
      LaunchRecords(Stop(Yield(w)).0, q);
    }
  }

  lemma {:induction false} LaunchRecords(w: World, q: Request)
    ensures Launch(w, q).1.Started? ==>
      var r := Launch(w, q).0;
      && r.record == Some(Record(q.pid, q.endpoint, q.interval))
      && r.beat.Some? && r.beat.value.pid == q.pid && r.beat.value.status.BeatPass?
  {
    if Launch(w, q).1.Started? {
      var ready := Yield(w);
      var recorded := SpawnedAndRecorded(ready, q);
      BeatSeen(recorded, q.pid, ready.started, recorded.clock + 12000);
    }
  }

  /** At most one process of ours is alive at any time between calls. */
  lemma {:induction false} OneAlive(w: World, calls: seq<Call>, a: nat, b: nat)
    requires NoneOurs(w) && w.signals == []
    requires var r := Run(w, calls);
      a in r.processes && r.processes[a].Ours? && b in r.processes && r.processes[b].Ours?
    ensures a == b
  {
    AlwaysSupervised(w, calls);
  }

  /** Without a fresh heartbeat of the recorded process a running one is neither signalled nor replaced. */
  lemma {:induction false} UnownedUntouched(w: World, q: Request)
    requires w.record.Some? && Alive(w, w.record.value.pid) && !Owned(w.record.value, Yield(w).beat, Yield(w).clock)
    ensures Stop(w) == (Yield(w), OwnershipUnverified)
    ensures q.endpoint != "" ==> Start(w, q) == (Yield(w), RunningUnverified)
  {
  }

  // ------------------------------------------------------ whom the signals and answers are about

  /** The process last started under the id has not exited since. */
  predicate Lives(history: seq<Event>, pid: nat) {
    history != [] &&
    var last := history[|history| - 1];
    last == Spawned(pid) || (last != Happened(Exit(pid)) && Lives(history[..|history| - 1], pid))
  }

  lemma {:induction false} LivesAfter(history: seq<Event>, e: Event)
    ensures forall pid ::
              Lives(history + [e], pid) == (e == Spawned(pid) || (e != Happened(Exit(pid)) && Lives(history, pid)))
    ensures forall k: nat :: k <= |history| ==> (history + [e])[..k] == history[..k]
  {
    assert (history + [e])[..|history|] == history;
  }

  /** The history tells which processes are ours, and which were when they were signalled. */
  ghost predicate Tracked(w: World) {
    && (forall pid :: pid in w.processes && w.processes[pid].Ours? <==> Lives(w.history, pid))
    && (forall s | s in w.signals ::
          s.at <= |w.history| && (s.victim.Ours? <==> Lives(w.history[..s.at], s.warrant.pid)))
  }

  lemma {:induction false} ActTracked(w: World, a: Action)
    requires Tracked(w)
    ensures Tracked(Act(w, a))
  {
    LivesAfter(w.history, Happened(a));
  }

  lemma {:induction false} ActAllTracked(w: World, actions: seq<Action>)
    requires Tracked(w)
    ensures Tracked(ActAll(w, actions))
  {
    if actions != [] {
      ActAllTracked(w, actions[..|actions| - 1]);
      ActTracked(ActAll(w, actions[..|actions| - 1]), actions[|actions| - 1]);
    }
  }

  lemma {:induction false} YieldTracked(w: World)
    requires Tracked(w)
    ensures Tracked(Yield(w))
  {
    if w.schedule != [] {
      ActAllTracked(w.(schedule := w.schedule[1..]), w.schedule[0]);
    }
  }

  lemma {:induction false} WaitTracked(w: World, pid: nat, deadline: int, nap: nat)
    requires Tracked(w) && nap > 0
    ensures Tracked(WaitGone(w, pid, deadline, nap))
    decreases deadline - w.clock
  {
    if w.clock < deadline && Alive(w, pid) {
      YieldTracked(w);
      WaitTracked(Sleep(w, nap), pid, deadline, nap);
    }
  }

  lemma {:induction false} SendTracked(w: World, s: Warrant)
    requires Tracked(w) && Send(w, s).Some?
    ensures Tracked(Send(w, s).value)
  {
    assert w.history[..|w.history|] == w.history;
  }

  lemma {:induction false} ConcludeTracked(w: World, pid: nat)
    requires Tracked(w)
    ensures Tracked(Conclude(w, pid).0)
  {
    WaitTracked(w, pid, w.clock + 2000, 50);
    YieldTracked(WaitGone(w, pid, w.clock + 2000, 50));
  }

  lemma {:induction false} KillTracked(w: World, s: Warrant)
    requires Tracked(w)
    ensures Tracked(KillIfAlive(w, s).0)
  {
    if !Alive(w, s.pid) {
      ConcludeTracked(w, s.pid);
    } else {
      var before := Yield(w);
      YieldTracked(w);
      if Send(before, s.(kind := Kill)).Some? {
        SendTracked(before, s.(kind := Kill));
        ConcludeTracked(Send(before, s.(kind := Kill)).value, s.pid);
      }
    }
  }

  lemma {:induction false} TerminatedTracked(w: World, s: Warrant)
    requires Tracked(w)
    ensures Tracked(KillIfAlive(WaitGone(w, s.pid, w.clock + 4000, 100), s).0)
  {
    WaitTracked(w, s.pid, w.clock + 4000, 100);
    KillTracked(WaitGone(w, s.pid, w.clock + 4000, 100), s);
  }

  lemma {:induction false} StopOwnedTracked(w: World, s: Warrant)
    requires Tracked(w)
    ensures Tracked(StopOwned(w, s).0)
  {
    YieldTracked(w);
    if Send(Yield(w), s).Some? {
      SendTracked(Yield(w), s);
    }
    AfterTerminateTracked(Yield(w), Send(Yield(w), s), s);
  }

  lemma {:induction false} AfterTerminateTracked(before: World, sent: Option<World>, s: Warrant)
    requires Tracked(before) && (sent.Some? ==> Tracked(sent.value))
    ensures Tracked(AfterTerminate(before, sent, s).0)
  {
    match sent
    case None => assert AfterTerminate(before, sent, s).0 == before;
    case Some(w) =>
      assert AfterTerminate(before, sent, s) == KillIfAlive(WaitGone(w, s.pid, w.clock + 4000, 100), s);
      TerminatedTracked(w, s);
  }

  lemma {:induction false} StopTracked(w: World)
    requires Tracked(w)
    ensures Tracked(Stop(w).0)
  {
    if w.record.Some? && Alive(w, w.record.value.pid) {
      var record, seen := w.record.value, Yield(w);
      YieldTracked(w);
      if Owned(record, seen.beat, seen.clock) {
        StopOwnedTracked(seen, Warrant(Terminate, record.pid, record, seen.beat, seen.clock));
      }
    }
  }

  lemma {:induction false} ChildTracked(w: World, q: Request)
    requires Tracked(w)
    ensures Tracked(SpawnedAndRecorded(w, q))
  {
    LivesAfter(w.history, Spawned(q.pid));
    YieldTracked(WithChild(w, q));
  }

  lemma {:induction false} AwaitTracked(w: World, pid: nat, serial: nat, deadline: int)
    requires Tracked(w)
    ensures Tracked(AwaitBeat(w, pid, serial, deadline).0)
    decreases deadline - w.clock
  {
    if w.clock >= deadline {
      StopTracked(w);
    } else if ChildAlive(w, pid, serial) {
      var seen := Yield(w);
      YieldTracked(w);
      StopTracked(seen);
      YieldTracked(seen);
      AwaitTracked(Sleep(seen, 100), pid, serial, deadline);
    }
  }

  lemma {:induction false} LaunchTracked(w: World, q: Request)
    requires Tracked(w)
    ensures Tracked(Launch(w, q).0)
  {
    var ready := Yield(w);
    YieldTracked(w);
    if q.runtimeOk && q.pid != 0 && q.pid !in ready.processes {
      var recorded := SpawnedAndRecorded(ready, q);
      ChildTracked(ready, q);
      AwaitTracked(recorded, q.pid, ready.started, recorded.clock + 12000);
    }
  }

  lemma {:induction false} StartTracked(w: World, q: Request)
    requires Tracked(w)
    ensures Tracked(Start(w, q).0)
  {
    if q.endpoint != "" {
      if w.record.None? || !Alive(w, w.record.value.pid) {
        LaunchTracked(w, q);
      } else {
        var seen := Yield(w);
        YieldTracked(w);
        StopTracked(seen);
        LaunchTracked(Stop(seen).0, q);
      }
    }
  }

  lemma {:induction false} RunTracked(w: World, calls: seq<Call>)
    requires NoneOurs(w) && w.signals == [] && w.history == []
    ensures Tracked(Run(w, calls))
  {
    if calls != [] {
      var front, call := calls[..|calls| - 1], calls[|calls| - 1];
      RunTracked(w, front);
      var before := Run(w, front);
      match call
      case CallStart(request) => StartTracked(before, request);
      case CallStop => StopTracked(before);
      case Environment(actions) => ActAllTracked(before, actions);
    }
  }

  /**
   Over any calls and any environment: a signal reaches a process of the supervisor's own exactly
   when the one last started under that id had not exited before the signal was sent. A fresh
   heartbeat does not tell: an id that is used again in the meantime gets the signal all the same.
   */
  lemma {:induction false} VictimIsOwn(w: World, calls: seq<Call>, s: Signal)
    requires NoneOurs(w) && w.signals == [] && w.history == [] && s in Run(w, calls).signals
    ensures s.at <= |Run(w, calls).history|
    ensures s.victim.Ours? <==> Lives(Run(w, calls).history[..s.at], s.warrant.pid)
  {
    RunTracked(w, calls);
  }

  lemma {:induction false} AwaitNeverAdopts(w: World, pid: nat, serial: nat, deadline: int)
    ensures !AwaitBeat(w, pid, serial, deadline).1.AlreadyRunning?
    decreases deadline - w.clock
  {
    if w.clock < deadline && ChildAlive(w, pid, serial) {
      AwaitNeverAdopts(Sleep(Yield(w), 100), pid, serial, deadline);
    }
  }

  lemma {:induction false} LaunchNeverAdopts(w: World, q: Request)
    ensures !Launch(w, q).1.AlreadyRunning?
  {
    var ready := Yield(w);
    if q.runtimeOk && q.pid != 0 && q.pid !in ready.processes {
      var recorded := SpawnedAndRecorded(ready, q);
      AwaitNeverAdopts(recorded, q.pid, ready.started, recorded.clock + 12000);
    }
  }

  /** The same for the process a start answers ALREADY_RUNNING for. */
  lemma {:induction false} AdoptedIsOwn(w: World, calls: seq<Call>, q: Request)
    requires NoneOurs(w) && w.signals == [] && w.history == []
    requires Start(Run(w, calls), q).1.AlreadyRunning?
    ensures var r := Start(Run(w, calls), q).0;
      && r.record.Some?
      && (r.record.value.pid in r.processes && r.processes[r.record.value.pid].Ours? <==>
      Lives(r.history, r.record.value.pid))
  {
    var before := Run(w, calls);
    RunTracked(w, calls);
    StartTracked(before, q);
    LaunchNeverAdopts(before, q);
    if before.record.Some? && Alive(before, before.record.value.pid) {
      LaunchNeverAdopts(Stop(Yield(before)).0, q);
    }
  }

  // A run in which a signal goes astray

  /** Nothing runs; a heartbeat will come, and later the process exits and its id is used again. */
  function Calm(pid: nat): (w: World) {
    World(map[], None, 0, None, 0, [],
          [[], [], [Beat(Some(Heartbeat(pid, Some(0), BeatPass)))], [], [Exit(pid), Appear(pid)]], [])
  }

  lemma {:induction false} YieldNothing(w: World)
    requires w.schedule != [] && w.schedule[0] == []
    ensures Yield(w) == w.(schedule := w.schedule[1..])
  {
  }

  lemma {:induction false} ActAllOne(w: World, a: Action)
    ensures ActAll(w, [a]) == Act(w, a)
  {
    assert [a][..0] == [] && ActAll(w, []) == w;
  }

  lemma {:induction false} YieldOne(w: World, a: Action)
    requires w.schedule != [] && w.schedule[0] == [a]
    ensures Yield(w) == Act(w.(schedule := w.schedule[1..]), a)
  {
    ActAllOne(w.(schedule := w.schedule[1..]), a);
  }

  lemma {:induction false} YieldTwo(w: World, a: Action, b: Action)
    requires w.schedule != [] && w.schedule[0] == [a, b]
    ensures Yield(w) == Act(Act(w.(schedule := w.schedule[1..]), a), b)
  {
    ActAllOne(w.(schedule := w.schedule[1..]), a);
    assert [a, b][..1] == [a];
  }

  /** The world after the start. */
  predicate Up(w: World, q: Request) {
    && w.processes == map[q.pid := Ours(0)] && w.record == Some(Record(q.pid, q.endpoint, q.interval))
    && w.beat == Some(Heartbeat(q.pid, Some(0), BeatPass)) && w.clock == 0 && w.signals == []
    && w.schedule == [[], [Exit(q.pid), Appear(q.pid)]]
  }

  lemma {:induction false} StartsUp(q: Request)
    requires q.endpoint != "" && q.runtimeOk && q.pid > 0
    ensures Start(Calm(q.pid), q).1.Started? && Up(Start(Calm(q.pid), q).0, q)
  {
    var w, beat := Calm(q.pid), Beat(Some(Heartbeat(q.pid, Some(0), BeatPass)));
    YieldNothing(w);
    var ready := Yield(w);
    YieldNothing(WithChild(ready, q));
    var recorded := SpawnedAndRecorded(ready, q);
    YieldOne(recorded, beat);
    assert AwaitBeat(recorded, q.pid, ready.started, recorded.clock + 12000) == (Yield(recorded), Started);
  }

  lemma {:induction false} StopsAnother(w: World, q: Request)
    requires Up(w, q) && q.pid > 0
    ensures var after := Stop(w).0.signals;
      |after| > 0 && after[0].victim.Foreign? && after[0].warrant.kind.Terminate? && after[0].warrant.pid == q.pid
  {
    var record := w.record.value;
    YieldNothing(w);
    var seen := Yield(w);
    var s := Warrant(Terminate, q.pid, record, seen.beat, seen.clock);
    YieldTwo(seen, Exit(q.pid), Appear(q.pid));
    var sent := Send(Yield(seen), s).value;
    assert Stop(w) == KillIfAlive(WaitGone(sent, q.pid, sent.clock + 4000, 100), s);
    KillSignals(WaitGone(sent, q.pid, sent.clock + 4000, 100), s);
  }

  /**
   For any process id and endpoint: a process is started and seen healthy; after its heartbeat was
   read for a stop it exits, its id is used again, and the signal reaches the other process.
   */
  lemma {:induction false} SignalGoesAstray(q: Request)
    requires q.endpoint != "" && q.runtimeOk && q.pid > 0
    ensures NoneOurs(Calm(q.pid)) && Start(Calm(q.pid), q).1.Started?
    ensures var r := Run(Calm(q.pid), [CallStart(q), CallStop]);
      |r.signals| > 0 && r.signals[0].victim.Foreign? && r.signals[0].warrant.pid == q.pid
  {
    var calls := [CallStart(q), CallStop];
    assert calls[..1] == [CallStart(q)] && calls[..1][..0] == [];
    StartsUp(q);
    assert Run(Calm(q.pid), calls[..1]) == Start(Calm(q.pid), q).0;
    StopsAnother(Start(Calm(q.pid), q).0, q);
  }

  // ------------------------------------------------------------------ the loops as they run

  class ControlLoopProcess {
    var world: World

    constructor (w: World)
      ensures world == w
    {
      world := w;
    }

    method PollGone(pid: nat, deadline: int, nap: nat)
      requires nap > 0
      modifies this
      ensures world == WaitGone(old(world), pid, deadline, nap)
    {
      while world.clock < deadline && Alive(world, pid)
        invariant WaitGone(world, pid, deadline, nap) == WaitGone(old(world), pid, deadline, nap)
        decreases deadline - world.clock
      {
        world := Sleep(world, nap);
      }
    }

    method SendSignal(s: Warrant) returns (sent: bool)
      modifies this
      ensures sent == Send(old(world), s).Some?
      ensures world == if sent then Send(old(world), s).value else old(world)
    {
      sent := s.pid in world.processes;
      if sent {
        world := world.(signals := world.signals + [Signal(s, world.processes[s.pid], |world.history|)]);
      }
    }

    method StopProcess() returns (result: StopResult)
      modifies this
      ensures (world, result) == Stop(old(world))
    {
      if world.record.None? || !Alive(world, world.record.value.pid) {
        return AlreadyStopped;
      }
      var record := world.record.value;
      world := Yield(world);
      if !Owned(record, world.beat, world.clock) {
        return OwnershipUnverified;
      }
      var s := Warrant(Terminate, record.pid, record, world.beat, world.clock);
      world := Yield(world);
      var sent := SendSignal(s);
      if !sent {
        return StopFailed;
      }
      PollGone(record.pid, world.clock + 4000, 100);
      if Alive(world, record.pid) {
        world := Yield(world);
        sent := SendSignal(s.(kind := Kill));
        if !sent {
          return StopFailed;
        }
      }
      PollGone(record.pid, world.clock + 2000, 50);
      world := Yield(world);
      result := if Alive(world, record.pid) then StopFailed else Stopped;
    }

    method PollFirstBeat(pid: nat, serial: nat, deadline: int) returns (result: StartResult)
      modifies this
      ensures (world, result) == AwaitBeat(old(world), pid, serial, deadline)
    {
      while world.clock < deadline
        invariant AwaitBeat(world, pid, serial, deadline) == AwaitBeat(old(world), pid, serial, deadline)
        decreases deadline - world.clock
      {
        if !ChildAlive(world, pid, serial) {
          return ProcessExited;
        }
        world := Yield(world);
        if world.beat.Some? && world.beat.value.status.BeatPass? && world.beat.value.pid == pid {
          return Started;
        }
        if world.beat.Some? && world.beat.value.status.BeatFail? && world.beat.value.pid == pid {
          var _ := StopProcess();
          return FirstTickFailed;
        }
        world := Sleep(world, 100);
      }
      var _ := StopProcess();
      result := HeartbeatTimeout;
    }

    method StartProcess(q: Request) returns (result: StartResult)
      modifies this
      ensures (world, result) == Start(old(world), q)
    {
      if q.endpoint == "" {
        return EndpointRequired;
      }
      if world.record.Some? && Alive(world, world.record.value.pid) {
        var record := world.record.value;
        world := Yield(world);
        if !Owned(record, world.beat, world.clock) {
          return RunningUnverified;
        }
        if record.endpoint == q.endpoint && Healthy(record, world.beat, world.clock) {
          return AlreadyRunning;
        }
        var stopped := StopProcess();
        if stopped !in {AlreadyStopped, Stopped} {
          return ExistingStopFailed;
        }
      }
      world := Yield(world);
      if !q.runtimeOk {
        return RuntimeMissing;
      }
      if q.pid == 0 || q.pid in world.processes {
        return SpawnFailed;
      }
      var serial := world.started;
      world := SpawnedAndRecorded(world, q);
      result := PollFirstBeat(q.pid, serial, world.clock + 12000);
    }
  }
}
