/**
 What holds in every schedule of the worker runtime: the body runs once, shutdown is
 complete when Stop returns, lanes never block, and cancellation drains the system.
 */
module Lifecycle {
  import opened Text
  import opened Runtime

  // -------- every step keeps the invariant --------

  /** One lane changes, with the wait group and the results following it. */
  lemma LaneBecomes(s: System, t: System, l: nat, x: Lane)
    requires LanesInv(s) && l < |s.lanes| && LaneInv(s, x) && Live(x) <= Live(s.lanes[l])
    requires t == s.(lanes := s.lanes[l := x], results := t.results, group := t.group)
    requires t.group == s.group - Live(s.lanes[l]) + Live(x)
    requires t.results == s.results + Unsent(s.lanes[l]) - Unsent(x)
    ensures LanesInv(t) && (s.group == 0 ==> t.group == 0)
  {
    SumUpdate(s.lanes, l, x, Live);
    SumUpdate(s.lanes, l, x, Unsent);
    forall i | 0 <= i < |t.lanes| ensures LaneInv(t, t.lanes[i]) {
      if i != l { assert LaneInv(s, s.lanes[i]); }
    }
  }

  lemma LaneStepKeepsLanes(s: System, l: nat, t: System)
    requires LanesInv(s) && l < |s.lanes| && LaneStep(s, l, t)
    ensures LanesInv(t) && |t.lanes| == |s.lanes| && (s.group == 0 ==> t.group == 0)
    ensures t == s.(lanes := t.lanes, results := t.results, group := t.group)
  {
    assert LaneInv(s, s.lanes[l]);
    LaneBecomes(s, t, l, t.lanes[l]);
  }

  lemma LaneKeepsLanes(s: System, a: Action, t: System)
    requires LanesInv(s) && LaneNext(s, a, t)
    ensures LanesInv(t) && |t.lanes| == |s.lanes| && (s.group == 0 ==> t.group == 0)
    ensures t == s.(lanes := t.lanes, results := t.results, group := t.group)
  {
    if a.LaneMoves? { LaneStepKeepsLanes(s, a.l, t); }
    else {
      assert LaneInv(s, s.lanes[a.l]);
      LaneBecomes(s, t, a.l, t.lanes[a.l]);
    }
  }

  /** A step that leaves callers and server alone keeps what concerns them. */
  lemma SameCallers(s: System, t: System)
    requires BodyUnique(s) && forall i :: 0 <= i < |s.callers| ==> StopInv(s, s.callers[i])
    requires t.callers == s.callers && t.body == s.body && t.entries == s.entries && t.closes == s.closes
    requires t.server == s.server.(concurrency := t.server.concurrency) && (s.cancelled ==> t.cancelled)
    ensures BodyUnique(t) && BodyStage(t) == BodyStage(s)
    ensures forall i :: 0 <= i < |t.callers| ==> StopInv(t, t.callers[i])
  {
    forall i | 0 <= i < |t.callers| ensures StopInv(t, t.callers[i]) { assert StopInv(s, s.callers[i]); }
  }

  /** The body moving on keeps what concerns the other callers. */
  lemma BodyMoves(s: System, t: System, i: nat, pc: BodyPc)
    requires BodyUnique(s) && forall j :: 0 <= j < |s.callers| ==> StopInv(s, s.callers[j])
    requires s.body == Some(i) && t.callers == s.callers[i := InBody(pc)]
    requires t.body == s.body && t.entries == s.entries && t.closes >= s.closes
    requires t.server == s.server.(alive := t.server.alive) && (s.cancelled ==> t.cancelled)
    ensures BodyUnique(t) && BodyStage(t) == Stage(pc)
    ensures forall j :: 0 <= j < |t.callers| ==> StopInv(t, t.callers[j])
  {
    forall j | 0 <= j < |t.callers| ensures StopInv(t, t.callers[j]) {
      if j != i { assert StopInv(s, s.callers[j]); }
    }
  }

  lemma SameLanes(s: System, t: System)
    requires LanesInv(s) && t.lanes == s.lanes && t.group == s.group
    requires t.results + t.received == s.results + s.received && (s.cancelled ==> t.cancelled)
    ensures LanesInv(t)
  {
    forall l | 0 <= l < |t.lanes| ensures LaneInv(t, t.lanes[l]) { assert LaneInv(s, s.lanes[l]); }
  }

  lemma LaneKeepsInv(s: System, a: Action, t: System)
    requires Inv(s) && LaneNext(s, a, t)
    ensures Inv(t)
  {
    LaneKeepsLanes(s, a, t);
    SameCallers(s, t);
  }

  lemma EnterKeepsInv(s: System, i: nat, t: System)
    requires Inv(s) && i < |s.callers| && s.callers[i] == Entering && EnterStep(s, i, t)
    ensures Inv(t)
  {
    SameLanes(s, t);
    forall j | 0 <= j < |t.callers| ensures StopInv(t, t.callers[j]) { assert StopInv(s, s.callers[j]); }
  }

  lemma SpawnKeepsLanes(s: System, t: System)
    requires LanesInv(s) && t.lanes == s.lanes + [Lane(Selecting, 0)] && t.group == s.group + 1
    requires t.results == s.results && t.received == s.received && t.cancelled == s.cancelled
    ensures LanesInv(t)
  {
    SumAppend(s.lanes, Lane(Selecting, 0), Live);
    SumAppend(s.lanes, Lane(Selecting, 0), Unsent);
    forall l | 0 <= l < |s.lanes| ensures LaneInv(t, t.lanes[l]) { assert LaneInv(s, s.lanes[l]); }
  }

  lemma SpawnKeepsInv(s: System, i: nat, t: System)
    requires Inv(s) && i < |s.callers| && s.callers[i] == InBody(SpawningLanes) && BodyStep(s, i, SpawningLanes, t)
    ensures Inv(t)
  {
    assert s.body == Some(i);
    if |s.lanes| < Total(s) {
      SpawnKeepsLanes(s, t);
      SameCallers(s, t);
    } else {
      SameLanes(s, t);
      BodyMoves(s, t, i, Choosing);
    }
  }

  /** The body's own move concerns neither lanes nor other callers. */
  lemma BodyFrame(s: System, pc: BodyPc)
    requires pc != SpawningLanes
    ensures var t := BodyEffect(s, pc);
            && t.callers == s.callers && t.body == s.body && t.entries == s.entries && t.closes >= s.closes
            && t.valid == s.valid && t.kinds == s.kinds
            && t.server == s.server.(alive := t.server.alive) && (s.cancelled ==> t.cancelled)
            && t.lanes == s.lanes && t.group == s.group && t.results == s.results && t.received == s.received
  {
  }

  lemma BodyAdvances(s: System, pc: BodyPc)
    requires BodyReady(s, pc) && pc != SpawningLanes && BodyInv(s, Stage(pc))
    ensures BodyInv(BodyEffect(s, pc), Stage(BodyNext(s, pc)))
  {
  }

  lemma BodyKeepsInv(s: System, i: nat, t: System)
    requires Inv(s) && i < |s.callers| && s.callers[i].InBody? && s.callers[i].pc != SpawningLanes
    requires BodyStep(s, i, s.callers[i].pc, t)
    ensures Inv(t)
  {
    var pc := s.callers[i].pc;
    assert s.body == Some(i);
    BodyFrame(s, pc);
    BodyAdvances(s, pc);
    SameLanes(s, t);
    BodyMoves(s, t, i, BodyNext(s, pc));
  }

  lemma StartKeepsInv(s: System, a: Action, t: System)
    requires Inv(s) && StartNext(s, a, t)
    ensures Inv(t)
  {
    if a.TakeResult? {
      assert s.body == Some(a.i);
      SameLanes(s, t);
      BodyMoves(s, t, a.i, Cancelling);
    } else if s.callers[a.i] == Entering { EnterKeepsInv(s, a.i, t); }
    else if s.callers[a.i] == InBody(SpawningLanes) { SpawnKeepsInv(s, a.i, t); }
    else { BodyKeepsInv(s, a.i, t); }
  }

  /** A Stop call moving on keeps what concerns the other callers. */
  lemma StopperMoves(s: System, t: System, i: nat, pc: Caller)
    requires BodyUnique(s) && forall j :: 0 <= j < |s.callers| ==> StopInv(s, s.callers[j])
    requires i < |s.callers| && !s.callers[i].InBody? && !pc.InBody? && StopInv(t, pc)
    requires t.callers == s.callers[i := pc] && t.body == s.body && t.entries == s.entries && t.closes == s.closes
    requires t.server == s.server.(stopped := t.server.stopped, alive := t.server.alive)
    requires (s.server.stopped ==> t.server.stopped) && (s.cancelled ==> t.cancelled)
    ensures BodyUnique(t) && BodyStage(t) == BodyStage(s)
    ensures forall j :: 0 <= j < |t.callers| ==> StopInv(t, t.callers[j])
  {
    forall j | 0 <= j < |t.callers| ensures StopInv(t, t.callers[j]) {
      if j != i { assert StopInv(s, s.callers[j]); }
    }
  }

  lemma StopFrame(s: System, pc: Caller)
    requires StopReady(s, pc) && StopInv(s, pc) && (s.server.cancel <==> s.server.started)
    ensures var t := StopEffect(s, pc);
            && t == s.(server := t.server, cancelled := t.cancelled)
            && t.server == s.server.(stopped := t.server.stopped, alive := t.server.alive)
            && (s.server.stopped ==> t.server.stopped) && (t.server.alive ==> s.server.alive)
            && (s.cancelled ==> t.cancelled) && (t.cancelled ==> s.cancelled || s.server.started)
            && !pc.InBody? && !StopNextPc(s, pc).InBody? && StopInv(t, StopNextPc(s, pc))
  {
  }

  lemma StopKeepsInv(s: System, a: Action, t: System)
    requires Inv(s) && StopNext(s, a, t)
    ensures Inv(t)
  {
    assert StopInv(s, s.callers[a.i]);
    if a.StopMoves? { StopFrame(s, s.callers[a.i]); }
    SameLanes(s, t);
    StopperMoves(s, t, a.i, t.callers[a.i]);
  }

  lemma MonitorKeepsInv(s: System, a: Action, t: System)
    requires Inv(s) && MonitorNext(s, a, t)
    ensures Inv(t)
  {
    SameLanes(s, t);
    SameCallers(s, t);
  }

  lemma OutsideKeepsInv(s: System, a: Action, t: System)
    requires Inv(s) && OutsideNext(s, a, t)
    ensures Inv(t)
  {
    SameLanes(s, t);
    SameCallers(s, t);
  }

  lemma NextKeepsInv(s: System, a: Action, t: System)
    requires Inv(s) && Next(s, a, t)
    ensures Inv(t)
  {
    if LaneNext(s, a, t) { LaneKeepsInv(s, a, t); }
    else if StartNext(s, a, t) { StartKeepsInv(s, a, t); }
    else if StopNext(s, a, t) { StopKeepsInv(s, a, t); }
    else if MonitorNext(s, a, t) { MonitorKeepsInv(s, a, t); }
    else { OutsideKeepsInv(s, a, t); }
  }

  // -------- runs --------

  ghost predicate Run(states: seq<System>, actions: seq<Action>) {
    && |states| == |actions| + 1
    && forall k {:trigger actions[k]} :: 0 <= k < |actions| ==> Next(states[k], actions[k], states[k + 1])
  }

  ghost predicate Schedule(states: seq<System>, actions: seq<Action>) { Run(states, actions) && Initial(states[0]) }

  lemma {:induction false} RunKeepsInv(states: seq<System>, actions: seq<Action>, k: nat)
    requires Run(states, actions) && Inv(states[0]) && k < |states|
    ensures Inv(states[k])
  {
    if k > 0 {
      RunKeepsInv(states, actions, k - 1);
      NextKeepsInv(states[k - 1], actions[k - 1], states[k]);
    }
  }

  // -------- once only, and final --------

  /** In every schedule the body of Start is entered at most once and `done` is closed at most once,
      after the body has finished; and no lane ever begins two Steps after cancellation. */
  lemma StartsOnce(states: seq<System>, actions: seq<Action>, k: nat)
    requires Schedule(states, actions) && k < |states|
    ensures states[k].entries <= 1 && states[k].closes <= states[k].entries
    ensures forall l :: 0 <= l < |states[k].lanes| ==> states[k].lanes[l].late <= 1
  {
    InitialInv(states[0]);
    RunKeepsInv(states, actions, k);
    forall l | 0 <= l < |states[k].lanes| ensures states[k].lanes[l].late <= 1 {
      assert LaneInv(states[k], states[k].lanes[l]);
    }
  }

  /** Nothing Start spawned is running, and the server is not alive. */
  predicate Quiescent(s: System) {
    && !s.server.alive && (s.monitor == Unstarted || s.monitor == Exited)
    && forall l :: 0 <= l < |s.lanes| ==> s.lanes[l].pc == Gone
  }

  lemma GroupDone(s: System)
    requires LanesInv(s) && s.group == 0
    ensures forall l :: 0 <= l < |s.lanes| ==> s.lanes[l].pc == Gone
  {
    SumZero(s.lanes, Live);
    forall l | 0 <= l < |s.lanes| ensures s.lanes[l].pc == Gone { assert Live(s.lanes[l]) == 0; }
  }

  /** Stop call i has returned without error. */
  predicate StoppedCleanly(s: System, i: nat) { i < |s.callers| && s.callers[i] == StopReturned(true) }

  lemma CleanStopIsQuiescent(s: System, i: nat)
    requires Inv(s) && StoppedCleanly(s, i)
    ensures Quiescent(s)
  {
    assert StopInv(s, s.callers[i]);
    GroupDone(s);
  }

  lemma EffectKeepsCallers(s: System, pc: BodyPc)
    ensures BodyEffect(s, pc).callers == s.callers
  {
  }

  lemma StartLeavesReturned(s: System, a: Action, t: System, i: nat)
    requires StartNext(s, a, t) && StoppedCleanly(s, i)
    ensures StoppedCleanly(t, i)
  {
    assert a.i != i;
    if a.StartMoves? && s.callers[a.i].InBody? { EffectKeepsCallers(s, s.callers[a.i].pc); }
  }

  lemma StopLeavesReturned(s: System, a: Action, t: System, i: nat)
    requires StopNext(s, a, t) && StoppedCleanly(s, i)
    ensures StoppedCleanly(t, i)
  {
    assert a.i != i;
    assert StopEffect(s, s.callers[a.i]).callers == s.callers;
  }

  lemma LaneLeavesCallers(s: System, a: Action, t: System)
    requires LaneNext(s, a, t)
    ensures t.callers == s.callers
  {
  }

  /** A Stop call that has returned stays as it is. */
  lemma ReturnedStays(s: System, a: Action, t: System, i: nat)
    requires Next(s, a, t) && StoppedCleanly(s, i)
    ensures StoppedCleanly(t, i)
  {
    if LaneNext(s, a, t) { LaneLeavesCallers(s, a, t); }
    else if StartNext(s, a, t) { StartLeavesReturned(s, a, t, i); }
    else if StopNext(s, a, t) { StopLeavesReturned(s, a, t, i); }
  }

  lemma CleanStopStays(s: System, a: Action, t: System, i: nat)
    requires Inv(s) && Next(s, a, t) && StoppedCleanly(s, i)
    ensures Inv(t) && StoppedCleanly(t, i)
  {
    NextKeepsInv(s, a, t);
    ReturnedStays(s, a, t, i);
  }

  lemma {:induction false} CleanStopPersists(states: seq<System>, actions: seq<Action>, k: nat, j: nat, i: nat)
    requires Run(states, actions) && k <= j < |states| && Inv(states[k]) && StoppedCleanly(states[k], i)
    ensures Inv(states[j]) && StoppedCleanly(states[j], i)
  {
    if k < j {
      CleanStopPersists(states, actions, k, j - 1, i);
      CleanStopStays(states[j - 1], actions[j - 1], states[j], i);
    }
  }

  /** From the moment some Stop has returned without error, for ever, nothing runs and the server
      is not alive. */
  lemma StopIsFinal(states: seq<System>, actions: seq<Action>, k: nat, j: nat, i: nat)
    requires Schedule(states, actions) && k <= j < |states| && StoppedCleanly(states[k], i)
    ensures Quiescent(states[j])
  {
    InitialInv(states[0]);
    RunKeepsInv(states, actions, k);
    CleanStopPersists(states, actions, k, j, i);
    CleanStopIsQuiescent(states[j], i);
  }

  /** A lane never waits for room in the results channel. */
  lemma LanesNeverBlock(states: seq<System>, actions: seq<Action>, k: nat, l: nat)
    requires Schedule(states, actions) && k < |states| && l < |states[k].lanes| && states[k].lanes[l].pc == Sending
    ensures states[k].results < states[k].capacity
  {
    InitialInv(states[0]);
    RunKeepsInv(states, actions, k);
    SendHasRoom(states[k], l);
  }

  lemma SendHasRoom(s: System, l: nat)
    requires Inv(s) && l < |s.lanes| && s.lanes[l].pc == Sending
    ensures s.results < s.capacity
  {
    SumZero(s.lanes, Unsent);
    assert Unsent(s.lanes[l]) == 1;
  }

  // -------- cancellation drains the system --------

  function LaneWork(x: Lane): nat {
    match x.pc
    case Selecting => 5
    case Stepping => 4
    case Checking(_) => 3
    case Sending => 2
    case Signing => 1
    case Gone => 0
  }

  function MonitorWork(s: System): nat {
    (if s.monitor == Probing then 3 else if s.monitor == Recording then 2 else if s.monitor == Waiting then 1 else 0)
    + (if s.tick then 3 else 0)
  }

  /** What the body still has to do itself, with the lanes and the monitor it has yet to spawn. */
  function BodyWork(s: System, pc: BodyPc): int {
    match pc
    case Verifying => 16 + 6 * Total(s)
    case SpawningMonitor => 15 + 6 * Total(s)
    case SettingAlive => 11 + 6 * Total(s)
    case MakingResults => 10 + 6 * Total(s)
    case SpawningLanes => 9 + 6 * (Total(s) - |s.lanes|)
    case _ => 14 - Stage(pc)
  }

  /** A bound on the steps left to body, lanes and monitor once cancelled. */
  function Work(s: System): int
    requires BodyUnique(s)
  {
    (if s.body.Some? then BodyWork(s, s.callers[s.body.value].pc) else 0) + Sum(s.lanes, LaneWork) + MonitorWork(s)
  }

  /** A step of the body, a lane or the monitor. */
  predicate Own(s: System, a: Action, t: System) {
    LaneNext(s, a, t) || MonitorNext(s, a, t) || (StartNext(s, a, t) && s.body == Some(a.i))
  }

  /** Moving one lane on uses up work. */
  lemma LaneWorkDrops(s: System, t: System, l: nat, x: Lane)
    requires Inv(s) && l < |s.lanes| && LaneWork(x) < LaneWork(s.lanes[l])
    requires t == s.(lanes := s.lanes[l := x], results := t.results, group := t.group)
    ensures BodyUnique(t) && Work(t) < Work(s)
  {
    SameCallers(s, t);
    SumUpdate(s.lanes, l, x, LaneWork);
  }

  lemma LaneStepDrains(s: System, l: nat, t: System)
    requires Inv(s) && s.cancelled && l < |s.lanes| && LaneStep(s, l, t)
    ensures t.cancelled && BodyUnique(t) && Work(t) < Work(s)
  {
    LaneWorkDrops(s, t, l, t.lanes[l]);
  }

  lemma LaneDrains(s: System, a: Action, t: System)
    requires Inv(s) && s.cancelled && LaneNext(s, a, t)
    ensures t.cancelled && BodyUnique(t) && Work(t) < Work(s)
  {
    if a.LaneMoves? { LaneStepDrains(s, a.l, t); } else { LaneWorkDrops(s, t, a.l, t.lanes[a.l]); }
  }

  lemma SpawnDrains(s: System, i: nat, t: System)
    requires Inv(s) && s.body == Some(i) && s.callers[i].pc == SpawningLanes && BodyStep(s, i, SpawningLanes, t)
    ensures t.cancelled == s.cancelled && BodyUnique(t) && Work(t) < Work(s)
  {
    SumAppend(s.lanes, Lane(Selecting, 0), LaneWork);
    BodyMoves(s, t, i, BodyNext(s, SpawningLanes));
  }

  lemma BodyDrains(s: System, i: nat, t: System)
    requires Inv(s) && s.cancelled && s.body == Some(i) && BodyStep(s, i, s.callers[i].pc, t)
    ensures t.cancelled && BodyUnique(t) && Work(t) < Work(s)
  {
    var pc := s.callers[i].pc;
    if pc == SpawningLanes { SpawnDrains(s, i, t); }
    else {
      BodyFrame(s, pc);
      BodyMoves(s, t, i, BodyNext(s, pc));
    }
  }

  lemma ChoiceDrains(s: System, i: nat, t: System)
    requires Inv(s) && s.cancelled && StartNext(s, TakeResult(i), t)
    ensures t.cancelled && BodyUnique(t) && Work(t) < Work(s)
  {
    BodyMoves(s, t, i, Cancelling);
  }

  /** Apart from the monitor's share, work depends on callers, lanes and configuration only. */
  lemma SameWork(s: System, t: System)
    requires BodyUnique(s) && BodyUnique(t) && t.callers == s.callers && t.body == s.body && t.lanes == s.lanes
    requires t.kinds == s.kinds && (s.body.Some? ==> t.server == s.server)
    ensures Work(t) - MonitorWork(t) == Work(s) - MonitorWork(s)
  {
  }

  lemma MonitorDrains(s: System, a: Action, t: System)
    requires Inv(s) && s.cancelled && MonitorNext(s, a, t)
    ensures t.cancelled && BodyUnique(t) && Work(t) < Work(s)
  {
    SameCallers(s, t);
    SameWork(s, t);
    assert MonitorWork(t) < MonitorWork(s);
  }

  lemma OutsideKeepsWork(s: System, a: Action, t: System)
    requires Inv(s) && s.cancelled && OutsideNext(s, a, t)
    ensures t.cancelled && BodyUnique(t) && Work(t) <= Work(s) + (if a.Ticks? then 3 else 0)
  {
    SameCallers(s, t);
    SameWork(s, t);
  }

  lemma StopKeepsWork(s: System, a: Action, t: System)
    requires Inv(s) && s.cancelled && StopNext(s, a, t)
    ensures t.cancelled && BodyUnique(t) && Work(t) == Work(s)
  {
    assert StopInv(s, s.callers[a.i]);
    if a.StopMoves? { StopFrame(s, s.callers[a.i]); }
    StopperMoves(s, t, a.i, t.callers[a.i]);
    SameBodyWork(s, t);
  }

  lemma SameBodyWork(s: System, t: System)
    requires BodyUnique(s) && BodyUnique(t) && t.body == s.body && t.lanes == s.lanes && t.monitor == s.monitor
    requires t.tick == s.tick && t.kinds == s.kinds && t.server.concurrency == s.server.concurrency
    requires s.body.Some? ==> t.callers[t.body.value] == s.callers[s.body.value]
    ensures Work(t) == Work(s)
  {
  }

  /** A Start that comes late is turned away. */
  lemma LateStartIsRejected(s: System, i: nat, t: System)
    requires Inv(s) && s.cancelled && i < |s.callers| && s.callers[i] == Entering && EnterStep(s, i, t)
    ensures t.cancelled && s.body != Some(i) && BodyUnique(t) && Work(t) == Work(s)
  {
    assert s.server.started;
    SameBodyWork(s, t);
  }

  lemma StartDrains(s: System, a: Action, t: System)
    requires Inv(s) && s.cancelled && StartNext(s, a, t)
    ensures t.cancelled && BodyUnique(t) && Work(t) <= Work(s) && (s.body == Some(a.i) ==> Work(t) < Work(s))
  {
    if a.TakeResult? { ChoiceDrains(s, a.i, t); }
    else if s.callers[a.i].InBody? { BodyDrains(s, a.i, t); }
    else { LateStartIsRejected(s, a.i, t); }
  }

  /** Once cancelled, every own step uses up work; only a clock tick adds any, and at most three. */
  lemma StepDrains(s: System, a: Action, t: System)
    requires Inv(s) && s.cancelled && Next(s, a, t)
    ensures Inv(t) && t.cancelled
    ensures Own(s, a, t) ==> Work(t) < Work(s)
    ensures !Own(s, a, t) ==> Work(t) <= Work(s) + (if a.Ticks? then 3 else 0)
  {
    NextKeepsInv(s, a, t);
    if LaneNext(s, a, t) { LaneDrains(s, a, t); }
    else if MonitorNext(s, a, t) { MonitorDrains(s, a, t); }
    else if StopNext(s, a, t) { StopKeepsWork(s, a, t); }
    else if OutsideNext(s, a, t) { OutsideKeepsWork(s, a, t); }
    else { StartDrains(s, a, t); }
  }

  ghost function OwnSteps(states: seq<System>, actions: seq<Action>, n: nat): nat
    requires Run(states, actions) && n <= |actions|
  {
    if n == 0 then 0
    else OwnSteps(states, actions, n - 1) + (if Own(states[n - 1], actions[n - 1], states[n]) then 1 else 0)
  }

  function ClockTicks(actions: seq<Action>, n: nat): nat
    requires n <= |actions|
  {
    if n == 0 then 0 else ClockTicks(actions, n - 1) + (if actions[n - 1].Ticks? then 1 else 0)
  }

  /** Steps taken and work left, less what ticks have paid for. */
  ghost function Balance(states: seq<System>, actions: seq<Action>, n: nat): int
    requires Run(states, actions) && n <= |actions| && BodyUnique(states[n])
  {
    OwnSteps(states, actions, n) + Work(states[n]) - 3 * ClockTicks(actions, n)
  }

  lemma StepIsPaid(states: seq<System>, actions: seq<Action>, n: nat)
    requires Run(states, actions) && 0 < n <= |actions| && Inv(states[n - 1]) && states[n - 1].cancelled
    ensures Inv(states[n]) && states[n].cancelled
    ensures Balance(states, actions, n) <= Balance(states, actions, n - 1)
  {
    StepDrains(states[n - 1], actions[n - 1], states[n]);
  }

  lemma {:induction false} BalanceNeverRises(states: seq<System>, actions: seq<Action>, n: nat)
    requires Run(states, actions) && Inv(states[0]) && states[0].cancelled && n <= |actions|
    ensures Inv(states[n]) && states[n].cancelled
    ensures Balance(states, actions, n) <= Balance(states, actions, 0)
  {
    if n > 0 {
      BalanceNeverRises(states, actions, n - 1);
      StepIsPaid(states, actions, n);
    }
  }

  /** After cancellation every schedule, however unfair, holds at most so many steps of body, lanes
      and monitor: the work outstanding plus three per clock tick. */
  lemma CancellationIsBounded(states: seq<System>, actions: seq<Action>, n: nat)
    requires Run(states, actions) && Inv(states[0]) && states[0].cancelled && n <= |actions|
    ensures Inv(states[n]) && states[n].cancelled
    ensures OwnSteps(states, actions, n) + Work(states[n]) <= Work(states[0]) + 3 * ClockTicks(actions, n)
    ensures Work(states[n]) >= 0
  {
    BalanceNeverRises(states, actions, n);
    WorkIsNatural(states[n]);
  }

  lemma WorkIsNatural(s: System)
    requires Inv(s)
    ensures Work(s) >= 0
  {
  }

  /** And until the body has returned, some such step is possible: shutdown cannot get stuck. */
  lemma ShutdownNeverSticks(s: System) returns (a: Action, t: System)
    requires Inv(s) && s.cancelled && BodyStage(s) != 14
    ensures Own(s, a, t) && Next(s, a, t)
  {
    var i := s.body.value;
    var pc := s.callers[i].pc;
    if BodyReady(s, pc) {
      a, t := StartMoves(i), Go(BodyEffect(s, pc), i, InBody(BodyNext(s, pc)));
    } else if pc == WaitingGroup {
      SumZero(s.lanes, Live);
      var l :| 0 <= l < |s.lanes| && Live(s.lanes[l]) != 0;
      a, t := LaneCanMove(s, l);
    } else {
      a := MonitorMoves;
      t := s.(monitor := if s.monitor == Probing then Recording else if s.monitor == Recording then Waiting else Exited);
    }
  }

  lemma LaneCanMove(s: System, l: nat) returns (a: Action, t: System)
    requires Inv(s) && s.cancelled && l < |s.lanes| && s.lanes[l].pc != Gone
    ensures LaneNext(s, a, t)
  {
    match s.lanes[l].pc
    case Selecting => a, t := LaneStops(l), Put(s, l, Sending);
    case Stepping => a, t := LaneReturns(l, false), Put(s, l, Checking(false));
    case Checking(_) => a, t := LaneMoves(l), Put(s, l, Sending);
    case Sending =>
      SendHasRoom(s, l);
      a, t := LaneMoves(l), Put(s.(results := s.results + 1), l, Signing);
    case Signing => a, t := LaneMoves(l), Put(s.(group := s.group - 1), l, Gone);
  }

  // -------- a Stop can be overtaken --------

  /** Stopping has begun and nothing is left that could mark the server alive. */
  predicate Silenced(s: System) {
    Inv(s) && s.server.stopped && !s.server.alive && !(s.valid && 1 <= BodyStage(s) <= 3)
  }

  lemma LateBodyIsQuiet(s: System, pc: BodyPc)
    requires !s.server.alive && Stage(pc) >= 1 && (s.valid ==> Stage(pc) >= 4) && (!s.valid ==> !(2 <= Stage(pc) <= 10))
    ensures var t := BodyEffect(s, pc);
            t.server == s.server && t.valid == s.valid && (t.valid ==> Stage(BodyNext(s, pc)) >= 4)
  {
  }

  lemma BodyKeepsSilence(s: System, i: nat, t: System)
    requires Silenced(s) && Inv(t) && s.body == Some(i) && BodyStep(s, i, s.callers[i].pc, t)
    ensures Silenced(t)
  {
    var pc := s.callers[i].pc;
    assert BodyStage(s) == Stage(pc);
    LateBodyIsQuiet(s, pc);
    assert t.body == Some(i) && t.callers[i] == InBody(BodyNext(s, pc)) by {
      if pc != SpawningLanes { BodyFrame(s, pc); }
    }
  }

  lemma StartKeepsSilence(s: System, a: Action, t: System)
    requires Silenced(s) && Inv(t) && StartNext(s, a, t)
    ensures Silenced(t)
  {
    if a.StartMoves? && s.callers[a.i].InBody? { BodyKeepsSilence(s, a.i, t); }
    else if a.StartMoves? { assert s.body.Some? ==> t.callers[s.body.value] == s.callers[s.body.value]; }
    else { assert BodyStage(t) == 7; }
  }

  lemma StopKeepsSilence(s: System, a: Action, t: System)
    requires Silenced(s) && Inv(t) && StopNext(s, a, t)
    ensures Silenced(t)
  {
    assert StopInv(s, s.callers[a.i]);
    if a.StopMoves? { StopFrame(s, s.callers[a.i]); }
    StopperMoves(s, t, a.i, t.callers[a.i]);
  }

  lemma LaneKeepsSilence(s: System, a: Action, t: System)
    requires Silenced(s) && Inv(t) && LaneNext(s, a, t)
    ensures Silenced(t)
  {
    LaneKeepsLanes(s, a, t);
    SameCallers(s, t);
  }

  lemma OthersKeepSilence(s: System, a: Action, t: System)
    requires Silenced(s) && Inv(t) && (MonitorNext(s, a, t) || OutsideNext(s, a, t))
    ensures Silenced(t)
  {
    SameCallers(s, t);
  }

  lemma SilencedStays(s: System, a: Action, t: System)
    requires Silenced(s) && Next(s, a, t)
    ensures Silenced(t)
  {
    NextKeepsInv(s, a, t);
    if LaneNext(s, a, t) { LaneKeepsSilence(s, a, t); }
    else if StartNext(s, a, t) { StartKeepsSilence(s, a, t); }
    else if StopNext(s, a, t) { StopKeepsSilence(s, a, t); }
    else { OthersKeepSilence(s, a, t); }
  }

  lemma {:induction false} SilencedForEver(states: seq<System>, actions: seq<Action>, n: nat)
    requires Run(states, actions) && Silenced(states[0]) && n < |states|
    ensures Silenced(states[n])
  {
    if n > 0 {
      SilencedForEver(states, actions, n - 1);
      SilencedStays(states[n - 1], actions[n - 1], states[n]);
    }
  }

  /** Some run from here ends with the server marked alive. */
  ghost predicate CanRevive(s: System) {
    exists states: seq<System>, actions: seq<Action> ::
      Run(states, actions) && states[0] == s && states[|states| - 1].server.alive
  }

  lemma ReviveStep(s: System, a: Action, t: System)
    requires Next(s, a, t) && CanRevive(t)
    ensures CanRevive(s)
  {
    var states: seq<System>, actions: seq<Action> :|
      Run(states, actions) && states[0] == t && states[|states| - 1].server.alive;
    var longer, more := [s] + states, [a] + actions;
    forall k | 0 <= k < |more| ensures Next(longer[k], more[k], longer[k + 1]) {
      if k > 0 { assert Next(states[k - 1], actions[k - 1], states[k]); }
    }
    assert Run(longer, more) && longer[|longer| - 1] == states[|states| - 1];
  }

  lemma {:induction false} BodyRevives(s: System)
    requires Inv(s) && s.valid && 1 <= BodyStage(s) <= 4 && (BodyStage(s) == 4 ==> s.server.alive)
    ensures CanRevive(s)
    decreases 4 - BodyStage(s)
  {
    if BodyStage(s) == 4 {
      assert Run([s], []) && [s][0] == s;
    } else {
      var i := s.body.value;
      var pc := s.callers[i].pc;
      var t := Go(BodyEffect(s, pc), i, InBody(BodyNext(s, pc)));
      assert BodyStep(s, i, pc, t);
      assert StartNext(s, StartMoves(i), t);
      NextKeepsInv(s, StartMoves(i), t);
      BodyRevives(t);
      ReviveStep(s, StartMoves(i), t);
    }
  }

  /** After a Stop has marked the server not alive it can become alive again exactly when a racing
      Start has been admitted, has its dependencies and has not yet marked it itself. */
  lemma StopCanBeOvertaken(s: System)
    requires Inv(s) && s.server.stopped && !s.server.alive
    ensures CanRevive(s) <==> s.valid && 1 <= BodyStage(s) <= 3
  {
    if s.valid && 1 <= BodyStage(s) <= 3 { BodyRevives(s); }
    else if CanRevive(s) {
      var states: seq<System>, actions: seq<Action> :|
        Run(states, actions) && states[0] == s && states[|states| - 1].server.alive;
      SilencedForEver(states, actions, |states| - 1);
      assert false;
    }
  }

  /** And that race exists: Start is admitted, then Stop marks the server, then Start goes on. */
  lemma RaceExists() returns (states: seq<System>, actions: seq<Action>)
    ensures Schedule(states, actions) && states[|states| - 1].callers == [InBody(Verifying), StopCancelling(true, true)]
    ensures Inv(states[|states| - 1]) && !states[|states| - 1].server.alive && CanRevive(states[|states| - 1])
  {
    var s0 := System(true, 1, NEW_SERVER, 0, 0, None, false, Unstarted, false, 0, 0, 0, 0, [], [Entering, StopEntering]);
    var s1 := s0.(server := NEW_SERVER.(started := true, cancel := true), entries := 1, body := Some(0),
                  callers := [InBody(Verifying), StopEntering]);
    var s2 := s1.(server := s1.server.(stopped := true), callers := [InBody(Verifying), StopClearing(true, true)]);
    var s3 := s2.(callers := [InBody(Verifying), StopCancelling(true, true)]);
    states, actions := [s0, s1, s2, s3], [StartMoves(0), StopMoves(1), StopMoves(1)];
    assert StartNext(s0, StartMoves(0), s1);
    assert StopNext(s1, StopMoves(1), s2);
    assert StopNext(s2, StopMoves(1), s3);
    InitialInv(s0);
    RunKeepsInv(states, actions, 3);
    StopCanBeOvertaken(s3);
  }
}
