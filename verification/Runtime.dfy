/**
 The worker runtime: Start, Stop and SetConcurrency calls from any number of callers,
 the lanes and the database monitor Start spawns, and the deferred shutdown, as
 interleaved atomic steps.
 */
module Runtime {
  import opened Text

  // -------- the object behind the mutex --------

  /** The fields the mutex and the atomics protect. `cancel` tells whether the cancel function is set. */
  datatype Server = Server(started: bool, stopped: bool, cancel: bool, concurrency: nat, alive: bool)

  const NEW_SERVER := Server(false, false, false, 1, false)

  /** The locked head of Start: whether the body may run, and the fields afterwards. */
  function Admit(s: Server): (Server, bool) {
    if s.started || s.stopped then (s, false) else (s.(started := true, cancel := true), true)
  }

  function Configure(s: Server, n: int): (Server, bool) {
    if s.started || n < 1 || n > 4 then (s, false) else (s.(concurrency := n), true)
  }

  class WorkerServer {
    var started: bool
    var stopped: bool
    var cancel: bool
    var concurrency: nat
    var alive: bool

    function Fields(): Server
      reads this
    {
      Server(started, stopped, cancel, concurrency, alive)
    }

    constructor ()
      ensures Fields() == NEW_SERVER
    {
      started, stopped, cancel, concurrency, alive := false, false, false, 1, false;
    }

    /** Valid only before Start, within 1..4. */
    method SetConcurrency(n: int) returns (ok: bool)
      modifies this`concurrency
      ensures ok <==> !started && 1 <= n <= 4
      ensures (Fields(), ok) == Configure(old(Fields()), n)
    {
      if started || n < 1 || n > 4 { return false; }
      concurrency := n;
      ok := true;
    }

    /** The locked head of Start. */
    method BeginStart() returns (ok: bool)
      modifies this`started, this`cancel
      ensures ok <==> !old(started) && !stopped
      ensures (Fields(), ok) == Admit(old(Fields()))
    {
      if started || stopped { return false; }
      started, cancel := true, true;
      ok := true;
    }

    /** The locked head of Stop: what it must cancel and whether it must wait. */
    method BeginStop() returns (cancels: bool, waits: bool)
      modifies this`stopped
      ensures Fields() == old(Fields()).(stopped := true) && cancels == cancel && waits == started
    {
      stopped := true;
      cancels, waits := cancel, started;
    }
  }

  // -------- the running system --------

  /** A lane: select, Step, the check after it, the send of its result, the wait group signal. */
  datatype LanePc = Selecting | Stepping | Checking(fatal: bool) | Sending | Signing | Gone

  /** `late` counts the Steps the lane began after cancellation. */
  datatype Lane = Lane(pc: LanePc, late: nat)

  datatype MonitorPc = Unstarted | Probing | Recording | Waiting | Exited

  /** Where the body of Start stands. The deferred functions run from DeferCancel on. */
  datatype BodyPc =
    | Verifying | SpawningMonitor | SettingAlive | MakingResults | SpawningLanes | Choosing | Cancelling
    | WaitingGroup | DeferCancel | WaitingMonitor | ClearingAlive | FinalCancel | ClosingDone | Returned

  /** Where a caller stands in Start or Stop. */
  datatype Caller =
    | Entering | Rejected | InBody(pc: BodyPc)
    | StopEntering | StopClearing(cancels: bool, waits: bool) | StopCancelling(cancels: bool, waits: bool)
    | StopWaiting(waits: bool) | StopReturned(clean: bool)

  /** `valid` and `kinds` are the configuration: whether the dependencies are set, and how many kinds
      of lane there are. `body` is the caller that entered Start's body. */
  datatype System = System(valid: bool, kinds: nat, server: Server, entries: nat, closes: nat, body: Option<nat>,
                           cancelled: bool, monitor: MonitorPc, tick: bool, capacity: nat, results: nat, received: nat,
                           group: int, lanes: seq<Lane>, callers: seq<Caller>)

  predicate Initial(s: System) {
    && s.kinds >= 1 && s.server == NEW_SERVER && s.entries == s.closes == 0 && s.body.None? && !s.cancelled
    && s.monitor == Unstarted && !s.tick && s.capacity == s.results == s.received == 0 && s.group == 0 && s.lanes == []
    && forall i :: 0 <= i < |s.callers| ==> s.callers[i] == Entering || s.callers[i] == StopEntering
  }

  datatype Action =
    | ParentCancels
    | Ticks
    | SetConcurrency(n: int)
    | StartMoves(i: nat)
    | TakeResult(i: nat)
    | StopMoves(i: nat)
    | StopGivesUp(i: nat)
    | LaneStops(l: nat)
    | LaneBegins(l: nat)
    | LaneReturns(l: nat, fatal: bool)
    | LanePanics(l: nat)
    | LaneMoves(l: nat)
    | MonitorMoves
    | MonitorAgain

  function Go(s: System, i: nat, pc: Caller): System
    requires i < |s.callers|
  {
    s.(callers := s.callers[i := pc])
  }

  /** One lane per kind and unit of concurrency, as the nested loops spawn them. */
  function LaneCount(kinds: nat, concurrency: nat): nat {
    if kinds == 0 then 0 else concurrency + LaneCount(kinds - 1, concurrency)
  }

  function Total(s: System): nat { LaneCount(s.kinds, s.server.concurrency) }

  /** The locked head of a Start call. */
  predicate EnterStep(s: System, i: nat, t: System)
    requires i < |s.callers|
  {
    var (server, ok) := Admit(s.server);
    if ok then t == Go(s.(server := server, entries := s.entries + 1, body := Some(i)), i, InBody(Verifying))
    else t == Go(s, i, Rejected)
  }

  /** The body of Start in program order: when it can go on, where to, and what it does. */
  predicate BodyReady(s: System, pc: BodyPc) {
    match pc
    case Choosing => s.cancelled
    case WaitingGroup => s.group == 0
    case WaitingMonitor => s.monitor == Exited
    case Returned => false
    case _ => true
  }

  function BodyNext(s: System, pc: BodyPc): BodyPc {
    match pc
    case Verifying => if s.valid then SpawningMonitor else ClearingAlive
    case SpawningMonitor => SettingAlive
    case SettingAlive => MakingResults
    case MakingResults => SpawningLanes
    case SpawningLanes => if |s.lanes| < Total(s) then SpawningLanes else Choosing
    case Choosing => Cancelling
    case Cancelling => WaitingGroup
    case WaitingGroup => DeferCancel
    case DeferCancel => WaitingMonitor
    case WaitingMonitor => ClearingAlive
    case ClearingAlive => FinalCancel
    case FinalCancel => ClosingDone
    case ClosingDone => Returned
    case Returned => Returned
  }

  function BodyEffect(s: System, pc: BodyPc): System {
    match pc
    case SpawningMonitor => s.(monitor := Probing)
    case SettingAlive => s.(server := s.server.(alive := true))
    case MakingResults => s.(capacity := Total(s))
    case SpawningLanes =>
      if |s.lanes| < Total(s) then s.(group := s.group + 1, lanes := s.lanes + [Lane(Selecting, 0)]) else s
    case Cancelling => s.(cancelled := true)
    case DeferCancel => s.(cancelled := true)
    case ClearingAlive => s.(server := s.server.(alive := false))
    case FinalCancel => s.(cancelled := true)
    case ClosingDone => s.(closes := s.closes + 1)
    case _ => s
  }

  predicate BodyStep(s: System, i: nat, pc: BodyPc, t: System)
    requires i < |s.callers|
  {
    BodyReady(s, pc) && t == Go(BodyEffect(s, pc), i, InBody(BodyNext(s, pc)))
  }

  /** The steps of a Stop call. */
  predicate StopReady(s: System, pc: Caller) {
    pc.StopEntering? || pc.StopClearing? || pc.StopCancelling? || (pc.StopWaiting? && (!pc.waits || s.closes > 0))
  }

  function StopNextPc(s: System, pc: Caller): Caller {
    match pc
    case StopEntering => StopClearing(s.server.cancel, s.server.started)
    case StopClearing(cancels, waits) => StopCancelling(cancels, waits)
    case StopCancelling(_, waits) => StopWaiting(waits)
    case _ => StopReturned(true)
  }

  function StopEffect(s: System, pc: Caller): System {
    match pc
    case StopEntering => s.(server := s.server.(stopped := true))
    case StopClearing(_, _) => s.(server := s.server.(alive := false))
    case StopCancelling(cancels, _) => s.(cancelled := s.cancelled || cancels)
    case _ => s
  }

  predicate StopStep(s: System, i: nat, t: System)
    requires i < |s.callers|
  {
    var pc := s.callers[i];
    StopReady(s, pc) && t == Go(StopEffect(s, pc), i, StopNextPc(s, pc))
  }

  function Put(s: System, l: nat, pc: LanePc): System
    requires l < |s.lanes|
  {
    s.(lanes := s.lanes[l := s.lanes[l].(pc := pc)])
  }

  /** The moves of a lane that leave it no choice. */
  predicate LaneStep(s: System, l: nat, t: System)
    requires l < |s.lanes|
  {
    match s.lanes[l].pc
    case Checking(fatal) => t == Put(s, l, if s.cancelled || fatal then Sending else Selecting)
    case Sending => s.results < s.capacity && t == Put(s.(results := s.results + 1), l, Signing)
    case Signing => t == Put(s.(group := s.group - 1), l, Gone)
    case _ => false
  }

  predicate MonitorStep(s: System, t: System) {
    match s.monitor
    case Probing => t == s.(monitor := Recording)
    case Recording => t == s.(monitor := Waiting)
    case Waiting => s.cancelled && t == s.(monitor := Exited)
    case _ => false
  }

  predicate LaneNext(s: System, a: Action, t: System) {
    match a
    case LaneStops(l) => l < |s.lanes| && s.lanes[l].pc == Selecting && s.cancelled && t == Put(s, l, Sending)
    case LaneBegins(l) =>
      && l < |s.lanes| && s.lanes[l].pc == Selecting
      && t == s.(lanes := s.lanes[l := Lane(Stepping, s.lanes[l].late + if s.cancelled then 1 else 0)])
    case LaneReturns(l, fatal) => l < |s.lanes| && s.lanes[l].pc == Stepping && t == Put(s, l, Checking(fatal))
    case LanePanics(l) => l < |s.lanes| && s.lanes[l].pc == Stepping && t == Put(s, l, Sending)
    case LaneMoves(l) => l < |s.lanes| && LaneStep(s, l, t)
    case _ => false
  }

  predicate MonitorNext(s: System, a: Action, t: System) {
    match a
    case MonitorMoves => MonitorStep(s, t)
    case MonitorAgain => s.monitor == Waiting && s.tick && t == s.(tick := false, monitor := Probing)
    case _ => false
  }

  predicate StartNext(s: System, a: Action, t: System) {
    match a
    case StartMoves(i) =>
      && i < |s.callers|
      && (match s.callers[i]
          case Entering => EnterStep(s, i, t)
          case InBody(pc) => BodyStep(s, i, pc, t)
          case _ => false)
    case TakeResult(i) =>
      && i < |s.callers| && s.callers[i] == InBody(Choosing) && s.results > 0
      && t == Go(s.(results := s.results - 1, received := s.received + 1), i, InBody(Cancelling))
    case _ => false
  }

  predicate StopNext(s: System, a: Action, t: System) {
    match a
    case StopMoves(i) => i < |s.callers| && StopStep(s, i, t)
    case StopGivesUp(i) => i < |s.callers| && s.callers[i] == StopWaiting(true) && t == Go(s, i, StopReturned(false))
    case _ => false
  }

  predicate OutsideNext(s: System, a: Action, t: System) {
    match a
    case ParentCancels => s.body.Some? && t == s.(cancelled := true)
    case Ticks => t == s.(tick := true)
    case SetConcurrency(n) => t == s.(server := Configure(s.server, n).0)
    case _ => false
  }

  predicate Next(s: System, a: Action, t: System) {
    || LaneNext(s, a, t) || MonitorNext(s, a, t) || StartNext(s, a, t) || StopNext(s, a, t) || OutsideNext(s, a, t)
  }

  // -------- counting lanes --------

  function Sum(lanes: seq<Lane>, weigh: Lane -> nat): nat {
    if |lanes| == 0 then 0 else weigh(lanes[0]) + Sum(lanes[1..], weigh)
  }

  lemma {:induction false} SumUpdate(lanes: seq<Lane>, l: nat, x: Lane, weigh: Lane -> nat)
    requires l < |lanes|
    ensures Sum(lanes[l := x], weigh) + weigh(lanes[l]) == Sum(lanes, weigh) + weigh(x)
  {
    if l == 0 {
      assert lanes[0 := x][1..] == lanes[1..];
    } else {
      assert lanes[l := x][1..] == lanes[1..][l - 1 := x];
      SumUpdate(lanes[1..], l - 1, x, weigh);
    }
  }

  lemma {:induction false} SumAppend(lanes: seq<Lane>, x: Lane, weigh: Lane -> nat)
    ensures Sum(lanes + [x], weigh) == Sum(lanes, weigh) + weigh(x)
  {
    if |lanes| == 0 {
      assert ([x])[1..] == [];
    } else {
      assert (lanes + [x])[1..] == lanes[1..] + [x];
      SumAppend(lanes[1..], x, weigh);
    }
  }

  lemma {:induction false} SumZero(lanes: seq<Lane>, weigh: Lane -> nat)
    ensures Sum(lanes, weigh) == 0 <==> forall l :: 0 <= l < |lanes| ==> weigh(lanes[l]) == 0
  {
    if |lanes| > 0 {
      SumZero(lanes[1..], weigh);
      if forall l :: 0 <= l < |lanes[1..]| ==> weigh(lanes[1..][l]) == 0 {
        forall l | 1 <= l < |lanes| ensures weigh(lanes[l]) == 0 { assert lanes[l] == lanes[1..][l - 1]; }
      } else {
        var l :| 0 <= l < |lanes[1..]| && weigh(lanes[1..][l]) != 0;
        assert lanes[l + 1] == lanes[1..][l];
      }
    }
  }

  /** Lanes that have not signalled the wait group. */
  function Live(x: Lane): nat { if x.pc == Gone then 0 else 1 }

  /** Lanes whose result is still to be sent. */
  function Unsent(x: Lane): nat { if x.pc == Gone || x.pc == Signing then 0 else 1 }

  // -------- the invariant --------

  /** How far the body has come, from one on. */
  function Stage(pc: BodyPc): nat {
    match pc
    case Verifying => 1
    case SpawningMonitor => 2
    case SettingAlive => 3
    case MakingResults => 4
    case SpawningLanes => 5
    case Choosing => 6
    case Cancelling => 7
    case WaitingGroup => 8
    case DeferCancel => 9
    case WaitingMonitor => 10
    case ClearingAlive => 11
    case FinalCancel => 12
    case ClosingDone => 13
    case Returned => 14
  }

  predicate BodyUnique(s: System) {
    && (s.body.None? <==> !s.server.started)
    && (s.server.cancel <==> s.server.started)
    && s.entries == (if s.server.started then 1 else 0)
    && (s.body.Some? ==> s.body.value < |s.callers| && s.callers[s.body.value].InBody?)
    && forall i :: 0 <= i < |s.callers| && s.callers[i].InBody? ==> s.body == Some(i)
  }

  function BodyStage(s: System): nat
    requires BodyUnique(s)
  {
    if s.body.Some? then Stage(s.callers[s.body.value].pc) else 0
  }

  /** What the body has done by the stage it has reached. */
  predicate BodyInv(s: System, stage: nat) {
    && s.closes == (if stage == 14 then 1 else 0)
    && (stage <= 3 || stage >= 12 ==> !s.server.alive)
    && (stage == 0 ==> !s.cancelled)
    && (stage >= 8 && s.valid ==> s.cancelled)
    && (stage >= 13 ==> s.cancelled)
    && (stage <= 5 ==> s.received == 0)
    && (stage <= 4 ==> s.lanes == [] && s.group == 0)
    && (stage >= 5 && s.valid ==> s.capacity == Total(s) && |s.lanes| <= Total(s))
    && (6 <= stage && s.valid ==> |s.lanes| == Total(s))
    && (stage >= 9 ==> s.group == 0)
    && (stage <= 2 ==> s.monitor == Unstarted)
    && (3 <= stage <= 10 ==> s.monitor != Unstarted)
    && (stage >= 11 ==> s.monitor == Exited || s.monitor == Unstarted)
    && (!s.valid ==> s.lanes == [] && s.monitor == Unstarted && !(2 <= stage <= 10))
  }

  predicate LaneInv(s: System, x: Lane) {
    x.late <= 1 && (x.late == 1 ==> s.cancelled && x.pc != Selecting)
  }

  predicate LanesInv(s: System) {
    && s.group == Sum(s.lanes, Live)
    && s.results + s.received + Sum(s.lanes, Unsent) == |s.lanes|
    && forall l :: 0 <= l < |s.lanes| ==> LaneInv(s, s.lanes[l])
  }

  /** A Stop that will not wait saw Start still unadmitted, and has barred it. */
  predicate StopInv(s: System, c: Caller) {
    match c
    case StopClearing(cancels, waits) => s.server.stopped && cancels == waits && (s.server.started <==> waits)
    case StopCancelling(cancels, waits) => s.server.stopped && cancels == waits && (s.server.started <==> waits)
    case StopWaiting(waits) => s.server.stopped && (s.server.started <==> waits) && (waits ==> s.cancelled)
    case StopReturned(clean) => s.server.stopped && (s.server.started ==> s.cancelled) && (clean && s.server.started ==> s.closes > 0)
    case _ => true
  }

  predicate Inv(s: System) {
    && s.kinds >= 1 && 1 <= s.server.concurrency <= 4
    && BodyUnique(s) && BodyInv(s, BodyStage(s)) && LanesInv(s)
    && forall i :: 0 <= i < |s.callers| ==> StopInv(s, s.callers[i])
  }

  lemma InitialInv(s: System)
    requires Initial(s)
    ensures Inv(s)
  {
  }
}
