/**
 What lanes, callers and the monitor of the worker runtime do with errors, results and signals: a failed lane
 ends the server, and nothing else but cancellation does.
 */
module Lanes {
  import opened Text
  import opened Runtime
  import opened Lifecycle

  // -------- a lane that failed --------

  /** The lane is on its way out. */
  predicate Leaving(x: Lane) { x.pc == Checking(true) || x.pc == Sending || x.pc == Signing || x.pc == Gone }

  lemma LeavingStays(s: System, a: Action, t: System, l: nat)
    requires Next(s, a, t) && l < |s.lanes| && Leaving(s.lanes[l])
    ensures a != LaneBegins(l) && l < |t.lanes| && Leaving(t.lanes[l])
  {
    if StartNext(s, a, t) { StartKeepsLane(s, a, t, l); }
    else if StopNext(s, a, t) { StopKeepsLanes(s, a, t); }
    else if LaneNext(s, a, t) { LeavingGoesOn(s, a, t, l); }
  }

  lemma LeavingGoesOn(s: System, a: Action, t: System, l: nat)
    requires LaneNext(s, a, t) && l < |s.lanes| && Leaving(s.lanes[l])
    ensures a != LaneBegins(l) && l < |t.lanes| && Leaving(t.lanes[l])
  {
  }

  lemma StopKeepsLanes(s: System, a: Action, t: System)
    requires StopNext(s, a, t)
    ensures t.lanes == s.lanes && t.server.started == s.server.started && t.server.concurrency == s.server.concurrency
  {
  }

  lemma StartKeepsLane(s: System, a: Action, t: System, l: nat)
    requires StartNext(s, a, t) && l < |s.lanes|
    ensures l < |t.lanes| && t.lanes[l] == s.lanes[l]
  {
    if a.StartMoves? && s.callers[a.i].InBody? {
      var pc := s.callers[a.i].pc;
      if pc != SpawningLanes { BodyFrame(s, pc); }
    }
  }

  lemma {:induction false} LeavingForEver(states: seq<System>, actions: seq<Action>, k: nat, j: nat, l: nat)
    requires Run(states, actions) && k <= j < |states| && l < |states[k].lanes| && Leaving(states[k].lanes[l])
    ensures l < |states[j].lanes| && Leaving(states[j].lanes[l])
  {
    if k < j {
      LeavingForEver(states, actions, k, j - 1, l);
      LeavingStays(states[j - 1], actions[j - 1], states[j], l);
    }
  }

  lemma FailureLeaves(s: System, a: Action, t: System, l: nat)
    requires Next(s, a, t) && (a == LaneReturns(l, true) || a == LanePanics(l))
    ensures l < |t.lanes| && Leaving(t.lanes[l])
  {
  }

  /** In every run a lane whose Step returned a fatal error, or panicked, begins no Step ever again. */
  lemma FailedLaneBeginsNoMore(states: seq<System>, actions: seq<Action>, k: nat, j: nat, l: nat)
    requires Run(states, actions) && k < j < |actions| && (actions[k] == LaneReturns(l, true) || actions[k] == LanePanics(l))
    ensures actions[j] != LaneBegins(l)
  {
    FailureLeaves(states[k], actions[k], states[k + 1], l);
    LeavingForEver(states, actions, k + 1, j, l);
    LeavingStays(states[j], actions[j], states[j + 1], l);
  }

  /** Some run of this length leads there. */
  ghost predicate Leads(s: System, n: nat, t: System) {
    exists states: seq<System>, actions: seq<Action> ::
      Run(states, actions) && |actions| == n && states[0] == s && states[n] == t
  }

  lemma LeadsNext(s: System, n: nat, t: System, a: Action, u: System)
    requires Leads(s, n, t) && Next(t, a, u)
    ensures Leads(s, n + 1, u)
  {
    var states: seq<System>, actions: seq<Action> :| Run(states, actions) && |actions| == n && states[0] == s && states[n] == t;
    var longer, more := states + [u], actions + [a];
    forall k | 0 <= k < |more| ensures Next(longer[k], more[k], longer[k + 1]) {
      if k < n { assert Next(states[k], actions[k], states[k + 1]); }
    }
    assert Run(longer, more) && longer[0] == s && longer[n + 1] == u;
  }

  lemma LeadsNowhere(s: System)
    ensures Leads(s, 0, s)
  {
    assert Run([s], []) && [s][0] == s;
  }

  /** A waiting body that finds a result takes it and cancels everything. */
  lemma ResultEndsServer(s: System, i: nat) returns (t: System)
    requires i < |s.callers| && s.callers[i] == InBody(Choosing) && s.results > 0
    ensures Leads(s, 2, t) && t.cancelled && t.results == s.results - 1
  {
    var u := Go(s.(results := s.results - 1, received := s.received + 1), i, InBody(Cancelling));
    t := Go(u.(cancelled := true), i, InBody(WaitingGroup));
    LeadsNowhere(s);
    assert StartNext(s, TakeResult(i), u);
    LeadsNext(s, 0, s, TakeResult(i), u);
    assert BodyStep(u, i, Cancelling, t);
    assert StartNext(u, StartMoves(i), t);
    LeadsNext(s, 1, u, StartMoves(i), t);
  }

  /** A lane that found its Step's error fatal sends a result, there being room for it. */
  lemma FatalErrorIsSent(s: System, l: nat) returns (t: System)
    requires Inv(s) && l < |s.lanes| && s.lanes[l].pc == Checking(true)
    ensures Leads(s, 2, t) && t.results == s.results + 1 && t.callers == s.callers && t.server == s.server
  {
    var u := Put(s, l, Sending);
    t := Put(u.(results := u.results + 1), l, Signing);
    LeadsNowhere(s);
    assert LaneNext(s, LaneMoves(l), u);
    LeadsNext(s, 0, s, LaneMoves(l), u);
    NextKeepsInv(s, LaneMoves(l), u);
    SendHasRoom(u, l);
    assert LaneNext(u, LaneMoves(l), t);
    LeadsNext(s, 1, u, LaneMoves(l), t);
  }

  lemma LeadsJoin(s: System, m: nat, t: System, n: nat, u: System)
    requires Leads(s, m, t) && Leads(t, n, u)
    ensures Leads(s, m + n, u)
  {
    var xs: seq<System>, us: seq<Action> :| Run(xs, us) && |us| == m && xs[0] == s && xs[m] == t;
    var ys: seq<System>, vs: seq<Action> :| Run(ys, vs) && |vs| == n && ys[0] == t && ys[n] == u;
    var longer, more := xs + ys[1..], us + vs;
    forall k | 0 <= k < |more| ensures Next(longer[k], more[k], longer[k + 1]) {
      if k < m { assert Next(xs[k], us[k], xs[k + 1]); } else { assert Next(ys[k - m], vs[k - m], ys[k - m + 1]); }
    }
    assert Run(longer, more) && longer[0] == s && longer[m + n] == u;
  }

  /** So a fatal error in any lane of a running server leads to cancellation of the whole server. */
  lemma FatalErrorEndsServer(s: System, i: nat, l: nat) returns (t: System)
    requires Inv(s) && i < |s.callers| && s.callers[i] == InBody(Choosing) && l < |s.lanes| && s.lanes[l].pc == Checking(true)
    ensures Leads(s, 4, t) && t.cancelled
  {
    var u := FatalErrorIsSent(s, l);
    t := ResultEndsServer(u, i);
    LeadsJoin(s, 2, u, 2, t);
  }

  /** And nothing else does: uncancelled and without a result, a running server goes on. */
  lemma ServerStaysUp(s: System, a: Action, t: System, i: nat)
    requires Inv(s) && Next(s, a, t) && i < |s.callers| && s.callers[i] == InBody(Choosing) && !s.cancelled && s.results == 0
    ensures i < |t.callers| && t.callers[i] == InBody(Choosing)
  {
    assert s.body == Some(i);
    if StartNext(s, a, t) && a.i != i { OthersStart(s, a, t, i); }
    else if StopNext(s, a, t) { OthersStop(s, a, t, i); }
    else if LaneNext(s, a, t) { LaneLeavesCallers(s, a, t); }
  }

  lemma OthersStart(s: System, a: Action, t: System, i: nat)
    requires StartNext(s, a, t) && i < |s.callers| && a.i != i
    ensures i < |t.callers| && t.callers[i] == s.callers[i]
  {
    if a.StartMoves? && s.callers[a.i].InBody? { EffectKeepsCallers(s, s.callers[a.i].pc); }
  }

  lemma OthersStop(s: System, a: Action, t: System, i: nat)
    requires StopNext(s, a, t) && i < |s.callers| && s.callers[i].InBody?
    ensures i < |t.callers| && t.callers[i] == s.callers[i]
  {
    assert StopEffect(s, s.callers[a.i]).callers == s.callers;
  }

  // -------- a lane that did not fail --------

  /** As long as nothing is cancelled, a lane without a fatal error comes round to begin the next Step. */
  lemma HealthyLaneComesRound(s: System, l: nat) returns (t: System)
    requires l < |s.lanes| && s.lanes[l].pc == Selecting && !s.cancelled
    ensures Leads(s, 3, t) && t == s
  {
    var u := Put(s, l, Stepping);
    var v := Put(u, l, Checking(false));
    t := Put(v, l, Selecting);
    LeadsNowhere(s);
    assert LaneNext(s, LaneBegins(l), u);
    LeadsNext(s, 0, s, LaneBegins(l), u);
    assert LaneNext(u, LaneReturns(l, false), v);
    LeadsNext(s, 1, u, LaneReturns(l, false), v);
    assert LaneNext(v, LaneMoves(l), t);
    LeadsNext(s, 2, v, LaneMoves(l), t);
    assert t.lanes == s.lanes;
  }

  /** The monitor probes again at every tick. */
  lemma MonitorProbesAgain(s: System)
    requires s.monitor == Waiting && s.tick
    ensures Next(s, MonitorAgain, s.(tick := false, monitor := Probing))
  {
  }

  // -------- callers --------

  lemma {:induction false} CountsAreProducts(kinds: nat, concurrency: nat)
    ensures LaneCount(kinds, concurrency) == kinds * concurrency
  {
    if kinds > 0 { CountsAreProducts(kinds - 1, concurrency); }
  }

  /** In every schedule a configured server that has finished spawning runs one lane per kind and unit of concurrency. */
  lemma AllLanesSpawned(states: seq<System>, actions: seq<Action>, k: nat)
    requires Schedule(states, actions) && k < |states| && states[k].valid
    ensures Inv(states[k])
    ensures BodyStage(states[k]) >= 6 ==> |states[k].lanes| == states[k].kinds * states[k].server.concurrency
  {
    InitialInv(states[0]);
    RunKeepsInv(states, actions, k);
    CountsAreProducts(states[k].kinds, states[k].server.concurrency);
  }

  /** A Start is taken exactly when neither a Start nor a Stop came before it. */
  lemma StartsExactly(s: System, i: nat, t: System)
    requires i < |s.callers| && s.callers[i] == Entering && Next(s, StartMoves(i), t)
    ensures if s.server.started || s.server.stopped then t == s.(callers := s.callers[i := Rejected])
            else t.callers == s.callers[i := InBody(Verifying)] && t.server == s.server.(started := true, cancel := true)
  {
  }

  /** Concurrency is taken within 1 to 4 before Start, and never changes after it. */
  lemma ConcurrencyExactly(s: System, n: int, t: System)
    requires Next(s, SetConcurrency(n), t)
    ensures t.server.concurrency == (if !s.server.started && 1 <= n <= 4 then n else s.server.concurrency)
    ensures t == s.(server := s.server.(concurrency := t.server.concurrency))
  {
  }

  lemma StartKeepsConcurrency(s: System, a: Action, t: System)
    requires StartNext(s, a, t) && s.server.started
    ensures t.server.started && t.server.concurrency == s.server.concurrency
  {
    if a.StartMoves? && s.callers[a.i].InBody? {
      var pc := s.callers[a.i].pc;
      if pc != SpawningLanes { BodyFrame(s, pc); }
    }
  }

  lemma ConcurrencyIsFrozen(s: System, a: Action, t: System)
    requires Next(s, a, t) && s.server.started
    ensures t.server.started && t.server.concurrency == s.server.concurrency
  {
    if StartNext(s, a, t) { StartKeepsConcurrency(s, a, t); }
    else if StopNext(s, a, t) { StopKeepsLanes(s, a, t); }
    else if LaneNext(s, a, t) { assert t.server == s.server; }
  }

  /** A Stop bars every later Start, clears the alive mark and cancels a Start that was taken, in this order, before it waits. */
  lemma StopInOrder(s: System, i: nat, t: System)
    requires i < |s.callers| && Next(s, StopMoves(i), t)
    ensures s.callers[i] == StopEntering ==> t.server.stopped && t.callers[i] == StopClearing(s.server.cancel, s.server.started)
    ensures s.callers[i].StopClearing? ==> !t.server.alive && t.callers[i] == StopCancelling(s.callers[i].cancels, s.callers[i].waits)
    ensures s.callers[i].StopCancelling? ==> (s.callers[i].cancels ==> t.cancelled) && t.callers[i] == StopWaiting(s.callers[i].waits)
    ensures s.callers[i].StopWaiting? ==> (s.callers[i].waits ==> s.closes > 0) && t.callers[i] == StopReturned(true)
  {
  }

  /** A Stop that gives up waiting says so. */
  lemma GivingUpIsAnError(s: System, i: nat, t: System)
    requires Next(s, StopGivesUp(i), t)
    ensures i < |t.callers| && t.callers[i] == StopReturned(false) && s.callers[i] == StopWaiting(true)
  {
  }

  /** Whatever became of it, a body that has returned leaves its context cancelled and `done` closed. */
  lemma ReturnedBodyIsCancelled(states: seq<System>, actions: seq<Action>, k: nat, i: nat)
    requires Schedule(states, actions) && k < |states| && i < |states[k].callers| && states[k].callers[i] == InBody(Returned)
    ensures states[k].cancelled && states[k].closes == 1 && !states[k].server.alive
  {
    InitialInv(states[0]);
    RunKeepsInv(states, actions, k);
    assert states[k].body == Some(i);
  }

  // -------- what may happen at any time --------

  /** A Step may panic; a lane that selects as cancellation comes may still begin one Step; a caller may lose patience; the
      parent may cancel a running server; clocks tick. */
  lemma MayHappen(s: System, l: nat, i: nat)
    ensures l < |s.lanes| && s.lanes[l].pc == Stepping ==> Next(s, LanePanics(l), Put(s, l, Sending))
    ensures l < |s.lanes| && s.lanes[l].pc == Selecting && s.cancelled ==>
              Next(s, LaneBegins(l), s.(lanes := s.lanes[l := Lane(Stepping, s.lanes[l].late + 1)])) && Next(s, LaneStops(l), Put(s, l, Sending))
    ensures i < |s.callers| && s.callers[i] == StopWaiting(true) ==> Next(s, StopGivesUp(i), Go(s, i, StopReturned(false)))
    ensures s.body.Some? ==> Next(s, ParentCancels, s.(cancelled := true))
    ensures Next(s, Ticks, s.(tick := true))
  {
  }
}
