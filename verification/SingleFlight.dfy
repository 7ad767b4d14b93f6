/**
 The wake service's single flight: one shared attempt per agent, any number of waiters, as a
 state machine over every interleaving of callers, wake tasks and timeouts. Everything done
 under one lock is one step. A notification reaches the waiters that asked to be notified
 before it was sent, so each waiter remembers how many had been sent when it asked.
 */
module SingleFlight {
  import opened Wrappers

  type AgentId = nat
  type AttemptId = nat
  type WaiterId = nat

  datatype Outcome = Awake | WakeFailed(error: string)

  datatype Attempt = Attempt(agent: AgentId, outcome: Option<Outcome>, notifications: nat)

  /** Where a wake task is: waking the agent, outcome stored, or waiters notified. A task that
      has left the in-flight map is gone. */
  datatype Task = Waking | OutcomeStored | WaitersNotified

  datatype Waiter =
    | Joined(attempt: AttemptId)
    | Listening(attempt: AttemptId, seen: nat)
    | Blocked(attempt: AttemptId, seen: nat)
    | Returned(attempt: AttemptId, outcome: Outcome)

  // ---- The service ----

  datatype Flight = Flight(inflight: map<AgentId, AttemptId>, attempts: seq<Attempt>, tasks: map<AttemptId, Task>)

  /** Join the agent's attempt, or start one and its task. */
  function Ensure(f: Flight, agent: AgentId): (Flight, AttemptId) {
    if agent in f.inflight then (f, f.inflight[agent])
    else
      var id := |f.attempts|;
      (Flight(f.inflight[agent := id], f.attempts + [Attempt(agent, None, 0)], f.tasks[id := Waking]), id)
  }

  predicate At(f: Flight, id: AttemptId, task: Task) { id < |f.attempts| && id in f.tasks && f.tasks[id] == task }

  function StoreOutcome(f: Flight, id: AttemptId, outcome: Outcome): Flight
    requires At(f, id, Waking)
  {
    f.(attempts := f.attempts[id := f.attempts[id].(outcome := Some(outcome))], tasks := f.tasks[id := OutcomeStored])
  }

  function NotifyWaiters(f: Flight, id: AttemptId): Flight
    requires At(f, id, OutcomeStored)
  {
    var attempt := f.attempts[id];
    f.(attempts := f.attempts[id := attempt.(notifications := attempt.notifications + 1)],
       tasks := f.tasks[id := WaitersNotified])
  }

  /** The task removes whatever entry its agent has, then ends. */
  function Retire(f: Flight, id: AttemptId): Flight
    requires At(f, id, WaitersNotified)
  {
    f.(inflight := f.inflight - {f.attempts[id].agent}, tasks := f.tasks - {id})
  }

  class WakeService {
    var inflight: map<AgentId, AttemptId>
    var attempts: seq<Attempt>
    var tasks: map<AttemptId, Task>

    function State(): Flight
      reads this
    {
      Flight(inflight, attempts, tasks)
    }

    constructor ()
      ensures State() == Flight(map[], [], map[])
    {
      inflight, attempts, tasks := map[], [], map[];
    }

    method Join(agent: AgentId) returns (id: AttemptId)
      modifies this
      ensures (State(), id) == Ensure(old(State()), agent)
      ensures agent in inflight && inflight[agent] == id
    {
      if agent in inflight { return inflight[agent]; }
      id := |attempts|;
      attempts := attempts + [Attempt(agent, None, 0)];
      inflight := inflight[agent := id];
      tasks := tasks[id := Waking];
    }

    /** Store the outcome, then notify. */
    method Complete(id: AttemptId, result: Outcome)
      requires At(State(), id, Waking)
      modifies this
      ensures State() == NotifyWaiters(StoreOutcome(old(State()), id, result), id)
      ensures attempts[id].outcome == Some(result) && attempts[id].agent == old(attempts)[id].agent
      ensures attempts[id].notifications == old(attempts)[id].notifications + 1
      ensures |attempts| == |old(attempts)| && inflight == old(inflight)
      ensures forall other :: 0 <= other < |attempts| && other != id ==> attempts[other] == old(attempts)[other]
    {
      attempts := attempts[id := attempts[id].(outcome := Some(result))];
      tasks := tasks[id := OutcomeStored];
      attempts := attempts[id := attempts[id].(notifications := attempts[id].notifications + 1)];
      tasks := tasks[id := WaitersNotified];
    }

    method Leave(id: AttemptId)
      requires At(State(), id, WaitersNotified)
      modifies this
      ensures State() == Retire(old(State()), id)
    {
      inflight := inflight - {attempts[id].agent};
      tasks := tasks - {id};
    }
  }

  // ---- Every interleaving ----

  datatype World = World(flight: Flight, waiters: map<WaiterId, Waiter>)

  datatype Step =
    | Call(w: WaiterId, agent: AgentId)
    | Finish(id: AttemptId, result: Outcome)
    | Notify(id: AttemptId)
    | Remove(id: AttemptId)
    | Listen(w: WaiterId)
    | Check(w: WaiterId)
    | Resume(w: WaiterId)
    | GiveUp(w: WaiterId)

  predicate Initial(s: World) { s == World(Flight(map[], [], map[]), map[]) }

  function AttemptOf(s: World, w: WaiterId): Option<Attempt> {
    if w in s.waiters && s.waiters[w].attempt < |s.flight.attempts| then Some(s.flight.attempts[s.waiters[w].attempt])
    else None
  }

  predicate Enabled(s: World, step: Step) {
    match step
    case Call(w, _) => w !in s.waiters
    case Finish(id, _) => At(s.flight, id, Waking)
    case Notify(id) => At(s.flight, id, OutcomeStored)
    case Remove(id) => At(s.flight, id, WaitersNotified)
    case Listen(w) => AttemptOf(s, w).Some? && s.waiters[w].Joined?
    case Check(w) => AttemptOf(s, w).Some? && s.waiters[w].Listening?
    case Resume(w) => AttemptOf(s, w).Some? && s.waiters[w].Blocked?
                      && AttemptOf(s, w).value.notifications != s.waiters[w].seen
    case GiveUp(w) => w in s.waiters && !s.waiters[w].Returned?
  }

  function Apply(s: World, step: Step): World
    requires Enabled(s, step)
  {
    match step
    case Call(w, agent) =>
      var (flight, id) := Ensure(s.flight, agent);
      World(flight, s.waiters[w := Joined(id)])
    case Finish(id, result) => s.(flight := StoreOutcome(s.flight, id, result))
    case Notify(id) => s.(flight := NotifyWaiters(s.flight, id))
    case Remove(id) => s.(flight := Retire(s.flight, id))
    case Listen(w) =>
      s.(waiters := s.waiters[w := Listening(s.waiters[w].attempt, AttemptOf(s, w).value.notifications)])
    case Check(w) =>
      var id, outcome := s.waiters[w].attempt, AttemptOf(s, w).value.outcome;
      s.(waiters := s.waiters[w :=
        if outcome.Some? then Returned(id, outcome.value) else Blocked(id, s.waiters[w].seen)])
    case Resume(w) => s.(waiters := s.waiters[w := Joined(s.waiters[w].attempt)])
    case GiveUp(w) => s.(waiters := s.waiters - {w})
  }

  predicate IsRun(s: World, steps: seq<Step>)
    decreases |steps|, 0
  {
    steps == [] || (IsRun(s, steps[..|steps| - 1]) && Enabled(After(s, steps[..|steps| - 1]), steps[|steps| - 1]))
  }

  function After(s: World, steps: seq<Step>): World
    requires IsRun(s, steps)
    decreases |steps|, 1
  {
    if steps == [] then s else Apply(After(s, steps[..|steps| - 1]), steps[|steps| - 1])
  }

  // ---- The invariant ----

  /** The in-flight map lists exactly the unfinished tasks, each under its own agent. */
  predicate InflightInv(f: Flight) {
    && (forall a :: a in f.inflight ==>
          f.inflight[a] < |f.attempts| && f.attempts[f.inflight[a]].agent == a && f.inflight[a] in f.tasks)
    && (forall id :: id in f.tasks ==>
          id < |f.attempts| && f.attempts[id].agent in f.inflight && f.inflight[f.attempts[id].agent] == id)
  }

  /** An attempt has an outcome once its task stored it, and one notification once it notified. */
  predicate ProgressInv(f: Flight) {
    forall id :: 0 <= id < |f.attempts| ==>
      var a := f.attempts[id];
      if id !in f.tasks || f.tasks[id].WaitersNotified? then a.outcome.Some? && a.notifications == 1
      else a.notifications == 0 && (a.outcome.Some? <==> f.tasks[id].OutcomeStored?)
  }

  /** What a waiter remembers is consistent with its attempt; nobody blocks having already
      seen the notification. */
  predicate WaiterOk(s: World, w: WaiterId)
    requires w in s.waiters
  {
    && AttemptOf(s, w).Some?
    && match s.waiters[w]
       case Joined(_) => true
       case Listening(_, seen) =>
         seen <= AttemptOf(s, w).value.notifications && (seen > 0 ==> AttemptOf(s, w).value.outcome.Some?)
       case Blocked(_, seen) => seen == 0
       case Returned(_, outcome) => AttemptOf(s, w).value.outcome == Some(outcome)
  }

  predicate WaitersInv(s: World) { forall w :: w in s.waiters ==> WaiterOk(s, w) }

  predicate Inv(s: World) { FlightInv(s.flight) && WaitersInv(s) }

  predicate FlightInv(f: Flight) { InflightInv(f) && ProgressInv(f) }

  lemma EnsureKeepsInflight(f: Flight, agent: AgentId)
    requires InflightInv(f)
    ensures InflightInv(Ensure(f, agent).0)
  {
  }

  lemma EnsureKeepsProgress(f: Flight, agent: AgentId)
    requires InflightInv(f) && ProgressInv(f)
    ensures ProgressInv(Ensure(f, agent).0)
  {
  }

  lemma StoreOutcomeKeeps(f: Flight, id: AttemptId, outcome: Outcome)
    requires At(f, id, Waking) && FlightInv(f)
    ensures FlightInv(StoreOutcome(f, id, outcome))
  {
  }

  lemma NotifyKeeps(f: Flight, id: AttemptId)
    requires At(f, id, OutcomeStored) && FlightInv(f)
    ensures FlightInv(NotifyWaiters(f, id))
  {
  }

  lemma RetireKeeps(f: Flight, id: AttemptId)
    requires At(f, id, WaitersNotified) && FlightInv(f)
    ensures FlightInv(Retire(f, id))
  {
  }

  lemma StepKeepsFlight(s: World, step: Step)
    requires Enabled(s, step) && FlightInv(s.flight)
    ensures FlightInv(Apply(s, step).flight)
  {
    match step
    case Call(_, agent) =>
      EnsureKeepsInflight(s.flight, agent);
      EnsureKeepsProgress(s.flight, agent);
    case Finish(id, result) => StoreOutcomeKeeps(s.flight, id, result);
    case Notify(id) => NotifyKeeps(s.flight, id);
    case Remove(id) => RetireKeeps(s.flight, id);
    case _ =>
  }

  /** Attempts only move forward: same agent, an outcome never changes, notifications never drop. */
  predicate Grows(f: Flight, g: Flight) {
    && |f.attempts| <= |g.attempts|
    && forall id :: 0 <= id < |f.attempts| ==>
         && g.attempts[id].agent == f.attempts[id].agent
         && g.attempts[id].notifications >= f.attempts[id].notifications
         && (f.attempts[id].outcome.Some? ==> g.attempts[id].outcome == f.attempts[id].outcome)
  }

  lemma StepGrows(s: World, step: Step)
    requires Enabled(s, step) && ProgressInv(s.flight)
    ensures Grows(s.flight, Apply(s, step).flight)
  {
  }

  lemma StepKeepsWaiters(s: World, step: Step)
    requires Enabled(s, step) && FlightInv(s.flight) && WaitersInv(s)
    ensures WaitersInv(Apply(s, step))
  {
    StepGrows(s, step);
    var s' := Apply(s, step);
    forall w | w in s'.waiters ensures WaiterOk(s', w) {
      if w in s.waiters { assert WaiterOk(s, w); }
    }
  }

  lemma {:induction false} RunKeepsInv(s: World, steps: seq<Step>)
    requires Initial(s) && IsRun(s, steps)
    ensures Inv(After(s, steps))
  {
    if steps != [] {
      RunKeepsInv(s, steps[..|steps| - 1]);
      StepKeepsFlight(After(s, steps[..|steps| - 1]), steps[|steps| - 1]);
      StepKeepsWaiters(After(s, steps[..|steps| - 1]), steps[|steps| - 1]);
    }
  }

  // ---- The theorems ----

  /** Single flight: in every interleaving an agent has at most one unfinished wake task, and
      it is the one the in-flight map hands to callers. */
  lemma AtMostOneWake(s: World, steps: seq<Step>, a: AttemptId, b: AttemptId)
    requires Initial(s) && IsRun(s, steps)
    requires var f := After(s, steps).flight;
             && a in f.tasks && b in f.tasks && a < |f.attempts| && b < |f.attempts|
             && f.attempts[a].agent == f.attempts[b].agent
    ensures a == b
    ensures var f := After(s, steps).flight;
            f.attempts[a].agent in f.inflight && f.inflight[f.attempts[a].agent] == a
  {
    RunKeepsInv(s, steps);
  }

  /** No lost wake-up: a blocked waiter's attempt is still going to notify, or the waiter can
      resume now. */
  lemma NoLostWakeUp(s: World, steps: seq<Step>, w: WaiterId)
    requires Initial(s) && IsRun(s, steps)
    requires var now := After(s, steps); w in now.waiters && now.waiters[w].Blocked?
    ensures var now := After(s, steps);
            var id := now.waiters[w].attempt;
            if At(now.flight, id, Waking) || At(now.flight, id, OutcomeStored) then !Enabled(now, Resume(w))
            else Enabled(now, Resume(w))
  {
    RunKeepsInv(s, steps);
    assert WaiterOk(After(s, steps), w);
  }

  /** Steps of its own a waiter needs to return once its attempt has notified. */
  function Remaining(waiter: Waiter): nat {
    match waiter case Returned(_, _) => 0 case Listening(_, _) => 1 case Joined(_) => 2 case Blocked(_, _) => 3
  }

  predicate OwnStep(step: Step, w: WaiterId) { (step.Listen? || step.Check? || step.Resume?) && step.w == w }

  function OwnSteps(steps: seq<Step>, w: WaiterId): nat {
    if steps == [] then 0
    else OwnSteps(steps[..|steps| - 1], w) + if OwnStep(steps[|steps| - 1], w) then 1 else 0
  }

  predicate Notified(s: World, id: AttemptId) {
    id < |s.flight.attempts| && s.flight.attempts[id].outcome.Some? && s.flight.attempts[id].notifications == 1
  }

  function NextStep(s: World, w: WaiterId): Step
    requires w in s.waiters
  {
    match s.waiters[w] case Joined(_) => Listen(w) case Listening(_, _) => Check(w) case _ => Resume(w)
  }

  predicate IsNotifiedWaiter(s: World, w: WaiterId) { w in s.waiters && Notified(s, s.waiters[w].attempt) }

  /** Once the attempt has notified, a waiter can always take its next step. */
  lemma NeverStuck(s: World, w: WaiterId)
    requires Inv(s) && IsNotifiedWaiter(s, w)
    ensures !s.waiters[w].Returned? ==> Enabled(s, NextStep(s, w))
  {
    assert WaiterOk(s, w);
  }

  lemma StaysNotified(s: World, step: Step, w: WaiterId)
    requires Inv(s) && Enabled(s, step) && IsNotifiedWaiter(s, w) && step != GiveUp(w)
    ensures var s', id := Apply(s, step), s.waiters[w].attempt;
            && IsNotifiedWaiter(s', w) && s'.waiters[w].attempt == id
            && s'.flight.attempts[id].outcome == s.flight.attempts[id].outcome
  {
    StepGrows(s, step);
    NotifiedOnce(s, step, s.waiters[w].attempt);
  }

  /** Each of its own steps brings it closer to returning, and nobody else's takes it back. */
  lemma StepBringsCloser(s: World, step: Step, w: WaiterId)
    requires Inv(s) && Enabled(s, step) && IsNotifiedWaiter(s, w) && step != GiveUp(w)
    ensures w in Apply(s, step).waiters
    ensures Remaining(Apply(s, step).waiters[w]) == Remaining(s.waiters[w]) - if OwnStep(step, w) then 1 else 0
  {
  }

  lemma NotifiedOnce(s: World, step: Step, id: AttemptId)
    requires Enabled(s, step) && FlightInv(s.flight) && Notified(s, id)
    ensures Notified(Apply(s, step), id)
  {
    StepKeepsFlight(s, step);
    StepGrows(s, step);
  }

  lemma {:induction false} NotifiedWaiterAdvances(s: World, rest: seq<Step>, w: WaiterId)
    requires Inv(s) && w in s.waiters && Notified(s, s.waiters[w].attempt)
    requires IsRun(s, rest) && GiveUp(w) !in rest
    ensures var end := After(s, rest);
            && Inv(end) && w in end.waiters && end.waiters[w].attempt == s.waiters[w].attempt
            && Notified(end, s.waiters[w].attempt)
            && end.flight.attempts[s.waiters[w].attempt].outcome == s.flight.attempts[s.waiters[w].attempt].outcome
            && Remaining(end.waiters[w]) + OwnSteps(rest, w) == Remaining(s.waiters[w])
  {
    if rest != [] {
      var init, step := rest[..|rest| - 1], rest[|rest| - 1];
      NotifiedWaiterAdvances(s, init, w);
      assert step in rest;
      StaysNotified(After(s, init), step, w);
      StepBringsCloser(After(s, init), step, w);
      StepKeepsFlight(After(s, init), step);
      StepKeepsWaiters(After(s, init), step);
    }
  }

  /** Once a task has notified its waiters, they are notified for good. */
  lemma {:induction false} NotifyNotifies(s: World, steps: seq<Step>, id: AttemptId)
    requires Initial(s) && IsRun(s, steps) && Notify(id) in steps
    ensures Notified(After(s, steps), id)
  {
    var init, step := steps[..|steps| - 1], steps[|steps| - 1];
    assert steps == init + [step];
    RunKeepsInv(s, init);
    if Notify(id) in init {
      NotifyNotifies(s, init, id);
      NotifiedOnce(After(s, init), step, id);
    }
  }

  /** Every waiter returns the shared outcome: in every interleaving, once the task of its attempt
      has notified, a waiter that does not give up is never stuck, takes at most three more steps
      of its own, and when it is done it has returned exactly what the task finished with. */
  lemma EveryWaiterReturns(s: World, steps: seq<Step>, rest: seq<Step>, w: WaiterId)
    requires Initial(s) && IsRun(s, steps) && IsRun(After(s, steps), rest) && GiveUp(w) !in rest
    requires var mid := After(s, steps); w in mid.waiters && Notify(mid.waiters[w].attempt) in steps
    ensures var mid, end := After(s, steps), After(After(s, steps), rest);
            && w in end.waiters && OwnSteps(rest, w) <= 3
            && if OwnSteps(rest, w) == Remaining(mid.waiters[w])
               then
                 && end.waiters[w].Returned? && end.waiters[w].attempt == mid.waiters[w].attempt
                 && Finish(end.waiters[w].attempt, end.waiters[w].outcome) in steps
               else !end.waiters[w].Returned? && Enabled(end, NextStep(end, w))
  {
    RunKeepsInv(s, steps);
    RunStores(s, steps);
    NotifyNotifies(s, steps, After(s, steps).waiters[w].attempt);
    NotifiedWaiterAdvances(After(s, steps), rest, w);
    NeverStuck(After(After(s, steps), rest), w);
    assert WaiterOk(After(After(s, steps), rest), w);
  }

  /** All who returned from one attempt returned the same outcome. */
  lemma OutcomeIsShared(s: World, steps: seq<Step>, v: WaiterId, w: WaiterId)
    requires Initial(s) && IsRun(s, steps)
    requires var now := After(s, steps);
             && v in now.waiters && w in now.waiters && now.waiters[v].Returned? && now.waiters[w].Returned?
             && now.waiters[v].attempt == now.waiters[w].attempt
    ensures After(s, steps).waiters[v] == After(s, steps).waiters[w]
  {
    RunKeepsInv(s, steps);
    assert WaiterOk(After(s, steps), v) && WaiterOk(After(s, steps), w);
  }

  // ---- What is returned is what happened ----

  /** The last call of a waiter is at `i`, about `agent`. */
  predicate LastCall(steps: seq<Step>, w: WaiterId, agent: AgentId, i: int) {
    0 <= i < |steps| && steps[i] == Call(w, agent)
    && forall j :: i < j < |steps| ==> !(steps[j].Call? && steps[j].w == w)
  }

  predicate Finishes(step: Step, id: AttemptId) { step.Finish? && step.id == id }

  /** The outcome stored for an attempt is the result its task finished with, and it is stored
      exactly when the task has finished. */
  ghost predicate StoredAsFinished(s: World, steps: seq<Step>) {
    forall id: nat, o ::
      Finish(id, o) in steps <==> id < |s.flight.attempts| && s.flight.attempts[id].outcome == Some(o)
  }

  lemma StepStores(s: World, steps: seq<Step>, step: Step)
    requires Enabled(s, step) && FlightInv(s.flight) && StoredAsFinished(s, steps)
    ensures StoredAsFinished(Apply(s, step), steps + [step])
  {
    var s' := Apply(s, step);
    forall id: nat, o
      ensures Finish(id, o) in steps + [step]
              <==> id < |s'.flight.attempts| && s'.flight.attempts[id].outcome == Some(o) {
      assert Finish(id, o) in steps + [step] <==> Finish(id, o) in steps || step == Finish(id, o);
      assert Finish(id, o) in steps <==> id < |s.flight.attempts| && s.flight.attempts[id].outcome == Some(o);
    }
  }

  lemma {:induction false} RunStores(s: World, steps: seq<Step>)
    requires Initial(s) && IsRun(s, steps)
    ensures StoredAsFinished(After(s, steps), steps)
  {
    if steps != [] {
      var init, step := steps[..|steps| - 1], steps[|steps| - 1];
      RunStores(s, init);
      RunKeepsInv(s, init);
      StepStores(After(s, init), init, step);
      assert steps == init + [step];
    }
  }

  /** A waiter returns what the task finished with: in every interleaving, whoever returned an
      outcome from an attempt, that attempt's task finished with exactly that outcome. */
  lemma ReturnedIsTheResult(s: World, steps: seq<Step>, w: WaiterId)
    requires Initial(s) && IsRun(s, steps)
    requires w in After(s, steps).waiters && After(s, steps).waiters[w].Returned?
    ensures var waiter := After(s, steps).waiters[w]; Finish(waiter.attempt, waiter.outcome) in steps
  {
    RunKeepsInv(s, steps);
    RunStores(s, steps);
    assert WaiterOk(After(s, steps), w);
  }

  /** A task finishes at most once. */
  lemma FinishesOnce(s: World, steps: seq<Step>, i: nat, j: nat, id: AttemptId)
    requires Initial(s) && IsRun(s, steps) && i < j < |steps| && Finishes(steps[i], id)
    ensures !Finishes(steps[j], id)
  {
    PrefixIsRun(s, steps, j + 1);
    FinishedBefore(s, steps[..j], i, id, steps[j]);
  }

  lemma FinishedBefore(s: World, before: seq<Step>, i: nat, id: AttemptId, step: Step)
    requires Initial(s) && IsRun(s, before) && i < |before| && Finishes(before[i], id)
    requires Enabled(After(s, before), step)
    ensures !Finishes(step, id)
  {
    RunStores(s, before);
    RunKeepsInv(s, before);
    assert before[i] == Finish(id, before[i].result);
    NotAgain(After(s, before), before, id, before[i].result, step);
  }

  lemma NotAgain(s: World, steps: seq<Step>, id: AttemptId, o: Outcome, step: Step)
    requires StoredAsFinished(s, steps) && FlightInv(s.flight) && Finish(id, o) in steps && Enabled(s, step)
    ensures !Finishes(step, id)
  {
    assert id < |s.flight.attempts| && s.flight.attempts[id].outcome == Some(o);
    assert !At(s.flight, id, Waking);
  }

  lemma {:induction false} PrefixIsRun(s: World, steps: seq<Step>, n: nat)
    requires IsRun(s, steps) && n <= |steps|
    ensures IsRun(s, steps[..n])
    ensures n > 0 ==> IsRun(s, steps[..n - 1]) && Enabled(After(s, steps[..n - 1]), steps[n - 1])
    decreases |steps| - n
  {
    if n == |steps| {
      assert steps[..n] == steps;
    } else {
      PrefixIsRun(s, steps, n + 1);
      assert steps[..n + 1][..n] == steps[..n];
      if n > 0 { assert steps[..n][..n - 1] == steps[..n - 1]; }
    }
  }

  /** Every waiter waits on an attempt for the agent it last called about. */
  ghost predicate WaitsForItsAgent(s: World, steps: seq<Step>, w: WaiterId)
    requires w in s.waiters
  {
    && s.waiters[w].attempt < |s.flight.attempts|
    && exists i :: LastCall(steps, w, s.flight.attempts[s.waiters[w].attempt].agent, i)
  }

  lemma StepKeepsAgent(s: World, steps: seq<Step>, step: Step, w: WaiterId)
    requires Enabled(s, step) && FlightInv(s.flight) && w in Apply(s, step).waiters
    requires w in s.waiters ==> WaitsForItsAgent(s, steps, w)
    ensures WaitsForItsAgent(Apply(s, step), steps + [step], w)
  {
    StepGrows(s, step);
    if w in s.waiters {
      var agent := s.flight.attempts[s.waiters[w].attempt].agent;
      var i :| LastCall(steps, w, agent, i);
      assert LastCall(steps + [step], w, agent, i);
    } else {
      assert step == Call(w, step.agent);
      var id := Apply(s, step).waiters[w].attempt;
      assert Apply(s, step).flight.attempts[id].agent == step.agent;
      assert LastCall(steps + [step], w, step.agent, |steps|);
    }
  }

  lemma {:induction false} EveryoneWaitsForItsAgent(s: World, steps: seq<Step>, w: WaiterId)
    requires Initial(s) && IsRun(s, steps) && w in After(s, steps).waiters
    ensures WaitsForItsAgent(After(s, steps), steps, w)
  {
    if steps != [] {
      var init, step := steps[..|steps| - 1], steps[|steps| - 1];
      RunKeepsInv(s, init);
      if w in After(s, init).waiters { EveryoneWaitsForItsAgent(s, init, w); }
      StepKeepsAgent(After(s, init), init, step, w);
      assert steps == init + [step];
    }
  }
}
