/**
 One wake of one agent: reload, wait out a provisioning, then the retry loop over daemons, and
 how each ending leaves the agent and its queue. What the rest of the fleet does is a script.
 */
module WakeRetry {
  import opened Wrappers
  import opened Fleet
  import opened Scheduler
  import P = Preemption
  import Q = MessageQueue

  datatype StartReply = Accepted | Refused | Unreachable | StartTimedOut

  /** A restore fails before it has marked the row Restoring, or after, or is cut off by its timeout. */
  datatype RestoreReply = Restored | NoBundle | TransferFailed | RestoreTimedOut(marked: bool)

  /** The rows the scheduler reads and the daemons' answers to preemption, at one attempt. */
  datatype Snapshot = Snapshot(daemons: seq<DaemonRow>, agents: seq<AgentRow>, env: P.Env)

  /** What one attempt meets: the last daemon's session and answer, the fleet as the scheduler
      finds it, and the fate of a restore. */
  datatype Try = Try(online: bool, start: StartReply, fleet: Snapshot, restore: RestoreReply)

  /** The scheduler's answer to a list of excluded daemons. */
  type Placer = seq<string> -> Result<string, PlaceError>

  function PlacerFor(fleet: Snapshot, resources: Resources): Placer {
    (excluded: seq<string>) =>
      match P.PlaceOrPreempt(fleet.daemons, fleet.agents, Constraints(map[], resources, excluded), fleet.env).0
      case Ok(p) => Ok(p.daemon.id)
      case Err(why) => Err(why)
  }

  /** An attempt as the loop sees it. */
  datatype Met = Met(online: bool, start: StartReply, place: Placer, restore: RestoreReply)

  datatype Order = StartAgent(daemon: string) | Restore(daemon: string)

  datatype WakeError = NotPlaced(why: PlaceError) | NotRestored(reply: RestoreReply)

  /** The loop's variables; of the agent's row it changes the state and the daemon only. */
  datatype Loop = Loop(state: AgentState, home: string, excluded: seq<string>, orders: seq<Order>,
                       lastError: Option<WakeError>, woken: bool)

  /** Resume on the last daemon, unless it failed already in this wake. */
  function StartThere(l: Loop, t: Met): Loop {
    if l.home in l.excluded then l
    else if !t.online then l.(excluded := l.excluded + [l.home])
    else if t.start.Accepted? then l.(orders := l.orders + [StartAgent(l.home)], woken := true)
    else l.(orders := l.orders + [StartAgent(l.home)], excluded := l.excluded + [l.home])
  }

  predicate Marks(reply: RestoreReply) { !reply.NoBundle? && reply != RestoreTimedOut(false) }

  function Marked(state: AgentState, reply: RestoreReply): AgentState { if Marks(reply) then Restoring else state }

  /** Restore the stored bundle on a daemon chosen among those that have not failed yet. */
  function RestoreElsewhere(l: Loop, t: Met): Loop {
    match t.place(l.excluded)
    case Err(why) => l.(lastError := Some(NotPlaced(why)))
    case Ok(id) =>
      var sent := l.(orders := l.orders + [Restore(id)], state := Marked(l.state, t.restore));
      if t.restore.Restored? then sent.(home := id, woken := true)
      else sent.(excluded := l.excluded + [id], lastError := Some(NotRestored(t.restore)))
  }

  function Attempt(l: Loop, t: Met): Loop {
    var started := StartThere(l, t);
    if started.woken then started else RestoreElsewhere(started, t)
  }

  function Begin(row: AgentRow): Loop { Loop(row.state, row.daemon, [], [], None, false) }

  /** The row as the loop leaves it. */
  function LeftBy(row: AgentRow, l: Loop): AgentRow { row.(state := l.state, daemon := l.home) }

  /** The loop after `n` attempts. */
  function Retry(row: AgentRow, mets: nat -> Met, n: nat): Loop {
    if n == 0 then Begin(row)
    else
      var l := Retry(row, mets, n - 1);
      if l.woken then l else Attempt(l, mets(n - 1))
  }

  function Attempts(configured: nat): nat { if configured == 0 then 1 else configured }

  // ---- The whole wake ----

  /** Everything a wake meets, in the order it meets it. `poll` is the last look of the wait for
      a provisioning; `flush` and `lastPrompt` are for the drain after a successful wake;
      `beforeRead` and `beforeMark` arrive around the failing of the queue. */
  datatype Script = Script(
    reload: Option<AgentRow>, sessionUp: bool,
    poll: Option<AgentRow>, pollSessionUp: bool,
    configured: nat, tries: nat -> Try,
    now: int, flush: seq<Q.Round>, lastPrompt: bool,
    beforeRead: seq<string>, beforeMark: seq<string>)

  datatype Ending = Vanished | WasAwake | Woken | GaveUp(error: Option<WakeError>)

  datatype Waked = Waked(ending: Ending, row: Option<AgentRow>, orders: seq<Order>,
                         ok: bool, messages: seq<Q.Message>, prompts: seq<Q.Prompt>)

  predicate IsAwake(row: AgentRow, sessionUp: bool) { row.state == Active && sessionUp }

  predicate InFlight(row: AgentRow) { row.state == Provisioning || row.state == Restoring }

  function AwakeRow(row: AgentRow, now: int): AgentRow {
    row.(state := Active, wokeAt := Some(now), needsAttention := false)
  }

  function FailedRow(row: AgentRow): AgentRow { row.(state := Failed, needsAttention := true) }

  function Drained(ending: Ending, row: AgentRow, orders: seq<Order>, s: Script, q: seq<Q.Message>): Waked {
    var f := Q.Flush(q, s.flush, s.lastPrompt);
    Waked(ending, Some(row), orders, f.ok, f.queue, f.prompts)
  }

  /** The queue after a terminal failure: what is pending when it is read fails. */
  function FailedQueue(s: Script, q: seq<Q.Message>): seq<Q.Message> {
    var read := q + Q.Arrived(s.beforeRead);
    Q.Mark(read + Q.Arrived(s.beforeMark), Q.Pending(read), Q.Undeliverable)
  }

  function MetBy(row: AgentRow, s: Script): nat -> Met {
    (i: nat) => var t := s.tries(i); Met(t.online, t.start, PlacerFor(t.fleet, row.resources), t.restore)
  }

  function RetryLoop(row: AgentRow, s: Script, q: seq<Q.Message>): Waked {
    var l := Retry(row, MetBy(row, s), Attempts(s.configured));
    if l.woken then Drained(Woken, AwakeRow(LeftBy(row, l), s.now), l.orders, s, q)
    else Waked(GaveUp(l.lastError), Some(FailedRow(LeftBy(row, l))), l.orders, false, FailedQueue(s, q), [])
  }

  /** What the reload and the wait for a provisioning come to. */
  datatype Situation = Gone | Up(row: AgentRow) | CameUp(row: AgentRow) | Down(row: AgentRow)

  function Assess(s: Script): Situation {
    if s.reload.None? then Gone
    else if IsAwake(s.reload.value, s.sessionUp) then Up(s.reload.value)
    else if !InFlight(s.reload.value) then Down(s.reload.value)
    else if s.poll.None? then Gone
    else if IsAwake(s.poll.value, s.pollSessionUp) then CameUp(s.poll.value)
    else Down(s.poll.value)
  }

  function Wake(s: Script, q: seq<Q.Message>): Waked {
    match Assess(s)
    case Gone => Waked(Vanished, None, [], false, q, [])
    case Up(row) => Drained(WasAwake, row, [], s, q)
    case CameUp(row) => Drained(Woken, AwakeRow(row, s.now), [], s, q)
    case Down(row) => RetryLoop(row, s, q)
  }

  // ---- No daemon is tried twice ----

  predicate NoRepeats(orders: seq<Order>) {
    forall i, j :: 0 <= i < j < |orders| ==> orders[i].daemon != orders[j].daemon
  }

  /** No daemon was ordered twice, and all that were are excluded from further attempts. */
  predicate LoopInv(l: Loop) {
    && NoRepeats(l.orders)
    && (!l.woken ==> forall i :: 0 <= i < |l.orders| ==> l.orders[i].daemon in l.excluded)
  }

  ghost predicate Avoids(place: Placer) {
    forall excluded :: place(excluded).Ok? ==> place(excluded).value !in excluded
  }

  /** The scheduler, preempting or not, never answers with an excluded daemon. */
  lemma SchedulerAvoidsExcluded(fleet: Snapshot, resources: Resources)
    ensures Avoids(PlacerFor(fleet, resources))
  {
    forall excluded | PlacerFor(fleet, resources)(excluded).Ok?
      ensures PlacerFor(fleet, resources)(excluded).value !in excluded {
      var c := Constraints(map[], resources, excluded);
      PlaceIsComplete(fleet.daemons, fleet.agents, c);
      PlaceIsComplete(fleet.daemons, P.PlaceOrPreempt(fleet.daemons, fleet.agents, c, fleet.env).1, c);
    }
  }

  lemma StartKeeps(l: Loop, t: Met)
    requires LoopInv(l) && !l.woken
    ensures var s := StartThere(l, t);
            && LoopInv(s) && s.home == l.home && (!s.woken ==> s.home in s.excluded)
            && |s.orders| <= |l.orders| + if l.home in l.excluded then 0 else 1
  {
  }

  lemma RestoreKeeps(l: Loop, t: Met)
    requires LoopInv(l) && !l.woken && Avoids(t.place)
    ensures var r := RestoreElsewhere(l, t);
            && LoopInv(r) && |r.orders| <= |l.orders| + 1
            && (!r.woken ==> r.home == l.home && (l.home in l.excluded ==> r.home in r.excluded) && r.lastError.Some?)
  {
  }

  lemma AttemptKeeps(l: Loop, t: Met)
    requires LoopInv(l) && !l.woken && Avoids(t.place)
    ensures var l' := Attempt(l, t);
            && LoopInv(l')
            && (!l'.woken ==> l'.home == l.home && l'.home in l'.excluded && l'.lastError.Some?)
            && |l'.orders| <= |l.orders| + if l.home in l.excluded then 1 else 2
  {
    StartKeeps(l, t);
    if !StartThere(l, t).woken { RestoreKeeps(StartThere(l, t), t); }
  }

  /** Wake retries never repeat a daemon: whatever the fleet does, the daemons ordered to start
      or restore the agent in one wake are pairwise distinct, and at most one more than the
      attempts made; a wake that gave up knows why. */
  lemma {:induction false} RetriesNeverRepeat(row: AgentRow, mets: nat -> Met, n: nat)
    requires forall i :: Avoids(mets(i).place)
    ensures var l := Retry(row, mets, n);
            && LoopInv(l)
            && |l.orders| <= n + (if n > 0 then 1 else 0)
            && (!l.woken ==> l.home == row.daemon && (n > 0 ==> row.daemon in l.excluded && l.lastError.Some?))
  {
    if n > 0 {
      RetriesNeverRepeat(row, mets, n - 1);
      var l := Retry(row, mets, n - 1);
      if !l.woken { AttemptKeeps(l, mets(n - 1)); }
    }
  }

  // ---- What the daemons answered decides ----

  /** The daemons among the scheduler's answers, in order, and the orders sent to them. */
  function Found(targets: seq<Option<string>>): seq<string> {
    if targets == [] then []
    else
      var init, last := Found(targets[..|targets| - 1]), targets[|targets| - 1];
      if last.Some? then init + [last.value] else init
  }

  function Restores(ids: seq<string>): seq<Order> {
    seq(|ids|, i requires 0 <= i < |ids| => Restore(ids[i]))
  }

  function FirstOrder(row: AgentRow, first: Met): seq<Order> {
    if first.online then [StartAgent(row.daemon)] else []
  }

  predicate StartedAtHome(first: Met) { first.online && first.start == Accepted }

  predicate RestoredAt(mets: nat -> Met, targets: seq<Option<string>>, i: nat) {
    i < |targets| && targets[i].Some? && mets(i).restore == Restored
  }

  /** What the scheduler answers at attempt `i`, when the last daemon and all that were ordered to
      restore so far are excluded. */
  function AnswerAt(row: AgentRow, mets: nat -> Met, targets: seq<Option<string>>, i: nat): Result<string, PlaceError>
    requires i <= |targets|
  {
    mets(i).place([row.daemon] + Found(targets[..i]))
  }

  predicate IsAnswer(target: Option<string>, r: Result<string, PlaceError>) {
    match r case Ok(id) => target == Some(id) case Err(_) => target == None
  }

  predicate Asked(row: AgentRow, mets: nat -> Met, targets: seq<Option<string>>) {
    forall i :: 0 <= i < |targets| ==> IsAnswer(targets[i], AnswerAt(row, mets, targets, i))
  }

  predicate Sent(row: AgentRow, mets: nat -> Met, targets: seq<Option<string>>, l: Loop) {
    l.orders == FirstOrder(row, mets(0)) + Restores(Found(targets))
  }

  predicate NoneRestored(mets: nat -> Met, targets: seq<Option<string>>, n: nat) {
    forall i :: 0 <= i < n ==> !RestoredAt(mets, targets, i)
  }

  /** The course of a retry loop of at most `n` attempts that was not started at home, on the
      answers alone: `targets[i]` is where attempt `i` restored, if anywhere. */
  predicate Course(row: AgentRow, mets: nat -> Met, n: nat, targets: seq<Option<string>>, l: Loop) {
    && 1 <= |targets| <= n
    && Asked(row, mets, targets) && Sent(row, mets, targets, l) && NoneRestored(mets, targets, |targets| - 1)
    && (l.woken <==> RestoredAt(mets, targets, |targets| - 1))
    && (l.woken ==> l.home == targets[|targets| - 1].value)
    && (!l.woken ==>
          && |targets| == n && l.home == row.daemon
          && l.lastError == Some(LastReason(row, mets, targets)))
  }

  /** The reason of the last attempt: the failed restore, or the scheduler's refusal. */
  function LastReason(row: AgentRow, mets: nat -> Met, targets: seq<Option<string>>): WakeError
    requires targets != []
  {
    var i := |targets| - 1;
    match AnswerAt(row, mets, targets, i)
    case Ok(_) => NotRestored(mets(i).restore)
    case Err(why) => NotPlaced(why)
  }

  /** The loop after attempts that all failed. */
  predicate Underway(row: AgentRow, mets: nat -> Met, targets: seq<Option<string>>, l: Loop) {
    && !l.woken && l.home == row.daemon && l.excluded == [row.daemon] + Found(targets)
    && Asked(row, mets, targets) && Sent(row, mets, targets, l) && NoneRestored(mets, targets, |targets|)
  }

  function Target(r: Result<string, PlaceError>): Option<string> {
    match r case Ok(id) => Some(id) case Err(_) => None
  }

  lemma FoundGrows(targets: seq<Option<string>>, target: Option<string>)
    ensures Found(targets + [target]) == Found(targets) + if target.Some? then [target.value] else []
  {
    assert (targets + [target])[..|targets|] == targets;
  }

  lemma AnswersKept(row: AgentRow, mets: nat -> Met, targets: seq<Option<string>>, target: Option<string>, i: nat)
    requires i <= |targets|
    ensures AnswerAt(row, mets, targets + [target], i) == AnswerAt(row, mets, targets, i)
  {
    assert (targets + [target])[..i] == targets[..i];
  }

  lemma AskedGrows(row: AgentRow, mets: nat -> Met, targets: seq<Option<string>>, excluded: seq<string>)
    requires Asked(row, mets, targets) && excluded == [row.daemon] + Found(targets)
    ensures var answer := mets(|targets|).place(excluded);
            && Asked(row, mets, targets + [Target(answer)])
            && AnswerAt(row, mets, targets + [Target(answer)], |targets|) == answer
  {
    var target := Target(mets(|targets|).place(excluded));
    assert targets[..|targets|] == targets;
    forall i: nat | i <= |targets|
      ensures AnswerAt(row, mets, targets + [target], i) == AnswerAt(row, mets, targets, i) {
      AnswersKept(row, mets, targets, target, i);
    }
  }

  lemma SentGrows(
      row: AgentRow, mets: nat -> Met, targets: seq<Option<string>>, l: Loop, r: Loop, target: Option<string>)
    requires Sent(row, mets, targets, l)
    requires r.orders == if target.Some? then l.orders + [Restore(target.value)] else l.orders
    ensures Sent(row, mets, targets + [target], r)
  {
    FoundGrows(targets, target);
    if target.Some? { RestoresGrow(FirstOrder(row, mets(0)), Found(targets), target.value); }
  }

  lemma RestoresGrow(first: seq<Order>, ids: seq<string>, id: string)
    ensures first + Restores(ids + [id]) == (first + Restores(ids)) + [Restore(id)]
  {
    assert Restores(ids + [id]) == Restores(ids) + [Restore(id)];
  }

  /** One restore: asked with what is excluded, recorded, and excluded in turn unless it worked. */
  lemma RestoreTold(row: AgentRow, mets: nat -> Met, targets: seq<Option<string>>, l: Loop)
    requires Underway(row, mets, targets, l)
    ensures var n, r := |targets|, RestoreElsewhere(l, mets(|targets|));
            var all := targets + [Target(mets(n).place(l.excluded))];
            && Course(row, mets, n + 1, all, r) && (!r.woken ==> Underway(row, mets, all, r))
  {
    var n, r := |targets|, RestoreElsewhere(l, mets(|targets|));
    var answer := mets(n).place(l.excluded);
    var all := targets + [Target(answer)];
    AskedGrows(row, mets, targets, l.excluded);
    SentGrows(row, mets, targets, l, r, Target(answer));
    FoundGrows(targets, Target(answer));
    assert NoneRestored(mets, all, n) by {
      forall i | 0 <= i < n ensures !RestoredAt(mets, all, i) { assert !RestoredAt(mets, targets, i); }
    }
    if answer.Ok? && !r.woken {
      assert l.excluded + [answer.value] == [row.daemon] + Found(all);
    }
  }

  lemma FirstTold(row: AgentRow, mets: nat -> Met)
    requires !StartedAtHome(mets(0))
    ensures Underway(row, mets, [], StartThere(Begin(row), mets(0)))
    ensures Retry(row, mets, 1) == RestoreElsewhere(StartThere(Begin(row), mets(0)), mets(0))
  {
    assert Retry(row, mets, 0) == Begin(row);
  }

  lemma NextTold(row: AgentRow, mets: nat -> Met, n: nat)
    requires !Retry(row, mets, n).woken && Retry(row, mets, n).home in Retry(row, mets, n).excluded
    ensures Retry(row, mets, n + 1) == RestoreElsewhere(Retry(row, mets, n), mets(n))
  {
  }

  /** Started at home at once, or else the course its answers determine. */
  lemma {:induction false} AnswersDecide(row: AgentRow, mets: nat -> Met, n: nat) returns (targets: seq<Option<string>>)
    requires n > 0 && !StartedAtHome(mets(0))
    ensures Course(row, mets, n, targets, Retry(row, mets, n))
    ensures !Retry(row, mets, n).woken ==> Underway(row, mets, targets, Retry(row, mets, n))
  {
    if n == 1 {
      targets := FirstCourse(row, mets);
    } else {
      targets := AnswersDecide(row, mets, n - 1);
      if Retry(row, mets, n - 1).woken {
        CourseStays(row, mets, n - 1, targets);
      } else {
        targets := NextCourse(row, mets, n - 1, targets);
      }
    }
  }

  lemma CourseStays(row: AgentRow, mets: nat -> Met, n: nat, targets: seq<Option<string>>)
    requires Course(row, mets, n, targets, Retry(row, mets, n)) && Retry(row, mets, n).woken
    ensures Course(row, mets, n + 1, targets, Retry(row, mets, n + 1)) && Retry(row, mets, n + 1).woken
  {
    WokenStays(row, mets, n);
  }

  lemma FirstCourse(row: AgentRow, mets: nat -> Met) returns (all: seq<Option<string>>)
    requires !StartedAtHome(mets(0))
    ensures var r := Retry(row, mets, 1); Course(row, mets, 1, all, r) && (!r.woken ==> Underway(row, mets, all, r))
  {
    var l := StartThere(Begin(row), mets(0));
    FirstTold(row, mets);
    RestoreTold(row, mets, [], l);
    all := [] + [Target(mets(0).place(l.excluded))];
  }

  lemma NextCourse(row: AgentRow, mets: nat -> Met, n: nat, targets: seq<Option<string>>)
    returns (all: seq<Option<string>>)
    requires |targets| == n && Underway(row, mets, targets, Retry(row, mets, n))
    ensures var r := Retry(row, mets, n + 1);
            Course(row, mets, n + 1, all, r) && (!r.woken ==> Underway(row, mets, all, r))
  {
    NextTold(row, mets, n);
    RestoreTold(row, mets, targets, Retry(row, mets, n));
    all := targets + [Target(mets(n).place(Retry(row, mets, n).excluded))];
  }

  /** A start accepted at home is the whole wake. */
  lemma HomeDecides(row: AgentRow, mets: nat -> Met, n: nat)
    requires n > 0 && StartedAtHome(mets(0))
    ensures var l := Retry(row, mets, n);
            l.woken && l.orders == [StartAgent(row.daemon)] && l.home == row.daemon
  {
    assert Retry(row, mets, 0) == Begin(row);
    StopsWhenWoken(row, mets, 1, n);
  }

  /** An attempt shows the row Restoring exactly if it ordered a restore that got past looking for
      the bundle; nothing else changes the state. */
  lemma AttemptMarks(l: Loop, t: Met)
    requires !l.woken
    ensures var l' := Attempt(l, t);
            l'.state == if |l'.orders| > |l.orders| && l'.orders[|l'.orders| - 1].Restore? && Began(t.restore)
                        then Restoring else l.state
  {
    assert StartThere(l, t).orders == l.orders || StartThere(l, t).orders == l.orders + [StartAgent(l.home)];
  }

  predicate Began(reply: RestoreReply) {
    match reply
    case Restored => true
    case NoBundle => false
    case TransferFailed => true
    case RestoreTimedOut(marked) => marked
  }

  // ---- The answers, order by order ----

  /** For each restore order, whether it was answered yes. */
  function RestoreAnswers(mets: nat -> Met, targets: seq<Option<string>>): seq<bool> {
    if targets == [] then []
    else
      var init, i := RestoreAnswers(mets, targets[..|targets| - 1]), |targets| - 1;
      if targets[i].Some? then init + [mets(i).restore == Restored] else init
  }

  lemma {:induction false} NoYesYet(mets: nat -> Met, targets: seq<Option<string>>)
    requires NoneRestored(mets, targets, |targets|)
    ensures |RestoreAnswers(mets, targets)| == |Found(targets)|
    ensures forall k :: 0 <= k < |RestoreAnswers(mets, targets)| ==> !RestoreAnswers(mets, targets)[k]
  {
    if targets != [] {
      var init := targets[..|targets| - 1];
      forall i | 0 <= i < |init| ensures !RestoredAt(mets, init, i) { assert !RestoredAt(mets, targets, i); }
      NoYesYet(mets, init);
      assert !RestoredAt(mets, targets, |targets| - 1);
    }
  }

  /** Whether each order of a wake was answered yes: the start at home, then the restores. */
  function Answers(mets: nat -> Met, targets: seq<Option<string>>): seq<bool> {
    (if mets(0).online then [mets(0).start == Accepted] else []) + RestoreAnswers(mets, targets)
  }

  /** One answer for each order, yes for the last if any, and exactly if the loop ended woken. */
  predicate AnsweredBy(l: Loop, answers: seq<bool>) {
    && |answers| == |l.orders|
    && (l.woken <==> answers != [] && answers[|answers| - 1])
    && forall k :: 0 <= k < |answers| - 1 ==> !answers[k]
  }

  /** The loop ends woken exactly when its last order was answered yes, and every order before it
      was answered no. */
  lemma WokenExactlyWhenAnswered(row: AgentRow, mets: nat -> Met, n: nat) returns (targets: seq<Option<string>>)
    requires n > 0
    ensures AnsweredBy(Retry(row, mets, n), Answers(mets, targets))
  {
    if StartedAtHome(mets(0)) {
      HomeDecides(row, mets, n);
      targets := [];
    } else {
      targets := AnswersDecide(row, mets, n);
      CourseAnswered(row, mets, n, targets, Retry(row, mets, n));
    }
  }

  lemma CourseAnswered(row: AgentRow, mets: nat -> Met, n: nat, targets: seq<Option<string>>, l: Loop)
    requires Course(row, mets, n, targets, l) && !StartedAtHome(mets(0))
    ensures AnsweredBy(l, Answers(mets, targets))
  {
    LastAnswer(mets, targets);
  }

  lemma LastAnswer(mets: nat -> Met, targets: seq<Option<string>>)
    requires targets != [] && NoneRestored(mets, targets, |targets| - 1)
    ensures var answers := RestoreAnswers(mets, targets);
            && |answers| == |Found(targets)|
            && (RestoredAt(mets, targets, |targets| - 1) ==> answers != [] && answers[|answers| - 1])
            && (!RestoredAt(mets, targets, |targets| - 1) ==> answers == [] || !answers[|answers| - 1])
            && forall k :: 0 <= k < |answers| - 1 ==> !answers[k]
  {
    var init := targets[..|targets| - 1];
    forall i | 0 <= i < |init| ensures !RestoredAt(mets, init, i) { assert !RestoredAt(mets, targets, i); }
    NoYesYet(mets, init);
  }

  // ---- How a wake ends ----

  /** The queue was drained, and the drain's result is the wake's. */
  predicate DrainsInto(s: Script, q: seq<Q.Message>, w: Waked) {
    var f := Q.Flush(q, s.flush, s.lastPrompt);
    w.ok == f.ok && w.messages == f.queue && w.prompts == f.prompts
  }

  /** How a wake may leave the agent. Past the retry loop without success: Failed, flagged, and
      what was pending undeliverable. After success: Active and unflagged, even if the drain
      then fails, on the daemon that was ordered last if any was. */
  predicate EndsAs(s: Script, q: seq<Q.Message>, w: Waked) {
    match w.ending
    case Vanished => w == Waked(Vanished, None, [], false, q, [])
    case WasAwake => w.row == s.reload && w.orders == [] && DrainsInto(s, q, w)
    case Woken =>
      && DrainsInto(s, q, w)
      && w.row.Some? && w.row.value.state == Active && !w.row.value.needsAttention
      && w.row.value.wokeAt == Some(s.now)
      && (w.orders != [] ==> w.row.value.daemon == w.orders[|w.orders| - 1].daemon)
    case GaveUp(error) =>
      && error.Some? && !w.ok && w.prompts == []
      && w.row.Some? && w.row.value.state == Failed && w.row.value.needsAttention
      && FailsThePending(q, s, w.messages)
  }

  lemma {:induction false} RetryLoopEnds(row: AgentRow, s: Script, q: seq<Q.Message>)
    ensures var w := RetryLoop(row, s, q);
            EndsAs(s, q, w) && NoRepeats(w.orders) && |w.orders| <= Attempts(s.configured) + 1
  {
    forall i: nat ensures Avoids(MetBy(row, s)(i).place) { SchedulerAvoidsExcluded(s.tries(i).fleet, row.resources); }
    var l := Retry(row, MetBy(row, s), Attempts(s.configured));
    RetriesNeverRepeat(row, MetBy(row, s), Attempts(s.configured));
    WokenOnLastOrder(row, MetBy(row, s), Attempts(s.configured));
    QueueFails(s, q);
  }

  /** Every wake ends one of these ways, having ordered no daemon twice and at most one more
      than the configured attempts. */
  lemma {:induction false} EveryEnding(s: Script, q: seq<Q.Message>)
    ensures EndsAs(s, q, Wake(s, q))
    ensures NoRepeats(Wake(s, q).orders) && |Wake(s, q).orders| <= Attempts(s.configured) + 1
  {
    match Assess(s)
    case Down(row) => RetryLoopEnds(row, s, q);
    case _ =>
  }

  /** The row a wake goes on to retry: the reloaded one, or, if a provisioning was in flight, the
      one the wait for it ended with; neither is up. */
  predicate IsRetried(s: Script, row: AgentRow) {
    match s.reload
    case None => false
    case Some(r) =>
      if r.state == Provisioning || r.state == Restoring
      then s.poll == Some(row) && !(row.state == Active && s.pollSessionUp)
      else row == r && !(row.state == Active && s.sessionUp)
  }

  /** Which wakes never reach the retry loop: the agent is gone, or it is up already, or it came
      up while a provisioning was waited out. All others retry the row they were left with. */
  lemma OtherwiseRetries(s: Script, q: seq<Q.Message>)
    ensures var w, r := Wake(s, q), s.reload;
            && (w.ending == Vanished
                <==> r == None || ((r.value.state == Provisioning || r.value.state == Restoring) && s.poll == None))
            && (w.ending == WasAwake <==> r.Some? && r.value.state == Active && s.sessionUp)
            && (w.ending == WasAwake ==> w.row == r)
            && (forall row :: IsRetried(s, row) ==> w == RetryLoop(row, s, q))
            && (w.ending.Woken? || w.ending.GaveUp? ==> r.Some? && (CameUpMeanwhile(s, w) || RetriedSomeRow(s)))
  {
    match Assess(s)
    case Down(row) => assert IsRetried(s, row);
    case _ =>
  }

  predicate CameUpMeanwhile(s: Script, w: Waked) {
    && s.poll.Some? && s.poll.value.state == Active && s.pollSessionUp
    && w.ending == Woken && w.orders == []
    && w.row == Some(s.poll.value.(wokeAt := Some(s.now), needsAttention := false))
  }

  ghost predicate RetriedSomeRow(s: Script) { exists row :: IsRetried(s, row) }

  /** The scheduler's answer at attempt `i`: only daemons that failed in this wake are excluded, and
      the agent asks for its own resources without labels. */
  function PlacedAt(row: AgentRow, s: Script, targets: seq<Option<string>>, i: nat): Result<Placement, PlaceError>
    requires i <= |targets|
  {
    var fleet := s.tries(i).fleet;
    var c := Constraints(map[], row.resources, [row.daemon] + Found(targets[..i]));
    P.PlaceOrPreempt(fleet.daemons, fleet.agents, c, fleet.env).0
  }

  predicate RestoredIn(s: Script, targets: seq<Option<string>>, i: nat) {
    i < |targets| && targets[i].Some? && s.tries(i).restore == Restored
  }

  /** What attempt `i`'s failure is put down to. */
  function ReasonAt(row: AgentRow, s: Script, targets: seq<Option<string>>, i: nat): WakeError
    requires i <= |targets|
  {
    match PlacedAt(row, s, targets, i)
    case Ok(_) => NotRestored(s.tries(i).restore)
    case Err(why) => NotPlaced(why)
  }

  predicate IsPlacement(target: Option<string>, r: Result<Placement, PlaceError>) {
    match r case Ok(p) => target == Some(p.daemon.id) case Err(_) => target == None
  }

  /** A wake of at most `n` attempts that was not started at home: where it restored to, what it
      ordered, how it ended and why, and the row it left, on the answers it was given. */
  predicate Fared(row: AgentRow, s: Script, n: nat, targets: seq<Option<string>>, w: Waked) {
    && 1 <= |targets| <= n
    && (forall i: nat :: i < |targets| ==> IsPlacement(targets[i], PlacedAt(row, s, targets, i)))
    && w.orders == (if s.tries(0).online then [StartAgent(row.daemon)] else []) + Restores(Found(targets))
    && (forall i: nat :: i < |targets| - 1 ==> !RestoredIn(s, targets, i))
    && if RestoredIn(s, targets, |targets| - 1)
       then
         && w.ending == Woken
         && w.row == Some(row.(state := Active, wokeAt := Some(s.now), needsAttention := false,
                               daemon := targets[|targets| - 1].value))
       else
         && |targets| == n && w.ending == GaveUp(Some(ReasonAt(row, s, targets, n - 1)))
         && w.row == Some(row.(state := Failed, needsAttention := true))
  }

  /** A wake past the retry loop is what its answers make it: the start at home if that is online
      and accepts, else the first restore that is answered yes, else a failure with the reason
      of the last attempt. */
  lemma AnswersDecideWake(s: Script, q: seq<Q.Message>, row: AgentRow) returns (targets: seq<Option<string>>)
    requires IsRetried(s, row)
    ensures var w, n := Wake(s, q), if s.configured == 0 then 1 else s.configured;
            if s.tries(0).online && s.tries(0).start == Accepted
            then
              && w.ending == Woken && w.orders == [StartAgent(row.daemon)]
              && w.row == Some(row.(state := Active, wokeAt := Some(s.now), needsAttention := false))
            else Fared(row, s, n, targets, w)
  {
    var mets, n := MetBy(row, s), Attempts(s.configured);
    OtherwiseRetries(s, q);
    if StartedAtHome(mets(0)) {
      HomeDecides(row, mets, n);
      targets := [];
    } else {
      targets := AnswersDecide(row, mets, n);
      LoopSettles(row, s, q);
      CourseFares(row, s, n, targets, Retry(row, mets, n), Wake(s, q));
    }
  }

  lemma AnswerIsPlacement(row: AgentRow, s: Script, targets: seq<Option<string>>, i: nat)
    requires i <= |targets|
    ensures AnswerAt(row, MetBy(row, s), targets, i)
            == match PlacedAt(row, s, targets, i) case Ok(p) => Ok(p.daemon.id) case Err(why) => Err(why)
  {
  }

  lemma AskedIsPlaced(row: AgentRow, s: Script, targets: seq<Option<string>>)
    requires Asked(row, MetBy(row, s), targets)
    ensures forall i: nat :: i < |targets| ==> IsPlacement(targets[i], PlacedAt(row, s, targets, i))
  {
    forall i: nat | i < |targets| ensures IsPlacement(targets[i], PlacedAt(row, s, targets, i)) {
      AnswerIsPlacement(row, s, targets, i);
    }
  }

  lemma RestoredAgrees(row: AgentRow, s: Script, targets: seq<Option<string>>, i: nat)
    ensures RestoredAt(MetBy(row, s), targets, i) == RestoredIn(s, targets, i)
  {
  }

  lemma NoneRestoredIn(row: AgentRow, s: Script, targets: seq<Option<string>>, n: nat)
    requires NoneRestored(MetBy(row, s), targets, n)
    ensures forall i: nat :: i < n ==> !RestoredIn(s, targets, i)
  {
    forall i: nat | i < n ensures !RestoredIn(s, targets, i) { RestoredAgrees(row, s, targets, i); }
  }

  /** The wake that a retry loop's outcome makes. */
  predicate Settles(row: AgentRow, s: Script, l: Loop, w: Waked) {
    && w.orders == l.orders
    && w.ending == (if l.woken then Woken else GaveUp(l.lastError))
    && w.row == Some(if l.woken
                     then row.(state := Active, wokeAt := Some(s.now), needsAttention := false, daemon := l.home)
                     else row.(state := Failed, needsAttention := true, daemon := l.home))
  }

  lemma LoopSettles(row: AgentRow, s: Script, q: seq<Q.Message>)
    ensures Settles(row, s, Retry(row, MetBy(row, s), Attempts(s.configured)), RetryLoop(row, s, q))
  {
  }

  lemma CourseFares(row: AgentRow, s: Script, n: nat, targets: seq<Option<string>>, l: Loop, w: Waked)
    requires Course(row, MetBy(row, s), n, targets, l) && Settles(row, s, l, w)
    ensures Fared(row, s, n, targets, w)
  {
    AskedIsPlaced(row, s, targets);
    NoneRestoredIn(row, s, targets, |targets| - 1);
    RestoredAgrees(row, s, targets, |targets| - 1);
    AnswerIsPlacement(row, s, targets, |targets| - 1);
  }

  /** Exactly the messages pending at the read are failed. */
  predicate FailsThePending(q: seq<Q.Message>, s: Script, after: seq<Q.Message>) {
    var read := q + Q.Arrived(s.beforeRead);
    && |after| == |read| + |s.beforeMark|
    && PendingFailed(read, after[..|read|]) && after[|read|..] == Q.Arrived(s.beforeMark)
  }

  predicate PendingFailed(read: seq<Q.Message>, after: seq<Q.Message>) {
    |after| == |read| && forall i :: 0 <= i < |read| ==>
      after[i] == if Q.Settled(read[i]) then read[i] else read[i].(status := Q.Undeliverable)
  }

  lemma QueueFails(s: Script, q: seq<Q.Message>)
    ensures FailsThePending(q, s, FailedQueue(s, q))
  {
    var read := q + Q.Arrived(s.beforeRead);
    MarkPrefix(read, Q.Arrived(s.beforeMark), Q.Pending(read));
    MarkPending(read);
  }

  lemma MarkPending(read: seq<Q.Message>)
    ensures PendingFailed(read, Q.Mark(read, Q.Pending(read), Q.Undeliverable))
  {
    Q.PendingPositions(read);
  }

  lemma MarkPrefix(read: seq<Q.Message>, more: seq<Q.Message>, ids: seq<nat>)
    requires ids == Q.Pending(read)
    ensures var after := Q.Mark(read + more, ids, Q.Undeliverable);
            after[..|read|] == Q.Mark(read, ids, Q.Undeliverable) && after[|read|..] == more
  {
    Q.PendingPositions(read);
  }

  lemma AttemptOnLastOrder(l: Loop, t: Met)
    requires !l.woken
    ensures var l' := Attempt(l, t);
            l'.woken ==> l'.orders != [] && l'.home == l'.orders[|l'.orders| - 1].daemon
  {
  }

  lemma {:induction false} WokenOnLastOrder(row: AgentRow, mets: nat -> Met, n: nat)
    ensures var l := Retry(row, mets, n);
            l.woken ==> l.orders != [] && l.home == l.orders[|l.orders| - 1].daemon
  {
    if n > 0 {
      WokenOnLastOrder(row, mets, n - 1);
      if !Retry(row, mets, n - 1).woken { AttemptOnLastOrder(Retry(row, mets, n - 1), mets(n - 1)); }
    }
  }

  // ---- The task ----

  class WakeTask {
    var row: Option<AgentRow>
    var orders: seq<Order>
    const inbox: Q.Inbox

    constructor (row: Option<AgentRow>, inbox: Q.Inbox)
      ensures this.row == row && orders == [] && this.inbox == inbox
    {
      this.row, orders, this.inbox := row, [], inbox;
    }

    method WakeOk(s: Script) returns (ok: bool)
      requires row.Some?
      modifies this`row, inbox
      ensures row == Some(AwakeRow(old(row).value, s.now))
      ensures var f := Q.Flush(old(inbox.messages), s.flush, s.lastPrompt);
              ok == f.ok && inbox.messages == f.queue && inbox.sent == old(inbox.sent) + f.prompts
    {
      row := Some(row.value.(state := Active));
      row := Some(row.value.(wokeAt := Some(s.now)));
      row := Some(row.value.(needsAttention := false));
      ok := inbox.FlushPending(s.flush, s.lastPrompt);
    }

    method FailQueue(s: Script)
      modifies inbox`messages
      ensures inbox.messages == FailedQueue(s, old(inbox.messages))
    {
      inbox.EnqueueAll(s.beforeRead);
      var pending := Q.Pending(inbox.messages);
      Q.PendingPositions(inbox.messages);
      inbox.EnqueueAll(s.beforeMark);
      inbox.SetStatus(pending, Q.Undeliverable);
    }

    /** One attempt: resume on the last daemon, else restore elsewhere. */
    method TryOnce(t: Met, excluded: seq<string>, lastError: Option<WakeError>)
      returns (woken: bool, excluded': seq<string>, lastError': Option<WakeError>)
      requires row.Some?
      modifies this
      ensures row.Some?
      ensures Loop(row.value.state, row.value.daemon, excluded', orders, lastError', woken)
              == Attempt(Loop(old(row).value.state, old(row).value.daemon, excluded, old(orders), lastError, false), t)
      ensures row.value == old(row).value.(state := row.value.state, daemon := row.value.daemon)
    {
      var home := row.value.daemon;
      excluded', lastError' := excluded, lastError;
      if home !in excluded {
        if t.online {
          orders := orders + [StartAgent(home)];
          if t.start.Accepted? { return true, excluded', lastError'; }
        }
        excluded' := excluded + [home];
      }
      var target := t.place(excluded');
      if target.Err? { return false, excluded', Some(NotPlaced(target.error)); }
      orders := orders + [Restore(target.value)];
      if Marks(t.restore) { row := Some(row.value.(state := Restoring)); }
      if t.restore.Restored? {
        row := Some(row.value.(daemon := target.value));
        return true, excluded', lastError';
      }
      return false, excluded' + [target.value], Some(NotRestored(t.restore));
    }

    /** The retry loop: the row and the orders it leaves. */
    method TryDaemons(mets: nat -> Met, attempts: nat) returns (woken: bool, lastError: Option<WakeError>)
      requires row.Some? && orders == []
      modifies this
      ensures row.Some?
      ensures var l := Retry(old(row).value, mets, attempts);
              row.value == LeftBy(old(row).value, l) && orders == l.orders
              && woken == l.woken && lastError == l.lastError
    {
      var excluded: seq<string> := [];
      woken, lastError := false, None;
      for attempt := 0 to attempts
        invariant row.Some? && !woken && row.value == LeftBy(old(row).value, Retry(old(row).value, mets, attempt))
        invariant Retry(old(row).value, mets, attempt)
                  == Loop(row.value.state, row.value.daemon, excluded, orders, lastError, false)
      {
        woken, excluded, lastError := TryOnce(mets(attempt), excluded, lastError);
        if woken {
          StopsWhenWoken(old(row).value, mets, attempt + 1, attempts);
          return;
        }
      }
    }

    /** The retry loop and what follows it, success or not. */
    method RetryAndSettle(s: Script) returns (ending: Ending, ok: bool)
      requires row.Some? && orders == []
      modifies this, inbox
      ensures var w := RetryLoop(old(row).value, s, old(inbox.messages));
              && ending == w.ending && ok == w.ok && row == w.row && orders == w.orders
              && inbox.messages == w.messages && inbox.sent == old(inbox.sent) + w.prompts
    {
      var woken, lastError := TryDaemons(MetBy(row.value, s), Attempts(s.configured));
      if woken {
        ok := WakeOk(s);
        return Woken, ok;
      }
      row := Some(FailedRow(row.value));
      FailQueue(s);
      return GaveUp(lastError), false;
    }

    /** The row to go on with, and whether the agent came up meanwhile. */
    method WaitForProvisioning(s: Script) returns (cameUp: bool)
      requires row == s.reload && row.Some? && !IsAwake(row.value, s.sessionUp)
      modifies this`row
      ensures match Assess(s)
              case Gone => row.None?
              case CameUp(r) => cameUp && row == Some(r)
              case Down(r) => !cameUp && row == Some(r)
              case Up(_) => false
    {
      if !InFlight(row.value) { return false; }
      row := s.poll;
      cameUp := row.Some? && IsAwake(row.value, s.pollSessionUp);
    }

    /** The wake of an agent that is not up: wait out a provisioning, then retry. */
    method WakeDown(s: Script) returns (ending: Ending, ok: bool)
      requires row == s.reload && row.Some? && !IsAwake(row.value, s.sessionUp) && orders == []
      modifies this, inbox
      ensures var w := Wake(s, old(inbox.messages));
              && ending == w.ending && ok == w.ok && row == w.row && orders == w.orders
              && inbox.messages == w.messages && inbox.sent == old(inbox.sent) + w.prompts
    {
      var cameUp := WaitForProvisioning(s);
      if row.None? { return Vanished, false; }
      if cameUp {
        ok := WakeOk(s);
        return Woken, ok;
      }
      ending, ok := RetryAndSettle(s);
    }

    method WakeAgent(s: Script) returns (ending: Ending, ok: bool)
      requires row == s.reload && orders == []
      modifies this, inbox
      ensures var w := Wake(s, old(inbox.messages));
              && ending == w.ending && ok == w.ok && row == w.row && orders == w.orders
              && inbox.messages == w.messages && inbox.sent == old(inbox.sent) + w.prompts
    {
      if row.None? { return Vanished, false; }
      if IsAwake(row.value, s.sessionUp) {
        ok := inbox.FlushPending(s.flush, s.lastPrompt);
        return WasAwake, ok;
      }
      ending, ok := WakeDown(s);
    }
  }

  lemma {:induction false} StopsWhenWoken(row: AgentRow, mets: nat -> Met, m: nat, n: nat)
    requires m <= n && Retry(row, mets, m).woken
    ensures Retry(row, mets, n) == Retry(row, mets, m)
    decreases n - m
  {
    if m < n {
      WokenStays(row, mets, m);
      StopsWhenWoken(row, mets, m + 1, n);
    }
  }

  lemma WokenStays(row: AgentRow, mets: nat -> Met, n: nat)
    requires Retry(row, mets, n).woken
    ensures Retry(row, mets, n + 1) == Retry(row, mets, n)
  {
  }
}
