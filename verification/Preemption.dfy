/**
 Placement with preemption: when nothing fits, suspend idle agents, longest idle first,
 keeping a running tally of what they free, then place again.
 */
module Preemption {
  import opened Wrappers
  import opened Fleet
  import opened Scheduler

  /** The suspend policy, the clock, and which guarded suspend orders the daemons accept. */
  datatype Env = Env(cfg: Config, now: int, acks: nat -> bool)

  function SuspendRow(a: AgentRow, id: nat): AgentRow { if a.id == id then a.(state := Suspended) else a }

  /** The registry update of one accepted suspend. */
  function Suspend(agents: seq<AgentRow>, id: nat): seq<AgentRow> {
    seq(|agents|, i requires 0 <= i < |agents| => SuspendRow(agents[i], id))
  }

  function SuspendAll(agents: seq<AgentRow>, victims: seq<AgentRow>): seq<AgentRow> {
    if victims == [] then agents
    else Suspend(SuspendAll(agents, victims[..|victims| - 1]), victims[|victims| - 1].id)
  }

  /** The running tally of freed capacity. */
  function Tally(victims: seq<AgentRow>): Allocated {
    if victims == [] then NOTHING
    else Plus(Tally(victims[..|victims| - 1]), victims[|victims| - 1].resources)
  }

  function Less(alloc: Allocated, freed: Allocated): Allocated {
    Allocated(SatSub(alloc.vcpu, freed.vcpu), SatSub(alloc.memory, freed.memory),
              SatSub(alloc.disk, freed.disk), SatSub(alloc.agents, freed.agents))
  }

  /** The fit check on `d` with its allocation lowered by a tally. */
  predicate WouldFit(d: DaemonRow, agents: seq<AgentRow>, c: Constraints, freed: Allocated) {
    Fits(d, Less(AllocatedOn(agents, d.id), freed), c.resources, c.require).Ok?
  }

  function PreemptibleOn(agents: seq<AgentRow>, daemon: string, env: Env): seq<AgentRow> {
    if agents == [] then []
    else
      var rest, a := PreemptibleOn(agents[..|agents| - 1], daemon, env), agents[|agents| - 1];
      if a.daemon == daemon && IsPreemptible(a, env.cfg, env.now) then rest + [a] else rest
  }

  /** The queued agents whose suspend the daemon accepts. */
  function Accepted(queue: seq<AgentRow>, env: Env): seq<AgentRow> {
    if queue == [] then []
    else
      var rest, next := Accepted(queue[..|queue| - 1], env), queue[|queue| - 1];
      if env.acks(next.id) then rest + [next] else rest
  }

  function ByIdle(now: int): AgentRow -> real { (a: AgentRow) => ExtrapolatedIdle(a, now) as real }

  /** Preemption candidates of a daemon, longest idle first. */
  function Queue(agents: seq<AgentRow>, daemon: string, env: Env): seq<AgentRow> {
    SortDesc(PreemptibleOn(agents, daemon, env), ByIdle(env.now))
  }

  /** Which of the first candidates end up suspended on `d`: nobody any more once it would fit. */
  function Taken(d: DaemonRow, agents: seq<AgentRow>, queue: seq<AgentRow>, c: Constraints, env: Env): seq<AgentRow> {
    if queue == [] then []
    else
      var taken, next := Taken(d, agents, queue[..|queue| - 1], c, env), queue[|queue| - 1];
      if WouldFit(d, agents, c, Tally(taken)) || !d.idParses || !env.acks(next.id) then taken else taken + [next]
  }

  function VictimsOn(d: DaemonRow, agents: seq<AgentRow>, c: Constraints, env: Env): seq<AgentRow> {
    if LabelsMatch(d, c.require) then Taken(d, agents, Queue(agents, d.id, env), c, env) else []
  }

  function AllVictims(ds: seq<DaemonRow>, agents: seq<AgentRow>, c: Constraints, env: Env): seq<AgentRow> {
    if ds == [] then []
    else AllVictims(ds[..|ds| - 1], agents, c, env) + VictimsOn(ds[|ds| - 1], agents, c, env)
  }

  /** The placement and the agent rows afterwards. */
  function PlaceOrPreempt(daemons: seq<DaemonRow>, agents: seq<AgentRow>, c: Constraints, env: Env)
    : (Result<Placement, PlaceError>, seq<AgentRow>)
  {
    var first := Place(daemons, agents, c);
    var victims := AllVictims(Schedulable(daemons, c.exclude), agents, c, env);
    if first.Ok? || victims == [] then (first, agents)
    else
      var after := SuspendAll(agents, victims);
      (Place(daemons, after, c), after)
  }

  // ---- Suspending rows ----

  predicate HasId(victims: seq<AgentRow>, id: nat) { exists v :: v in victims && v.id == id }

  lemma {:induction false} SuspendAllAt(agents: seq<AgentRow>, victims: seq<AgentRow>)
    ensures |SuspendAll(agents, victims)| == |agents|
    ensures forall i :: 0 <= i < |agents| ==>
              SuspendAll(agents, victims)[i] ==
              if HasId(victims, agents[i].id) then agents[i].(state := Suspended) else agents[i]
  {
    if victims != [] {
      var init := victims[..|victims| - 1];
      SuspendAllAt(agents, init);
      assert victims == init + [victims[|victims| - 1]];
      forall i | 0 <= i < |agents|
        ensures HasId(victims, agents[i].id)
                <==> HasId(init, agents[i].id) || agents[i].id == victims[|victims| - 1].id {
        if v :| v in init && v.id == agents[i].id { assert v in victims; }
      }
    }
  }

  /** On one daemon, `fewer` holds live resources only where `more` does. */
  predicate FewerLiveOn(fewer: seq<AgentRow>, more: seq<AgentRow>, daemon: string) {
    && |fewer| == |more|
    && forall i :: 0 <= i < |more| ==>
         && fewer[i].daemon == more[i].daemon && fewer[i].resources == more[i].resources
         && (more[i].daemon == daemon && Live(fewer[i]) ==> Live(more[i]))
  }

  lemma {:induction false} FewerLiveAllocatesLess(fewer: seq<AgentRow>, more: seq<AgentRow>, daemon: string)
    requires FewerLiveOn(fewer, more, daemon)
    ensures AtMost(AllocatedOn(fewer, daemon), AllocatedOn(more, daemon))
  {
    if more != [] { FewerLiveAllocatesLess(fewer[..|fewer| - 1], more[..|more| - 1], daemon); }
  }

  function Sum(a: Allocated, b: Allocated): Allocated {
    Allocated(a.vcpu + b.vcpu, a.memory + b.memory, a.disk + b.disk, a.agents + b.agents)
  }

  /** Suspending one live row takes exactly its request off its daemon, and nothing off the others. */
  lemma {:induction false} SuspendFrees(agents: seq<AgentRow>, row: AgentRow, daemon: string)
    requires DistinctIds(agents) && row in agents && Live(row)
    ensures AllocatedOn(agents, daemon) ==
            if row.daemon == daemon then Plus(AllocatedOn(Suspend(agents, row.id), daemon), row.resources)
            else AllocatedOn(Suspend(agents, row.id), daemon)
  {
    var init, last := agents[..|agents| - 1], agents[|agents| - 1];
    var after := Suspend(agents, row.id);
    assert after[..|agents| - 1] == Suspend(init, row.id);
    if last == row {
      assert Suspend(init, row.id) == init;
    } else {
      assert agents == init + [last];
      assert row in init;
      assert last.id != row.id by { var i :| 0 <= i < |init| && init[i] == row; }
      SuspendFrees(init, row, daemon);
    }
  }

  /** Victims are live rows of the registry, each taken once. */
  predicate AreVictims(victims: seq<AgentRow>, agents: seq<AgentRow>) {
    && DistinctIds(victims)
    && forall v :: v in victims ==> v in agents && Live(v)
  }

  function OnDaemon(victims: seq<AgentRow>, daemon: string): seq<AgentRow> {
    if victims == [] then []
    else
      var rest, v := OnDaemon(victims[..|victims| - 1], daemon), victims[|victims| - 1];
      if v.daemon == daemon then rest + [v] else rest
  }

  /** The tally is exact: a daemon's allocation is what is left after the suspensions plus
      the tally of the victims it hosted. */
  lemma {:induction false} TallyIsExact(agents: seq<AgentRow>, victims: seq<AgentRow>, daemon: string)
    requires DistinctIds(agents) && AreVictims(victims, agents)
    ensures AllocatedOn(agents, daemon) ==
            Sum(AllocatedOn(SuspendAll(agents, victims), daemon), Tally(OnDaemon(victims, daemon)))
  {
    if victims != [] {
      var init, last := victims[..|victims| - 1], victims[|victims| - 1];
      assert victims == init + [last];
      TallyIsExact(agents, init, daemon);
      assert last in victims && !HasId(init, last.id);
      NextVictim(agents, init, last, daemon);
      assert SuspendAll(agents, victims) == Suspend(SuspendAll(agents, init), last.id);
    }
  }

  /** One more suspension moves the victim's request from the allocation to the tally. */
  lemma NextVictim(agents: seq<AgentRow>, init: seq<AgentRow>, last: AgentRow, daemon: string)
    requires DistinctIds(agents) && last in agents && Live(last) && !HasId(init, last.id)
    ensures var before := AllocatedOn(SuspendAll(agents, init), daemon);
            var after := AllocatedOn(Suspend(SuspendAll(agents, init), last.id), daemon);
            Sum(before, Tally(OnDaemon(init, daemon))) == Sum(after, Tally(OnDaemon(init + [last], daemon)))
  {
    StillLive(agents, init, last);
    SuspendFrees(SuspendAll(agents, init), last, daemon);
    var kept := OnDaemon(init, daemon);
    assert (kept + [last])[..|kept|] == kept && (init + [last])[..|init|] == init;
  }

  lemma StillLive(agents: seq<AgentRow>, victims: seq<AgentRow>, row: AgentRow)
    requires DistinctIds(agents) && row in agents && !HasId(victims, row.id)
    ensures DistinctIds(SuspendAll(agents, victims)) && row in SuspendAll(agents, victims)
  {
    SuspendAllAt(agents, victims);
    var i :| 0 <= i < |agents| && agents[i] == row;
    assert SuspendAll(agents, victims)[i] == row;
  }

  lemma {:induction false} AllOnDaemon(victims: seq<AgentRow>, daemon: string)
    requires forall v :: v in victims ==> v.daemon == daemon
    ensures OnDaemon(victims, daemon) == victims
  {
    if victims != [] {
      assert victims == victims[..|victims| - 1] + [victims[|victims| - 1]];
      AllOnDaemon(victims[..|victims| - 1], daemon);
    }
  }

  lemma {:induction false} OnDaemonConcat(a: seq<AgentRow>, b: seq<AgentRow>, daemon: string)
    ensures OnDaemon(a + b, daemon) == OnDaemon(a, daemon) + OnDaemon(b, daemon)
  {
    if b == [] {
      assert a + b == a;
    } else {
      OnDaemonConcat(a, b[..|b| - 1], daemon);
      assert (a + b)[..|a + b| - 1] == a + b[..|b| - 1];
    }
  }

  /** The running tally agrees with recomputation: `would_fit` on the snapshot with the victims
      of `d` tallied is the fit check on the rows after all suspensions so far. */
  lemma {:induction false} TallyAgreesWithRecomputation(
      d: DaemonRow, agents: seq<AgentRow>, c: Constraints, elsewhere: seq<AgentRow>, here: seq<AgentRow>)
    requires DistinctIds(agents) && AreVictims(elsewhere + here, agents)
    requires forall v :: v in elsewhere ==> v.daemon != d.id
    requires forall v :: v in here ==> v.daemon == d.id
    ensures Less(AllocatedOn(agents, d.id), Tally(here)) == AllocatedOn(SuspendAll(agents, elsewhere + here), d.id)
    ensures WouldFit(d, agents, c, Tally(here)) <==> FitsNow(d, SuspendAll(agents, elsewhere + here), c)
  {
    assert OnDaemon(elsewhere + here, d.id) == here by {
      OnDaemonConcat(elsewhere, here, d.id);
      AllOnDaemon(here, d.id);
      NoneOnDaemon(elsewhere, d.id);
      assert [] + here == here;
    }
    TallyIsExact(agents, elsewhere + here, d.id);
    SumLess(AllocatedOn(SuspendAll(agents, elsewhere + here), d.id), Tally(here));
  }

  lemma SumLess(a: Allocated, b: Allocated)
    ensures Less(Sum(a, b), b) == a
  {
  }

  lemma {:induction false} NoneOnDaemon(victims: seq<AgentRow>, daemon: string)
    requires forall v :: v in victims ==> v.daemon != daemon
    ensures OnDaemon(victims, daemon) == []
  {
    if victims != [] {
      assert victims == victims[..|victims| - 1] + [victims[|victims| - 1]];
      NoneOnDaemon(victims[..|victims| - 1], daemon);
    }
  }

  // ---- The candidate queue ----

  lemma {:induction false} PreemptibleMembers(agents: seq<AgentRow>, daemon: string, env: Env)
    requires DistinctIds(agents)
    ensures DistinctIds(PreemptibleOn(agents, daemon, env))
    ensures forall a :: a in PreemptibleOn(agents, daemon, env) <==>
              a in agents && a.daemon == daemon && IsPreemptible(a, env.cfg, env.now)
  {
    if agents != [] {
      var init := agents[..|agents| - 1];
      assert agents == init + [agents[|agents| - 1]];
      PreemptibleMembers(init, daemon, env);
      var rest := PreemptibleOn(init, daemon, env);
      forall i | 0 <= i < |rest| ensures rest[i].id != agents[|agents| - 1].id {
        assert rest[i] in rest;
      }
    }
  }

  lemma {:induction false} InsertKeepsDistinct(xs: seq<AgentRow>, x: AgentRow, key: AgentRow -> real)
    requires DistinctIds(xs) && forall i :: 0 <= i < |xs| ==> xs[i].id != x.id
    ensures DistinctIds(Insert(xs, x, key))
  {
    if xs != [] && key(xs[0]) >= key(x) {
      InsertKeepsDistinct(xs[1..], x, key);
      InsertPermutes(xs[1..], x, key);
      var tail := Insert(xs[1..], x, key);
      forall i | 0 <= i < |tail| ensures tail[i].id != xs[0].id {
        assert tail[i] in tail;
      }
    }
  }

  lemma {:induction false} SortKeepsDistinct(xs: seq<AgentRow>, key: AgentRow -> real)
    requires DistinctIds(xs)
    ensures DistinctIds(SortDesc(xs, key))
    ensures forall a :: a in SortDesc(xs, key) <==> a in xs
  {
    SortedDesc(xs, key);
    forall a ensures a in SortDesc(xs, key) <==> a in xs {
      assert a in multiset(SortDesc(xs, key)) <==> a in multiset(xs);
    }
    if xs != [] {
      var init := xs[..|xs| - 1];
      SortKeepsDistinct(init, key);
      var sorted := SortDesc(init, key);
      forall i | 0 <= i < |sorted| ensures sorted[i].id != xs[|xs| - 1].id {
        assert sorted[i] in sorted;
      }
      InsertKeepsDistinct(sorted, xs[|xs| - 1], key);
    }
  }

  /** The queue holds exactly the preemptible agents of the daemon, once each. */
  lemma QueueMembers(agents: seq<AgentRow>, daemon: string, env: Env)
    requires DistinctIds(agents)
    ensures DistinctIds(Queue(agents, daemon, env))
    ensures forall a :: a in Queue(agents, daemon, env) <==>
              a in agents && a.daemon == daemon && IsPreemptible(a, env.cfg, env.now)
  {
    PreemptibleMembers(agents, daemon, env);
    SortKeepsDistinct(PreemptibleOn(agents, daemon, env), ByIdle(env.now));
  }

  lemma {:induction false} TakenFromQueue(
      d: DaemonRow, agents: seq<AgentRow>, queue: seq<AgentRow>, c: Constraints, env: Env)
    requires DistinctIds(queue)
    ensures DistinctIds(Taken(d, agents, queue, c, env))
    ensures forall v :: v in Taken(d, agents, queue, c, env) ==> v in queue && env.acks(v.id)
  {
    if queue != [] {
      var init := queue[..|queue| - 1];
      TakenFromQueue(d, agents, init, c, env);
      var taken := Taken(d, agents, init, c, env);
      assert queue == init + [queue[|queue| - 1]];
      forall i | 0 <= i < |taken| ensures taken[i].id != queue[|queue| - 1].id {
        assert taken[i] in taken;
      }
    }
  }

  /** Once it would fit, the rest of the queue is left alone: the early exit of the loop. */
  lemma {:induction false} FitStopsTaking(
      d: DaemonRow, agents: seq<AgentRow>, queue: seq<AgentRow>, n: nat, c: Constraints, env: Env)
    requires n <= |queue| && WouldFit(d, agents, c, Tally(Taken(d, agents, queue[..n], c, env)))
    ensures Taken(d, agents, queue, c, env) == Taken(d, agents, queue[..n], c, env)
    decreases |queue|
  {
    if n == |queue| {
      assert queue[..n] == queue;
    } else {
      var init := queue[..|queue| - 1];
      assert init[..n] == queue[..n];
      FitStopsTaking(d, agents, init, n, c, env);
    }
  }

  /** Whatever the daemons answer, only agents that are Active, idle, not exempt, past the wake
      grace and on the daemon in question are suspended, and only if the daemon accepted. */
  lemma OnlyPreemptibleSuspended(d: DaemonRow, agents: seq<AgentRow>, c: Constraints, env: Env)
    requires DistinctIds(agents)
    ensures AreVictims(VictimsOn(d, agents, c, env), agents)
    ensures forall v :: v in VictimsOn(d, agents, c, env) ==>
              v.daemon == d.id && IsPreemptible(v, env.cfg, env.now) && env.acks(v.id)
  {
    QueueMembers(agents, d.id, env);
    TakenFromQueue(d, agents, Queue(agents, d.id, env), c, env);
  }

  // ---- Minimality on each daemon ----

  /** `k` is the fewest agents from the front of the queue whose suspension makes the request
      fit, or all of them when no number does. */
  predicate IsShortest(d: DaemonRow, agents: seq<AgentRow>, queue: seq<AgentRow>, k: nat, c: Constraints) {
    && k <= |queue|
    && (forall j :: 0 <= j < k ==> !FitsNow(d, SuspendAll(agents, queue[..j]), c))
    && (k < |queue| ==> FitsNow(d, SuspendAll(agents, queue[..k]), c))
  }

  lemma ShortestGrows(d: DaemonRow, agents: seq<AgentRow>, init: seq<AgentRow>, next: AgentRow, k: nat, c: Constraints)
    requires IsShortest(d, agents, init, k, c)
    ensures IsShortest(d, agents, init + [next],
                       if FitsNow(d, SuspendAll(agents, init[..k]), c) then k else k + 1, c)
  {
    var queue := init + [next];
    assert forall j :: 0 <= j <= |init| ==> queue[..j] == init[..j];
  }

  lemma {:induction false} AcceptedMembers(queue: seq<AgentRow>, env: Env)
    requires DistinctIds(queue)
    ensures DistinctIds(Accepted(queue, env))
    ensures forall v :: v in Accepted(queue, env) <==> v in queue && env.acks(v.id)
  {
    if queue != [] {
      var init, next := queue[..|queue| - 1], queue[|queue| - 1];
      AcceptedMembers(init, env);
      assert queue == init + [next];
      var rest := Accepted(init, env);
      forall i | 0 <= i < |rest| ensures rest[i].id != next.id {
        assert rest[i] in rest;
      }
    }
  }

  /** A refused suspend is as good as no candidate. */
  lemma {:induction false} RefusalsAreSkipped(
      d: DaemonRow, agents: seq<AgentRow>, queue: seq<AgentRow>, c: Constraints, env: Env)
    ensures Taken(d, agents, queue, c, env) == Taken(d, agents, Accepted(queue, env), c, env)
  {
    if queue != [] {
      var init, next := queue[..|queue| - 1], queue[|queue| - 1];
      RefusalsAreSkipped(d, agents, init, c, env);
      var rest := Accepted(init, env);
      assert (rest + [next])[..|rest|] == rest;
    }
  }

  /** Of a queue of agents that all accept, the victims are the shortest prefix that makes the
      request fit, or the whole queue when none does. */
  lemma {:induction false} ShortestPrefix(
      d: DaemonRow, agents: seq<AgentRow>, queue: seq<AgentRow>, c: Constraints, env: Env)
    requires DistinctIds(agents) && AreVictimsOn(queue, agents, d.id)
    requires d.idParses && forall v :: v in queue ==> env.acks(v.id)
    ensures var taken := Taken(d, agents, queue, c, env);
            IsShortest(d, agents, queue, |taken|, c) && taken == queue[..|taken|]
  {
    if queue != [] {
      var init, next := queue[..|queue| - 1], queue[|queue| - 1];
      VictimsPrefix(queue, agents, d.id, |init|);
      ShortestPrefix(d, agents, init, c, env);
      var k := |Taken(d, agents, init, c, env)|;
      PrefixOfInit(queue, k);
      VictimsPrefix(queue, agents, d.id, k);
      TallyAlone(d, agents, c, queue[..k]);
      ShortestGrows(d, agents, init, next, k, c);
    }
  }

  lemma PrefixOfInit(queue: seq<AgentRow>, k: nat)
    requires k < |queue|
    ensures var init, next := queue[..|queue| - 1], queue[|queue| - 1];
            && init[..k] == queue[..k] && init + [next] == queue
            && (k == |init| ==> queue[..k] + [next] == queue[..k + 1])
  {
  }

  predicate AreVictimsOn(victims: seq<AgentRow>, agents: seq<AgentRow>, daemon: string) {
    AreVictims(victims, agents) && forall v :: v in victims ==> v.daemon == daemon
  }

  lemma VictimsPrefix(victims: seq<AgentRow>, agents: seq<AgentRow>, daemon: string, n: nat)
    requires AreVictimsOn(victims, agents, daemon) && n <= |victims|
    ensures AreVictimsOn(victims[..n], agents, daemon)
  {
    assert forall v :: v in victims[..n] ==> v in victims;
  }

  lemma TallyAlone(d: DaemonRow, agents: seq<AgentRow>, c: Constraints, taken: seq<AgentRow>)
    requires DistinctIds(agents) && AreVictimsOn(taken, agents, d.id)
    ensures WouldFit(d, agents, c, Tally(taken)) <==> FitsNow(d, SuspendAll(agents, taken), c)
  {
    assert [] + taken == taken;
    TallyAgreesWithRecomputation(d, agents, c, [], taken);
  }

  /** Whatever the daemon refuses, its victims are the shortest prefix of its preemptible agents
      that accept, longest idle first, that makes the request fit, or all of them when none does. */
  lemma VictimsAreShortestPrefix(d: DaemonRow, agents: seq<AgentRow>, c: Constraints, env: Env)
    requires DistinctIds(agents) && d.idParses && LabelsMatch(d, c.require)
    ensures var queue, victims := Queue(agents, d.id, env), VictimsOn(d, agents, c, env);
            && Descending(queue, ByIdle(env.now))
            && IsShortest(d, agents, Accepted(queue, env), |victims|, c)
            && victims == Accepted(queue, env)[..|victims|]
  {
    var queue := Queue(agents, d.id, env);
    SortedDesc(PreemptibleOn(agents, d.id, env), ByIdle(env.now));
    QueueMembers(agents, d.id, env);
    AcceptedMembers(queue, env);
    RefusalsAreSkipped(d, agents, queue, c, env);
    ShortestPrefix(d, agents, Accepted(queue, env), c, env);
  }

  // ---- Completeness ----

  /** The rows with every agent of `daemon` that may be suspended and accepts suspended. */
  function AllSuspendedOn(agents: seq<AgentRow>, daemon: string, env: Env): seq<AgentRow> {
    seq(|agents|, i requires 0 <= i < |agents| =>
      if agents[i].daemon == daemon && MaySuspend(agents[i], env.cfg.autoSuspendEnabled, env.now)
         && env.acks(agents[i].id)
      then agents[i].(state := Suspended) else agents[i])
  }

  lemma WholeQueueSuspends(agents: seq<AgentRow>, daemon: string, env: Env)
    requires DistinctIds(agents)
    ensures SuspendAll(agents, Accepted(Queue(agents, daemon, env), env)) == AllSuspendedOn(agents, daemon, env)
  {
    var queue := Queue(agents, daemon, env);
    var accepted := Accepted(queue, env);
    QueueMembers(agents, daemon, env);
    AcceptedMembers(queue, env);
    SuspendAllAt(agents, accepted);
    forall i | 0 <= i < |agents|
      ensures HasId(accepted, agents[i].id)
              <==> agents[i].daemon == daemon && MaySuspend(agents[i], env.cfg.autoSuspendEnabled, env.now)
                   && env.acks(agents[i].id) {
      EligibleMeans(agents[i], env.cfg, env.now);
      SameIdSameRow(agents, accepted, i);
      assert agents[i] in accepted ==> HasId(accepted, agents[i].id);
    }
  }

  /** If the daemon fits with all its preemptible agents that accept suspended, it fits after its
      own victims are. */
  lemma VictimsSuffice(d: DaemonRow, agents: seq<AgentRow>, c: Constraints, env: Env)
    requires DistinctIds(agents) && d.idParses
    requires FitsNow(d, AllSuspendedOn(agents, d.id, env), c)
    ensures FitsNow(d, SuspendAll(agents, VictimsOn(d, agents, c, env)), c)
  {
    var accepted := Accepted(Queue(agents, d.id, env), env);
    WholeQueueSuspends(agents, d.id, env);
    FitMeansRoom(d, AllocatedOn(AllSuspendedOn(agents, d.id, env), d.id), c.resources, c.require);
    VictimsAreShortestPrefix(d, agents, c, env);
    assert accepted[..|accepted|] == accepted;
  }

  predicate IsWillingVictim(v: AgentRow, agents: seq<AgentRow>, env: Env) {
    v in agents && IsPreemptible(v, env.cfg, env.now) && env.acks(v.id)
  }

  lemma {:induction false} AllVictimsMembers(ds: seq<DaemonRow>, agents: seq<AgentRow>, c: Constraints, env: Env)
    requires DistinctIds(agents)
    ensures forall d, v :: d in ds && v in VictimsOn(d, agents, c, env) ==> v in AllVictims(ds, agents, c, env)
    ensures forall v :: v in AllVictims(ds, agents, c, env) ==> IsWillingVictim(v, agents, env)
  {
    if ds != [] {
      var init, last := ds[..|ds| - 1], ds[|ds| - 1];
      assert ds == init + [last];
      AllVictimsMembers(init, agents, c, env);
      OnlyPreemptibleSuspended(last, agents, c, env);
    }
  }

  /** More victims only leave fewer live rows. */
  lemma MoreVictimsFitToo(d: DaemonRow, agents: seq<AgentRow>, c: Constraints, few: seq<AgentRow>, many: seq<AgentRow>)
    requires forall v :: v in few ==> v in many
    requires FitsNow(d, SuspendAll(agents, few), c)
    ensures FitsNow(d, SuspendAll(agents, many), c)
  {
    var fewer, more := SuspendAll(agents, many), SuspendAll(agents, few);
    SuspendAllAt(agents, few);
    SuspendAllAt(agents, many);
    assert FewerLiveOn(fewer, more, d.id);
    FewerLiveAllocatesLess(fewer, more, d.id);
    FitsAntitone(d, AllocatedOn(fewer, d.id), AllocatedOn(more, d.id), c.resources, c.require);
  }

  lemma SameIdSameRow(agents: seq<AgentRow>, victims: seq<AgentRow>, i: nat)
    requires DistinctIds(agents) && i < |agents| && forall v :: v in victims ==> v in agents
    ensures HasId(victims, agents[i].id) ==> agents[i] in victims
  {
    if HasId(victims, agents[i].id) {
      var v :| v in victims && v.id == agents[i].id;
      var j :| 0 <= j < |agents| && agents[j] == v;
    }
  }

  /** A daemon that fits after any accepted suspensions fits with all of them made. */
  lemma FitsWithAllSuspended(d: DaemonRow, agents: seq<AgentRow>, c: Constraints, env: Env, victims: seq<AgentRow>)
    requires DistinctIds(agents)
    requires forall v :: v in victims ==> IsWillingVictim(v, agents, env)
    requires FitsNow(d, SuspendAll(agents, victims), c)
    ensures FitsNow(d, AllSuspendedOn(agents, d.id, env), c)
  {
    var fewer, more := AllSuspendedOn(agents, d.id, env), SuspendAll(agents, victims);
    SuspendAllAt(agents, victims);
    forall i | 0 <= i < |agents| && agents[i].daemon == d.id && Live(fewer[i]) ensures Live(more[i]) {
      EligibleMeans(agents[i], env.cfg, env.now);
      assert HasId(victims, agents[i].id) ==> IsWillingVictim(agents[i], agents, env) by {
        SameIdSameRow(agents, victims, i);
      }
    }
    assert FewerLiveOn(fewer, more, d.id);
    FewerLiveAllocatesLess(fewer, more, d.id);
    FitsAntitone(d, AllocatedOn(fewer, d.id), AllocatedOn(more, d.id), c.resources, c.require);
  }

  /** Some schedulable daemon fits the request once all its preemptible agents that accept are suspended. */
  predicate Feasible(daemons: seq<DaemonRow>, agents: seq<AgentRow>, c: Constraints, env: Env) {
    exists d :: d in daemons && d.approved && d.online && d.id !in c.exclude
                && FitsNow(d, AllSuspendedOn(agents, d.id, env), c)
  }

  /** Success needs feasibility. */
  lemma PlacedImpliesFeasible(daemons: seq<DaemonRow>, agents: seq<AgentRow>, c: Constraints, env: Env)
    requires DistinctIds(agents) && PlaceOrPreempt(daemons, agents, c, env).0.Ok?
    ensures Feasible(daemons, agents, c, env)
  {
    var victims := AllVictims(Schedulable(daemons, c.exclude), agents, c, env);
    var d := PlaceOrPreempt(daemons, agents, c, env).0.value.daemon;
    if Place(daemons, agents, c).Ok? || victims == [] {
      PlaceIsComplete(daemons, agents, c);
      FitsWithAllSuspended(d, agents, c, env, []);
    } else {
      PlaceIsComplete(daemons, SuspendAll(agents, victims), c);
      AllVictimsMembers(Schedulable(daemons, c.exclude), agents, c, env);
      FitsWithAllSuspended(d, agents, c, env, victims);
    }
  }

  /** Preemption is complete: whatever the daemons refuse, an unpinned request is placed exactly when
      some schedulable daemon fits it with all its preemptible agents that accept suspended. */
  lemma PreemptionIsComplete(daemons: seq<DaemonRow>, agents: seq<AgentRow>, c: Constraints, env: Env)
    requires DistinctIds(agents)
    requires forall d :: d in daemons && d.approved && d.online && d.id !in c.exclude ==> d.idParses
    ensures PlaceOrPreempt(daemons, agents, c, env).0.Ok? <==> Feasible(daemons, agents, c, env)
  {
    if PlaceOrPreempt(daemons, agents, c, env).0.Ok? {
      PlacedImpliesFeasible(daemons, agents, c, env);
    } else if Feasible(daemons, agents, c, env) {
      var d :| d in daemons && d.approved && d.online && d.id !in c.exclude
               && FitsNow(d, AllSuspendedOn(agents, d.id, env), c);
      var online := Schedulable(daemons, c.exclude);
      var victims := AllVictims(online, agents, c, env);
      VictimsSuffice(d, agents, c, env);
      SchedulableMembers(daemons, c.exclude);
      AllVictimsMembers(online, agents, c, env);
      MoreVictimsFitToo(d, agents, c, VictimsOn(d, agents, c, env), victims);
      PlaceIsComplete(daemons, SuspendAll(agents, victims), c);
      PlaceIsComplete(daemons, agents, c);
    }
  }

  // ---- The same on the fields of the rows ----

  /** The queue is the agents of the daemon that may be suspended, each once. */
  lemma QueueOnFields(agents: seq<AgentRow>, daemon: string, env: Env)
    requires DistinctIds(agents)
    ensures DistinctIds(Queue(agents, daemon, env))
    ensures forall a :: a in Queue(agents, daemon, env) <==>
              a in agents && a.daemon == daemon && MaySuspend(a, env.cfg.autoSuspendEnabled, env.now)
  {
    QueueMembers(agents, daemon, env);
    forall a ensures IsPreemptible(a, env.cfg, env.now) <==> MaySuspend(a, env.cfg.autoSuspendEnabled, env.now) {
      EligibleMeans(a, env.cfg, env.now);
    }
  }

  /** Nobody in the queue stands before an agent that has been idle longer. */
  lemma QueueOrderOnFields(agents: seq<AgentRow>, daemon: string, env: Env, i: nat, j: nat)
    requires i < j < |Queue(agents, daemon, env)|
    ensures IdleNoLess(Queue(agents, daemon, env)[i], Queue(agents, daemon, env)[j], env.now)
  {
    var queue := Queue(agents, daemon, env);
    SortOrders(PreemptibleOn(agents, daemon, env), ByIdle(env.now));
    assert ByIdle(env.now)(queue[i]) >= ByIdle(env.now)(queue[j]);
    IdleIsExtrapolated(queue[i], queue[j], env.now);
  }

  lemma IdleIsExtrapolated(a: AgentRow, b: AgentRow, now: int)
    requires ExtrapolatedIdle(a, now) >= ExtrapolatedIdle(b, now)
    ensures IdleNoLess(a, b, now)
  {
  }

  /** Whatever is asked for and whatever the daemons answer, a placement changes a row only by
      suspending it, and only an agent that may be suspended and whose daemon accepted. */
  lemma OnlyIdleRowsChange(daemons: seq<DaemonRow>, agents: seq<AgentRow>, c: Constraints, env: Env)
    requires DistinctIds(agents)
    ensures var after := PlaceOrPreempt(daemons, agents, c, env).1;
            && |after| == |agents|
            && forall i :: 0 <= i < |agents| && after[i] != agents[i] ==>
                 && after[i] == agents[i].(state := Suspended)
                 && MaySuspend(agents[i], env.cfg.autoSuspendEnabled, env.now) && env.acks(agents[i].id)
  {
    var victims := AllVictims(Schedulable(daemons, c.exclude), agents, c, env);
    AllVictimsMembers(Schedulable(daemons, c.exclude), agents, c, env);
    SuspendAllAt(agents, victims);
    forall i | 0 <= i < |agents| && HasId(victims, agents[i].id)
      ensures MaySuspend(agents[i], env.cfg.autoSuspendEnabled, env.now) && env.acks(agents[i].id) {
      SameIdSameRow(agents, victims, i);
      assert IsWillingVictim(agents[i], agents, env);
      EligibleMeans(agents[i], env.cfg, env.now);
    }
  }
}
