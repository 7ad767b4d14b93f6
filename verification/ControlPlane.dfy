/** The scheduler's loops over the registry, proved against the functions of Preemption. */
module ControlPlane {
  import opened Wrappers
  import opened Fleet
  import opened Scheduler
  import P = Preemption

  predicate DistinctDaemons(daemons: seq<DaemonRow>) {
    forall i, j :: 0 <= i < j < |daemons| ==> daemons[i].id != daemons[j].id
  }

  /** Victims of daemons other than `d`, as far as they are suspended already. */
  predicate Elsewhere(victims: seq<AgentRow>, daemon: string) { forall v :: v in victims ==> v.daemon != daemon }

  class Registry {
    var daemons: seq<DaemonRow>
    var agents: seq<AgentRow>

    /** Primary keys of the two tables. */
    predicate Valid()
      reads this
    {
      DistinctIds(agents) && DistinctDaemons(daemons)
    }

    /** Work through one daemon's queue. At every point of the loop the running tally, applied to
        the snapshot, gives the same answer as the fit check on the rows as they are by then. */
    method PreemptOn(d: DaemonRow, snapshot: seq<AgentRow>, c: Constraints, env: P.Env, ghost before: seq<AgentRow>)
      returns (any: bool, ghost taken: seq<AgentRow>)
      requires DistinctIds(snapshot) && P.AreVictims(before, snapshot) && Elsewhere(before, d.id)
      requires LabelsMatch(d, c.require)
      requires agents == P.SuspendAll(snapshot, before)
      modifies this`agents
      ensures taken == P.VictimsOn(d, snapshot, c, env) && any == (taken != [])
      ensures agents == P.SuspendAll(snapshot, before + taken)
    {
      var queue := P.Queue(snapshot, d.id, env);
      var freed := NOTHING;
      any, taken := false, [];
      assert before + [] == before;
      PrefixAgrees(d, snapshot, c, env, before, queue, 0);
      for i := 0 to |queue|
        invariant taken == P.Taken(d, snapshot, queue[..i], c, env)
        invariant freed == P.Tally(taken) && any == (taken != [])
        invariant agents == P.SuspendAll(snapshot, before + taken)
        invariant P.WouldFit(d, snapshot, c, freed) <==> FitsNow(d, agents, c)
      {
        NextInQueue(d, snapshot, queue, i, c, env);
        PrefixAgrees(d, snapshot, c, env, before, queue, i + 1);
        if P.WouldFit(d, snapshot, c, freed) {
          P.FitStopsTaking(d, snapshot, queue, i, c, env);
          return;
        }
        if !d.idParses { continue; }
        if env.acks(queue[i].id) {
          OneMoreVictim(snapshot, before, taken, queue[i]);
          agents := P.Suspend(agents, queue[i].id);
          freed := Plus(freed, queue[i].resources);
          taken := taken + [queue[i]];
          any := true;
        }
      }
      assert queue[..|queue|] == queue;
    }

    /** Try to free capacity on every label-feasible daemon. */
    method PreemptIdle(c: Constraints, env: P.Env) returns (any: bool)
      requires Valid()
      modifies this`agents
      ensures var victims := P.AllVictims(Schedulable(daemons, c.exclude), old(agents), c, env);
              any == (victims != []) && agents == P.SuspendAll(old(agents), victims)
    {
      var online := Schedulable(daemons, c.exclude);
      var snapshot := agents;
      ghost var victims: seq<AgentRow> := [];
      any := false;
      for i := 0 to |online|
        invariant victims == P.AllVictims(online[..i], snapshot, c, env)
        invariant agents == P.SuspendAll(snapshot, victims) && any == (victims != [])
      {
        NextDaemon(daemons, i, snapshot, c, env);
        if !LabelsMatch(online[i], c.require) { continue; }
        var some: bool;
        ghost var taken: seq<AgentRow>;
        some, taken := PreemptOn(online[i], snapshot, c, env, victims);
        victims := victims + taken;
        any := any || some;
      }
      assert online[..|online|] == online;
    }

    /** Place; if nothing fits, preempt and place again. */
    method PlaceOrPreempt(c: Constraints, env: P.Env) returns (r: Result<Placement, PlaceError>)
      requires Valid()
      modifies this`agents
      ensures Valid()
      ensures (r, agents) == P.PlaceOrPreempt(daemons, old(agents), c, env)
      ensures |agents| == |old(agents)|
      ensures forall i :: 0 <= i < |agents| && agents[i] != old(agents)[i] ==>
                && agents[i] == old(agents)[i].(state := Suspended)
                && MaySuspend(old(agents)[i], env.cfg.autoSuspendEnabled, env.now) && env.acks(agents[i].id)
    {
      P.OnlyIdleRowsChange(daemons, agents, c, env);
      r := Place(daemons, agents, c);
      if r.Ok? { return; }
      var any := PreemptIdle(c, env);
      P.SuspendAllAt(old(agents), P.AllVictims(Schedulable(daemons, c.exclude), old(agents), c, env));
      if any { r := Place(daemons, agents, c); }
    }
  }

  lemma NextInQueue(d: DaemonRow, snapshot: seq<AgentRow>, queue: seq<AgentRow>, i: nat, c: Constraints, env: P.Env)
    requires i < |queue|
    ensures var taken := P.Taken(d, snapshot, queue[..i], c, env);
            P.Taken(d, snapshot, queue[..i + 1], c, env) ==
            if P.WouldFit(d, snapshot, c, P.Tally(taken)) || !d.idParses || !env.acks(queue[i].id) then taken
            else taken + [queue[i]]
  {
    assert queue[..i + 1][..i] == queue[..i];
  }

  lemma OneMoreVictim(snapshot: seq<AgentRow>, before: seq<AgentRow>, taken: seq<AgentRow>, v: AgentRow)
    ensures P.SuspendAll(snapshot, before + (taken + [v])) == P.Suspend(P.SuspendAll(snapshot, before + taken), v.id)
    ensures P.Tally(taken + [v]) == Plus(P.Tally(taken), v.resources)
  {
    assert (before + (taken + [v]))[..|before + taken|] == before + taken;
    assert (taken + [v])[..|taken|] == taken;
  }

  lemma PrefixAgrees(d: DaemonRow, snapshot: seq<AgentRow>, c: Constraints, env: P.Env,
                     before: seq<AgentRow>, queue: seq<AgentRow>, n: nat)
    requires DistinctIds(snapshot) && P.AreVictims(before, snapshot) && Elsewhere(before, d.id)
    requires n <= |queue| && queue == P.Queue(snapshot, d.id, env)
    ensures var taken := P.Taken(d, snapshot, queue[..n], c, env);
            P.WouldFit(d, snapshot, c, P.Tally(taken)) <==> FitsNow(d, P.SuspendAll(snapshot, before + taken), c)
  {
    P.QueueMembers(snapshot, d.id, env);
    var prefix := queue[..n];
    assert forall v :: v in prefix ==> v in queue;
    var taken := P.Taken(d, snapshot, prefix, c, env);
    P.TakenFromQueue(d, snapshot, prefix, c, env);
    DistinctConcat(before, taken, snapshot, d.id);
    P.TallyAgreesWithRecomputation(d, snapshot, c, before, taken);
  }

  lemma DistinctConcat(a: seq<AgentRow>, b: seq<AgentRow>, snapshot: seq<AgentRow>, daemon: string)
    requires DistinctIds(snapshot) && P.AreVictims(a, snapshot) && P.AreVictims(b, snapshot)
    requires Elsewhere(a, daemon) && forall v :: v in b ==> v.daemon == daemon
    ensures P.AreVictims(a + b, snapshot)
  {
    forall i, j | 0 <= i < |a| && 0 <= j < |b| ensures a[i].id != b[j].id {
      assert a[i] in a && b[j] in b;
      var k :| 0 <= k < |snapshot| && snapshot[k] == a[i];
      var l :| 0 <= l < |snapshot| && snapshot[l] == b[j];
    }
  }

  lemma {:induction false} SchedulableDistinct(daemons: seq<DaemonRow>, exclude: seq<string>)
    requires DistinctDaemons(daemons)
    ensures DistinctDaemons(Schedulable(daemons, exclude))
  {
    if daemons != [] {
      SchedulableDistinct(daemons[1..], exclude);
      SchedulableMembers(daemons[1..], exclude);
      var rest := Schedulable(daemons[1..], exclude);
      forall i | 0 <= i < |rest| ensures rest[i].id != daemons[0].id {
        assert rest[i] in rest;
      }
    }
  }

  lemma NextDaemon(daemons: seq<DaemonRow>, i: nat, snapshot: seq<AgentRow>, c: Constraints, env: P.Env)
    requires DistinctDaemons(daemons) && DistinctIds(snapshot) && i < |Schedulable(daemons, c.exclude)|
    ensures var online := Schedulable(daemons, c.exclude);
            var victims, here := P.AllVictims(online[..i], snapshot, c, env), P.VictimsOn(online[i], snapshot, c, env);
            && P.AreVictims(victims, snapshot) && Elsewhere(victims, online[i].id)
            && P.AllVictims(online[..i + 1], snapshot, c, env) == victims + here
            && (!LabelsMatch(online[i], c.require) ==> victims + here == victims)
  {
    var online := Schedulable(daemons, c.exclude);
    SchedulableDistinct(daemons, c.exclude);
    VictimsElsewhere(online, i, snapshot, c, env);
    assert online[..i + 1][..i] == online[..i];
  }

  lemma {:induction false} VictimsElsewhere(
      online: seq<DaemonRow>, n: nat, snapshot: seq<AgentRow>, c: Constraints, env: P.Env)
    requires DistinctDaemons(online) && DistinctIds(snapshot) && n <= |online|
    ensures var victims := P.AllVictims(online[..n], snapshot, c, env);
            && P.AreVictims(victims, snapshot)
            && (forall v :: v in victims ==> exists i :: 0 <= i < n && online[i].id == v.daemon)
            && (n < |online| ==> Elsewhere(victims, online[n].id))
  {
    if n > 0 {
      var d := online[n - 1];
      assert online[..n][..n - 1] == online[..n - 1];
      VictimsElsewhere(online, n - 1, snapshot, c, env);
      P.OnlyPreemptibleSuspended(d, snapshot, c, env);
      DistinctConcat(P.AllVictims(online[..n - 1], snapshot, c, env), P.VictimsOn(d, snapshot, c, env), snapshot, d.id);
    }
  }
}
