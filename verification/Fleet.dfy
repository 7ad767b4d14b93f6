/** The rows of the registry, and the suspend policy read from them. Times are seconds. */
module Fleet {
  import opened Wrappers

  datatype AgentState = Provisioning | Active | Suspended | Restoring | Failed | Decommissioned

  datatype GpuKind = Nvidia | Apple | OtherGpu
  datatype Gpu = Gpu(index: nat, kind: GpuKind, vramTotal: Option<nat>, vramFree: Option<nat>)
  datatype GpuRequest = GpuRequest(count: nat, vram: Option<nat>)
  datatype Resources = Resources(vcpu: nat, memory: nat, disk: nat, gpu: Option<GpuRequest>)

  datatype DaemonRow = DaemonRow(
    id: string, idParses: bool, approved: bool, online: bool,
    labels: map<string, string>, overrides: map<string, string>, maxAgents: nat,
    vcpuTotal: nat, memoryTotal: nat, diskTotal: nat, gpus: seq<Gpu>, usageGpus: seq<Gpu>)
  {
    /** Daemon-reported labels, operator overrides winning. */
    function EffectiveLabels(): map<string, string> { labels + overrides }
  }

  /** A parsed auto-suspend setting; `Malformed` is text that does not parse. */
  datatype Policy = Inherit | Never | After(secs: nat) | Malformed

  datatype Config = Config(autoSuspendEnabled: bool, idleTimeout: nat)

  datatype AgentRow = AgentRow(
    id: nat, name: string, daemon: string, state: AgentState, resources: Resources,
    manifestPolicy: Policy, policyOverride: Option<Policy>,
    idleSecs: Option<nat>, busy: Option<bool>, reportedAt: Option<int>, wokeAt: Option<int>,
    sessionFile: Option<string>, needsAttention: bool)

  const WAKE_GRACE_SECS: int := 300

  /** Seconds of inactivity after which the agent may be suspended, None when exempt. */
  function EffectiveTimeout(a: AgentRow, cfg: Config): Option<nat> {
    match (if a.policyOverride.Some? then a.policyOverride.value else a.manifestPolicy)
    case Never => None
    case After(secs) => Some(secs)
    case _ => if cfg.autoSuspendEnabled then Some(cfg.idleTimeout) else None
  }

  function AgeOf(t: Option<int>, now: int): nat {
    if t.Some? && now > t.value then now - t.value else 0
  }

  /** Reported idle time plus the age of the report. */
  function ExtrapolatedIdle(a: AgentRow, now: int): nat {
    if a.idleSecs.None? then 0 else a.idleSecs.value + AgeOf(a.reportedAt, now)
  }

  predicate IsPreemptible(a: AgentRow, cfg: Config, now: int) {
    && a.state == Active && a.busy == Some(false)
    && EffectiveTimeout(a, cfg).Some?
    && (a.wokeAt.Some? ==> AgeOf(a.wokeAt, now) >= WAKE_GRACE_SECS)
  }

  /** Only these states hold live resources. */
  predicate Live(a: AgentRow) {
    a.state == Provisioning || a.state == Active || a.state == Restoring
  }

  predicate DistinctIds(agents: seq<AgentRow>) {
    forall i, j :: 0 <= i < j < |agents| ==> agents[i].id != agents[j].id
  }

  // ---- What the policy says, on the fields of a row ----

  /** The setting that applies: the operator's override if there is one, else the manifest's. */
  predicate InForce(a: AgentRow, p: Policy) {
    a.policyOverride == Some(p) || (a.policyOverride == None && a.manifestPolicy == p)
  }

  /** Who may be suspended to make room. */
  predicate MaySuspend(a: AgentRow, autoSuspend: bool, now: int) {
    && a.state == Active && a.busy == Some(false)
    && !InForce(a, Never)
    && (!autoSuspend && a.policyOverride.Some? ==> a.policyOverride.value.After?)
    && (!autoSuspend && a.policyOverride.None? ==> a.manifestPolicy.After?)
    && (a.wokeAt.Some? ==> a.wokeAt.value + 300 <= now)
  }

  lemma EligibleMeans(a: AgentRow, cfg: Config, now: int)
    ensures IsPreemptible(a, cfg, now) <==> MaySuspend(a, cfg.autoSuspendEnabled, now)
  {
  }

  /** The timeout: none when exempt, the setting's own seconds, or the fleet's default while
      automatic suspension is on. */
  lemma TimeoutMeans(a: AgentRow, cfg: Config)
    ensures InForce(a, Never) ==> EffectiveTimeout(a, cfg) == None
    ensures forall secs: nat :: InForce(a, After(secs)) ==> EffectiveTimeout(a, cfg) == Some(secs)
    ensures InForce(a, Inherit) || InForce(a, Malformed) ==>
              (cfg.autoSuspendEnabled ==> EffectiveTimeout(a, cfg) == Some(cfg.idleTimeout))
              && (!cfg.autoSuspendEnabled ==> EffectiveTimeout(a, cfg) == None)
  {
  }

  /** The agent is taken to have been idle for `secs`: what it reported plus the age of the
      report, nothing when it reported nothing, and no age for an undated or future report. */
  predicate IdleFor(a: AgentRow, now: int, secs: int) {
    && (a.idleSecs == None ==> secs == 0)
    && (a.idleSecs.Some? && (a.reportedAt == None || a.reportedAt.value >= now) ==> secs == a.idleSecs.value)
    && (a.idleSecs.Some? && a.reportedAt.Some? && a.reportedAt.value < now ==>
          secs == a.idleSecs.value + (now - a.reportedAt.value))
  }

  /** The one agent has been idle at least as long as the other. */
  ghost predicate IdleNoLess(a: AgentRow, b: AgentRow, now: int) {
    forall s, t :: IdleFor(a, now, s) && IdleFor(b, now, t) ==> s >= t
  }

  lemma IdleMeans(a: AgentRow, now: int)
    ensures IdleFor(a, now, ExtrapolatedIdle(a, now))
  {
  }

  /** Whose requests count against a daemon. */
  predicate HoldsResources(a: AgentRow) { a.state in {Provisioning, Active, Restoring} }

  lemma LiveMeans(a: AgentRow)
    ensures Live(a) <==> HoldsResources(a)
  {
  }
}
