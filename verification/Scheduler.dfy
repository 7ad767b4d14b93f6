/** Placement without preemption: filter by labels and fit, score by spread, pick the best. */
module Scheduler {
  import opened Wrappers
  import opened Fleet

  /** What the agents placed on a daemon ask for together. */
  datatype Allocated = Allocated(vcpu: nat, memory: nat, disk: nat, agents: nat)

  const NOTHING := Allocated(0, 0, 0, 0)

  function Plus(acc: Allocated, r: Resources): Allocated {
    Allocated(acc.vcpu + r.vcpu, acc.memory + r.memory, acc.disk + r.disk, acc.agents + 1)
  }

  predicate AtMost(a: Allocated, b: Allocated) {
    a.vcpu <= b.vcpu && a.memory <= b.memory && a.disk <= b.disk && a.agents <= b.agents
  }

  function SatSub(a: nat, b: nat): nat { if a >= b then a - b else 0 }

  /** Live requests on one daemon. */
  function AllocatedOn(agents: seq<AgentRow>, daemon: string): Allocated {
    if agents == [] then NOTHING
    else
      var acc := AllocatedOn(agents[..|agents| - 1], daemon);
      var a := agents[|agents| - 1];
      if a.daemon == daemon && Live(a) then Plus(acc, a.resources) else acc
  }

  datatype Constraints = Constraints(require: map<string, string>, resources: Resources, exclude: seq<string>)

  datatype Rejection = LabelMismatch | SlotsFull | NoVcpu | NoMemory | NoDisk | NoGpu

  predicate LabelsMatch(d: DaemonRow, require: map<string, string>) {
    forall k :: k in require ==> k in d.EffectiveLabels() && d.EffectiveLabels()[k] == require[k]
  }

  const U64_MAX: nat := 0xFFFF_FFFF_FFFF_FFFF

  function FindGpu(gpus: seq<Gpu>, index: nat): Option<Gpu> {
    if gpus == [] then None else if gpus[0].index == index then Some(gpus[0]) else FindGpu(gpus[1..], index)
  }

  /** Free VRAM of a GPU: the usage snapshot, else the capacity record, else 0. None: the GPU is skipped. */
  function FreeVram(g: Gpu, usage: seq<Gpu>, need: Option<nat>): Option<nat> {
    if g.kind == OtherGpu then (if need.Some? then None else Some(U64_MAX))
    else
      var u := FindGpu(usage, g.index);
      if u.Some? && u.value.vramFree.Some? then u.value.vramFree
      else if g.vramFree.Some? then g.vramFree else Some(0)
  }

  predicate GpuMatches(g: Gpu, usage: seq<Gpu>, need: Option<nat>) {
    FreeVram(g, usage, need).Some? && (need.Some? ==> FreeVram(g, usage, need).value >= need.value)
  }

  function UsableVram(g: Gpu, free: nat): nat {
    if g.vramTotal.Some? && g.vramTotal.value < free then g.vramTotal.value else free
  }

  /** How many GPUs match, and the most usable VRAM among them. */
  function GpuScan(gpus: seq<Gpu>, usage: seq<Gpu>, need: Option<nat>): (nat, nat) {
    if gpus == [] then (0, 0)
    else
      var (matching, best) := GpuScan(gpus[..|gpus| - 1], usage, need);
      var g := gpus[|gpus| - 1];
      if GpuMatches(g, usage, need) then
        var usable := UsableVram(g, FreeVram(g, usage, need).value);
        (matching + 1, if usable > best then usable else best)
      else (matching, best)
  }

  predicate MatchesAt(gpus: seq<Gpu>, usage: seq<Gpu>, need: Option<nat>, i: nat) {
    i < |gpus| && GpuMatches(gpus[i], usage, need)
  }

  function UsableAt(gpus: seq<Gpu>, usage: seq<Gpu>, need: Option<nat>, i: nat): nat
    requires MatchesAt(gpus, usage, need, i)
  {
    UsableVram(gpus[i], FreeVram(gpus[i], usage, need).value)
  }

  function Matching(gpus: seq<Gpu>, usage: seq<Gpu>, need: Option<nat>): set<nat> {
    set i: nat | i < |gpus| && MatchesAt(gpus, usage, need, i)
  }

  lemma OneMoreGpu(gpus: seq<Gpu>, usage: seq<Gpu>, need: Option<nat>)
    requires gpus != []
    ensures var n, init := |gpus| - 1, gpus[..|gpus| - 1];
            && (forall i: nat :: i < n ==> MatchesAt(gpus, usage, need, i) == MatchesAt(init, usage, need, i))
            && n !in Matching(init, usage, need)
            && Matching(gpus, usage, need) ==
               if MatchesAt(gpus, usage, need, n) then Matching(init, usage, need) + {n}
               else Matching(init, usage, need)
  {
  }

  /** The GPU record of the usage report that the client looks at: the first with the index. */
  predicate IsFirst(usage: seq<Gpu>, index: nat, j: int) {
    0 <= j < |usage| && usage[j].index == index && forall k :: 0 <= k < j ==> usage[k].index != index
  }

  /** What a GPU is taken to have free: the reported figure, else the capacity record's, else none. */
  ghost predicate FreeIs(g: Gpu, usage: seq<Gpu>, free: nat) {
    && (forall j :: IsFirst(usage, g.index, j) && usage[j].vramFree.Some? ==> free == usage[j].vramFree.value)
    && ((forall j :: IsFirst(usage, g.index, j) ==> usage[j].vramFree.None?) ==>
          free == if g.vramFree.Some? then g.vramFree.value else 0)
  }

  lemma {:induction false} FindsFirst(gpus: seq<Gpu>, index: nat)
    ensures match FindGpu(gpus, index)
            case None => forall j :: !IsFirst(gpus, index, j)
            case Some(u) => exists j :: IsFirst(gpus, index, j) && gpus[j] == u
  {
    if gpus != [] {
      FindsFirst(gpus[1..], index);
      if gpus[0].index == index {
        assert IsFirst(gpus, index, 0);
      } else {
        forall j ensures IsFirst(gpus, index, j) <==> IsFirst(gpus[1..], index, j - 1) {
          FirstInTail(gpus, index, j);
        }
        if FindGpu(gpus[1..], index).Some? {
          var j :| IsFirst(gpus[1..], index, j) && gpus[1..][j] == FindGpu(gpus[1..], index).value;
          assert IsFirst(gpus, index, j + 1);
        }
      }
    }
  }

  lemma FirstInTail(gpus: seq<Gpu>, index: nat, j: int)
    requires gpus != [] && gpus[0].index != index
    ensures IsFirst(gpus, index, j) <==> IsFirst(gpus[1..], index, j - 1)
  {
    if IsFirst(gpus[1..], index, j - 1) {
      forall k | 0 <= k < j ensures gpus[k].index != index { assert k > 0 ==> gpus[1..][k - 1].index != index; }
    }
    if IsFirst(gpus, index, j) {
      forall k | 0 <= k < j - 1 ensures gpus[1..][k].index != index { assert gpus[k + 1].index != index; }
    }
  }

  lemma FirstIsOnly(usage: seq<Gpu>, index: nat, i: int, j: int)
    requires IsFirst(usage, index, i) && IsFirst(usage, index, j)
    ensures i == j
  {
  }

  /** Which GPUs match: any without a memory requirement, else those that report memory and have
      enough free; and what counts as usable of it. */
  lemma GpuOnFields(g: Gpu, usage: seq<Gpu>, need: Option<nat>, free: nat)
    requires FreeIs(g, usage, free)
    ensures GpuMatches(g, usage, need) <==> need == None || (g.kind != OtherGpu && free >= need.value)
    ensures g.kind != OtherGpu ==>
              FreeVram(g, usage, need) == Some(free)
              && UsableVram(g, free)
                 == if g.vramTotal.Some? && g.vramTotal.value < free then g.vramTotal.value else free
  {
    FindsFirst(usage, g.index);
    if FindGpu(usage, g.index).Some? {
      var j :| IsFirst(usage, g.index, j) && usage[j] == FindGpu(usage, g.index).value;
      forall i | IsFirst(usage, g.index, i) ensures i == j { FirstIsOnly(usage, g.index, i, j); }
    }
  }

  /** The scan counts the matching GPUs. */
  lemma {:induction false} GpuScanCounts(gpus: seq<Gpu>, usage: seq<Gpu>, need: Option<nat>)
    ensures GpuScan(gpus, usage, need).0 == |Matching(gpus, usage, need)|
  {
    if gpus != [] {
      GpuScanCounts(gpus[..|gpus| - 1], usage, need);
      OneMoreGpu(gpus, usage, need);
    }
  }

  /** The scan's memory is the largest usable memory of a matching GPU, 0 when none matches. */
  ghost predicate IsBest(gpus: seq<Gpu>, usage: seq<Gpu>, need: Option<nat>, best: nat) {
    && (forall i :: MatchesAt(gpus, usage, need, i) ==> UsableAt(gpus, usage, need, i) <= best)
    && (best == 0 || exists i :: MatchesAt(gpus, usage, need, i) && UsableAt(gpus, usage, need, i) == best)
  }

  lemma {:induction false} GpuScanIsBest(gpus: seq<Gpu>, usage: seq<Gpu>, need: Option<nat>)
    ensures IsBest(gpus, usage, need, GpuScan(gpus, usage, need).1)
  {
    if gpus != [] {
      var n, init := |gpus| - 1, gpus[..|gpus| - 1];
      GpuScanIsBest(init, usage, need);
      BestGrows(gpus, usage, need, GpuScan(init, usage, need).1);
    }
  }

  lemma BestGrows(gpus: seq<Gpu>, usage: seq<Gpu>, need: Option<nat>, best: nat)
    requires gpus != [] && IsBest(gpus[..|gpus| - 1], usage, need, best)
    ensures var n := |gpus| - 1;
            IsBest(gpus, usage, need,
                   if MatchesAt(gpus, usage, need, n) && UsableAt(gpus, usage, need, n) > best
                   then UsableAt(gpus, usage, need, n) else best)
  {
    var n, init := |gpus| - 1, gpus[..|gpus| - 1];
    forall i: nat | i < n ensures MatchesAt(gpus, usage, need, i) == MatchesAt(init, usage, need, i) {
    }
    if best > 0 {
      var i :| MatchesAt(init, usage, need, i) && UsableAt(init, usage, need, i) == best;
      assert MatchesAt(gpus, usage, need, i);
    }
  }

  method ScanGpus(gpus: seq<Gpu>, usage: seq<Gpu>, need: Option<nat>) returns (matching: nat, best: nat)
    ensures (matching, best) == GpuScan(gpus, usage, need)
    ensures matching == |Matching(gpus, usage, need)| && IsBest(gpus, usage, need, best)
  {
    GpuScanCounts(gpus, usage, need);
    GpuScanIsBest(gpus, usage, need);
    matching, best := 0, 0;
    for i := 0 to |gpus|
      invariant (matching, best) == GpuScan(gpus[..i], usage, need)
    {
      assert gpus[..i + 1][..i] == gpus[..i];
      var free := FreeVram(gpus[i], usage, need);
      if free.None? { continue; }
      if need.None? || free.value >= need.value {
        matching := matching + 1;
        var usable := UsableVram(gpus[i], free.value);
        if usable > best { best := usable; }
      }
    }
    assert gpus[..|gpus|] == gpus;
  }

  function Frac(free: nat, total: nat): real {
    if total == 0 then 0.0 else free as real / total as real
  }

  function GpuScore(best: nat, need: nat): real {
    SatSub(best, need) as real / (if need >= 1 then need else 1) as real
  }

  /** Filter one candidate; its spread score when it fits. */
  function Fits(d: DaemonRow, alloc: Allocated, req: Resources, require: map<string, string>): Result<real, Rejection> {
    var vcpuFree, memoryFree, diskFree :=
      SatSub(d.vcpuTotal, alloc.vcpu), SatSub(d.memoryTotal, alloc.memory), SatSub(d.diskTotal, alloc.disk);
    if !LabelsMatch(d, require) then Err(LabelMismatch)
    else if alloc.agents >= d.maxAgents then Err(SlotsFull)
    else if vcpuFree < req.vcpu then Err(NoVcpu)
    else if memoryFree < req.memory then Err(NoMemory)
    else if diskFree < req.disk then Err(NoDisk)
    else if req.gpu.Some? && GpuScan(d.gpus, d.usageGpus, req.gpu.value.vram).0 < req.gpu.value.count then Err(NoGpu)
    else
      Ok(Frac(vcpuFree, d.vcpuTotal) + Frac(memoryFree, d.memoryTotal) + 0.5 * Frac(diskFree, d.diskTotal)
         + if req.gpu.Some? && req.gpu.value.vram.Some?
           then GpuScore(GpuScan(d.gpus, d.usageGpus, req.gpu.value.vram).1, req.gpu.value.vram.value) else 0.0)
  }

  // ---- A stable descending sort ----

  function Insert<T>(xs: seq<T>, x: T, key: T -> real): seq<T> {
    if xs == [] then [x]
    else if key(xs[0]) < key(x) then [x] + xs
    else [xs[0]] + Insert(xs[1..], x, key)
  }

  function SortDesc<T>(xs: seq<T>, key: T -> real): seq<T> {
    if xs == [] then [] else Insert(SortDesc(xs[..|xs| - 1], key), xs[|xs| - 1], key)
  }

  ghost predicate Descending<T>(xs: seq<T>, key: T -> real) {
    forall i, j :: 0 <= i < j < |xs| ==> key(xs[i]) >= key(xs[j])
  }

  lemma {:induction false} InsertPermutes<T>(xs: seq<T>, x: T, key: T -> real)
    ensures multiset(Insert(xs, x, key)) == multiset(xs) + multiset{x}
    ensures forall y :: y in Insert(xs, x, key) ==> y == x || y in xs
  {
    if xs != [] && key(xs[0]) >= key(x) {
      InsertPermutes(xs[1..], x, key);
      assert xs == [xs[0]] + xs[1..];
    }
  }

  lemma {:induction false} InsertSorted<T>(xs: seq<T>, x: T, key: T -> real)
    requires Descending(xs, key)
    ensures Descending(Insert(xs, x, key), key)
  {
    if xs != [] && key(xs[0]) >= key(x) {
      InsertSorted(xs[1..], x, key);
      InsertPermutes(xs[1..], x, key);
      var tail := Insert(xs[1..], x, key);
      forall j | 0 <= j < |tail| ensures key(xs[0]) >= key(tail[j]) {
        assert tail[j] in tail;
      }
    }
  }

  lemma {:induction false} SortPermutes<T>(xs: seq<T>, key: T -> real)
    ensures multiset(SortDesc(xs, key)) == multiset(xs)
    ensures |SortDesc(xs, key)| == |xs|
  {
    if xs != [] {
      var init, last := xs[..|xs| - 1], xs[|xs| - 1];
      SortPermutes(init, key);
      InsertPermutes(SortDesc(init, key), last, key);
      assert xs == init + [last];
      assert |multiset(SortDesc(xs, key))| == |multiset(xs)|;
    }
  }

  lemma {:induction false} SortOrders<T>(xs: seq<T>, key: T -> real)
    ensures Descending(SortDesc(xs, key), key)
  {
    if xs != [] {
      SortOrders(xs[..|xs| - 1], key);
      InsertSorted(SortDesc(xs[..|xs| - 1], key), xs[|xs| - 1], key);
    }
  }

  /** Among equal keys the one that stood first ends up in front. */
  lemma {:induction false} SortHead<T>(xs: seq<T>, key: T -> real) returns (k: nat)
    requires xs != []
    ensures FirstLargest(xs, key, k) && SortDesc(xs, key) != [] && SortDesc(xs, key)[0] == xs[k]
  {
    var init, last := xs[..|xs| - 1], xs[|xs| - 1];
    if init == [] {
      k := 0;
    } else {
      k := SortHead(init, key);
      if key(init[k]) < key(last) { k := |init|; }
    }
  }

  /** The sort permutes, orders descending, and puts the first of the largest in front. */
  lemma SortedDesc<T>(xs: seq<T>, key: T -> real)
    ensures multiset(SortDesc(xs, key)) == multiset(xs)
    ensures Descending(SortDesc(xs, key), key)
    ensures |SortDesc(xs, key)| == |xs|
    ensures xs != [] ==> exists k :: 0 <= k < |xs| && FirstLargest(xs, key, k) && SortDesc(xs, key)[0] == xs[k]
  {
    SortPermutes(xs, key);
    SortOrders(xs, key);
    if xs != [] { var k := SortHead(xs, key); }
  }

  /** `k` is the first index holding a largest key. */
  ghost predicate FirstLargest<T>(xs: seq<T>, key: T -> real, k: nat) {
    && k < |xs|
    && (forall j :: 0 <= j < |xs| ==> key(xs[k]) >= key(xs[j]))
    && (forall j :: 0 <= j < k ==> key(xs[k]) > key(xs[j]))
  }

  // ---- Choosing ----

  datatype Candidate = Candidate(daemon: DaemonRow, load: Allocated)
  datatype Score = Score(daemon: DaemonRow, value: real)
  datatype Placement = Placement(daemon: DaemonRow, score: real)
  datatype PlaceError = NoDaemons | NoneFits | BadEndpointId

  const ByScore: Score -> real := (s: Score) => s.value

  function FitOf(cand: Candidate, c: Constraints): Result<real, Rejection> {
    Fits(cand.daemon, cand.load, c.resources, c.require)
  }

  /** The fitting candidates with their scores, in order. */
  function Scored(cands: seq<Candidate>, c: Constraints): seq<Score> {
    if cands == [] then []
    else
      var scored, cand := Scored(cands[..|cands| - 1], c), cands[|cands| - 1];
      if FitOf(cand, c).Ok? then scored + [Score(cand.daemon, FitOf(cand, c).value)] else scored
  }

  function Chosen(cands: seq<Candidate>, c: Constraints): Result<Placement, PlaceError> {
    var sorted := SortDesc(Scored(cands, c), ByScore);
    if sorted == [] then Err(NoneFits)
    else if !sorted[0].daemon.idParses then Err(BadEndpointId)
    else Ok(Placement(sorted[0].daemon, sorted[0].value))
  }

  method Choose(cands: seq<Candidate>, c: Constraints) returns (r: Result<Placement, PlaceError>)
    ensures r == Chosen(cands, c)
  {
    var scored: seq<Score> := [];
    for i := 0 to |cands|
      invariant scored == Scored(cands[..i], c)
    {
      assert cands[..i + 1][..i] == cands[..i];
      match FitOf(cands[i], c)
      case Ok(score) => scored := scored + [Score(cands[i].daemon, score)];
      case Err(_) =>
    }
    assert cands[..|cands|] == cands;
    var sorted := SortDesc(scored, ByScore);
    if sorted == [] { return Err(NoneFits); }
    if !sorted[0].daemon.idParses { return Err(BadEndpointId); }
    return Ok(Placement(sorted[0].daemon, sorted[0].value));
  }

  lemma {:induction false} ScoredMembers(cands: seq<Candidate>, c: Constraints)
    ensures forall s :: s in Scored(cands, c) <==>
              exists cand :: cand in cands && FitOf(cand, c).Ok? && s == Score(cand.daemon, FitOf(cand, c).value)
    ensures Scored(cands, c) == [] <==> forall cand :: cand in cands ==> FitOf(cand, c).Err?
  {
    if cands != [] {
      ScoredMembers(cands[..|cands| - 1], c);
      assert cands == cands[..|cands| - 1] + [cands[|cands| - 1]];
    }
  }

  /** The choice is a fitting candidate of highest score; failing means none fits
      (or the winner's endpoint id is malformed). */
  lemma ChoiceIsOptimal(cands: seq<Candidate>, c: Constraints)
    ensures Chosen(cands, c) == Err(NoneFits) <==> forall cand :: cand in cands ==> FitOf(cand, c).Err?
    ensures Chosen(cands, c) != Err(NoDaemons)
    ensures Chosen(cands, c).Ok? ==>
              var p := Chosen(cands, c).value;
              && p.daemon.idParses
              && (exists cand :: cand in cands && cand.daemon == p.daemon && FitOf(cand, c) == Ok(p.score))
              && (forall cand :: cand in cands && FitOf(cand, c).Ok? ==> FitOf(cand, c).value <= p.score)
  {
    var scored := Scored(cands, c);
    ScoredMembers(cands, c);
    SortedDesc(scored, ByScore);
    if scored != [] {
      var k :| 0 <= k < |scored| && FirstLargest(scored, ByScore, k) && SortDesc(scored, ByScore)[0] == scored[k];
      assert scored[k] in scored;
      forall cand | cand in cands && FitOf(cand, c).Ok? ensures FitOf(cand, c).value <= scored[k].value {
        var s := Score(cand.daemon, FitOf(cand, c).value);
        assert s in scored;
        var j :| 0 <= j < |scored| && scored[j] == s;
        assert ByScore(scored[k]) >= ByScore(scored[j]);
      }
    }
  }

  // ---- Placing ----

  predicate IsSchedulable(d: DaemonRow, exclude: seq<string>) {
    d.approved && d.online && d.id !in exclude
  }

  function Schedulable(daemons: seq<DaemonRow>, exclude: seq<string>): seq<DaemonRow> {
    if daemons == [] then []
    else if IsSchedulable(daemons[0], exclude) then [daemons[0]] + Schedulable(daemons[1..], exclude)
    else Schedulable(daemons[1..], exclude)
  }

  function Candidates(daemons: seq<DaemonRow>, agents: seq<AgentRow>): seq<Candidate> {
    seq(|daemons|, i requires 0 <= i < |daemons| => Candidate(daemons[i], AllocatedOn(agents, daemons[i].id)))
  }

  /** Place an unpinned request. */
  function Place(daemons: seq<DaemonRow>, agents: seq<AgentRow>, c: Constraints): Result<Placement, PlaceError> {
    var online := Schedulable(daemons, c.exclude);
    if online == [] then Err(NoDaemons) else Chosen(Candidates(online, agents), c)
  }

  predicate FitsNow(d: DaemonRow, agents: seq<AgentRow>, c: Constraints) {
    Fits(d, AllocatedOn(agents, d.id), c.resources, c.require).Ok?
  }

  lemma {:induction false} SchedulableMembers(daemons: seq<DaemonRow>, exclude: seq<string>)
    ensures forall d :: d in Schedulable(daemons, exclude) <==> d in daemons && IsSchedulable(d, exclude)
  {
    if daemons != [] { SchedulableMembers(daemons[1..], exclude); }
  }

  /** Placement succeeds only on a schedulable daemon that fits with the highest score, and,
      when every schedulable id is well formed, it succeeds exactly when some daemon fits. */
  lemma PlaceIsComplete(daemons: seq<DaemonRow>, agents: seq<AgentRow>, c: Constraints)
    ensures Place(daemons, agents, c).Ok? ==>
              var p := Place(daemons, agents, c).value;
              && p.daemon in daemons
              && p.daemon.approved && p.daemon.online && p.daemon.id !in c.exclude
              && Fits(p.daemon, AllocatedOn(agents, p.daemon.id), c.resources, c.require) == Ok(p.score)
              && forall d :: d in daemons && d.approved && d.online && d.id !in c.exclude && FitsNow(d, agents, c)
                   ==> Fits(d, AllocatedOn(agents, d.id), c.resources, c.require).value <= p.score
    ensures (forall d :: d in daemons && d.approved && d.online && d.id !in c.exclude ==> d.idParses) ==>
              (Place(daemons, agents, c).Ok? <==>
               exists d :: d in daemons && d.approved && d.online && d.id !in c.exclude && FitsNow(d, agents, c))
  {
    var online := Schedulable(daemons, c.exclude);
    var cands := Candidates(online, agents);
    SchedulableMembers(daemons, c.exclude);
    ChoiceIsOptimal(cands, c);
    forall d | d in online ensures Candidate(d, AllocatedOn(agents, d.id)) in cands {
      var i :| 0 <= i < |online| && online[i] == d;
      assert cands[i] == Candidate(d, AllocatedOn(agents, d.id));
    }
    forall cand | cand in cands
      ensures cand.daemon in online && cand.load == AllocatedOn(agents, cand.daemon.id) {
    }
    if Place(daemons, agents, c).Err? && online != [] && Chosen(cands, c) == Err(BadEndpointId) {
      WinnerIsCandidate(cands, c);
    }
  }

  lemma WinnerIsCandidate(cands: seq<Candidate>, c: Constraints)
    requires Chosen(cands, c) == Err(BadEndpointId)
    ensures exists cand :: cand in cands && !cand.daemon.idParses
  {
    var scored := Scored(cands, c);
    ScoredMembers(cands, c);
    SortedDesc(scored, ByScore);
    var k :| 0 <= k < |scored| && FirstLargest(scored, ByScore, k) && SortDesc(scored, ByScore)[0] == scored[k];
    assert scored[k] in scored;
  }

  /** What a fit means: labels, a free slot, and room in every dimension. */
  lemma FitMeansRoom(d: DaemonRow, alloc: Allocated, req: Resources, require: map<string, string>)
    ensures Fits(d, alloc, req, require).Ok? <==>
              && (forall k :: k in require ==> Labelled(d, k, require[k])) && alloc.agents < d.maxAgents
              && (req.vcpu == 0 || alloc.vcpu + req.vcpu <= d.vcpuTotal)
              && (req.memory == 0 || alloc.memory + req.memory <= d.memoryTotal)
              && (req.disk == 0 || alloc.disk + req.disk <= d.diskTotal)
              && (req.gpu.Some? ==> |Matching(d.gpus, d.usageGpus, req.gpu.value.vram)| >= req.gpu.value.count)
  {
    if req.gpu.Some? { GpuScanCounts(d.gpus, d.usageGpus, req.gpu.value.vram); }
    assert forall k :: k in require ==>
      (k in d.EffectiveLabels() && d.EffectiveLabels()[k] == require[k] <==> Labelled(d, k, require[k]));
  }

  /** The daemon carries the label: by the operator's override if there is one, else as it reports. */
  predicate Labelled(d: DaemonRow, key: string, value: string) {
    if key in d.overrides then d.overrides[key] == value else key in d.labels && d.labels[key] == value
  }

  /** What counts against a daemon, row by row. */
  lemma AllocationOnFields(agents: seq<AgentRow>, a: AgentRow, daemon: string)
    ensures AllocatedOn([], daemon) == Allocated(0, 0, 0, 0)
    ensures var before, after := AllocatedOn(agents, daemon), AllocatedOn(agents + [a], daemon);
            if a.daemon == daemon && HoldsResources(a) then
              && after.vcpu == before.vcpu + a.resources.vcpu && after.memory == before.memory + a.resources.memory
              && after.disk == before.disk + a.resources.disk && after.agents == before.agents + 1
            else after == before
  {
    assert (agents + [a])[..|agents|] == agents;
  }

  // ---- What decides between two daemons ----

  /** `x` is the free share of a dimension: nothing when the daemon has none of it. */
  predicate ShareIs(x: real, used: nat, total: nat) {
    if total == 0 then x == 0.0 else x * total as real == (if used < total then total - used else 0) as real
  }

  /** `x` is the best GPU's memory beyond the requirement, in units of the requirement. */
  ghost predicate SurplusIs(x: real, d: DaemonRow, req: Resources) {
    if req.gpu.None? || req.gpu.value.vram.None? then x == 0.0
    else
      forall best :: IsBest(d.gpus, d.usageGpus, req.gpu.value.vram, best) ==>
        Times(x, Units(req.gpu.value.vram.value)) == Beyond(best, req.gpu.value.vram.value) as real
  }

  function Times(x: real, n: nat): real { x * n as real }
  function Units(need: nat): nat { if need == 0 then 1 else need }
  function Beyond(best: nat, need: nat): nat { if best > need then best - need else 0 }

  /** The score weighs free processors and memory fully, free disk half, and adds the GPU surplus. */
  lemma ScoreOnFields(d: DaemonRow, alloc: Allocated, req: Resources, require: map<string, string>,
                      cpu: real, memory: real, disk: real, gpu: real)
    requires Fits(d, alloc, req, require).Ok?
    requires ShareIs(cpu, alloc.vcpu, d.vcpuTotal) && ShareIs(memory, alloc.memory, d.memoryTotal)
    requires ShareIs(disk, alloc.disk, d.diskTotal) && SurplusIs(gpu, d, req)
    ensures Fits(d, alloc, req, require).value == cpu + memory + disk / 2.0 + gpu
  {
    FracIsShare(cpu, alloc.vcpu, d.vcpuTotal);
    FracIsShare(memory, alloc.memory, d.memoryTotal);
    FracIsShare(disk, alloc.disk, d.diskTotal);
    if req.gpu.Some? && req.gpu.value.vram.Some? {
      GpuScanIsBest(d.gpus, d.usageGpus, req.gpu.value.vram);
      SurplusIsScore(gpu, GpuScan(d.gpus, d.usageGpus, req.gpu.value.vram).1, req.gpu.value.vram.value);
    }
  }

  lemma FracIsShare(x: real, used: nat, total: nat)
    requires ShareIs(x, used, total)
    ensures Frac(SatSub(total, used), total) == x
  {
    if total > 0 { QuotientIs(x, SatSub(total, used), total); }
  }

  lemma SurplusIsScore(x: real, best: nat, need: nat)
    requires Times(x, Units(need)) == Beyond(best, need) as real
    ensures GpuScore(best, need) == x
  {
    QuotientIs(x, Beyond(best, need), Units(need));
  }

  lemma QuotientIs(x: real, n: nat, d: nat)
    requires d > 0 && x * d as real == n as real
    ensures n as real / d as real == x
  {
  }

  lemma ScoredGrows(cands: seq<Candidate>, cand: Candidate, c: Constraints)
    ensures Scored(cands + [cand], c) ==
            Scored(cands, c) + if FitOf(cand, c).Ok? then [Score(cand.daemon, FitOf(cand, c).value)] else []
  {
    assert (cands + [cand])[..|cands|] == cands;
  }

  /** Of two daemons that fit, the second is chosen exactly when it scores strictly higher. */
  lemma BetterDaemonWins(a: Candidate, b: Candidate, c: Constraints)
    requires FitOf(a, c).Ok? && FitOf(b, c).Ok? && a.daemon.idParses && b.daemon.idParses
    ensures Chosen([a, b], c).Ok?
    ensures Chosen([a, b], c).value.daemon == if FitOf(b, c).value > FitOf(a, c).value then b.daemon else a.daemon
  {
    var x, y := Score(a.daemon, FitOf(a, c).value), Score(b.daemon, FitOf(b, c).value);
    ScoredGrows([], a, c);
    ScoredGrows([a], b, c);
    assert [a] + [b] == [a, b] && [] + [a] == [a] && [] + [x] + [y] == [x, y];
    var scores: seq<Score> := [x, y];
    var k := SortHead(scores, ByScore);
    assert ByScore(x) == x.value && ByScore(y) == y.value;
  }

  /** Less allocated never fits less: the fit check is antitone in the allocation. */
  lemma FitsAntitone(d: DaemonRow, less: Allocated, more: Allocated, req: Resources, require: map<string, string>)
    requires AtMost(less, more) && Fits(d, more, req, require).Ok?
    ensures Fits(d, less, req, require).Ok?
  {
  }

  /** The spread rule: of two loads of the same daemon the lighter scores at least as high, and
      strictly higher when a dimension the daemon has is loaded less within its capacity. */
  lemma LighterScoresHigher(
      d: DaemonRow, less: Allocated, more: Allocated, req: Resources, require: map<string, string>)
    requires AtMost(less, more) && Fits(d, more, req, require).Ok?
    ensures Fits(d, less, req, require).value >= Fits(d, more, req, require).value
    ensures less.vcpu < more.vcpu <= d.vcpuTotal || less.memory < more.memory <= d.memoryTotal
            || less.disk < more.disk <= d.diskTotal
            ==> Fits(d, less, req, require).value > Fits(d, more, req, require).value
  {
    FitsAntitone(d, less, more, req, require);
    FracGrows(SatSub(d.vcpuTotal, more.vcpu), SatSub(d.vcpuTotal, less.vcpu), d.vcpuTotal);
    FracGrows(SatSub(d.memoryTotal, more.memory), SatSub(d.memoryTotal, less.memory), d.memoryTotal);
    FracGrows(SatSub(d.diskTotal, more.disk), SatSub(d.diskTotal, less.disk), d.diskTotal);
  }

  lemma FracGrows(a: nat, b: nat, total: nat)
    requires a <= b
    ensures Frac(a, total) <= Frac(b, total)
    ensures a < b && total > 0 ==> Frac(a, total) < Frac(b, total)
  {
  }

  predicate WithinLimits(d: DaemonRow, alloc: Allocated) {
    && alloc.vcpu <= d.vcpuTotal && alloc.memory <= d.memoryTotal
    && alloc.disk <= d.diskTotal && alloc.agents <= d.maxAgents
  }

  /** Placement never overcommits: with the request added to the chosen daemon's rows,
      every daemon is still within its limits. */
  lemma PlaceNeverOvercommits(daemons: seq<DaemonRow>, agents: seq<AgentRow>, c: Constraints, row: AgentRow)
    requires Place(daemons, agents, c).Ok?
    requires forall d :: d in daemons ==> WithinLimits(d, AllocatedOn(agents, d.id))
    requires forall i, j :: 0 <= i < j < |daemons| ==> daemons[i].id != daemons[j].id
    requires row.daemon == Place(daemons, agents, c).value.daemon.id && row.resources == c.resources
    ensures forall d :: d in daemons ==> WithinLimits(d, AllocatedOn(agents + [row], d.id))
  {
    PlaceIsComplete(daemons, agents, c);
    assert (agents + [row])[..|agents|] == agents;
    var p := Place(daemons, agents, c).value.daemon;
    forall d | d in daemons ensures WithinLimits(d, AllocatedOn(agents + [row], d.id)) {
      if d.id == p.id { assert d == p; }
    }
  }
}
