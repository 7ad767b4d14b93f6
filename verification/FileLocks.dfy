/**
 Appenders and the retention sweep sharing JSONL files through the per-path lock registry,
 as a state machine over every interleaving of any number of processes and paths.
 */
module FileLocks {
  type Path = string
  type LockId = nat
  type Pid = nat

  /** A line of a JSONL file: parseable with a timestamp, parseable without one, or not parseable. */
  datatype Line = Timed(at: int, text: string) | Undated(text: string) | Malformed(text: string)

  // ---- Pruning one file ----

  predicate TooOld(line: Line, cutoff: int) { line.Timed? && line.at < cutoff }

  function Kept(content: seq<Line>, cutoff: int): seq<Line> {
    if content == [] then []
    else
      var init, line := Kept(content[..|content| - 1], cutoff), content[|content| - 1];
      if line.Malformed? || TooOld(line, cutoff) then init else init + [line]
  }

  /** The file is rewritten only if some line is too old; then malformed lines go as well. */
  function PruneResult(content: seq<Line>, cutoff: int): seq<Line> {
    if exists line :: line in content && TooOld(line, cutoff) then Kept(content, cutoff) else content
  }

  method PruneContent(content: seq<Line>, cutoff: int) returns (result: seq<Line>)
    ensures result == PruneResult(content, cutoff)
  {
    var kept: seq<Line>, dropped := [], 0;
    for i := 0 to |content|
      invariant kept == Kept(content[..i], cutoff)
      invariant dropped > 0 <==> exists line :: line in content[..i] && TooOld(line, cutoff)
    {
      assert content[..i + 1] == content[..i] + [content[i]];
      if content[i].Malformed? { continue; }
      if TooOld(content[i], cutoff) {
        dropped := dropped + 1;
      } else {
        kept := kept + [content[i]];
      }
    }
    assert content[..|content|] == content;
    if dropped > 0 { return kept; }
    return content;
  }

  /** Well formed and no older than any of the cutoffs. */
  predicate Fresh(line: Line, cutoffs: set<int>) {
    match line
    case Timed(at, _) => forall c :: c in cutoffs ==> c <= at
    case Undated(_) => true
    case Malformed(_) => false
  }

  function FreshOnly(content: seq<Line>, cutoffs: set<int>): seq<Line> {
    if content == [] then []
    else
      var init, line := FreshOnly(content[..|content| - 1], cutoffs), content[|content| - 1];
      if Fresh(line, cutoffs) then init + [line] else init
  }

  lemma {:induction false} KeptIsFresh(content: seq<Line>, cutoff: int, cutoffs: set<int>)
    requires cutoff in cutoffs
    ensures FreshOnly(Kept(content, cutoff), cutoffs) == FreshOnly(content, cutoffs)
  {
    if content != [] {
      var init, line := content[..|content| - 1], content[|content| - 1];
      KeptIsFresh(init, cutoff, cutoffs);
      var kept := Kept(init, cutoff);
      assert (kept + [line])[..|kept|] == kept;
    }
  }

  /** A prune never touches a fresh line: none is lost, duplicated or reordered. */
  lemma PruneKeepsFresh(content: seq<Line>, cutoff: int, cutoffs: set<int>)
    requires cutoff in cutoffs
    ensures FreshOnly(PruneResult(content, cutoff), cutoffs) == FreshOnly(content, cutoffs)
  {
    KeptIsFresh(content, cutoff, cutoffs);
  }

  /** The fresh lines of a file are all of its lines that are fresh, as often as they stand there. */
  lemma {:induction false} FreshOnlyKeeps(content: seq<Line>, cutoffs: set<int>, line: Line)
    ensures multiset(FreshOnly(content, cutoffs))[line]
            == if line.Undated? || (line.Timed? && forall c :: c in cutoffs ==> c <= line.at)
               then multiset(content)[line] else 0
  {
    if content != [] {
      var init, last := content[..|content| - 1], content[|content| - 1];
      FreshOnlyKeeps(init, cutoffs, line);
      assert content == init + [last];
    }
  }

  lemma {:induction false} KeptAreFresh(content: seq<Line>, cutoff: int)
    ensures Kept(content, cutoff) == FreshOnly(content, {cutoff})
  {
    if content != [] { KeptAreFresh(content[..|content| - 1], cutoff); }
  }

  lemma {:induction false} FreshOnes(content: seq<Line>, cutoffs: set<int>)
    ensures forall line :: line in FreshOnly(content, cutoffs) ==> line in content && Fresh(line, cutoffs)
  {
    if content != [] { FreshOnes(content[..|content| - 1], cutoffs); }
  }

  /** What a sweep leaves: the file untouched if no dated line is older than the cutoff, and else
      exactly its well-formed lines that are not older; an old line is never left. */
  lemma PruneLeaves(content: seq<Line>, cutoff: int)
    ensures var untouched := forall line :: line in content && line.Timed? ==> cutoff <= line.at;
            PruneResult(content, cutoff) == if untouched then content else FreshOnly(content, {cutoff})
    ensures forall line :: line in PruneResult(content, cutoff) ==>
              line in content && (line.Timed? ==> cutoff <= line.at)
  {
    KeptAreFresh(content, cutoff);
    FreshOnes(content, {cutoff});
  }

  lemma {:induction false} MoreCutoffs(content: seq<Line>, few: set<int>, many: set<int>)
    requires few <= many
    ensures FreshOnly(FreshOnly(content, few), many) == FreshOnly(content, many)
  {
    if content != [] {
      var init, line := content[..|content| - 1], content[|content| - 1];
      MoreCutoffs(init, few, many);
      var left := FreshOnly(init, few);
      assert (left + [line])[..|left|] == left;
    }
  }

  // ---- The registry ----

  /** The entry of a path, made with an unused lock if there is none. */
  function GetOrInsert(locks: map<Path, LockId>, next: LockId, path: Path): (r: (map<Path, LockId>, LockId))
    ensures path in r.0
    ensures forall other :: other in locks ==> other in r.0 && r.0[other] == locks[other]
    ensures forall other :: other in r.0 ==> other in locks || (other == path && r.0[other] == next < r.1)
    ensures r.1 >= next
  {
    if path in locks then (locks, next) else (locks[path := next], next + 1)
  }

  class LockRegistry {
    var locks: map<Path, LockId>
    var next: LockId

    /** Different paths have different locks. */
    ghost predicate Valid()
      reads this
    {
      && (forall path :: path in locks ==> locks[path] < next)
      && (forall a, b :: a in locks && b in locks && a != b ==> locks[a] != locks[b])
    }

    constructor ()
      ensures Valid() && locks == map[]
    {
      locks, next := map[], 0;
    }

    method LockFor(path: Path) returns (lock: LockId)
      requires Valid()
      modifies this
      ensures Valid() && (locks, next) == GetOrInsert(old(locks), old(next), path) && lock == locks[path]
      ensures path in old(locks) ==> lock == old(locks)[path] && locks == old(locks)
    {
      if path !in locks {
        locks := locks[path := next];
        next := next + 1;
      }
      lock := locks[path];
    }
  }

  // ---- The processes ----

  datatype Job = AppendJob(path: Path, lines: seq<Line>) | PruneJob(path: Path, cutoff: int)

  /** Where a process is: before `lock_for`, waiting for the lock, or inside its critical section.
      A rewrite empties the file and writes the kept lines back. */
  datatype Proc =
    | Asking(job: Job)
    | Waiting(job: Job, lock: LockId)
    | Appending(job: Job, lock: LockId, done: nat)
    | Reading(job: Job, lock: LockId)
    | Deciding(job: Job, lock: LockId, snapshot: seq<Line>)
    | Writing(job: Job, lock: LockId, rest: seq<Line>)
    | Releasing(job: Job, lock: LockId)

  datatype Locks = Locks(registry: map<Path, LockId>, next: LockId, held: map<LockId, Pid>)

  /** The files, and history: every line ever appended to a path, every cutoff used on it, and the
      paths on which a rewrite was cut off before its end. */
  datatype Disk = Disk(files: map<Path, seq<Line>>, appended: map<Path, seq<Line>>,
                       cutoffs: map<Path, set<int>>, cut: set<Path>)

  datatype World = World(locks: Locks, disk: Disk, procs: map<Pid, Proc>)

  datatype Step =
    | Start(p: Pid, job: Job)
    | LockFor(p: Pid)
    | Acquire(p: Pid)
    | WriteLine(p: Pid)
    | Read(p: Pid)
    | Truncate(p: Pid)
    | WriteBack(p: Pid)
    | Release(p: Pid)
    | Die(p: Pid)

  function Lines(m: map<Path, seq<Line>>, path: Path): seq<Line> { if path in m then m[path] else [] }
  function CutoffsOf(d: Disk, path: Path): set<int> { if path in d.cutoffs then d.cutoffs[path] else {} }

  predicate Initial(w: World) {
    && w.locks == Locks(map[], w.locks.next, map[]) && w.procs == map[]
    && w.disk == Disk(w.disk.files, w.disk.files, map[], {})
  }

  predicate Inside(pr: Proc) { !pr.Asking? && !pr.Waiting? }

  predicate Done(pr: Proc) {
    || pr.Releasing?
    || (pr.Appending? && pr.job.AppendJob? && pr.done == |pr.job.lines|)
    || (pr.Writing? && pr.rest == [])
  }

  predicate Enabled(w: World, step: Step) {
    (step.Start? <==> step.p !in w.procs)
    && match step
       case Start(_, _) => true
       case LockFor(p) => w.procs[p].Asking?
       case Acquire(p) => w.procs[p].Waiting? && w.procs[p].lock !in w.locks.held
       case WriteLine(p) =>
         w.procs[p].Appending? && w.procs[p].job.AppendJob? && w.procs[p].done < |w.procs[p].job.lines|
       case Read(p) => w.procs[p].Reading?
       case Truncate(p) => w.procs[p].Deciding? && w.procs[p].job.PruneJob?
       case WriteBack(p) => w.procs[p].Writing? && w.procs[p].rest != []
       case Release(p) => Done(w.procs[p])
       case Die(p) => true
  }

  function AppendTo(d: Disk, path: Path, line: Line): Disk {
    d.(files := d.files[path := Lines(d.files, path) + [line]],
       appended := d.appended[path := Lines(d.appended, path) + [line]])
  }

  function Prune(d: Disk, path: Path, cutoff: int, files: map<Path, seq<Line>>): Disk {
    d.(files := files, cutoffs := d.cutoffs[path := CutoffsOf(d, path) + {cutoff}])
  }

  function Free(l: Locks, pr: Proc): Locks { if Inside(pr) then l.(held := l.held - {pr.lock}) else l }

  /** The file is emptied only if some line is too old; then malformed lines go as well. */
  function Decide(w: World, p: Pid): World
    requires Enabled(w, Truncate(p))
  {
    var pr := w.procs[p];
    var path, cutoff := pr.job.path, pr.job.cutoff;
    if exists line :: line in pr.snapshot && TooOld(line, cutoff) then
      w.(disk := Prune(w.disk, path, cutoff, w.disk.files[path := []]),
         procs := w.procs[p := Writing(pr.job, pr.lock, Kept(pr.snapshot, cutoff))])
    else
      w.(disk := Prune(w.disk, path, cutoff, w.disk.files), procs := w.procs[p := Releasing(pr.job, pr.lock)])
  }

  function PutBack(w: World, p: Pid): World
    requires Enabled(w, WriteBack(p))
  {
    var pr := w.procs[p];
    var path := pr.job.path;
    w.(disk := w.disk.(files := w.disk.files[path := Lines(w.disk.files, path) + [pr.rest[0]]]),
       procs := w.procs[p := pr.(rest := pr.rest[1..])])
  }

  /** The process goes away; its lock, if it holds one, is released. */
  function Leave(w: World, p: Pid): World
    requires p in w.procs
  {
    var pr := w.procs[p];
    World(Free(w.locks, pr),
          if pr.Writing? && pr.rest != [] then w.disk.(cut := w.disk.cut + {pr.job.path}) else w.disk,
          w.procs - {p})
  }

  function Apply(w: World, step: Step): World
    requires Enabled(w, step)
  {
    match step
    case Start(p, job) => w.(procs := w.procs[p := Asking(job)])
    case LockFor(p) =>
      var job := w.procs[p].job;
      var (registry, next) := GetOrInsert(w.locks.registry, w.locks.next, job.path);
      w.(locks := Locks(registry, next, w.locks.held), procs := w.procs[p := Waiting(job, registry[job.path])])
    case Acquire(p) =>
      var pr := w.procs[p];
      w.(locks := w.locks.(held := w.locks.held[pr.lock := p]),
         procs := w.procs[p := if pr.job.AppendJob? then Appending(pr.job, pr.lock, 0) else Reading(pr.job, pr.lock)])
    case WriteLine(p) =>
      var pr := w.procs[p];
      w.(disk := AppendTo(w.disk, pr.job.path, pr.job.lines[pr.done]), procs := w.procs[p := pr.(done := pr.done + 1)])
    case Read(p) =>
      var pr := w.procs[p];
      w.(procs := w.procs[p := Deciding(pr.job, pr.lock, Lines(w.disk.files, pr.job.path))])
    case Truncate(p) => Decide(w, p)
    case WriteBack(p) => PutBack(w, p)
    case Release(p) => Leave(w, p)
    case Die(p) => Leave(w, p)
  }

  predicate IsRun(w: World, steps: seq<Step>)
    decreases |steps|, 0
  {
    steps == [] || (IsRun(w, steps[..|steps| - 1]) && Enabled(After(w, steps[..|steps| - 1]), steps[|steps| - 1]))
  }

  function After(w: World, steps: seq<Step>): World
    requires IsRun(w, steps)
    decreases |steps|, 1
  {
    if steps == [] then w else Apply(After(w, steps[..|steps| - 1]), steps[|steps| - 1])
  }

  // ---- One lock per path, one process inside ----

  predicate RegistryOk(l: Locks) {
    && (forall a :: a in l.registry ==> l.registry[a] < l.next)
    && (forall a, b :: a in l.registry && b in l.registry && l.registry[a] == l.registry[b] ==> a == b)
  }

  predicate ProcOk(l: Locks, p: Pid, pr: Proc) {
    && (!pr.Asking? ==> pr.job.path in l.registry && pr.lock == l.registry[pr.job.path])
    && (Inside(pr) ==> pr.lock in l.held && l.held[pr.lock] == p)
    && (pr.Appending? ==> pr.job.AppendJob?)
  }

  predicate LockInv(w: World) {
    RegistryOk(w.locks) && forall p :: p in w.procs ==> ProcOk(w.locks, p, w.procs[p])
  }

  /** Two processes on one path are never both inside. */
  lemma MutualExclusion(w: World, p: Pid, q: Pid)
    requires LockInv(w)
    requires p in w.procs && q in w.procs && Inside(w.procs[p]) && Inside(w.procs[q])
    requires w.procs[p].job.path == w.procs[q].job.path
    ensures p == q
  {
    assert ProcOk(w.locks, p, w.procs[p]) && ProcOk(w.locks, q, w.procs[q]);
  }

  lemma LockForKeeps(w: World, p: Pid)
    requires Enabled(w, LockFor(p)) && LockInv(w)
    ensures LockInv(Apply(w, LockFor(p)))
  {
    var w' := Apply(w, LockFor(p));
    forall q | q in w'.procs ensures ProcOk(w'.locks, q, w'.procs[q]) {
      if q != p { assert ProcOk(w.locks, q, w.procs[q]); }
    }
  }

  lemma AcquireKeeps(w: World, p: Pid)
    requires Enabled(w, Acquire(p)) && LockInv(w)
    ensures LockInv(Apply(w, Acquire(p)))
  {
    var w' := Apply(w, Acquire(p));
    assert ProcOk(w.locks, p, w.procs[p]);
    forall q | q in w'.procs ensures ProcOk(w'.locks, q, w'.procs[q]) {
      if q != p { assert ProcOk(w.locks, q, w.procs[q]); }
    }
  }

  lemma LeaveKeeps(w: World, p: Pid)
    requires p in w.procs && LockInv(w)
    ensures LockInv(Leave(w, p))
  {
    var w' := Leave(w, p);
    forall q | q in w'.procs ensures ProcOk(w'.locks, q, w'.procs[q]) {
      assert ProcOk(w.locks, q, w.procs[q]) && ProcOk(w.locks, p, w.procs[p]);
    }
  }

  /** A process that stays inside on the same job keeps everyone in order. */
  lemma MoveKeeps(w: World, p: Pid, w': World, pr: Proc)
    requires LockInv(w) && p in w.procs && w'.locks == w.locks && w'.procs == w.procs[p := pr]
    requires Inside(w.procs[p]) && Inside(pr) && pr.job == w.procs[p].job && pr.lock == w.procs[p].lock
    requires pr.Appending? ==> pr.job.AppendJob?
    ensures LockInv(w')
  {
    assert ProcOk(w.locks, p, w.procs[p]);
    forall q | q in w'.procs ensures ProcOk(w'.locks, q, w'.procs[q]) {
      if q != p { assert ProcOk(w.locks, q, w.procs[q]); }
    }
  }

  lemma StepKeepsLocks(w: World, step: Step)
    requires Enabled(w, step) && LockInv(w)
    ensures LockInv(Apply(w, step))
  {
    match step
    case Start(p, job) =>
    case LockFor(p) => LockForKeeps(w, p);
    case Acquire(p) => AcquireKeeps(w, p);
    case Release(p) => LeaveKeeps(w, p);
    case Die(p) => LeaveKeeps(w, p);
    case _ => MoveKeeps(w, step.p, Apply(w, step), Apply(w, step).procs[step.p]);
  }

  // ---- What the files hold ----

  /** The recent enough lines of `content` are those ever appended to the path. */
  predicate Holds(d: Disk, path: Path, content: seq<Line>) {
    FreshOnly(content, CutoffsOf(d, path)) == FreshOnly(Lines(d.appended, path), CutoffsOf(d, path))
  }

  predicate Rewrites(w: World, p: Pid, path: Path) {
    p in w.procs && w.procs[p].Writing? && w.procs[p].job.path == path
  }

  /** No rewrite of the path is under way. */
  ghost predicate Quiet(w: World, path: Path) { forall p :: !Rewrites(w, p, path) }

  /** The file, or during a rewrite the file and the lines still to be written back, hold everything. */
  ghost predicate FileOk(w: World, path: Path) {
    path in w.disk.cut
    || ((Quiet(w, path) ==> Holds(w.disk, path, Lines(w.disk.files, path)))
        && forall p :: Rewrites(w, p, path) ==> Holds(w.disk, path, Lines(w.disk.files, path) + w.procs[p].rest))
  }

  ghost predicate ContentInv(w: World) { forall path: Path :: FileOk(w, path) }

  /** A pruner about to decide has the current content in hand. */
  predicate SnapshotInv(w: World) {
    forall p :: p in w.procs && w.procs[p].Deciding? ==>
      w.procs[p].snapshot == Lines(w.disk.files, w.procs[p].job.path)
  }

  ghost predicate Inv(w: World) { LockInv(w) && SnapshotInv(w) && ContentInv(w) }

  /** Nobody else rewrites the path of a process that is inside. */
  lemma AloneInside(w: World, p: Pid)
    requires LockInv(w) && p in w.procs && Inside(w.procs[p])
    ensures forall q :: q != p ==> !Rewrites(w, q, w.procs[p].job.path)
    ensures forall q :: q in w.procs && q != p && w.procs[q].Deciding? ==> w.procs[q].job.path != w.procs[p].job.path
  {
    forall q | q in w.procs && q != p && Inside(w.procs[q]) ensures w.procs[q].job.path != w.procs[p].job.path {
      if w.procs[q].job.path == w.procs[p].job.path { MutualExclusion(w, p, q); }
    }
  }

  lemma StepKeepsSnapshots(w: World, step: Step)
    requires Enabled(w, step) && LockInv(w) && SnapshotInv(w)
    ensures SnapshotInv(Apply(w, step))
  {
    if !step.Start? && Inside(w.procs[step.p]) { AloneInside(w, step.p); }
  }

  lemma FreshAppend(content: seq<Line>, line: Line, cutoffs: set<int>)
    ensures FreshOnly(content + [line], cutoffs)
            == FreshOnly(content, cutoffs) + if Fresh(line, cutoffs) then [line] else []
  {
    assert (content + [line])[..|content|] == content;
  }

  lemma {:induction false} FreshConcat(a: seq<Line>, b: seq<Line>, cutoffs: set<int>)
    ensures FreshOnly(a + b, cutoffs) == FreshOnly(a, cutoffs) + FreshOnly(b, cutoffs)
    decreases |b|
  {
    if b == [] {
      assert a + b == a;
    } else {
      var init, last := b[..|b| - 1], b[|b| - 1];
      FreshConcat(a, init, cutoffs);
      FreshAppend(a + init, last, cutoffs);
      FreshAppend(init, last, cutoffs);
      LastLine(a, b);
    }
  }

  lemma LastLine(a: seq<Line>, b: seq<Line>)
    requires b != []
    ensures b == b[..|b| - 1] + [b[|b| - 1]] && a + b == (a + b[..|b| - 1]) + [b[|b| - 1]]
  {
  }

  lemma AppendHolds(d: Disk, path: Path, line: Line)
    requires Holds(d, path, Lines(d.files, path))
    ensures Holds(AppendTo(d, path, line), path, Lines(AppendTo(d, path, line).files, path))
  {
    FreshAppend(Lines(d.files, path), line, CutoffsOf(d, path));
    FreshAppend(Lines(d.appended, path), line, CutoffsOf(d, path));
  }

  lemma PruneHolds(d: Disk, path: Path, cutoff: int, files: map<Path, seq<Line>>)
    requires Holds(d, path, Lines(d.files, path))
    ensures Holds(Prune(d, path, cutoff, files), path, PruneResult(Lines(d.files, path), cutoff))
  {
    var few := CutoffsOf(d, path);
    var many := few + {cutoff};
    MoreCutoffs(Lines(d.files, path), few, many);
    MoreCutoffs(Lines(d.appended, path), few, many);
    PruneKeepsFresh(Lines(d.files, path), cutoff, many);
  }

  lemma WriteLineHolds(w: World, p: Pid)
    requires Enabled(w, WriteLine(p)) && LockInv(w) && FileOk(w, w.procs[p].job.path)
    ensures FileOk(Apply(w, WriteLine(p)), w.procs[p].job.path)
  {
    AloneInside(w, p);
    var path := w.procs[p].job.path;
    assert forall q :: !Rewrites(w, q, path);
    if path !in w.disk.cut { AppendHolds(w.disk, path, w.procs[p].job.lines[w.procs[p].done]); }
    assert forall q :: !Rewrites(Apply(w, WriteLine(p)), q, path);
  }

  lemma TruncateHolds(w: World, p: Pid)
    requires Enabled(w, Truncate(p)) && LockInv(w) && SnapshotInv(w) && FileOk(w, w.procs[p].job.path)
    ensures FileOk(Decide(w, p), w.procs[p].job.path)
  {
    var pr, w' := w.procs[p], Decide(w, p);
    var path := pr.job.path;
    AloneInside(w, p);
    assert forall q :: !Rewrites(w, q, path);
    if path !in w.disk.cut {
      PruneHolds(w.disk, path, pr.job.cutoff, w'.disk.files);
      if w'.procs[p].Writing? { EmptiedHolds(w', p); }
    }
  }

  /** A file just emptied, with everything it should hold in the hands of its only rewriter. */
  lemma EmptiedHolds(w: World, p: Pid)
    requires p in w.procs && w.procs[p].Writing?
    requires var path := w.procs[p].job.path;
             && Lines(w.disk.files, path) == [] && Holds(w.disk, path, w.procs[p].rest)
             && forall q :: Rewrites(w, q, path) ==> q == p
    ensures FileOk(w, w.procs[p].job.path)
  {
    assert Rewrites(w, p, w.procs[p].job.path);
    assert [] + w.procs[p].rest == w.procs[p].rest;
  }

  lemma WriteBackHolds(w: World, p: Pid)
    requires Enabled(w, WriteBack(p)) && LockInv(w) && FileOk(w, w.procs[p].job.path)
    ensures FileOk(PutBack(w, p), w.procs[p].job.path)
  {
    var pr := w.procs[p];
    var file := Lines(w.disk.files, pr.job.path);
    AloneInside(w, p);
    assert Rewrites(w, p, pr.job.path) && Rewrites(PutBack(w, p), p, pr.job.path);
    assert file + [pr.rest[0]] + pr.rest[1..] == file + pr.rest;
  }

  lemma LeaveHolds(w: World, p: Pid)
    requires p in w.procs && Inside(w.procs[p]) && LockInv(w) && FileOk(w, w.procs[p].job.path)
    ensures FileOk(Leave(w, p), w.procs[p].job.path)
  {
    var pr := w.procs[p];
    var file := Lines(w.disk.files, pr.job.path);
    AloneInside(w, p);
    if pr.Writing? {
      assert Rewrites(w, p, pr.job.path) && file + [] == file;
    } else {
      assert forall q :: !Rewrites(w, q, pr.job.path);
    }
    assert forall q :: !Rewrites(Leave(w, p), q, pr.job.path);
  }

  /** A path keeps its contents as long as nothing about it changes. */
  lemma SameFile(w: World, w': World, path: Path)
    requires Lines(w'.disk.files, path) == Lines(w.disk.files, path)
    requires Lines(w'.disk.appended, path) == Lines(w.disk.appended, path)
    requires CutoffsOf(w'.disk, path) == CutoffsOf(w.disk, path)
    requires path in w.disk.cut ==> path in w'.disk.cut
    requires forall p :: Rewrites(w, p, path) == Rewrites(w', p, path)
    requires forall p :: Rewrites(w, p, path) && Rewrites(w', p, path) ==> w'.procs[p] == w.procs[p]
    requires FileOk(w, path)
    ensures FileOk(w', path)
  {
  }

  /** The step leaves the path alone: another path, or no part of a critical section that writes. */
  predicate LeavesAlone(w: World, step: Step, path: Path) {
    step.Start? || (step.p in w.procs && (w.procs[step.p].job.path != path || !Inside(w.procs[step.p]) || step.Read?))
  }

  lemma OtherFiles(w: World, step: Step, path: Path)
    requires Enabled(w, step) && FileOk(w, path) && LeavesAlone(w, step, path)
    ensures FileOk(Apply(w, step), path)
  {
    var w' := Apply(w, step);
    SameRewrites(w, step, path);
    SameFile(w, w', path);
  }

  lemma SameRewrites(w: World, step: Step, path: Path)
    requires Enabled(w, step) && LeavesAlone(w, step, path)
    ensures forall p :: Rewrites(w, p, path) == Rewrites(Apply(w, step), p, path)
    ensures forall p :: Rewrites(w, p, path) && Rewrites(Apply(w, step), p, path) ==>
              Apply(w, step).procs[p] == w.procs[p]
  {
  }

  lemma OwnFile(w: World, step: Step)
    requires Enabled(w, step) && Inv(w) && !step.Start? && !LeavesAlone(w, step, w.procs[step.p].job.path)
    ensures FileOk(Apply(w, step), w.procs[step.p].job.path)
  {
    assert FileOk(w, w.procs[step.p].job.path);
    match step
    case WriteLine(p) => WriteLineHolds(w, p);
    case Truncate(p) => TruncateHolds(w, p);
    case WriteBack(p) => WriteBackHolds(w, p);
    case Release(p) => LeaveHolds(w, p);
    case Die(p) => LeaveHolds(w, p);
  }

  lemma StepKeepsContent(w: World, step: Step)
    requires Enabled(w, step) && Inv(w)
    ensures ContentInv(Apply(w, step))
  {
    forall path: Path ensures FileOk(Apply(w, step), path) {
      assert FileOk(w, path);
      if LeavesAlone(w, step, path) { OtherFiles(w, step, path); } else { OwnFile(w, step); }
    }
  }

  // ---- What the processes get done ----

  /** Each phase belongs to its kind of job. */
  predicate JobOk(pr: Proc) {
    match pr
    case Appending(job, _, done) => job.AppendJob? && done <= |job.lines|
    case Asking(_) => true
    case Waiting(_, _) => true
    case _ => pr.job.PruneJob?
  }

  /** Every lock held is held by a process inside its critical section. */
  predicate HeldOk(w: World) {
    forall lock :: lock in w.locks.held ==> HeldBy(w, lock, w.locks.held[lock])
  }

  predicate HeldBy(w: World, lock: LockId, p: Pid) {
    p in w.procs && Inside(w.procs[p]) && w.procs[p].lock == lock
  }

  predicate EndsWith(content: seq<Line>, tail: seq<Line>) {
    |tail| <= |content| && content[|content| - |tail|..] == tail
  }

  /** What an appender has written so far is the end of everything appended to its path. */
  predicate AppendedOk(d: Disk, pr: Proc) {
    pr.Appending? && JobOk(pr) ==> EndsWith(Lines(d.appended, pr.job.path), pr.job.lines[..pr.done])
  }

  predicate NoneOld(content: seq<Line>, cutoff: int) {
    forall line :: line in content && line.Timed? ==> cutoff <= line.at
  }

  /** A pruner past its decision has no old line in the file or in hand. */
  predicate PrunedOk(d: Disk, pr: Proc) {
    pr.job.PruneJob? ==>
      && (pr.Releasing? ==> NoneOld(Lines(d.files, pr.job.path), pr.job.cutoff))
      && (pr.Writing? ==> NoneOld(Lines(d.files, pr.job.path) + pr.rest, pr.job.cutoff))
  }

  predicate ProgressOk(d: Disk, pr: Proc) { JobOk(pr) && AppendedOk(d, pr) && PrunedOk(d, pr) }

  predicate WorkInv(w: World) { HeldOk(w) && forall p :: p in w.procs ==> ProgressOk(w.disk, w.procs[p]) }

  lemma StepKeepsHeld(w: World, step: Step)
    requires Enabled(w, step) && LockInv(w) && HeldOk(w)
    ensures HeldOk(Apply(w, step))
  {
    var w' := Apply(w, step);
    forall lock | lock in w'.locks.held ensures HeldBy(w', lock, w'.locks.held[lock]) {
      assert lock in w.locks.held ==> HeldBy(w, lock, w.locks.held[lock]);
      if step.p in w.procs { assert ProcOk(w.locks, step.p, w.procs[step.p]); }
    }
  }

  /** A step changes no file in whose critical section another process is. */
  lemma OthersFile(w: World, step: Step, q: Pid)
    requires Enabled(w, step) && LockInv(w) && q in w.procs && q != step.p && Inside(w.procs[q])
    ensures var path, d, d' := w.procs[q].job.path, w.disk, Apply(w, step).disk;
            Lines(d'.files, path) == Lines(d.files, path) && Lines(d'.appended, path) == Lines(d.appended, path)
  {
    if !step.Start? && Inside(w.procs[step.p]) && w.procs[step.p].job.path == w.procs[q].job.path {
      MutualExclusion(w, step.p, q);
    }
  }

  lemma AppendsNext(content: seq<Line>, lines: seq<Line>, done: nat)
    requires done < |lines| && EndsWith(content, lines[..done])
    ensures EndsWith(content + [lines[done]], lines[..done + 1])
  {
  }

  lemma WriteLineProgress(w: World, p: Pid)
    requires Enabled(w, WriteLine(p)) && ProgressOk(w.disk, w.procs[p])
    ensures ProgressOk(Apply(w, WriteLine(p)).disk, Apply(w, WriteLine(p)).procs[p])
  {
    var pr := w.procs[p];
    AppendsNext(Lines(w.disk.appended, pr.job.path), pr.job.lines, pr.done);
  }

  lemma TruncateProgress(w: World, p: Pid)
    requires Enabled(w, Truncate(p)) && SnapshotInv(w)
    ensures ProgressOk(Decide(w, p).disk, Decide(w, p).procs[p])
  {
    var pr := w.procs[p];
    PruneLeaves(pr.snapshot, pr.job.cutoff);
    assert [] + Kept(pr.snapshot, pr.job.cutoff) == Kept(pr.snapshot, pr.job.cutoff);
  }

  lemma WriteBackProgress(w: World, p: Pid)
    requires Enabled(w, WriteBack(p)) && ProgressOk(w.disk, w.procs[p])
    ensures ProgressOk(PutBack(w, p).disk, PutBack(w, p).procs[p])
  {
    var rest := w.procs[p].rest;
    assert Lines(w.disk.files, w.procs[p].job.path) + [rest[0]] + rest[1..]
        == Lines(w.disk.files, w.procs[p].job.path) + rest;
  }

  /** The stepping process's own work. */
  lemma OwnProgress(w: World, step: Step)
    requires Enabled(w, step) && SnapshotInv(w) && !step.Start? && ProgressOk(w.disk, w.procs[step.p])
    requires step.p in Apply(w, step).procs
    ensures ProgressOk(Apply(w, step).disk, Apply(w, step).procs[step.p])
  {
    match step
    case WriteLine(p) => WriteLineProgress(w, p);
    case Truncate(p) => TruncateProgress(w, p);
    case WriteBack(p) => WriteBackProgress(w, p);
    case _ =>
  }

  lemma StepKeepsWork(w: World, step: Step)
    requires Enabled(w, step) && LockInv(w) && SnapshotInv(w) && WorkInv(w)
    ensures WorkInv(Apply(w, step))
  {
    var w' := Apply(w, step);
    StepKeepsHeld(w, step);
    forall q | q in w'.procs ensures ProgressOk(w'.disk, w'.procs[q]) {
      if q == step.p {
        if !step.Start? { OwnProgress(w, step); }
      } else if Inside(w.procs[q]) {
        OthersFile(w, step, q);
      }
    }
  }

  lemma {:induction false} RunKeepsInv(w: World, steps: seq<Step>)
    requires Initial(w) && IsRun(w, steps)
    ensures Inv(After(w, steps)) && WorkInv(After(w, steps))
  {
    if steps != [] {
      var before := After(w, steps[..|steps| - 1]);
      RunKeepsInv(w, steps[..|steps| - 1]);
      StepKeepsLocks(before, steps[|steps| - 1]);
      StepKeepsSnapshots(before, steps[|steps| - 1]);
      StepKeepsContent(before, steps[|steps| - 1]);
      StepKeepsWork(before, steps[|steps| - 1]);
    }
  }

  // ---- The theorems ----

  /** Appends survive pruning: in every interleaving, on every path on which no rewrite was cut off,
      the well-formed lines no older than any cutoff used are in the file exactly as appended: all of
      them, once each, in append order. While a rewrite is under way they are in the file and in
      the hands of the one process that writes them back. */
  lemma {:induction false} AppendsSurvivePruning(w: World, steps: seq<Step>, path: Path)
    requires Initial(w) && IsRun(w, steps) && path !in After(w, steps).disk.cut
    ensures var now := After(w, steps);
            && (Quiet(now, path) ==> Holds(now.disk, path, Lines(now.disk.files, path)))
            && (forall p :: Rewrites(now, p, path) ==>
                  Holds(now.disk, path, Lines(now.disk.files, path) + now.procs[p].rest))
  {
    RunKeepsInv(w, steps);
    assert FileOk(After(w, steps), path);
  }

  /** A rewrite that is cut off loses nothing exactly when no recent enough line was still to be
      written back. */
  lemma {:induction false} CutLosesExactly(w: World, steps: seq<Step>, p: Pid)
    requires Initial(w) && IsRun(w, steps)
    requires var now := After(w, steps);
             p in now.procs && now.procs[p].Writing? && now.procs[p].job.path !in now.disk.cut
    ensures var now := After(w, steps);
            var path, rest := now.procs[p].job.path, now.procs[p].rest;
            Holds(Leave(now, p).disk, path, Lines(Leave(now, p).disk.files, path))
            <==> FreshOnly(rest, CutoffsOf(now.disk, path)) == []
  {
    RunKeepsInv(w, steps);
    var now := After(w, steps);
    var path := now.procs[p].job.path;
    assert FileOk(now, path) && Rewrites(now, p, path);
    FreshConcat(Lines(now.disk.files, path), now.procs[p].rest, CutoffsOf(now.disk, path));
  }

  /** In every interleaving at most one process of a path is in its critical section. */
  lemma {:induction false} CriticalSectionsExclude(w: World, steps: seq<Step>, p: Pid, q: Pid)
    requires Initial(w) && IsRun(w, steps)
    requires var now := After(w, steps);
             && p in now.procs && q in now.procs && Inside(now.procs[p]) && Inside(now.procs[q])
             && now.procs[p].job.path == now.procs[q].job.path
    ensures p == q
  {
    RunKeepsInv(w, steps);
    MutualExclusion(After(w, steps), p, q);
  }

  /** In every interleaving a batch of lines is appended as one block: whatever else runs, the lines
      an appender has written stand together, in order, at the end of all appended to its path. */
  lemma {:induction false} BatchesAreBlocks(w: World, steps: seq<Step>, p: Pid)
    requires Initial(w) && IsRun(w, steps)
    requires p in After(w, steps).procs && After(w, steps).procs[p].Appending?
    ensures var now := After(w, steps);
            && now.procs[p].job.AppendJob? && now.procs[p].done <= |now.procs[p].job.lines|
            && EndsWith(Lines(now.disk.appended, now.procs[p].job.path), now.procs[p].job.lines[..now.procs[p].done])
  {
    RunKeepsInv(w, steps);
  }

  /** In every interleaving a sweep that is done leaves no dated line older than its cutoff. */
  lemma {:induction false} DoneSweepLeavesNoneOld(w: World, steps: seq<Step>, p: Pid)
    requires Initial(w) && IsRun(w, steps)
    requires p in After(w, steps).procs && Done(After(w, steps).procs[p]) && After(w, steps).procs[p].job.PruneJob?
    ensures var now := After(w, steps);
            NoneOld(Lines(now.disk.files, now.procs[p].job.path), now.procs[p].job.cutoff)
  {
    RunKeepsInv(w, steps);
    var now := After(w, steps);
    assert ProgressOk(now.disk, now.procs[p]);
    var file := Lines(now.disk.files, now.procs[p].job.path);
    if now.procs[p].Writing? { assert file + [] == file; }
  }

  /** No process is ever stuck: it has a step of its own, or the one that has its path's lock does. */
  lemma {:induction false} NeverStuck(w: World, steps: seq<Step>, p: Pid) returns (step: Step)
    requires Initial(w) && IsRun(w, steps) && p in After(w, steps).procs
    ensures var now := After(w, steps);
            && Enabled(now, step) && !step.Start? && !step.Die?
            && now.procs[step.p].job.path == now.procs[p].job.path
            && (step.p != p ==> now.procs[p].Waiting? && Inside(now.procs[step.p]))
  {
    RunKeepsInv(w, steps);
    var now := After(w, steps);
    var q := p;
    if now.procs[p].Waiting? && now.procs[p].lock in now.locks.held {
      q := now.locks.held[now.procs[p].lock];
      assert HeldBy(now, now.procs[p].lock, q);
      assert ProcOk(now.locks, p, now.procs[p]) && ProcOk(now.locks, q, now.procs[q]);
    }
    step := NextStep(q, now.procs[q]);
    assert ProgressOk(now.disk, now.procs[q]);
  }

  /** What a process does next. */
  function NextStep(p: Pid, pr: Proc): Step {
    if Done(pr) then Release(p)
    else
      match pr
      case Asking(_) => LockFor(p)
      case Waiting(_, _) => Acquire(p)
      case Appending(_, _, _) => WriteLine(p)
      case Reading(_, _) => Read(p)
      case Deciding(_, _, _) => Truncate(p)
      case Writing(_, _, _) => WriteBack(p)
      case Releasing(_, _) => Release(p)
  }

  // ---- A job left alone ----

  lemma Extend(w: World, steps: seq<Step>, step: Step)
    requires IsRun(w, steps) && Enabled(After(w, steps), step)
    ensures IsRun(w, steps + [step]) && After(w, steps + [step]) == Apply(After(w, steps), step)
  {
    assert (steps + [step])[..|steps|] == steps;
  }

  /** Nobody is in the critical section of the path. */
  predicate IsFree(w: World, path: Path) {
    forall p :: p in w.procs && Inside(w.procs[p]) ==> w.procs[p].job.path != path
  }

  lemma HeldElsewhere(w: World, path: Path, lock: LockId)
    requires LockInv(w) && HeldOk(w) && IsFree(w, path) && lock in w.locks.held
    ensures lock < w.locks.next && (path in w.locks.registry ==> lock != w.locks.registry[path])
  {
    var q := w.locks.held[lock];
    assert HeldBy(w, lock, q) && ProcOk(w.locks, q, w.procs[q]);
  }

  /** A new process enters the critical section of a free path in three steps. */
  lemma Enters(w: World, p: Pid, job: Job) returns (steps: seq<Step>)
    requires LockInv(w) && HeldOk(w) && p !in w.procs && IsFree(w, job.path)
    ensures IsRun(w, steps) && After(w, steps).disk == w.disk
    ensures exists lock :: After(w, steps).procs == w.procs[p :=
              if job.AppendJob? then Appending(job, lock, 0) else Reading(job, lock)]
  {
    var first := Apply(w, Start(p, job));
    var asked := Apply(first, LockFor(p));
    var lock := asked.procs[p].lock;
    if lock in w.locks.held { HeldElsewhere(w, job.path, lock); }
    steps := [];
    Extend(w, steps, Start(p, job));
    steps := steps + [Start(p, job)];
    Extend(w, steps, LockFor(p));
    steps := steps + [LockFor(p)];
    Extend(w, steps, Acquire(p));
    steps := steps + [Acquire(p)];
    assert After(w, steps).procs == w.procs[p :=
      if job.AppendJob? then Appending(job, lock, 0) else Reading(job, lock)];
  }

  /** `after` is `before` with the file of one path replaced. */
  ghost predicate OnlyFile(before: World, after: World, path: Path, content: seq<Line>) {
    && Lines(after.disk.files, path) == content
    && forall other: Path :: other != path ==> Lines(after.disk.files, other) == Lines(before.disk.files, other)
  }

  /** The lines in hand go back one by one. */
  lemma {:induction false} WritesAllBack(w: World, steps: seq<Step>, p: Pid) returns (all: seq<Step>)
    requires IsRun(w, steps) && p in After(w, steps).procs && After(w, steps).procs[p].Writing?
    ensures var now, pr := After(w, steps), After(w, steps).procs[p];
            && IsRun(w, all) && After(w, all).procs == now.procs[p := pr.(rest := [])]
            && OnlyFile(now, After(w, all), pr.job.path, Lines(now.disk.files, pr.job.path) + pr.rest)
    decreases |After(w, steps).procs[p].rest|
  {
    var now := After(w, steps);
    var pr := now.procs[p];
    if pr.rest == [] {
      all := steps;
      assert Lines(now.disk.files, pr.job.path) + [] == Lines(now.disk.files, pr.job.path);
    } else {
      Extend(w, steps, WriteBack(p));
      assert Lines(now.disk.files, pr.job.path) + [pr.rest[0]] + pr.rest[1..]
          == Lines(now.disk.files, pr.job.path) + pr.rest;
      all := WritesAllBack(w, steps + [WriteBack(p)], p);
    }
  }

  /** An appender alone writes its lines at the end of the file, and leaves. */
  lemma {:induction false} WritesAllLines(w: World, steps: seq<Step>, p: Pid) returns (all: seq<Step>)
    requires IsRun(w, steps) && p in After(w, steps).procs
    requires After(w, steps).procs[p].Appending? && JobOk(After(w, steps).procs[p])
    ensures var now, pr := After(w, steps), After(w, steps).procs[p];
            && IsRun(w, all) && After(w, all).procs == now.procs[p := pr.(done := |pr.job.lines|)]
            && OnlyFile(now, After(w, all), pr.job.path, Lines(now.disk.files, pr.job.path) + pr.job.lines[pr.done..])
    decreases |After(w, steps).procs[p].job.lines| - After(w, steps).procs[p].done
  {
    var now := After(w, steps);
    var pr := now.procs[p];
    if pr.done == |pr.job.lines| {
      all := steps;
      assert Lines(now.disk.files, pr.job.path) + [] == Lines(now.disk.files, pr.job.path);
    } else {
      Extend(w, steps, WriteLine(p));
      assert Lines(now.disk.files, pr.job.path) + [pr.job.lines[pr.done]] + pr.job.lines[pr.done + 1..]
          == Lines(now.disk.files, pr.job.path) + pr.job.lines[pr.done..];
      all := WritesAllLines(w, steps + [WriteLine(p)], p);
    }
  }

  /** Wherever the locks are in order, a batch of lines appended to a free path, left alone, ends up at the
      end of its file and changes nothing else. */
  lemma AppendAlone(w: World, p: Pid, path: Path, lines: seq<Line>) returns (steps: seq<Step>)
    requires LockInv(w) && HeldOk(w) && p !in w.procs && IsFree(w, path)
    ensures IsRun(w, steps) && After(w, steps).procs == w.procs
    ensures OnlyFile(w, After(w, steps), path, Lines(w.disk.files, path) + lines)
  {
    steps := Enters(w, p, AppendJob(path, lines));
    assert lines[0..] == lines;
    steps := WritesAllLines(w, steps, p);
    steps := Leaves(w, steps, p);
  }

  /** A sweep reads and decides: to rewrite what it keeps, or to leave the file. */
  lemma Decides(w: World, steps: seq<Step>, p: Pid) returns (all: seq<Step>)
    requires IsRun(w, steps) && p in After(w, steps).procs
    requires After(w, steps).procs[p].Reading? && After(w, steps).procs[p].job.PruneJob?
    ensures IsRun(w, all) && p in After(w, all).procs
    ensures var now, end := After(w, steps), After(w, all);
            var job, pr := now.procs[p].job, end.procs[p];
            var content := Lines(now.disk.files, job.path);
            && end.procs == now.procs[p := pr] && pr.job == job
            && if pr.Writing? then OnlyFile(now, end, job.path, []) && pr.rest == PruneResult(content, job.cutoff)
               else
                 && pr.Releasing? && OnlyFile(now, end, job.path, content)
                 && content == PruneResult(content, job.cutoff)
  {
    Extend(w, steps, Read(p));
    all := steps + [Read(p)];
    Extend(w, all, Truncate(p));
    all := all + [Truncate(p)];
  }

  lemma Leaves(w: World, steps: seq<Step>, p: Pid) returns (all: seq<Step>)
    requires IsRun(w, steps) && p in After(w, steps).procs && Done(After(w, steps).procs[p])
    ensures IsRun(w, all) && After(w, all).procs == After(w, steps).procs - {p}
    ensures After(w, all).disk == After(w, steps).disk
  {
    Extend(w, steps, Release(p));
    all := steps + [Release(p)];
  }

  /** Wherever the locks are in order, a sweep of a free path, left alone, leaves exactly the pruned file
      and changes nothing else. */
  lemma SweepAlone(w: World, p: Pid, path: Path, cutoff: int) returns (steps: seq<Step>)
    requires LockInv(w) && HeldOk(w) && p !in w.procs && IsFree(w, path)
    ensures IsRun(w, steps) && After(w, steps).procs == w.procs
    ensures OnlyFile(w, After(w, steps), path, PruneResult(Lines(w.disk.files, path), cutoff))
  {
    steps := Enters(w, p, PruneJob(path, cutoff));
    steps := Decides(w, steps, p);
    if After(w, steps).procs[p].Writing? {
      ghost var rest := After(w, steps).procs[p].rest;
      assert [] + rest == rest;
      steps := WritesAllBack(w, steps, p);
    }
    steps := Leaves(w, steps, p);
  }
}
