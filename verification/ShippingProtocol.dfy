/**
 Log shipping of one agent on one daemon as a state machine: every interleaving of
 appends, failed appends, writer opens and closes, daemon restarts, damaged watermark
 files, reconnects, ships, lost connections, concurrent batch handlers on the control plane
 (each of which may die anywhere), acknowledgements and prunes, under an open writer or not.
 */
module ShippingProtocol {
  import opened Wrappers
  import opened JournalModel

  type StreamId = nat

  /** A shipped batch, and (history) the mark below which everything was stored when it was cut. */
  datatype Batch = Batch(events: seq<Event>, after: nat)

  /** One running `handle_logs`: its batch, how far it got, its local acknowledgement. */
  datatype Handler = Handler(batch: Batch, done: nat, acked: nat)

  /** What the control plane has durably: the log file and the transcript table. */
  datatype Central = Central(log: seq<Event>, chat: map<nat, Event>)

  /** The files, the open writer and whether its file was replaced, the stream an answer is awaited
      on with the largest number sent, and the in-memory prune mark. */
  datatype Daemon = Daemon(journal: seq<Line>, shipped: nat, counter: Option<nat>, detached: bool,
                           waiting: Option<(StreamId, nat)>, lastPruned: nat)

  /** Batches not read yet, and replies sent. */
  datatype Wire = Wire(nextStream: StreamId, sent: map<StreamId, Batch>, replies: map<StreamId, nat>)

  /** Running handlers, the file lock, what is stored, and the acknowledgement row. */
  datatype Server = Server(handlers: map<StreamId, Handler>, lock: Option<StreamId>, central: Central, acked: nat)

  /** History: the events appended to the journal's file, those appended to a replaced file, the
      highest prune so far, and whether the daemon has lost the last number it had issued. */
  datatype Past = Past(issued: seq<Event>, orphaned: seq<Event>, pruned: nat, forgot: bool)

  datatype World = World(daemon: Daemon, wire: Wire, server: Server, past: Past)

  datatype Step =
    | Open | Append(body: string) | AppendFails | Close
    | DaemonRestart
    | WatermarkTorn(value: nat)
    | Ship
    | ConnectionLost
    | Reconnect
    | HandlerReads(s: StreamId)
    | HandlerLocks(s: StreamId)
    | HandlerStores(s: StreamId)
    | HandlerFinishes(s: StreamId)
    | HandlerDies(s: StreamId, halfWritten: bool)
    | AckArrives(suspended: bool, busy: bool)

  predicate Initial(w: World) {
    && Events(w.daemon.journal) == [] && MaxNum(w.daemon.journal) == 0
    && w.daemon == Daemon(w.daemon.journal, 0, None, false, None, 0)
    && w.wire == Wire(0, map[], map[])
    && w.server == Server(map[], None, Central([], map[]), 0)
    && w.past == Past([], [], 0, false)
  }

  predicate AckIsThere(w: World) { w.daemon.waiting.Some? && w.daemon.waiting.value.0 in w.wire.replies }

  /** The largest number the watermark file has held or is about to hold. */
  function WatermarkBound(w: World): nat {
    if AckIsThere(w) && w.wire.replies[w.daemon.waiting.value.0] >= w.daemon.waiting.value.1 then
      Max(w.daemon.shipped, w.wire.replies[w.daemon.waiting.value.0])
    else w.daemon.shipped
  }

  predicate Enabled(w: World, step: Step) {
    match step
    case Open => w.daemon.counter.None?
    case Append(_) => w.daemon.counter.Some?
    case AppendFails => w.daemon.counter.Some?
    case Close => w.daemon.counter.Some?
    case DaemonRestart => true
    case WatermarkTorn(value) => value <= WatermarkBound(w)
    case Ship => w.daemon.waiting.None? && Above(Events(w.daemon.journal), w.daemon.shipped) != []
    case ConnectionLost => w.daemon.waiting.Some?
    case Reconnect => true
    case HandlerReads(s) => s in w.wire.sent
    case HandlerLocks(s) => s in w.server.handlers && w.server.lock.None?
    case HandlerStores(s) => MidBatch(w, s)
    case HandlerFinishes(s) =>
      s in w.server.handlers && w.server.lock == Some(s)
      && w.server.handlers[s].done == |w.server.handlers[s].batch.events|
    case HandlerDies(s, half) => s in w.server.handlers && (half ==> MidBatch(w, s))
    case AckArrives(_, _) => AckIsThere(w)
  }

  predicate MidBatch(w: World, s: StreamId) {
    s in w.server.handlers && w.server.lock == Some(s)
    && w.server.handlers[s].done < |w.server.handlers[s].batch.events|
  }

  /** Storing one event: a duplicate is skipped, otherwise file first, transcript second. */
  function Store(w: World, s: StreamId): World
    requires Enabled(w, HandlerStores(s))
  {
    var h := w.server.handlers[s];
    var e := h.batch.events[h.done];
    w.(server :=
      if e.num <= h.acked then w.server.(handlers := w.server.handlers[s := h.(done := h.done + 1)])
      else
        w.server.(central := Central(w.server.central.log + [e], ChatInsert(w.server.central.chat, e)),
                  handlers := w.server.handlers[s := h.(done := h.done + 1, acked := Max(h.acked, e.num))]))
  }

  /** A handler that dies releases the lock; it may have written a line but not the transcript row. */
  function Die(w: World, s: StreamId, half: bool): World
    requires Enabled(w, HandlerDies(s, half))
  {
    var h, central := w.server.handlers[s], w.server.central;
    w.(server := w.server.(
      handlers := w.server.handlers - {s},
      lock := if w.server.lock == Some(s) then None else w.server.lock,
      central := if half && h.batch.events[h.done].num > h.acked
      then central.(log := central.log + [h.batch.events[h.done]]) else central))
  }

  function ReceiveAck(w: World, suspended: bool, busy: bool): World
    requires Enabled(w, AckArrives(suspended, busy))
  {
    var d, p := w.daemon, w.past;
    var (s, maxNum) := d.waiting.value;
    var a := w.wire.replies[s];
    var (journal, shipped, lastPruned) := AckEffect(d.journal, d.shipped, d.lastPruned, a, maxNum, suspended, busy);
    w.(daemon := Daemon(journal, shipped, d.counter, d.detached || (d.counter.Some? && journal != d.journal),
                        None, lastPruned),
       past := p.(pruned := if Prunes(a, maxNum, suspended, busy, d.lastPruned) then Max(p.pruned, a) else p.pruned))
  }

  /** A successful append: through a detached writer it reaches no file that is read again. */
  function Issue(w: World, body: string): World
    requires Enabled(w, Append(body))
  {
    var d, p := w.daemon, w.past;
    var e := Event(d.counter.value + 1, body);
    if d.detached then w.(daemon := d.(counter := Some(e.num)), past := p.(orphaned := p.orphaned + [e]))
    else
      w.(daemon := d.(counter := Some(e.num), journal := d.journal + [Logged(e)]), past := p.(issued := p.issued + [e]))
  }

  /** The daemon comes back with no writer, nothing awaited and no prune mark. */
  function Restarted(d: Daemon, shipped: nat): Daemon { Daemon(d.journal, shipped, None, false, None, 0) }

  /** The daemon stops, and the watermark file reads back as `value`: it was cut off while being
      written, or lost what was written last. */
  function Tear(w: World, value: nat): World {
    var d, p := w.daemon, w.past;
    w.(daemon := Restarted(d, value), past := p.(forgot := p.forgot || (Events(d.journal) == [] && value != d.shipped)))
  }

  function SendBatch(w: World): World {
    var events := Above(Events(w.daemon.journal), w.daemon.shipped);
    var s, mark := w.wire.nextStream, Max(w.daemon.shipped, w.past.pruned);
    w.(daemon := w.daemon.(waiting := Some((s, LastNum(events)))),
       wire := Wire(s + 1, w.wire.sent[s := Batch(events, mark)], w.wire.replies))
  }

  function StartHandler(w: World, s: StreamId): World
    requires s in w.wire.sent
  {
    w.(wire := w.wire.(sent := w.wire.sent - {s}),
       server := w.server.(handlers := w.server.handlers[s := Handler(w.wire.sent[s], 0, w.server.acked)]))
  }

  function Finish(w: World, s: StreamId): World
    requires s in w.server.handlers
  {
    var acked := w.server.handlers[s].acked;
    w.(wire := w.wire.(replies := w.wire.replies[s := acked]),
       server := Server(w.server.handlers - {s}, None, w.server.central, acked))
  }

  function Apply(w: World, step: Step): World
    requires Enabled(w, step)
  {
    var d := w.daemon;
    match step
    case Open => w.(daemon := d.(counter := Some(ResumePoint(d.journal, d.shipped)), detached := false))
    case Append(body) => Issue(w, body)
    case AppendFails => w.(daemon := d.(counter := Some(d.counter.value + 1)))
    case Close => w.(daemon := d.(counter := None, detached := false))
    case DaemonRestart => w.(daemon := Restarted(d, d.shipped))
    case WatermarkTorn(value) => Tear(w, value)
    case Ship => SendBatch(w)
    case ConnectionLost => w.(daemon := d.(waiting := None))
    case Reconnect => w.(daemon := d.(waiting := None, lastPruned := 0))
    case HandlerReads(s) => StartHandler(w, s)
    case HandlerLocks(s) => w.(server := w.server.(lock := Some(s)))
    case HandlerStores(s) => Store(w, s)
    case HandlerFinishes(s) => Finish(w, s)
    case HandlerDies(s, half) => Die(w, s, half)
    case AckArrives(suspended, busy) => ReceiveAck(w, suspended, busy)
  }

  /** `steps` is a run from `w`: each step is enabled where it is taken. */
  predicate IsRun(w: World, steps: seq<Step>)
    decreases |steps|, 0
  {
    steps == [] || (IsRun(w, steps[..|steps| - 1]) && Enabled(After(w, steps[..|steps| - 1]), steps[|steps| - 1]))
  }

  function After(w: World, steps: seq<Step>): World
    requires IsRun(w, steps)
    decreases |steps|, 1
  {
    if steps == [] then w else Apply(After(w, steps[..|steps| - 1]), steps[|steps| - 1])
  }

  // ---- The invariant ----

  predicate Stored(c: Central, e: Event) { e in c.log && e.num in c.chat && c.chat[e.num] == e }

  /** Every issued event numbered through `mark` is stored centrally. */
  predicate Covered(issued: seq<Event>, c: Central, mark: nat) {
    forall e :: e in issued && e.num <= mark ==> Stored(c, e)
  }

  /** A batch holds every issued event between its mark and its last number. */
  predicate GoodBatch(issued: seq<Event>, c: Central, b: Batch) {
    && b.events != [] && Ascending(b.events) && b.after < LastNum(b.events)
    && (forall e :: e in b.events ==> e in issued)
    && (forall e :: e in issued && b.after < e.num <= LastNum(b.events) ==> e in b.events)
    && Covered(issued, c, b.after)
  }

  /** An acknowledgement value in use: within what was issued, and covered. */
  predicate GoodReply(issued: seq<Event>, c: Central, ack: nat) {
    ack <= LastNum(issued) && Covered(issued, c, ack)
  }

  predicate GoodHandler(issued: seq<Event>, c: Central, h: Handler) {
    && GoodBatch(issued, c, h.batch)
    && h.done <= |h.batch.events|
    && GoodReply(issued, c, h.acked)
    && (forall i :: 0 <= i < h.done ==> h.batch.events[i].num <= h.acked)
  }

  predicate Positive(issued: seq<Event>) { forall e :: e in issued ==> e.num > 0 }

  /** The daemon's files and counter against what was issued. */
  predicate JournalOk(journal: seq<Line>, shipped: nat, counter: Option<nat>, issued: seq<Event>, pruned: nat) {
    && Ascending(issued) && Positive(issued)
    && Events(journal) == Above(issued, pruned)
    && pruned <= LastNum(issued) && shipped <= LastNum(issued)
    && (pruned <= shipped || pruned < LastNum(issued))
    && (counter.Some? ==> counter.value >= LastNum(issued))
  }

  predicate JournalInv(w: World) {
    JournalOk(w.daemon.journal, w.daemon.shipped, w.daemon.counter, w.past.issued, w.past.pruned)
  }

  /** The log and the transcript hold issued events only, each under its own number. */
  predicate OnlyIssued(c: Central, issued: seq<Event>) {
    && (forall e :: e in c.log ==> e in issued)
    && (forall n :: n in c.chat ==> c.chat[n] in issued && c.chat[n].num == n)
  }

  predicate CentralOk(c: Central, acked: nat, issued: seq<Event>, shipped: nat, pruned: nat) {
    OnlyIssued(c, issued) && GoodReply(issued, c, acked) && Covered(issued, c, shipped) && Covered(issued, c, pruned)
  }

  predicate CentralInv(w: World) {
    CentralOk(w.server.central, w.server.acked, w.past.issued, w.daemon.shipped, w.past.pruned)
  }

  predicate AllBatches(issued: seq<Event>, c: Central, sent: map<StreamId, Batch>) {
    forall s :: s in sent ==> GoodBatch(issued, c, sent[s])
  }

  predicate AllHandlers(issued: seq<Event>, c: Central, handlers: map<StreamId, Handler>) {
    forall s :: s in handlers ==> GoodHandler(issued, c, handlers[s])
  }

  predicate AllReplies(issued: seq<Event>, c: Central, replies: map<StreamId, nat>) {
    forall s :: s in replies ==> GoodReply(issued, c, replies[s])
  }

  /** Everything in flight is sound: unread batches, running handlers, replies. */
  predicate WireOk(issued: seq<Event>, c: Central, sent: map<StreamId, Batch>,
                   handlers: map<StreamId, Handler>, replies: map<StreamId, nat>)
  {
    AllBatches(issued, c, sent) && AllHandlers(issued, c, handlers) && AllReplies(issued, c, replies)
  }

  predicate WireInv(w: World) {
    WireOk(w.past.issued, w.server.central, w.wire.sent, w.server.handlers, w.wire.replies)
  }

  /** A stream is at one place at a time. */
  predicate StreamInv(w: World) {
    && (forall s :: s in w.wire.sent ==> s < w.wire.nextStream)
    && (forall s :: s in w.server.handlers ==> s < w.wire.nextStream && s !in w.wire.sent)
    && (forall s :: s in w.wire.replies ==> s < w.wire.nextStream && s !in w.wire.sent && s !in w.server.handlers)
  }

  /** The stream the daemon waits on carries the batch it remembers the maximum of. */
  predicate WaitInv(w: World) {
    w.daemon.waiting.Some? ==>
      var (s, maxNum) := w.daemon.waiting.value;
      && s < w.wire.nextStream && maxNum > w.daemon.shipped
      && (s in w.wire.sent ==> LastNum(w.wire.sent[s].events) == maxNum)
      && (s in w.server.handlers ==> LastNum(w.server.handlers[s].batch.events) == maxNum)
      && (s in w.wire.replies ==> w.wire.replies[s] >= maxNum)
  }

  /** The events waited for are still in the journal's file. */
  predicate PendingInv(w: World) {
    w.daemon.waiting.Some? ==> w.past.pruned < w.daemon.waiting.value.1 <= LastNum(w.past.issued)
  }

  /** What is written where. */
  predicate ContentInv(w: World) { JournalInv(w) && CentralInv(w) && WireInv(w) }

  /** Which stream is where. */
  predicate RoutingInv(w: World) { StreamInv(w) && WaitInv(w) }

  predicate Inv(w: World) { ContentInv(w) && RoutingInv(w) && PendingInv(w) }

  /** More stored events never uncover anything. */
  ghost predicate Extends(c: Central, c': Central) { forall e :: Stored(c, e) ==> Stored(c', e) }

  lemma CoveredPersists(issued: seq<Event>, c: Central, c': Central, mark: nat)
    requires Extends(c, c') && Covered(issued, c, mark)
    ensures Covered(issued, c', mark)
  {
    forall e | e in issued && e.num <= mark ensures Stored(c', e) { assert Stored(c, e); }
  }

  lemma WirePersists(w: World, c': Central)
    requires WireInv(w) && Extends(w.server.central, c')
    ensures WireOk(w.past.issued, c', w.wire.sent, w.server.handlers, w.wire.replies)
  {
    forall s | s in w.wire.sent ensures GoodBatch(w.past.issued, c', w.wire.sent[s]) {
      CoveredPersists(w.past.issued, w.server.central, c', w.wire.sent[s].after);
    }
    forall s | s in w.server.handlers ensures GoodHandler(w.past.issued, c', w.server.handlers[s]) {
      CoveredPersists(w.past.issued, w.server.central, c', w.server.handlers[s].batch.after);
      CoveredPersists(w.past.issued, w.server.central, c', w.server.handlers[s].acked);
    }
    forall s | s in w.wire.replies ensures Covered(w.past.issued, c', w.wire.replies[s]) {
      CoveredPersists(w.past.issued, w.server.central, c', w.wire.replies[s]);
    }
  }

  /** A newly issued event lies above every mark in use, so it disturbs none of them. */
  lemma IssuePreservesCovered(issued: seq<Event>, c: Central, e: Event, mark: nat)
    requires Covered(issued, c, mark) && mark < e.num
    ensures Covered(issued + [e], c, mark)
  {
  }

  lemma IssuePreservesBatch(issued: seq<Event>, c: Central, e: Event, b: Batch)
    requires Ascending(issued) && GoodBatch(issued, c, b) && LastNum(issued) < e.num
    ensures GoodBatch(issued + [e], c, b)
  {
    LastIsLargest(issued);
    assert b.events[|b.events| - 1] in issued;
    IssuePreservesCovered(issued, c, e, b.after);
  }

  lemma LastIsLargest(events: seq<Event>)
    requires Ascending(events)
    ensures forall e :: e in events ==> e.num <= LastNum(events)
  {
  }

  /** A reopened journal resumes exactly at the last number persisted, even when pruned empty. */
  lemma ResumesAtLast(w: World)
    requires JournalInv(w)
    ensures ResumePoint(w.daemon.journal, w.daemon.shipped) == LastNum(w.past.issued)
  {
    AboveAscending(w.past.issued, w.past.pruned);
    MaxNumIsLast(w.daemon.journal);
  }

  lemma AppendKeepsWire(w: World, e: Event)
    requires WireInv(w) && Ascending(w.past.issued) && LastNum(w.past.issued) < e.num
    ensures WireOk(w.past.issued + [e], w.server.central, w.wire.sent, w.server.handlers, w.wire.replies)
  {
    var issued' := w.past.issued + [e];
    forall s | s in w.wire.sent ensures GoodBatch(issued', w.server.central, w.wire.sent[s]) {
      IssuePreservesBatch(w.past.issued, w.server.central, e, w.wire.sent[s]);
    }
    forall s | s in w.server.handlers ensures GoodHandler(issued', w.server.central, w.server.handlers[s]) {
      IssuePreservesBatch(w.past.issued, w.server.central, e, w.server.handlers[s].batch);
      IssuePreservesCovered(w.past.issued, w.server.central, e, w.server.handlers[s].acked);
    }
    forall s | s in w.wire.replies ensures Covered(issued', w.server.central, w.wire.replies[s]) {
      IssuePreservesCovered(w.past.issued, w.server.central, e, w.wire.replies[s]);
    }
  }

  lemma AppendKeepsJournal(w: World, e: Event)
    requires JournalInv(w) && LastNum(w.past.issued) < e.num
    ensures JournalOk(w.daemon.journal + [Logged(e)], w.daemon.shipped, Some(e.num), w.past.issued + [e], w.past.pruned)
  {
    OneMoreEvent(w.daemon.journal, w.past.issued, e, w.past.pruned);
    LastIsLargest(w.past.issued);
    AscendingGrows(w.past.issued, e);
  }

  lemma OneMoreEvent(journal: seq<Line>, issued: seq<Event>, e: Event, mark: nat)
    ensures Events(journal + [Logged(e)]) == Events(journal) + [e]
    ensures e.num > mark ==> Above(issued + [e], mark) == Above(issued, mark) + [e]
  {
    assert (issued + [e])[..|issued|] == issued && (journal + [Logged(e)])[..|journal|] == journal;
  }

  lemma AppendKeepsCentral(w: World, e: Event)
    requires CentralInv(w) && w.daemon.shipped <= LastNum(w.past.issued) < e.num && w.past.pruned < e.num
    ensures CentralOk(w.server.central, w.server.acked, w.past.issued + [e], w.daemon.shipped, w.past.pruned)
  {
    IssuePreservesCovered(w.past.issued, w.server.central, e, w.server.acked);
    IssuePreservesCovered(w.past.issued, w.server.central, e, w.daemon.shipped);
    IssuePreservesCovered(w.past.issued, w.server.central, e, w.past.pruned);
  }

  lemma ShippedBatchIsGood(w: World)
    requires JournalInv(w) && CentralInv(w) && Enabled(w, Ship)
    ensures var events := Above(Events(w.daemon.journal), w.daemon.shipped);
            && GoodBatch(w.past.issued, w.server.central, Batch(events, Max(w.daemon.shipped, w.past.pruned)))
            && LastNum(events) <= LastNum(w.past.issued)
  {
    var mark := Max(w.daemon.shipped, w.past.pruned);
    var events := Above(w.past.issued, mark);
    assert Above(Events(w.daemon.journal), w.daemon.shipped) == events by {
      AboveTwice(w.past.issued, w.past.pruned, w.daemon.shipped);
    }
    assert Ascending(events) by { AboveAscending(w.past.issued, mark); }
    AboveMembers(w.past.issued, mark);
    LastIsLargest(w.past.issued);
    assert events[|events| - 1] in events;
  }

  /** Writing a handler's next event covers everything issued up to it. */
  lemma StoreCovers(w: World, h: Handler)
    requires JournalInv(w) && CentralInv(w) && GoodHandler(w.past.issued, w.server.central, h)
    requires h.done < |h.batch.events| && h.batch.events[h.done].num > h.acked
    ensures var e := h.batch.events[h.done];
            var c' := Central(w.server.central.log + [e], ChatInsert(w.server.central.chat, e));
            e in w.past.issued && Extends(w.server.central, c') && Covered(w.past.issued, c', e.num)
  {
    var e := h.batch.events[h.done];
    var c' := Central(w.server.central.log + [e], ChatInsert(w.server.central.chat, e));
    assert e in h.batch.events && e in w.past.issued;
    assert e.num in w.server.central.chat ==> w.server.central.chat[e.num] == e by { SameNumSameEvent(w); }
    forall d | d in w.past.issued && d.num <= e.num ensures Stored(c', d) {
      BelowNextIsStored(w, h, d);
    }
  }

  lemma StoreKeepsHandler(w: World, h: Handler)
    requires JournalInv(w) && CentralInv(w) && GoodHandler(w.past.issued, w.server.central, h)
    requires h.done < |h.batch.events| && h.batch.events[h.done].num > h.acked
    ensures var e := h.batch.events[h.done];
            var c' := Central(w.server.central.log + [e], ChatInsert(w.server.central.chat, e));
            GoodHandler(w.past.issued, c', h.(done := h.done + 1, acked := Max(h.acked, e.num)))
  {
    StoreCovers(w, h);
    var e := h.batch.events[h.done];
    var c' := Central(w.server.central.log + [e], ChatInsert(w.server.central.chat, e));
    CoveredPersists(w.past.issued, w.server.central, c', h.batch.after);
    LastIsLargest(w.past.issued);
  }

  lemma StoreKeepsCentral(w: World, h: Handler)
    requires JournalInv(w) && CentralInv(w) && GoodHandler(w.past.issued, w.server.central, h)
    requires h.done < |h.batch.events| && h.batch.events[h.done].num > h.acked
    ensures var e := h.batch.events[h.done];
            var c' := Central(w.server.central.log + [e], ChatInsert(w.server.central.chat, e));
            CentralOk(c', w.server.acked, w.past.issued, w.daemon.shipped, w.past.pruned)
  {
    var e := h.batch.events[h.done];
    var c' := Central(w.server.central.log + [e], ChatInsert(w.server.central.chat, e));
    StoreCovers(w, h);
    CoveredPersists(w.past.issued, w.server.central, c', w.server.acked);
    CoveredPersists(w.past.issued, w.server.central, c', w.daemon.shipped);
    CoveredPersists(w.past.issued, w.server.central, c', w.past.pruned);
  }

  lemma SkipKeepsContent(w: World, s: StreamId)
    requires Enabled(w, HandlerStores(s))
    requires w.server.handlers[s].batch.events[w.server.handlers[s].done].num <= w.server.handlers[s].acked
    requires ContentInv(w)
    ensures ContentInv(Store(w, s))
  {
    SkipKeepsHandler(w.past.issued, w.server.central, w.server.handlers[s]);
    PutHandler(w.past.issued, w.server.central, w.server.handlers, s, Store(w, s).server.handlers[s]);
  }

  lemma StoreKeepsContent(w: World, s: StreamId)
    requires Enabled(w, HandlerStores(s))
    requires w.server.handlers[s].batch.events[w.server.handlers[s].done].num > w.server.handlers[s].acked
    requires ContentInv(w)
    ensures ContentInv(Store(w, s))
  {
    var w' := Store(w, s);
    assert Extends(w.server.central, w'.server.central) by { StoreCovers(w, w.server.handlers[s]); }
    StoreKeepsCentral(w, w.server.handlers[s]);
    StoreKeepsHandler(w, w.server.handlers[s]);
    WirePersists(w, w'.server.central);
    PutHandler(w.past.issued, w'.server.central, w.server.handlers, s, w'.server.handlers[s]);
  }

  lemma SkipKeepsHandler(issued: seq<Event>, c: Central, h: Handler)
    requires GoodHandler(issued, c, h) && h.done < |h.batch.events| && h.batch.events[h.done].num <= h.acked
    ensures GoodHandler(issued, c, h.(done := h.done + 1))
  {
  }

  lemma PutHandler(issued: seq<Event>, c: Central, handlers: map<StreamId, Handler>, s: StreamId, h: Handler)
    requires AllHandlers(issued, c, handlers) && GoodHandler(issued, c, h)
    ensures AllHandlers(issued, c, handlers[s := h])
  {
  }

  lemma SameNumSameEvent(w: World)
    requires JournalInv(w)
    ensures forall d, e :: d in w.past.issued && e in w.past.issued && d.num == e.num ==> d == e
  {
  }

  /** Issued events at or below a handler's next event are stored already, or are that event. */
  lemma BelowNextIsStored(w: World, h: Handler, d: Event)
    requires JournalInv(w) && GoodHandler(w.past.issued, w.server.central, h) && h.done < |h.batch.events|
    requires d in w.past.issued && d.num <= h.batch.events[h.done].num
    ensures Stored(w.server.central, d) || d == h.batch.events[h.done]
  {
    if d.num > h.acked && d.num > h.batch.after {
      assert h.batch.events[h.done].num <= LastNum(h.batch.events);
      var i :| 0 <= i < |h.batch.events| && h.batch.events[i] == d;
    }
  }

  lemma DieKeepsContent(w: World, s: StreamId, half: bool)
    requires Enabled(w, HandlerDies(s, half)) && ContentInv(w)
    ensures ContentInv(Die(w, s, half))
  {
    var h := w.server.handlers[s];
    var c' := Die(w, s, half).server.central;
    if half { assert h.batch.events[h.done] in h.batch.events; }
    assert Extends(w.server.central, c');
    WirePersists(w, c');
    CoveredPersists(w.past.issued, w.server.central, c', w.server.acked);
    CoveredPersists(w.past.issued, w.server.central, c', w.daemon.shipped);
    CoveredPersists(w.past.issued, w.server.central, c', w.past.pruned);
  }

  lemma AckKeepsContent(w: World, suspended: bool, busy: bool)
    requires Enabled(w, AckArrives(suspended, busy)) && ContentInv(w) && WaitInv(w)
    ensures ContentInv(ReceiveAck(w, suspended, busy))
  {
    var a := w.wire.replies[w.daemon.waiting.value.0];
    PruneIsFilter(w.daemon.journal, a);
    AboveTwice(w.past.issued, w.past.pruned, a);
  }

  /** A watermark that reads back smaller says less, but nothing untrue, as long as an event is
      left in the journal's file. */
  lemma TearKeepsContent(w: World, value: nat)
    requires Enabled(w, WatermarkTorn(value)) && ContentInv(w) && !Tear(w, value).past.forgot
    ensures ContentInv(Tear(w, value))
  {
    if Events(w.daemon.journal) != [] {
      AboveMembers(w.past.issued, w.past.pruned);
      assert Events(w.daemon.journal)[0] in w.past.issued && Events(w.daemon.journal)[0].num > w.past.pruned;
      LastIsLargest(w.past.issued);
    }
  }

  lemma OpenKeepsContent(w: World)
    requires Enabled(w, Open) && ContentInv(w)
    ensures ContentInv(Apply(w, Open))
  {
    ResumesAtLast(w);
  }

  lemma IssueKeepsContent(w: World, body: string)
    requires Enabled(w, Append(body)) && ContentInv(w)
    ensures ContentInv(Issue(w, body))
  {
    var e := Event(w.daemon.counter.value + 1, body);
    if !w.daemon.detached {
      AppendKeepsJournal(w, e);
      AppendKeepsCentral(w, e);
      AppendKeepsWire(w, e);
    }
  }

  lemma ReadKeepsContent(w: World, s: StreamId)
    requires Enabled(w, HandlerReads(s)) && ContentInv(w)
    ensures ContentInv(Apply(w, HandlerReads(s)))
  {
    var h := Handler(w.wire.sent[s], 0, w.server.acked);
    assert GoodHandler(w.past.issued, w.server.central, h);
    PutHandler(w.past.issued, w.server.central, w.server.handlers, s, h);
  }

  lemma FinishedHandler(issued: seq<Event>, c: Central, h: Handler)
    requires GoodHandler(issued, c, h) && h.done == |h.batch.events|
    ensures GoodReply(issued, c, h.acked) && LastNum(h.batch.events) <= h.acked
  {
  }

  lemma FinishKeepsContent(w: World, s: StreamId)
    requires Enabled(w, HandlerFinishes(s)) && ContentInv(w)
    ensures ContentInv(Apply(w, HandlerFinishes(s)))
    ensures LastNum(w.server.handlers[s].batch.events) <= w.server.handlers[s].acked
  {
    FinishedHandler(w.past.issued, w.server.central, w.server.handlers[s]);
    PutReply(w.past.issued, w.server.central, w.wire.replies, s, w.server.handlers[s].acked);
  }

  lemma PutReply(issued: seq<Event>, c: Central, replies: map<StreamId, nat>, s: StreamId, ack: nat)
    requires AllReplies(issued, c, replies) && GoodReply(issued, c, ack)
    ensures AllReplies(issued, c, replies[s := ack])
  {
  }

  lemma ShipKeepsContent(w: World)
    requires Enabled(w, Ship) && ContentInv(w)
    ensures ContentInv(Apply(w, Ship))
    ensures var last := LastNum(Above(Events(w.daemon.journal), w.daemon.shipped));
            Max(w.daemon.shipped, w.past.pruned) < last <= LastNum(w.past.issued)
  {
    var b := Batch(Above(Events(w.daemon.journal), w.daemon.shipped), Max(w.daemon.shipped, w.past.pruned));
    ShippedBatchIsGood(w);
    PutBatch(w.past.issued, w.server.central, w.wire.sent, w.wire.nextStream, b);
  }

  lemma PutBatch(issued: seq<Event>, c: Central, sent: map<StreamId, Batch>, s: StreamId, b: Batch)
    requires AllBatches(issued, c, sent) && GoodBatch(issued, c, b)
    ensures AllBatches(issued, c, sent[s := b]) && b.after < LastNum(b.events)
  {
  }

  lemma StepKeepsContent(w: World, step: Step)
    requires Enabled(w, step) && Inv(w) && !Apply(w, step).past.forgot
    ensures ContentInv(Apply(w, step))
  {
    match step
    case Open => OpenKeepsContent(w);
    case Append(body) => IssueKeepsContent(w, body);
    case WatermarkTorn(value) => TearKeepsContent(w, value);
    case Ship => ShipKeepsContent(w);
    case HandlerReads(s) => ReadKeepsContent(w, s);
    case HandlerStores(s) => BatchKeepsContent(w, s);
    case HandlerFinishes(s) => FinishKeepsContent(w, s);
    case HandlerDies(s, half) => DieKeepsContent(w, s, half);
    case AckArrives(suspended, busy) => AckKeepsContent(w, suspended, busy);
    case _ =>
  }

  lemma BatchKeepsContent(w: World, s: StreamId)
    requires Enabled(w, HandlerStores(s)) && ContentInv(w)
    ensures ContentInv(Store(w, s))
  {
    if w.server.handlers[s].batch.events[w.server.handlers[s].done].num <= w.server.handlers[s].acked {
      SkipKeepsContent(w, s);
    } else {
      StoreKeepsContent(w, s);
    }
  }

  lemma StepKeepsStreams(w: World, step: Step)
    requires Enabled(w, step) && StreamInv(w)
    ensures StreamInv(Apply(w, step))
  {
  }

  lemma StepKeepsWait(w: World, step: Step)
    requires Enabled(w, step) && StreamInv(w) && WaitInv(w)
    requires step.Ship? ==> LastNum(Above(Events(w.daemon.journal), w.daemon.shipped)) > w.daemon.shipped
    requires step.HandlerFinishes? ==>
               LastNum(w.server.handlers[step.s].batch.events) <= w.server.handlers[step.s].acked
    ensures WaitInv(Apply(w, step))
  {
  }

  lemma StepKeepsPending(w: World, step: Step)
    requires Enabled(w, step) && JournalInv(w) && PendingInv(w)
    requires step.Ship? ==>
               w.past.pruned < LastNum(Above(Events(w.daemon.journal), w.daemon.shipped)) <= LastNum(w.past.issued)
    ensures PendingInv(Apply(w, step))
  {
  }

  lemma StepKeepsInv(w: World, step: Step)
    requires Enabled(w, step) && Inv(w) && !Apply(w, step).past.forgot
    ensures Inv(Apply(w, step))
  {
    StepKeepsContent(w, step);
    if step.Ship? { ShipKeepsContent(w); }
    if step.HandlerFinishes? { FinishKeepsContent(w, step.s); }
    StepKeepsStreams(w, step);
    StepKeepsWait(w, step);
    StepKeepsPending(w, step);
  }

  lemma ForgetsForGood(w: World, step: Step)
    requires Enabled(w, step)
    ensures w.past.forgot ==> Apply(w, step).past.forgot
  {
  }

  lemma {:induction false} RunKeepsInv(w: World, steps: seq<Step>)
    requires Initial(w) && IsRun(w, steps) && !After(w, steps).past.forgot
    ensures Inv(After(w, steps))
  {
    if steps != [] {
      var before, step := After(w, steps[..|steps| - 1]), steps[|steps| - 1];
      ForgetsForGood(before, step);
      RunKeepsInv(w, steps[..|steps| - 1]);
      StepKeepsInv(before, step);
    }
  }

  // ---- The theorems ----

  /** In the journal's file or stored centrally, file and transcript. */
  predicate Survives(w: World, e: Event) { Logged(e) in w.daemon.journal || Stored(w.server.central, e) }

  /** No event is lost: in every run exactly the events that were appended to the journal's file
      survive, and everything at or below the watermark is stored centrally. Only a watermark
      damaged while no event is left in the file (`forgot`) is excluded. */
  lemma NoEventLost(w: World, steps: seq<Step>)
    requires Initial(w) && IsRun(w, steps) && !After(w, steps).past.forgot
    ensures var now := After(w, steps);
            && (forall e :: Survives(now, e) <==> e in now.past.issued)
            && (forall e :: e in now.past.issued && e.num <= now.daemon.shipped ==> Stored(now.server.central, e))
  {
    RunKeepsInv(w, steps);
    var now := After(w, steps);
    AboveMembers(now.past.issued, now.past.pruned);
    EventsAreLines(now.daemon.journal);
  }

  lemma {:induction false} EventsAreLines(lines: seq<Line>)
    ensures forall e :: e in Events(lines) <==> Logged(e) in lines
  {
    if lines != [] {
      var init, last := lines[..|lines| - 1], lines[|lines| - 1];
      EventsAreLines(init);
      assert lines == init + [last];
    }
  }

  /** `ok` holds of every step where it is taken. */
  ghost predicate Throughout(w: World, steps: seq<Step>, ok: (World, Step) -> bool)
    requires IsRun(w, steps)
  {
    steps == [] || (Throughout(w, steps[..|steps| - 1], ok) && ok(After(w, steps[..|steps| - 1]), steps[|steps| - 1]))
  }

  /** The supervisor knows about the open writer when an acknowledgement asks. */
  predicate Guarded(w: World, step: Step) {
    step.AckArrives? && w.daemon.counter.Some? ==> step.busy || !step.suspended
  }

  lemma GuardedStep(w: World, step: Step)
    requires Enabled(w, step) && Guarded(w, step) && !w.daemon.detached
    ensures !Apply(w, step).daemon.detached && Apply(w, step).past.orphaned == w.past.orphaned
  {
  }

  /** Every append reaches the journal's file if the prune guard always sees the open writer. */
  lemma {:induction false} GuardKeepsWriters(w: World, steps: seq<Step>)
    requires Initial(w) && IsRun(w, steps) && Throughout(w, steps, Guarded)
    ensures var now := After(w, steps); !now.daemon.detached && now.past.orphaned == []
  {
    if steps != [] {
      GuardKeepsWriters(w, steps[..|steps| - 1]);
      GuardedStep(After(w, steps[..|steps| - 1]), steps[|steps| - 1]);
    }
  }

  /** Sequence numbers never rewind: the numbers of persisted events strictly increase over the
      whole run, and reopening at any point resumes at the last of them. */
  lemma NumbersNeverRewind(w: World, steps: seq<Step>)
    requires Initial(w) && IsRun(w, steps) && !After(w, steps).past.forgot
    ensures var now := After(w, steps);
            && Ascending(now.past.issued)
            && (now.daemon.counter.None? ==> Apply(now, Open).daemon.counter == Some(LastNum(now.past.issued)))
            && (now.daemon.counter.Some? ==> now.daemon.counter.value >= LastNum(now.past.issued))
  {
    RunKeepsInv(w, steps);
    ResumesAtLast(After(w, steps));
  }

  /** A damaged watermark rewinds the counter exactly when no event is left in the journal's file
      and the watermark reads back as anything but what it was. */
  lemma RewindsExactlyWhen(w: World, steps: seq<Step>, value: nat)
    requires Initial(w) && IsRun(w, steps) && !After(w, steps).past.forgot
    requires Enabled(After(w, steps), WatermarkTorn(value))
    ensures var now := After(w, steps);
            Apply(Tear(now, value), Open).daemon.counter == Some(LastNum(now.past.issued))
            <==> Events(now.daemon.journal) != [] || value == now.daemon.shipped
  {
    RunKeepsInv(w, steps);
    var now := After(w, steps);
    if Events(now.daemon.journal) != [] || value == now.daemon.shipped {
      TearKeepsContent(now, value);
      ResumesAtLast(Tear(now, value));
    } else {
      MaxNumIsLast(now.daemon.journal);
      NothingLeftMeansShipped(now);
    }
  }

  lemma NothingLeftMeansShipped(w: World)
    requires Inv(w) && Events(w.daemon.journal) == []
    ensures w.daemon.shipped == LastNum(w.past.issued) && WatermarkBound(w) == w.daemon.shipped
  {
    if w.past.pruned < LastNum(w.past.issued) { SomethingIsLeft(w); }
  }

  lemma SomethingIsLeft(w: World)
    requires JournalInv(w) && w.past.pruned < LastNum(w.past.issued)
    ensures Events(w.daemon.journal) != []
  {
    AboveMembers(w.past.issued, w.past.pruned);
    assert w.past.issued[|w.past.issued| - 1] in w.past.issued;
  }

  /** A watermark cut off while an acknowledgement is being written, whatever value up to it reads
      back, rewinds nothing: the events it acknowledges are still in the journal's file. */
  lemma TornAckIsHarmless(w: World, steps: seq<Step>, value: nat)
    requires Initial(w) && IsRun(w, steps) && !After(w, steps).past.forgot
    requires var now := After(w, steps);
             AckIsThere(now) && value <= now.wire.replies[now.daemon.waiting.value.0]
    ensures Enabled(After(w, steps), WatermarkTorn(value)) && !Tear(After(w, steps), value).past.forgot
  {
    RunKeepsInv(w, steps);
    SomethingIsLeft(After(w, steps));
  }

  /** Every acknowledgement that arrives covers its batch, so the watermark strictly advances. */
  lemma AckAdvancesWatermark(w: World, steps: seq<Step>, suspended: bool, busy: bool)
    requires Initial(w) && IsRun(w, steps) && !After(w, steps).past.forgot
    requires Enabled(After(w, steps), AckArrives(suspended, busy))
    ensures var now := After(w, steps);
            now.daemon.shipped < ReceiveAck(now, suspended, busy).daemon.shipped <= LastNum(now.past.issued)
  {
    RunKeepsInv(w, steps);
  }

  /** The central log and transcript never hold anything that was not appended. */
  lemma NothingInvented(w: World, steps: seq<Step>)
    requires Initial(w) && IsRun(w, steps) && !After(w, steps).past.forgot
    ensures var now := After(w, steps);
            && (forall e :: e in now.server.central.log ==> e in now.past.issued)
            && (forall n :: n in now.server.central.chat ==>
                  now.server.central.chat[n] in now.past.issued && now.server.central.chat[n].num == n)
  {
    RunKeepsInv(w, steps);
  }
}
