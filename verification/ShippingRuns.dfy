/**
 Particular runs of log shipping: the batch loop step by step, the undisturbed round that ships
 everything, and the runs that keep the central log free of repeats.
 */
module ShippingRuns {
  import opened Wrappers
  import opened JournalModel
  import opened ShippingProtocol

  // ---- Putting runs together ----

  lemma ExtendRun(w: World, a: seq<Step>, step: Step)
    requires IsRun(w, a) && Enabled(After(w, a), step)
    ensures IsRun(w, a + [step]) && After(w, a + [step]) == Apply(After(w, a), step)
  {
    assert (a + [step])[..|a|] == a;
  }

  predicate Leads(w: World, step: Step, w': World) { Enabled(w, step) && Apply(w, step) == w' }

  predicate Goes(w: World, steps: seq<Step>, w': World) { IsRun(w, steps) && After(w, steps) == w' }

  lemma Then(w: World, steps: seq<Step>, mid: World, step: Step, w': World)
    requires Goes(w, steps, mid) && Leads(mid, step, w')
    ensures Goes(w, steps + [step], w')
  {
    ExtendRun(w, steps, step);
  }

  // ---- The handler loop, and an undisturbed round ----

  function Repeat(step: Step, n: nat): seq<Step> {
    if n == 0 then [] else Repeat(step, n - 1) + [step]
  }

  /** A handler, and what is stored, after the first `n` events of its batch in one go. */
  function HandlerAt(h: Handler, n: nat): Handler
    requires n <= |h.batch.events|
  {
    h.(done := n, acked := AckAfter(h.acked, h.batch.events[..n]))
  }

  function CentralAt(c: Central, h: Handler, n: nat): Central
    requires n <= |h.batch.events|
  {
    var written := Written(h.acked, h.batch.events[..n]);
    Central(c.log + written, ChatInsertAll(c.chat, written))
  }

  function StoredFirst(w: World, s: StreamId, n: nat): World
    requires s in w.server.handlers && n <= |w.server.handlers[s].batch.events|
  {
    var h := w.server.handlers[s];
    w.(server := w.server.(central := CentralAt(w.server.central, h, n),
                           handlers := w.server.handlers[s := HandlerAt(h, n)]))
  }

  lemma LogAssoc(log: seq<Event>, written: seq<Event>, e: Event)
    ensures log + written + [e] == log + (written + [e])
  {
  }

  lemma PutAgain(handlers: map<StreamId, Handler>, s: StreamId, first: Handler, second: Handler)
    ensures handlers[s := first][s := second] == handlers[s := second]
  {
  }

  lemma StoreNext(w: World, s: StreamId, n: nat)
    requires s in w.server.handlers && w.server.lock == Some(s)
    requires w.server.handlers[s].done == 0 && n < |w.server.handlers[s].batch.events|
    ensures Leads(StoredFirst(w, s, n), HandlerStores(s), StoredFirst(w, s, n + 1))
  {
    StoreNextServer(w, s, n);
    assert Enabled(StoredFirst(w, s, n), HandlerStores(s));
  }

  lemma StoreNextServer(w: World, s: StreamId, n: nat)
    requires s in w.server.handlers && w.server.lock == Some(s)
    requires w.server.handlers[s].done == 0 && n < |w.server.handlers[s].batch.events|
    ensures MidBatch(StoredFirst(w, s, n), s)
    ensures Store(StoredFirst(w, s, n), s) == StoredFirst(w, s, n + 1)
  {
    var h := w.server.handlers[s];
    OneMoreAt(w.server.central, h, n);
    PutAgain(w.server.handlers, s, HandlerAt(h, n), HandlerAt(h, n + 1));
  }

  lemma OneMoreAt(c: Central, h: Handler, n: nat)
    requires n < |h.batch.events|
    ensures var e, at, stored := h.batch.events[n], HandlerAt(h, n), CentralAt(c, h, n);
            if e.num <= at.acked then CentralAt(c, h, n + 1) == stored && HandlerAt(h, n + 1) == at.(done := n + 1)
            else
              && CentralAt(c, h, n + 1) == Central(stored.log + [e], ChatInsert(stored.chat, e))
              && HandlerAt(h, n + 1) == at.(done := n + 1, acked := Max(at.acked, e.num))
  {
    StoreOneMore(h.acked, h.batch.events, n, c.chat);
    LogAssoc(c.log, Written(h.acked, h.batch.events[..n]), h.batch.events[n]);
  }

  lemma StoredNone(w: World, s: StreamId)
    requires s in w.server.handlers && w.server.handlers[s].done == 0
    ensures StoredFirst(w, s, 0) == w
  {
    assert w.server.handlers[s := w.server.handlers[s]] == w.server.handlers;
    assert w.server.central.log + [] == w.server.central.log;
  }

  /** A handler that is left alone does, event by event, what one call of the batch loop does. */
  lemma {:induction false} StoresAreTheBatchLoop(w: World, s: StreamId, n: nat)
    requires s in w.server.handlers && w.server.lock == Some(s)
    requires w.server.handlers[s].done == 0 && n <= |w.server.handlers[s].batch.events|
    ensures Goes(w, Repeat(HandlerStores(s), n), StoredFirst(w, s, n))
  {
    if n == 0 {
      StoredNone(w, s);
    } else {
      StoresAreTheBatchLoop(w, s, n - 1);
      StoreNext(w, s, n - 1);
      Then(w, Repeat(HandlerStores(s), n - 1), StoredFirst(w, s, n - 1), HandlerStores(s), StoredFirst(w, s, n));
    }
  }

  lemma {:induction false} RunsConcatenate(w: World, a: seq<Step>, b: seq<Step>)
    requires IsRun(w, a) && IsRun(After(w, a), b)
    ensures IsRun(w, a + b) && After(w, a + b) == After(After(w, a), b)
    decreases |b|
  {
    if b == [] {
      assert a + b == a;
    } else {
      var init, step := b[..|b| - 1], b[|b| - 1];
      RunsConcatenate(w, a, init);
      ExtendRun(w, a + init, step);
      LastOfConcat(a, b);
    }
  }

  lemma LastOfConcat(a: seq<Step>, b: seq<Step>)
    requires b != []
    ensures a + b == (a + b[..|b| - 1]) + [b[|b| - 1]]
  {
  }

  lemma ThenRun(w: World, a: seq<Step>, mid: World, b: seq<Step>, w': World)
    requires Goes(w, a, mid) && Goes(mid, b, w')
    ensures Goes(w, a + b, w')
  {
    RunsConcatenate(w, a, b);
  }

  lemma RunOne(w: World, step: Step)
    requires Enabled(w, step)
    ensures IsRun(w, [step]) && After(w, [step]) == Apply(w, step)
  {
    assert [step][..0] == [];
    assert IsRun(w, []);
  }

  /** Ship, read, lock, store all, finish, receive the acknowledgement. */
  function Round(w: World, suspended: bool, busy: bool): seq<Step> {
    var s := w.wire.nextStream;
    [Ship] + ([HandlerReads(s)] + ([HandlerLocks(s)]
    + (Repeat(HandlerStores(s), |Above(Events(w.daemon.journal), w.daemon.shipped)|)
    + ([HandlerFinishes(s)] + [AckArrives(suspended, busy)]))))
  }

  /** From any reachable state with the file lock free, one undisturbed round ships everything
      issued so far: the watermark reaches the last number and every event is stored centrally. */
  lemma RoundShipsEverything(w: World, steps: seq<Step>, suspended: bool, busy: bool)
    requires Initial(w) && IsRun(w, steps) && !After(w, steps).past.forgot
    requires Enabled(After(w, steps), Ship) && After(w, steps).server.lock == None
    ensures var now := After(w, steps);
            && IsRun(now, Round(now, suspended, busy))
            && After(now, Round(now, suspended, busy)).daemon.shipped == LastNum(now.past.issued)
            && forall e :: e in now.past.issued ==> Stored(After(now, Round(now, suspended, busy)).server.central, e)
  {
    RunKeepsInv(w, steps);
    var w0 := After(w, steps);
    var round := Round(w0, suspended, busy);
    UndisturbedRound(w0, suspended, busy);
    RunsConcatenate(w, steps, round);
    RunKeepsInv(w, steps + round);
    AllCovered(After(w0, round));
  }

  /** The journal after an acknowledgement of everything: pruned only if the agent is suspended and
      its journal not in use, and not if that was pruned before. */
  function JournalLeft(d: Daemon, ack: nat, suspended: bool, busy: bool): seq<Line> {
    if suspended && !busy && d.lastPruned < ack then Pruned(d.journal, ack) else d.journal
  }

  lemma {:induction false} PruneMarkIsReal(w: World, steps: seq<Step>)
    requires Initial(w) && IsRun(w, steps)
    ensures After(w, steps).daemon.lastPruned <= After(w, steps).past.pruned
  {
    if steps != [] { PruneMarkIsReal(w, steps[..|steps| - 1]); }
  }

  /** An undisturbed round on a suspended agent whose journal is not in use leaves no event in the
      journal; on any other agent it leaves the journal alone. */
  lemma RoundPrunesSuspended(w: World, steps: seq<Step>, suspended: bool, busy: bool)
    requires Initial(w) && IsRun(w, steps) && !After(w, steps).past.forgot
    requires Enabled(After(w, steps), Ship) && After(w, steps).server.lock == None
    ensures var now := After(w, steps);
            && IsRun(now, Round(now, suspended, busy))
            && var left := After(now, Round(now, suspended, busy)).daemon.journal;
               if suspended && !busy then Events(left) == [] else left == now.daemon.journal
  {
    RunKeepsInv(w, steps);
    var now := After(w, steps);
    UndisturbedRound(now, suspended, busy);
    PruneMarkIsReal(w, steps);
    NothingAboveLast(now);
    PruneIsFilter(now.daemon.journal, LastNum(now.past.issued));
  }

  /** With events in the journal the prune mark is below the last number, and nothing is above that. */
  lemma NothingAboveLast(w: World)
    requires JournalInv(w) && Enabled(w, Ship)
    ensures w.past.pruned < LastNum(w.past.issued)
    ensures Above(Events(w.daemon.journal), LastNum(w.past.issued)) == []
  {
    var events, last := Events(w.daemon.journal), LastNum(w.past.issued);
    AboveMembers(events, w.daemon.shipped);
    AboveMembers(events, last);
    AboveMembers(w.past.issued, w.past.pruned);
    LastIsLargest(w.past.issued);
    assert Above(events, w.daemon.shipped)[0] in Above(events, w.daemon.shipped);
    if Above(events, last) != [] { assert Above(events, last)[0] in Above(events, last); }
  }

  lemma AllCovered(w: World)
    requires JournalInv(w) && CentralInv(w) && w.daemon.shipped == LastNum(w.past.issued)
    ensures forall e :: e in w.past.issued ==> Stored(w.server.central, e)
  {
    LastIsLargest(w.past.issued);
  }

  /** The worlds of an undisturbed round up to the end of the batch loop. */
  function Locked(w: World): World
    requires Enabled(w, Ship) && w.server.lock == None
  {
    var s := w.wire.nextStream;
    Apply(Apply(Apply(w, Ship), HandlerReads(s)), HandlerLocks(s))
  }

  lemma UndisturbedRound(w0: World, suspended: bool, busy: bool)
    requires Enabled(w0, Ship) && w0.server.lock == None && Inv(w0)
    ensures IsRun(w0, Round(w0, suspended, busy))
    ensures var end := After(w0, Round(w0, suspended, busy));
            end.daemon.shipped == LastNum(w0.past.issued) && end.past.issued == w0.past.issued
            && end.past.forgot == w0.past.forgot
            && end.daemon.journal == JournalLeft(w0.daemon, LastNum(w0.past.issued), suspended, busy)
  {
    var s := w0.wire.nextStream;
    var n := |Above(Events(w0.daemon.journal), w0.daemon.shipped)|;
    var finish := [HandlerFinishes(s)] + [AckArrives(suspended, busy)];
    LockedForBatch(w0);
    StoresAreTheBatchLoop(Locked(w0), s, n);
    BatchStored(w0);
    ClosingSteps(StoredFirst(Locked(w0), s, n), s, suspended, busy);
    RunsConcatenate(Locked(w0), Repeat(HandlerStores(s), n), finish);
    OpeningSteps(w0, Repeat(HandlerStores(s), n) + finish);
  }

  lemma LockedForBatch(w0: World)
    requires Enabled(w0, Ship) && w0.server.lock == None
    ensures var s, w := w0.wire.nextStream, Locked(w0);
            var events := Above(Events(w0.daemon.journal), w0.daemon.shipped);
            && s in w.server.handlers && w.server.lock == Some(s) && w.daemon.waiting == Some((s, LastNum(events)))
            && w.server.handlers[s].batch.events == events && w.server.handlers[s].done == 0
            && w.server.handlers[s].acked == w0.server.acked
            && w.past.issued == w0.past.issued && w.past.forgot == w0.past.forgot
            && w.daemon == w0.daemon.(waiting := w.daemon.waiting)
  {
  }

  lemma BatchStored(w0: World)
    requires Enabled(w0, Ship) && w0.server.lock == None && Inv(w0)
    ensures var s, n := w0.wire.nextStream, |Above(Events(w0.daemon.journal), w0.daemon.shipped)|;
            && s in Locked(w0).server.handlers && n <= |Locked(w0).server.handlers[s].batch.events|
            && var w := StoredFirst(Locked(w0), s, n);
               && Enabled(w, HandlerFinishes(s)) && w.daemon.waiting.Some? && w.daemon.waiting.value.0 == s
               && w.server.handlers[s].acked == LastNum(w0.past.issued)
               && w.daemon.waiting.value.1 <= LastNum(w0.past.issued)
               && w.past.issued == w0.past.issued && w.past.forgot == w0.past.forgot
               && w.daemon == w0.daemon.(waiting := w.daemon.waiting)
  {
    LockedForBatch(w0);
    RoundAck(w0);
    var events := Above(Events(w0.daemon.journal), w0.daemon.shipped);
    assert events[..|events|] == events;
  }

  lemma OpeningSteps(w0: World, rest: seq<Step>)
    requires Enabled(w0, Ship) && w0.server.lock == None && IsRun(Locked(w0), rest)
    ensures var s := w0.wire.nextStream;
            var all := [Ship] + ([HandlerReads(s)] + ([HandlerLocks(s)] + rest));
            IsRun(w0, all) && After(w0, all) == After(Locked(w0), rest)
  {
    var s := w0.wire.nextStream;
    var w1 := Apply(w0, Ship);
    var w2 := Apply(w1, HandlerReads(s));
    RunOne(w2, HandlerLocks(s));
    RunsConcatenate(w2, [HandlerLocks(s)], rest);
    RunOne(w1, HandlerReads(s));
    RunsConcatenate(w1, [HandlerReads(s)], [HandlerLocks(s)] + rest);
    RunOne(w0, Ship);
    RunsConcatenate(w0, [Ship], [HandlerReads(s)] + ([HandlerLocks(s)] + rest));
  }

  lemma ClosingSteps(w4: World, s: StreamId, suspended: bool, busy: bool)
    requires Enabled(w4, HandlerFinishes(s)) && w4.daemon.waiting.Some? && w4.daemon.waiting.value.0 == s
    requires w4.server.handlers[s].acked >= w4.daemon.waiting.value.1
    ensures var finish := [HandlerFinishes(s)] + [AckArrives(suspended, busy)];
            && IsRun(w4, finish)
            && After(w4, finish).daemon.shipped == w4.server.handlers[s].acked
            && After(w4, finish).past.issued == w4.past.issued && After(w4, finish).past.forgot == w4.past.forgot
            && After(w4, finish).daemon.journal
               == JournalLeft(w4.daemon, w4.server.handlers[s].acked, suspended, busy)
  {
    var w5 := Apply(w4, HandlerFinishes(s));
    RunOne(w4, HandlerFinishes(s));
    RunOne(w5, AckArrives(suspended, busy));
    RunsConcatenate(w4, [HandlerFinishes(s)], [AckArrives(suspended, busy)]);
  }

  /** The acknowledgement of a freshly shipped batch is the last number issued. */
  lemma RoundAck(w: World)
    requires Enabled(w, Ship) && JournalInv(w) && w.server.acked <= LastNum(w.past.issued)
    ensures var events := Above(Events(w.daemon.journal), w.daemon.shipped);
            AckAfter(w.server.acked, events) == LastNum(events) == LastNum(w.past.issued)
  {
    var mark := Max(w.daemon.shipped, w.past.pruned);
    var events := Above(w.past.issued, mark);
    assert Above(Events(w.daemon.journal), w.daemon.shipped) == events by {
      AboveTwice(w.past.issued, w.past.pruned, w.daemon.shipped);
    }
    AboveAscending(w.past.issued, mark);
    AboveMembers(w.past.issued, mark);
    LastIsLargest(w.past.issued);
    assert events[|events| - 1] in events;
    AckIsLargest(w.server.acked, events);
  }

  lemma AckIsLargest(acked: nat, events: seq<Event>)
    requires events != [] && Ascending(events)
    ensures AckAfter(acked, events) == Max(acked, LastNum(events))
  {
    var init := events[..|events| - 1];
    assert events == init + [events[|events| - 1]];
    AckCovers(acked, init);
    LastIsLargest(events);
  }

  // ---- The lock and the counter ----

  /** In every run the file lock, when taken, is held by a handler that is still there. */
  lemma {:induction false} LockIsHeld(w: World, steps: seq<Step>)
    requires Initial(w) && IsRun(w, steps)
    ensures var server := After(w, steps).server; server.lock.Some? ==> server.lock.value in server.handlers
  {
    if steps != [] {
      LockIsHeld(w, steps[..|steps| - 1]);
      LockStays(After(w, steps[..|steps| - 1]), steps[|steps| - 1]);
    }
  }

  /** Only its holder lets go of the lock, by finishing or dying, and only a handler takes it. */
  lemma LockStays(w: World, step: Step)
    requires Enabled(w, step)
    ensures var lock, lock' := w.server.lock, Apply(w, step).server.lock;
            && (lock.Some? && lock' != lock ==>
                  lock' == None && (step == HandlerFinishes(lock.value)
                                    || (step.HandlerDies? && step.s == lock.value)))
            && (lock.None? && lock'.Some? ==> step == HandlerLocks(lock'.value) && lock'.value in w.server.handlers)
            && (forall s :: s in w.server.handlers && s !in Apply(w, step).server.handlers ==> lock' != Some(s))
  {
  }

  predicate Appends(step: Step) { step.Append? || step.AppendFails? }

  /** Every append takes one number, written or not. */
  lemma {:induction false} CounterCounts(w: World, steps: seq<Step>)
    requires IsRun(w, steps) && w.daemon.counter.Some? && forall i :: 0 <= i < |steps| ==> Appends(steps[i])
    ensures After(w, steps).daemon.counter == Some(w.daemon.counter.value + |steps|)
  {
    if steps != [] {
      CounterCounts(w, steps[..|steps| - 1]);
      assert Appends(steps[|steps| - 1]);
    }
  }

  // ---- Runs without repeats in the central log ----

  /** A handler reads its acknowledgement while no other runs, and none dies having written. */
  predicate Orderly(w: World, step: Step) {
    match step
    case HandlerReads(_) => w.server.handlers == map[]
    case HandlerDies(s, half) =>
      s in w.server.handlers && w.server.handlers[s].acked == w.server.acked
      && (half && w.server.handlers[s].done < |w.server.handlers[s].batch.events| ==>
            w.server.handlers[s].batch.events[w.server.handlers[s].done].num <= w.server.acked)
    case _ => true
  }

  /** At most one handler, which has acknowledged as far as the log goes. */
  predicate CleanOk(log: seq<Event>, handlers: map<StreamId, Handler>, acked: nat) {
    && Ascending(log)
    && (handlers == map[] ==> LastNum(log) <= acked)
    && (forall s :: s in handlers ==> LastNum(log) <= handlers[s].acked && handlers.Keys == {s})
  }

  predicate CleanInv(w: World) { CleanOk(w.server.central.log, w.server.handlers, w.server.acked) }

  lemma AlonePut(handlers: map<StreamId, Handler>, s: StreamId, h: Handler)
    requires handlers.Keys <= {s}
    ensures handlers[s := h].Keys == {s} && handlers - {s} == map[]
  {
  }

  lemma OrderlyStore(w: World, s: StreamId)
    requires Enabled(w, HandlerStores(s)) && CleanInv(w)
    ensures CleanInv(Store(w, s))
  {
    var e := w.server.handlers[s].batch.events[w.server.handlers[s].done];
    AlonePut(w.server.handlers, s, Store(w, s).server.handlers[s]);
    if e.num > w.server.handlers[s].acked {
      LastIsLargest(w.server.central.log);
      AscendingGrows(w.server.central.log, e);
    }
  }

  lemma OrderlyStep(w: World, step: Step)
    requires Enabled(w, step) && Orderly(w, step) && CleanInv(w)
    ensures CleanInv(Apply(w, step))
  {
    match step
    case HandlerReads(s) => AlonePut(w.server.handlers, s, Apply(w, step).server.handlers[s]);
    case HandlerStores(s) => OrderlyStore(w, s);
    case HandlerFinishes(s) => AlonePut(w.server.handlers, s, w.server.handlers[s]);
    case HandlerDies(s, _) => AlonePut(w.server.handlers, s, w.server.handlers[s]);
    case _ =>
  }

  lemma {:induction false} OrderlyKeepsClean(w: World, steps: seq<Step>)
    requires Initial(w) && IsRun(w, steps) && Throughout(w, steps, Orderly)
    ensures CleanInv(After(w, steps))
  {
    if steps != [] {
      OrderlyKeepsClean(w, steps[..|steps| - 1]);
      OrderlyStep(After(w, steps[..|steps| - 1]), steps[|steps| - 1]);
    }
  }

  /** With handlers that follow one another and never die having written, the central log is
      strictly increasing in every run, whatever else happens on the daemon and the wire. */
  lemma OrderlyLogIsClean(w: World, steps: seq<Step>)
    requires Initial(w) && IsRun(w, steps) && Throughout(w, steps, Orderly)
    ensures Ascending(After(w, steps).server.central.log)
  {
    OrderlyKeepsClean(w, steps);
  }
}
