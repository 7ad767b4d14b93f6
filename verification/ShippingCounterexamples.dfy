/**
 Runs of log shipping, worked out world by world, that show where its guarantees end.
 */
module ShippingCounterexamples {
  import opened Wrappers
  import opened JournalModel
  import opened ShippingProtocol
  import opened ShippingRuns

  lemma Two(w: World, a: Step, mid: World, b: Step, w': World)
    requires Leads(w, a, mid) && Leads(mid, b, w')
    ensures Goes(w, [a] + [b], w')
  {
    RunOne(w, a);
    ExtendRun(w, [a], b);
  }

  const NOTHING: Central := Central([], map[])
  const NOWHERE := World(Daemon([], 0, None, false, None, 0), Wire(0, map[], map[]), Server(map[], None, NOTHING, 0),
                         Past([], [], 0, false))

  lemma OneEvent(e: Event, mark: nat)
    ensures Events([Logged(e)]) == [e] && MaxNum([Logged(e)]) == e.num
    ensures Above([e], mark) == if e.num > mark then [e] else []
    ensures Pruned([Logged(e)], mark) == if e.num > mark then [Logged(e)] else []
  {
    assert [Logged(e)][..0] == [] && [e][..0] == [];
  }

  lemma OneToShip(w: World, e: Event)
    requires w.daemon.journal == [Logged(e)] && w.daemon.shipped < e.num
    ensures Above(Events(w.daemon.journal), w.daemon.shipped) == [e]
  {
    OneEvent(e, w.daemon.shipped);
  }

  /** Shipping a journal of one event. */
  lemma ShipsOne(w: World, e: Event, w': World)
    requires w.daemon.journal == [Logged(e)] && w.daemon.waiting.None? && w.daemon.shipped < e.num
    requires w'.daemon == w.daemon.(waiting := Some((w.wire.nextStream, e.num)))
    requires w'.wire == SentOne(w, e) && w'.server == w.server && w'.past == w.past
    ensures Leads(w, Ship, w')
  {
    OneToShip(w, e);
    assert LastNum([e]) == e.num;
    assert SendBatch(w) == w';
  }

  function SentOne(w: World, e: Event): Wire {
    var s, batch := w.wire.nextStream, Batch([e], Max(w.daemon.shipped, w.past.pruned));
    Wire(s + 1, w.wire.sent[s := batch], w.wire.replies)
  }

  /** An acknowledgement that prunes a journal of one event. */
  lemma PrunesOne(w: World, e: Event, w': World)
    requires w.daemon.journal == [Logged(e)] && w.daemon.lastPruned < e.num
    requires AckIsThere(w) && w.daemon.waiting.value.1 == w.wire.replies[w.daemon.waiting.value.0] == e.num
    requires w'.daemon == Daemon([], e.num, w.daemon.counter, w.daemon.detached || w.daemon.counter.Some?, None, e.num)
    requires w' == World(w'.daemon, w.wire, w.server, w.past.(pruned := Max(w.past.pruned, e.num)))
    ensures Leads(w, AckArrives(true, false), w')
  {
    OneEvent(e, e.num);
  }

  const E: Event := Event(1, "x")
  const B: Batch := Batch([E], 0)

  /** The event appended, with the writer left open or closed. */
  function Appended(counter: Option<nat>): World {
    World(Daemon([Logged(E)], 0, counter, false, None, 0), Wire(0, map[], map[]),
          Server(map[], None, NOTHING, 0), Past([E], [], 0, false))
  }

  lemma FirstEvent() returns (steps: seq<Step>)
    ensures Goes(NOWHERE, steps, Appended(Some(1)))
  {
    var open := NOWHERE.(daemon := NOWHERE.daemon.(counter := Some(0)));
    assert Leads(open, Append("x"), Appended(Some(1)));
    Two(NOWHERE, Open, open, Append("x"), Appended(Some(1)));
    steps := [Open] + [Append("x")];
  }

  function Shipped(counter: Option<nat>): World {
    World(Daemon([Logged(E)], 0, counter, false, Some((0, 1)), 0), Wire(1, map[0 := B], map[]),
          Server(map[], None, NOTHING, 0), Past([E], [], 0, false))
  }

  function Read(counter: Option<nat>): World {
    World(Daemon([Logged(E)], 0, counter, false, Some((0, 1)), 0), Wire(1, map[], map[]),
          Server(map[0 := Handler(B, 0, 0)], None, NOTHING, 0), Past([E], [], 0, false))
  }

  lemma FirstBatch(counter: Option<nat>) returns (steps: seq<Step>)
    ensures Goes(Appended(counter), steps, Read(counter))
  {
    ShipsOne(Appended(counter), E, Shipped(counter));
    assert Leads(Shipped(counter), HandlerReads(0), Read(counter));
    Two(Appended(counter), Ship, Shipped(counter), HandlerReads(0), Read(counter));
    steps := [Ship] + [HandlerReads(0)];
  }

  const ONCE: Central := Central([E], map[1 := E])

  function Stored1(counter: Option<nat>): World {
    Read(counter).(server := Server(map[0 := Handler(B, 1, 1)], Some(0), ONCE, 0))
  }

  lemma FirstStored(counter: Option<nat>) returns (steps: seq<Step>)
    ensures Goes(Read(counter), steps, Stored1(counter))
  {
    var locked := Read(counter).(server := Server(map[0 := Handler(B, 0, 0)], Some(0), NOTHING, 0));
    assert Leads(Read(counter), HandlerLocks(0), locked);
    assert Leads(locked, HandlerStores(0), Stored1(counter));
    Two(Read(counter), HandlerLocks(0), locked, HandlerStores(0), Stored1(counter));
    steps := [HandlerLocks(0)] + [HandlerStores(0)];
  }

  function Answered(counter: Option<nat>): World {
    Shipped(counter).(wire := Wire(1, map[], map[0 := 1]), server := Server(map[], None, ONCE, 1))
  }

  /** Acknowledged and pruned: the file is empty, and an open writer is left on the old one. */
  function Emptied(counter: Option<nat>): World {
    Answered(counter).(daemon := Daemon([], 1, counter, counter.Some?, None, 1), past := Past([E], [], 1, false))
  }

  lemma FirstPruned(counter: Option<nat>) returns (steps: seq<Step>)
    ensures Goes(Stored1(counter), steps, Emptied(counter))
  {
    assert Leads(Stored1(counter), HandlerFinishes(0), Answered(counter));
    PrunesOne(Answered(counter), E, Emptied(counter));
    Two(Stored1(counter), HandlerFinishes(0), Answered(counter), AckArrives(true, false), Emptied(counter));
    steps := [HandlerFinishes(0)] + [AckArrives(true, false)];
  }

  /** One event, shipped, stored, acknowledged and pruned. */
  lemma Delivered(counter: Option<nat>) returns (steps: seq<Step>)
    ensures Goes(Appended(counter), steps, Emptied(counter))
  {
    var a := FirstBatch(counter);
    var b := FirstStored(counter);
    var c := FirstPruned(counter);
    ThenRun(Appended(counter), a, Read(counter), b, Stored1(counter));
    ThenRun(Appended(counter), a + b, Stored1(counter), c, Emptied(counter));
    steps := a + b + c;
  }

  // ---- A prune under an open writer ----

  const LATE: Event := Event(2, "y")

  /** If the prune guard misses an open writer, an append that succeeds is lost: in this run an
      event is neither in the journal nor stored, and reopening hands its number out again. */
  lemma UnguardedPruneLoses() returns (steps: seq<Step>)
    ensures Initial(NOWHERE) && IsRun(NOWHERE, steps)
    ensures var now := After(NOWHERE, steps);
            && LATE in now.past.orphaned && !Survives(now, LATE) && !now.past.forgot
            && Enabled(now, Open) && Apply(now, Open).daemon.counter == Some(LATE.num - 1)
  {
    var a := FirstEvent();
    var b := Delivered(Some(1));
    ThenRun(NOWHERE, a, Appended(Some(1)), b, Emptied(Some(1)));
    var appended := Emptied(Some(1)).(daemon := Daemon([], 1, Some(2), true, None, 1),
                                      past := Past([E], [LATE], 1, false));
    var closed := appended.(daemon := Daemon([], 1, None, false, None, 1));
    assert Leads(Emptied(Some(1)), Append("y"), appended);
    assert Leads(appended, Close, closed);
    Then(NOWHERE, a + b, Emptied(Some(1)), Append("y"), appended);
    Then(NOWHERE, a + b + [Append("y")], appended, Close, closed);
    steps := a + b + [Append("y")] + [Close];
  }

  // ---- A watermark lost with the journal pruned empty ----

  const AGAIN: Event := Event(1, "y")

  function Forgetful(): World {
    Emptied(None).(daemon := Daemon([], 0, None, false, None, 0), past := Past([E], [], 1, true))
  }

  function Reissued(counter: Option<nat>): World {
    Forgetful().(daemon := Daemon([Logged(AGAIN)], 0, counter, false, None, 0), past := Past([E, AGAIN], [], 1, true))
  }

  lemma NumberReissued() returns (steps: seq<Step>)
    ensures Goes(Emptied(None), steps, Reissued(None))
  {
    var open := Forgetful().(daemon := Daemon([], 0, Some(0), false, None, 0));
    var appended := Reissued(Some(1));
    assert Leads(Emptied(None), WatermarkTorn(0), Forgetful());
    assert Leads(Forgetful(), Open, open);
    assert Leads(open, Append("y"), appended);
    assert Leads(appended, Close, Reissued(None));
    Two(Emptied(None), WatermarkTorn(0), Forgetful(), Open, open);
    Two(open, Append("y"), appended, Close, Reissued(None));
    ThenRun(Emptied(None), [WatermarkTorn(0)] + [Open], open, [Append("y")] + [Close], Reissued(None));
    steps := [WatermarkTorn(0)] + [Open] + ([Append("y")] + [Close]);
  }

  const B1: Batch := Batch([AGAIN], 1)

  function Reshipped(): World {
    Reissued(None).(daemon := Daemon([Logged(AGAIN)], 0, None, false, Some((1, 1)), 0),
                    wire := Wire(2, map[1 := B1], map[0 := 1]))
  }

  function Reread(): World {
    Reshipped().(wire := Wire(2, map[], map[0 := 1]), server := Server(map[1 := Handler(B1, 0, 1)], None, ONCE, 1))
  }

  function Skipped(): World { Reread().(server := Server(map[1 := Handler(B1, 1, 1)], Some(1), ONCE, 1)) }

  function Reanswered(): World {
    Reshipped().(wire := Wire(2, map[], map[0 := 1, 1 := 1]), server := Server(map[], None, ONCE, 1))
  }

  function Dropped(): World { Reanswered().(daemon := Daemon([], 1, None, false, None, 1)) }

  lemma ReissueShipped() returns (steps: seq<Step>)
    ensures Goes(Reissued(None), steps, Reread())
  {
    ShipsOne(Reissued(None), AGAIN, Reshipped());
    assert Leads(Reshipped(), HandlerReads(1), Reread());
    Two(Reissued(None), Ship, Reshipped(), HandlerReads(1), Reread());
    steps := [Ship] + [HandlerReads(1)];
  }

  lemma ReissueSkipped() returns (steps: seq<Step>)
    ensures Goes(Reread(), steps, Skipped())
  {
    var locked := Reread().(server := Server(map[1 := Handler(B1, 0, 1)], Some(1), ONCE, 1));
    assert Leads(Reread(), HandlerLocks(1), locked);
    assert Leads(locked, HandlerStores(1), Skipped());
    Two(Reread(), HandlerLocks(1), locked, HandlerStores(1), Skipped());
    steps := [HandlerLocks(1)] + [HandlerStores(1)];
  }

  lemma ReissuePruned() returns (steps: seq<Step>)
    ensures Goes(Skipped(), steps, Dropped())
  {
    assert Leads(Skipped(), HandlerFinishes(1), Reanswered());
    PrunesOne(Reanswered(), AGAIN, Dropped());
    Two(Skipped(), HandlerFinishes(1), Reanswered(), AckArrives(true, false), Dropped());
    steps := [HandlerFinishes(1)] + [AckArrives(true, false)];
  }

  lemma ReissueDropped() returns (steps: seq<Step>)
    ensures Goes(Reissued(None), steps, Dropped())
  {
    var a := ReissueShipped();
    var b := ReissueSkipped();
    var c := ReissuePruned();
    ThenRun(Reissued(None), a, Reread(), b, Skipped());
    ThenRun(Reissued(None), a + b, Skipped(), c, Dropped());
    steps := a + b + c;
  }

  /** A watermark lost while the journal is pruned empty loses events: in this run, with no writer
      ever detached, an event gets a used number, is skipped as a duplicate, acknowledged and pruned. */
  lemma ForgettingLoses() returns (steps: seq<Step>)
    ensures Initial(NOWHERE) && IsRun(NOWHERE, steps)
    ensures var now := After(NOWHERE, steps);
            now.past.forgot && now.past.orphaned == [] && AGAIN in now.past.issued && !Survives(now, AGAIN)
  {
    var a := FirstEvent();
    assert Leads(Appended(Some(1)), Close, Appended(None));
    Then(NOWHERE, a, Appended(Some(1)), Close, Appended(None));
    var b := Delivered(None);
    var c := NumberReissued();
    var d := ReissueDropped();
    ThenRun(NOWHERE, a + [Close], Appended(None), b, Emptied(None));
    ThenRun(NOWHERE, a + [Close] + b, Emptied(None), c, Reissued(None));
    ThenRun(NOWHERE, a + [Close] + b + c, Reissued(None), d, Dropped());
    steps := a + [Close] + b + c + d;
    assert Dropped().past.issued[1] == AGAIN;
  }

  // ---- Two handlers that read before either writes ----

  function Resent(): World {
    Read(Some(1)).(daemon := Daemon([Logged(E)], 0, Some(1), false, Some((1, 1)), 0),
                   wire := Wire(2, map[1 := B], map[]))
  }

  /** The handlers of the two streams, the first of them `first` events into its batch. */
  function Pair(first: nat): map<StreamId, Handler> { map[0 := Handler(B, first, first), 1 := Handler(B, 0, 0)] }

  function BothReading(): World {
    Resent().(wire := Wire(2, map[], map[]), server := Server(Pair(0), None, NOTHING, 0))
  }

  lemma SecondSent() returns (steps: seq<Step>)
    ensures Goes(Read(Some(1)), steps, Resent())
  {
    var lost := Read(Some(1)).(daemon := Daemon([Logged(E)], 0, Some(1), false, None, 0));
    assert Leads(Read(Some(1)), ConnectionLost, lost);
    ShipsOne(lost, E, Resent());
    Two(Read(Some(1)), ConnectionLost, lost, Ship, Resent());
    steps := [ConnectionLost] + [Ship];
  }

  lemma SecondReads()
    ensures Leads(Resent(), HandlerReads(1), BothReading())
  {
    assert map[1 := B] - {1} == map[];
    assert map[0 := Handler(B, 0, 0)][1 := Handler(B, 0, 0)] == Pair(0);
  }

  lemma BothRead() returns (steps: seq<Step>)
    ensures Goes(Read(Some(1)), steps, BothReading())
  {
    var a := SecondSent();
    SecondReads();
    Then(Read(Some(1)), a, Resent(), HandlerReads(1), BothReading());
    steps := a + [HandlerReads(1)];
  }

  function FirstWritten(): World { BothReading().(server := Server(Pair(1), Some(0), ONCE, 0)) }

  lemma FirstWrites() returns (steps: seq<Step>)
    ensures Goes(BothReading(), steps, FirstWritten())
  {
    var locked := BothReading().(server := Server(Pair(0), Some(0), NOTHING, 0));
    assert Leads(BothReading(), HandlerLocks(0), locked);
    assert Leads(locked, HandlerStores(0), FirstWritten());
    Two(BothReading(), HandlerLocks(0), locked, HandlerStores(0), FirstWritten());
    steps := [HandlerLocks(0)] + [HandlerStores(0)];
  }

  function Second(done: nat, lock: Option<StreamId>, central: Central): World {
    Resent().(wire := Wire(2, map[], map[0 := 1]), server := Server(map[1 := Handler(B, done, done)], lock, central, 1))
  }

  function SecondLocked(): World { Second(0, Some(1), ONCE) }

  function WrittenTwice(): World { Second(1, Some(1), Central([E, E], map[1 := E])) }

  lemma SecondLocks() returns (steps: seq<Step>)
    ensures Goes(FirstWritten(), steps, SecondLocked())
  {
    var finished := Second(0, None, ONCE);
    assert Pair(1) - {0} == map[1 := Handler(B, 0, 0)];
    assert Leads(FirstWritten(), HandlerFinishes(0), finished);
    assert Leads(finished, HandlerLocks(1), SecondLocked());
    Two(FirstWritten(), HandlerFinishes(0), finished, HandlerLocks(1), SecondLocked());
    steps := [HandlerFinishes(0)] + [HandlerLocks(1)];
  }

  lemma SecondStores()
    ensures Leads(SecondLocked(), HandlerStores(1), WrittenTwice())
  {
    assert [E] + [E] == [E, E];
    assert map[1 := Handler(B, 0, 0)][1 := Handler(B, 1, 1)] == map[1 := Handler(B, 1, 1)];
  }

  lemma SecondWrites() returns (steps: seq<Step>)
    ensures Goes(FirstWritten(), steps, WrittenTwice())
  {
    var a := SecondLocks();
    SecondStores();
    Then(FirstWritten(), a, SecondLocked(), HandlerStores(1), WrittenTwice());
    steps := a + [HandlerStores(1)];
  }

  /** Without that order the central log does repeat: a lost connection makes the daemon resend,
      and two handlers that both read before either writes store the event twice. */
  lemma OverlapRepeats() returns (steps: seq<Step>)
    ensures Initial(NOWHERE) && IsRun(NOWHERE, steps)
    ensures After(NOWHERE, steps).server.central.log == [E, E]
  {
    var a := FirstEvent();
    var b := FirstBatch(Some(1));
    var c := BothRead();
    var d := FirstWrites();
    var f := SecondWrites();
    ThenRun(NOWHERE, a, Appended(Some(1)), b, Read(Some(1)));
    ThenRun(NOWHERE, a + b, Read(Some(1)), c, BothReading());
    ThenRun(NOWHERE, a + b + c, BothReading(), d, FirstWritten());
    ThenRun(NOWHERE, a + b + c + d, FirstWritten(), f, WrittenTwice());
    steps := a + b + c + d + f;
  }
}
