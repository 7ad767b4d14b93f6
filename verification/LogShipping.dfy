/**
 Both ends of log shipping as the code runs them: the daemon's journal file with its
 `.shipped` watermark, and the control plane's batch handler. Each loop is proved
 against the functions of JournalModel.
 */
module LogShipping {
  import opened Wrappers
  import opened JournalModel

  /** One agent's journal directory on a daemon, and the counter of the open writer if any. */
  class Journal {
    var lines: seq<Line>        // journal.jsonl
    var shipped: nat            // .shipped, 0 when absent or unreadable
    var counter: Option<nat>    // the open Journal's counter
    var detached: bool          // the open Journal writes to a file that has been replaced
    var lastPruned: nat         // ShipState.last_pruned_through

    constructor (lines: seq<Line>, shipped: nat)
      ensures this.lines == lines && this.shipped == shipped
      ensures counter == None && !detached && lastPruned == 0
    {
      this.lines, this.shipped, counter, detached, lastPruned := lines, shipped, None, false, 0;
    }

    /** Open (or create) the journal, resuming the counter. */
    method Open()
      modifies this`counter, this`detached
      ensures counter == Some(ResumePoint(lines, shipped)) && !detached
    {
      var n: nat := 0;
      for i := 0 to |lines|
        invariant n == MaxNum(lines[..i])
      {
        assert lines[..i + 1][..i] == lines[..i];
        if lines[i].Logged? && lines[i].ev.num > n { n := lines[i].ev.num; }
      }
      assert lines[..|lines|] == lines;
      if shipped > n { n := shipped; }
      counter, detached := Some(n), false;
    }

    /** Append one event; the number is taken before the write, which may fail. A writer whose
        file has been replaced succeeds, and its line is in no file a reader opens. */
    method Append(body: string, writeFails: bool) returns (r: Result<Event, ()>)
      requires counter.Some?
      modifies this`counter, this`lines
      ensures counter == Some(old(counter.value) + 1)
      ensures writeFails ==> r.Err? && lines == old(lines)
      ensures !writeFails ==>
                && r == Ok(Event(old(counter.value) + 1, body))
                && (detached ==> lines == old(lines))
                && (!detached ==>
                      lines == old(lines) + [Logged(r.value)] && Events(lines) == old(Events(lines)) + [r.value])
    {
      counter := Some(counter.value + 1);
      if writeFails { return Err(()); }
      var ev := Event(counter.value, body);
      assert (lines + [Logged(ev)])[..|lines|] == lines;
      if !detached { lines := lines + [Logged(ev)]; }
      r := Ok(ev);
    }

    /** The events still to be shipped and the largest number among them. */
    method PendingBatch() returns (events: seq<Event>, maxNum: nat)
      ensures events == Above(Events(lines), shipped)
      ensures events == [] ==> maxNum == shipped
      ensures events != [] ==> exists e :: e in events && e.num == maxNum
      ensures forall e :: e in events ==> e.num <= maxNum
    {
      events := [];
      for i := 0 to |lines|
        invariant events == Above(Events(lines[..i]), shipped)
      {
        assert lines[..i + 1][..i] == lines[..i];
        match lines[i]
        case Logged(ev) =>
          assert (Events(lines[..i]) + [ev])[..|Events(lines[..i])|] == Events(lines[..i]);
          if ev.num > shipped { events := events + [ev]; }
        case Unparsed(_) =>
      }
      assert lines[..|lines|] == lines;
      if events == [] { return events, shipped; }
      maxNum := LargestNum(events);
    }

    static method LargestNum(events: seq<Event>) returns (maxNum: nat)
      requires events != []
      ensures exists e :: e in events && e.num == maxNum
      ensures forall e :: e in events ==> e.num <= maxNum
    {
      maxNum := events[0].num;
      for i := 1 to |events|
        invariant forall j :: 0 <= j < i ==> events[j].num <= maxNum
        invariant exists j :: 0 <= j < i && events[j].num == maxNum
      {
        if events[i].num > maxNum { maxNum := events[i].num; }
      }
    }

    /** Apply an acknowledgement to the batch whose largest number was `maxNum`. */
    method OnAck(ackedThrough: nat, maxNum: nat, suspended: bool, busy: bool)
      modifies this`lines, this`shipped, this`lastPruned, this`detached
      ensures (lines, shipped, lastPruned)
              == AckEffect(old(lines), old(shipped), old(lastPruned), ackedThrough, maxNum, suspended, busy)
      ensures detached == (old(detached) || (counter.Some? && lines != old(lines)))
    {
      if ackedThrough >= maxNum {
        shipped := ackedThrough;
        if !busy && suspended && ackedThrough > lastPruned {
          PruneJournal(ackedThrough);
          lastPruned := ackedThrough;
        }
      }
    }

    /** Replace the file by its lines without the acknowledged events, leaving an open writer on
        the old file; untouched when there is none to drop. */
    method PruneJournal(ackedThrough: nat)
      modifies this`lines, this`detached
      ensures lines == Pruned(old(lines), ackedThrough)
      ensures detached == (old(detached) || (counter.Some? && lines != old(lines)))
    {
      var kept: seq<Line> := [];
      var droppedAny := false;
      for i := 0 to |lines|
        invariant kept == Pruned(lines[..i], ackedThrough)
        invariant !droppedAny ==> kept == lines[..i]
        invariant droppedAny ==> |kept| < i
      {
        assert lines[..i + 1][..i] == lines[..i];
        if lines[i].Logged? && lines[i].ev.num <= ackedThrough {
          droppedAny := true;
        } else {
          kept := kept + [lines[i]];
        }
      }
      assert lines[..|lines|] == lines;
      if !droppedAny { return; }
      lines, detached := kept, detached || counter.Some?;
    }
  }

  /** The control plane's side for one agent: log file, transcript table, acknowledgement row. */
  class CentralLog {
    var log: seq<Event>
    var chat: map<nat, Event>
    var acked: nat

    /** Store one batch under the file lock, starting from the acknowledgement `readAcked` read before it. */
    method HandleBatch(readAcked: nat, batch: seq<Event>) returns (ackedThrough: nat)
      modifies this
      ensures log == old(log) + Written(readAcked, batch)
      ensures chat == ChatInsertAll(old(chat), Written(readAcked, batch))
      ensures acked == ackedThrough == AckAfter(readAcked, batch)
    {
      var high := readAcked;
      for i := 0 to |batch|
        invariant high == AckAfter(readAcked, batch[..i])
        invariant log == old(log) + Written(readAcked, batch[..i])
        invariant chat == ChatInsertAll(old(chat), Written(readAcked, batch[..i]))
      {
        StoreOneMore(readAcked, batch, i, old(chat));
        if batch[i].num > high {
          log := log + [batch[i]];
          chat := ChatInsert(chat, batch[i]);
          high := Max(high, batch[i].num);
        }
      }
      assert batch[..|batch|] == batch;
      acked := high;
      ackedThrough := high;
    }
  }

  // ---- Resends and the central log ----

  /** The log and acknowledgement after batches handled one at a time, each to its end. */
  function Ingest(log: seq<Event>, acked: nat, batches: seq<seq<Event>>): (seq<Event>, nat)
    decreases |batches|
  {
    if batches == [] then (log, acked)
    else Ingest(log + Written(acked, batches[0]), AckAfter(acked, batches[0]), batches[1..])
  }

  /** Any overlapping resends, in any order, extend a log whose tail is acknowledged by strictly larger numbers. */
  lemma {:induction false} ResendsLeaveLogClean(log: seq<Event>, acked: nat, batches: seq<seq<Event>>)
    requires Ascending(log) && LastNum(log) <= acked
    ensures var (log', acked') := Ingest(log, acked, batches);
            log <= log' && Ascending(log') && LastNum(log') <= acked' && acked <= acked'
    decreases |batches|
  {
    if batches != [] {
      WrittenAscends(acked, batches[0]);
      AckCovers(acked, batches[0]);
      var w := Written(acked, batches[0]);
      forall i | 0 <= i < |w| ensures acked < w[i].num { assert w[i] in w; }
      ResendsLeaveLogClean(log + w, AckAfter(acked, batches[0]), batches[1..]);
    }
  }

  /** No event of an ascending batch above the old acknowledgement is skipped, and nothing else is written. */
  lemma {:induction false} NothingSkipped(acked: nat, batch: seq<Event>)
    requires Ascending(batch)
    ensures forall e :: e in Written(acked, batch) <==> e in batch && e.num > acked
    ensures forall e :: e in batch ==> e.num <= AckAfter(acked, batch)
  {
    WrittenIsAbove(acked, batch);
    AboveMembers(batch, acked);
    AckCovers(acked, batch);
  }

  /** A handler that starts from a stale acknowledgement keeps the log free of repeats
      exactly when its batch holds no event between that value and the last number written. */
  lemma {:induction false} CleanExactlyWhen(log: seq<Event>, readAcked: nat, batch: seq<Event>)
    requires Ascending(log) && Ascending(batch)
    ensures Ascending(log + Written(readAcked, batch))
            <==> forall e :: e in batch && e.num > readAcked ==> e.num > LastNum(log)
  {
    var w := Written(readAcked, batch);
    WrittenAscends(readAcked, batch);
    NothingSkipped(readAcked, batch);
    if Ascending(log + w) {
      forall e | e in batch && e.num > readAcked ensures e.num > LastNum(log) {
        assert e in w;
        var i :| 0 <= i < |w| && w[i] == e;
        if log != [] { assert (log + w)[|log| - 1].num < (log + w)[|log| + i].num; }
      }
    } else {
      var i, j :| 0 <= i < j < |log + w| && (log + w)[i].num >= (log + w)[j].num;
      assert i < |log| <= j && w[j - |log|] in w;
      assert i < |log| - 1 ==> log[i].num < log[|log| - 1].num;
    }
  }

  /** The stale read is real: two handlers that both read 0 before taking the lock write event 1 twice. */
  lemma StaleReadRepeats()
    ensures var batch := [Event(1, "hello")];
            var first := Written(0, batch);
            !Ascending(first + Written(0, batch)) && Ascending(first + Written(AckAfter(0, batch), batch))
  {
    var e := Event(1, "hello");
    assert [e][..0] == [];
    assert Written(0, [e]) == [e];
    assert AckAfter(0, [e]) == 1;
    assert Written(1, [e]) == [];
    assert ([e] + [e])[0].num >= ([e] + [e])[1].num;
  }
}
