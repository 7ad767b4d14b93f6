/**
 The values of the log-shipping protocol and the pure operations on them: what a
 journal file holds, which events are still to be shipped, what a prune keeps, and
 what one batch does to the central log.
 */
module JournalModel {

  /** A journaled event. `num` is the per-agent sequence number; `body` stands for the rest. */
  datatype Event = Event(num: nat, body: string)

  /** One line of `journal.jsonl`: a parseable event, or text that does not parse as one. */
  datatype Line = Logged(ev: Event) | Unparsed(text: string)

  function Max(a: nat, b: nat): nat { if a >= b then a else b }

  /** The parseable events of a journal file, in file order. */
  function Events(lines: seq<Line>): seq<Event> {
    if lines == [] then []
    else
      var init, last := lines[..|lines| - 1], lines[|lines| - 1];
      match last
      case Logged(ev) => Events(init) + [ev]
      case Unparsed(_) => Events(init)
  }

  /** The events numbered above `mark`, in order. */
  function Above(events: seq<Event>, mark: nat): seq<Event> {
    if events == [] then []
    else
      var init, last := events[..|events| - 1], events[|events| - 1];
      if last.num > mark then Above(init, mark) + [last] else Above(init, mark)
  }

  /** The lines a prune through `mark` keeps: later events and everything unparseable. */
  function Pruned(lines: seq<Line>, mark: nat): seq<Line> {
    if lines == [] then []
    else
      var init, last := lines[..|lines| - 1], lines[|lines| - 1];
      if last.Logged? && last.ev.num <= mark then Pruned(init, mark) else Pruned(init, mark) + [last]
  }

  /** The largest event number in a journal file, 0 when it has none. */
  function MaxNum(lines: seq<Line>): nat {
    if lines == [] then 0
    else
      var init, last := lines[..|lines| - 1], lines[|lines| - 1];
      if last.Logged? then Max(MaxNum(init), last.ev.num) else MaxNum(init)
  }

  /** Where a (re)opened journal resumes counting: the last line, floored at the watermark. */
  function ResumePoint(lines: seq<Line>, shipped: nat): nat { Max(MaxNum(lines), shipped) }

  predicate Ascending(events: seq<Event>) {
    forall i, j :: 0 <= i < j < |events| ==> events[i].num < events[j].num
  }

  /** The number of the last event, 0 when there is none. */
  function LastNum(events: seq<Event>): nat { if events == [] then 0 else events[|events| - 1].num }

  /** The events a batch handler writes when it starts from acknowledgement `acked`. */
  function Written(acked: nat, batch: seq<Event>): seq<Event> {
    if batch == [] then []
    else
      var init, last := batch[..|batch| - 1], batch[|batch| - 1];
      if last.num <= AckAfter(acked, init) then Written(acked, init) else Written(acked, init) + [last]
  }

  /** The acknowledgement the handler ends with. */
  function AckAfter(acked: nat, batch: seq<Event>): nat {
    if batch == [] then acked
    else Max(AckAfter(acked, batch[..|batch| - 1]), batch[|batch| - 1].num)
  }

  /** The transcript table keeps the first row written under a number. */
  function ChatInsert(chat: map<nat, Event>, e: Event): map<nat, Event> {
    if e.num in chat then chat else chat[e.num := e]
  }

  function ChatInsertAll(chat: map<nat, Event>, events: seq<Event>): map<nat, Event> {
    if events == [] then chat
    else ChatInsert(ChatInsertAll(chat, events[..|events| - 1]), events[|events| - 1])
  }

  // ---- Facts about the file operations ----

  lemma {:induction false} AboveMembers(events: seq<Event>, mark: nat)
    ensures forall e :: e in Above(events, mark) <==> e in events && e.num > mark
  {
    if events != [] {
      var init, last := events[..|events| - 1], events[|events| - 1];
      AboveMembers(init, mark);
      assert events == init + [last];
    }
  }

  lemma {:induction false} AboveAscending(events: seq<Event>, mark: nat)
    requires Ascending(events)
    ensures Ascending(Above(events, mark))
    ensures LastNum(Above(events, mark)) == if LastNum(events) > mark then LastNum(events) else 0
  {
    if events != [] {
      var init, last := events[..|events| - 1], events[|events| - 1];
      AboveAscending(init, mark);
      if last.num > mark {
        forall e | e in Above(init, mark) ensures e.num < last.num {
          AboveMembers(init, mark);
        }
        AscendingGrows(Above(init, mark), last);
      }
    }
  }

  lemma AscendingGrows(events: seq<Event>, last: Event)
    requires Ascending(events) && forall e :: e in events ==> e.num < last.num
    ensures Ascending(events + [last])
  {
  }

  /** Pruning the file drops exactly the events a reader filtering on the mark would drop. */
  lemma {:induction false} PruneIsFilter(lines: seq<Line>, mark: nat)
    ensures Events(Pruned(lines, mark)) == Above(Events(lines), mark)
  {
    if lines != [] {
      var init, last := lines[..|lines| - 1], lines[|lines| - 1];
      PruneIsFilter(init, mark);
      var kept := Pruned(init, mark);
      assert kept + [last] != [] && (kept + [last])[..|kept|] == kept;
      if last.Logged? {
        assert (Events(init) + [last.ev])[..|Events(init)|] == Events(init);
      }
    }
  }

  lemma {:induction false} AboveTwice(events: seq<Event>, first: nat, second: nat)
    ensures Above(Above(events, first), second) == Above(events, Max(first, second))
  {
    if events != [] {
      var init, last := events[..|events| - 1], events[|events| - 1];
      AboveTwice(init, first, second);
      if last.num > first {
        var kept := Above(init, first);
        assert (kept + [last])[..|kept|] == kept;
      }
    }
  }

  lemma {:induction false} MaxNumIsLast(lines: seq<Line>)
    requires Ascending(Events(lines))
    ensures MaxNum(lines) == LastNum(Events(lines))
  {
    if lines != [] {
      var init, last := lines[..|lines| - 1], lines[|lines| - 1];
      if last.Logged? {
        var all := Events(lines);
        assert all[..|all| - 1] == Events(init);
        forall i, j | 0 <= i < j < |Events(init)| ensures Events(init)[i].num < Events(init)[j].num {
          assert all[i] == Events(init)[i] && all[j] == Events(init)[j];
        }
        MaxNumIsLast(init);
        if Events(init) != [] { assert all[|all| - 2].num < all[|all| - 1].num; }
      } else {
        MaxNumIsLast(init);
      }
    }
  }

  lemma LastOfBoth<T>(a: seq<T>, b: seq<T>)
    requires b != []
    ensures a + b != [] && (a + b)[..|a + b| - 1] == a + b[..|b| - 1] && (a + b)[|a + b| - 1] == b[|b| - 1]
  {
  }

  /** A prune decides line by line. */
  lemma {:induction false} PrunedSplits(a: seq<Line>, b: seq<Line>, mark: nat)
    ensures Pruned(a + b, mark) == Pruned(a, mark) + Pruned(b, mark)
    decreases |b|
  {
    if b == [] {
      assert a + b == a;
    } else {
      LastOfBoth(a, b);
      PrunedSplits(a, b[..|b| - 1], mark);
    }
  }

  lemma {:induction false} EventsSplit(a: seq<Line>, b: seq<Line>)
    ensures Events(a + b) == Events(a) + Events(b)
    decreases |b|
  {
    if b == [] {
      assert a + b == a;
    } else {
      LastOfBoth(a, b);
      EventsSplit(a, b[..|b| - 1]);
    }
  }

  lemma {:induction false} AboveSplits(a: seq<Event>, b: seq<Event>, mark: nat)
    ensures Above(a + b, mark) == Above(a, mark) + Above(b, mark)
    decreases |b|
  {
    if b == [] {
      assert a + b == a;
    } else {
      LastOfBoth(a, b);
      AboveSplits(a, b[..|b| - 1], mark);
    }
  }

  /** A prune keeps every line in its place but the acknowledged events: an unparseable line
      anywhere stays between what is left of the lines before it and of those after it. */
  lemma PruneKeepsPlaces(a: seq<Line>, line: Line, b: seq<Line>, mark: nat)
    ensures Pruned(a + [line] + b, mark)
            == if line.Logged? && line.ev.num <= mark then Pruned(a, mark) + Pruned(b, mark)
               else Pruned(a, mark) + [line] + Pruned(b, mark)
  {
    PrunedSplits(a + [line], b, mark);
    PrunedSplits(a, [line], mark);
    assert Pruned([line], mark) == if line.Logged? && line.ev.num <= mark then [] else [line];
  }

  /** A reader takes the events of a file in their places and passes over everything else. */
  lemma EventsKeepPlaces(a: seq<Line>, line: Line, b: seq<Line>, mark: nat)
    ensures Events(a + [line] + b) == Events(a) + (if line.Logged? then [line.ev] else []) + Events(b)
    ensures Above(Events(a + [line] + b), mark)
            == Above(Events(a), mark) + (if line.Logged? && line.ev.num > mark then [line.ev] else [])
               + Above(Events(b), mark)
  {
    EventsSplit(a + [line], b);
    EventsSplit(a, [line]);
    var own := if line.Logged? then [line.ev] else [];
    assert Events([line]) == own;
    AboveSplits(Events(a) + own, Events(b), mark);
    AboveSplits(Events(a), own, mark);
  }

  /** Pruning again is pruning once, through the higher mark. */
  lemma {:induction false} PruneAgain(lines: seq<Line>, first: nat, second: nat)
    ensures Pruned(Pruned(lines, first), second) == Pruned(lines, Max(first, second))
  {
    if lines != [] {
      var init, last := lines[..|lines| - 1], lines[|lines| - 1];
      PruneAgain(init, first, second);
      PrunedSplits(Pruned(init, first), [last], second);
    }
  }

  /** `e` is the first of the events under this number. */
  predicate FirstWith(events: seq<Event>, num: nat, e: Event) {
    exists i :: 0 <= i < |events| && events[i] == e && e.num == num && NoneWith(events[..i], num)
  }

  predicate NoneWith(events: seq<Event>, num: nat) { forall i :: 0 <= i < |events| ==> events[i].num != num }

  lemma FirstStays(init: seq<Event>, last: Event, num: nat, e: Event)
    ensures FirstWith(init, num, e) ==> FirstWith(init + [last], num, e)
    ensures NoneWith(init, num) && last.num == num ==> FirstWith(init + [last], num, last)
  {
    var all := init + [last];
    if FirstWith(init, num, e) {
      var i :| 0 <= i < |init| && init[i] == e && e.num == num && NoneWith(init[..i], num);
      assert all[i] == e && all[..i] == init[..i];
    }
    assert all[|init|] == last && all[..|init|] == init;
  }

  /** Under the number stands what stood there before, else the first event, and nothing only if
      there was none. */
  predicate KeepsFirst(chat: map<nat, Event>, events: seq<Event>, num: nat, after: map<nat, Event>) {
    && (num in chat ==> num in after && after[num] == chat[num])
    && (num !in chat && num in after ==> FirstWith(events, num, after[num]))
    && (num !in after ==> NoneWith(events, num))
  }

  lemma OneMoreRow(chat: map<nat, Event>, init: seq<Event>, num: nat, before: map<nat, Event>, last: Event)
    requires KeepsFirst(chat, init, num, before)
    ensures KeepsFirst(chat, init + [last], num, ChatInsert(before, last))
  {
    FirstStays(init, last, num, if num in before then before[num] else last);
  }

  /** The transcript keeps the first row written under a number. */
  lemma {:induction false} FirstRowKept(chat: map<nat, Event>, events: seq<Event>, num: nat)
    ensures KeepsFirst(chat, events, num, ChatInsertAll(chat, events))
  {
    if events != [] {
      var init, last := events[..|events| - 1], events[|events| - 1];
      FirstRowKept(chat, init, num);
      OneMoreRow(chat, init, num, ChatInsertAll(chat, init), last);
      assert events == init + [last];
    }
  }

  // ---- Facts about one batch ----

  lemma {:induction false} AckCovers(acked: nat, batch: seq<Event>)
    ensures AckAfter(acked, batch) >= acked
    ensures forall e :: e in batch ==> e.num <= AckAfter(acked, batch)
    ensures AckAfter(acked, batch) == acked || exists e :: e in batch && e.num == AckAfter(acked, batch)
  {
    if batch != [] {
      var init, last := batch[..|batch| - 1], batch[|batch| - 1];
      AckCovers(acked, init);
      assert batch == init + [last];
    }
  }

  /** Whatever the order of the batch, the numbers written by one handler strictly increase. */
  lemma {:induction false} WrittenAscends(acked: nat, batch: seq<Event>)
    ensures Ascending(Written(acked, batch))
    ensures forall e :: e in Written(acked, batch) ==> e in batch && acked < e.num <= AckAfter(acked, batch)
    ensures Written(acked, batch) == [] ==> AckAfter(acked, batch) == acked
    ensures Written(acked, batch) != [] ==> AckAfter(acked, batch) == LastNum(Written(acked, batch))
  {
    if batch != [] {
      var init, last := batch[..|batch| - 1], batch[|batch| - 1];
      WrittenAscends(acked, init);
      AckCovers(acked, init);
      assert batch == init + [last];
      var w := Written(acked, init);
      forall i | 0 <= i < |w| ensures w[i].num <= AckAfter(acked, init) { assert w[i] in w; }
    }
  }

  /** An ascending batch loses nothing above the acknowledgement it started from. */
  lemma {:induction false} WrittenIsAbove(acked: nat, batch: seq<Event>)
    requires Ascending(batch)
    ensures Written(acked, batch) == Above(batch, acked)
  {
    if batch != [] {
      var init, last := batch[..|batch| - 1], batch[|batch| - 1];
      WrittenIsAbove(acked, init);
      AckCovers(acked, init);
      if e :| e in init && e.num == AckAfter(acked, init) && AckAfter(acked, init) != acked {
        var i :| 0 <= i < |init| && init[i] == e;
        assert batch[i].num < batch[|batch| - 1].num;
      }
    }
  }

  /** One more event of the batch. */
  lemma StoreOneMore(readAcked: nat, batch: seq<Event>, i: nat, chat: map<nat, Event>)
    requires i < |batch|
    ensures var high, e, w := AckAfter(readAcked, batch[..i]), batch[i], Written(readAcked, batch[..i]);
            if e.num > high then
              && AckAfter(readAcked, batch[..i + 1]) == Max(high, e.num)
              && Written(readAcked, batch[..i + 1]) == w + [e]
              && ChatInsertAll(chat, w + [e]) == ChatInsert(ChatInsertAll(chat, w), e)
            else AckAfter(readAcked, batch[..i + 1]) == high && Written(readAcked, batch[..i + 1]) == w
  {
    assert batch[..i + 1][..i] == batch[..i];
    var w := Written(readAcked, batch[..i]);
    assert (w + [batch[i]])[..|w|] == w;
  }

  // ---- Taking an acknowledgement in ----

  /** Acknowledged events of a suspended agent are pruned, unless they were before. `busy` is
      what the supervisor answers when asked whether the journal is in use. */
  predicate Prunes(ack: nat, maxNum: nat, suspended: bool, busy: bool, lastPruned: nat) {
    ack >= maxNum && suspended && !busy && ack > lastPruned
  }

  /** The journal, the watermark and the prune mark after an acknowledgement. */
  function AckEffect(lines: seq<Line>, shipped: nat, lastPruned: nat,
                     ack: nat, maxNum: nat, suspended: bool, busy: bool): (seq<Line>, nat, nat)
  {
    var prunes := Prunes(ack, maxNum, suspended, busy, lastPruned);
    (if prunes then Pruned(lines, ack) else lines,
     if ack >= maxNum then ack else shipped,
     if prunes then ack else lastPruned)
  }

  /** What an acknowledgement does: nothing if it does not cover the batch; else the watermark moves
      to it, and a suspended agent's idle journal loses its acknowledged events, unless it was
      pruned as far before. */
  lemma AckOnFields(lines: seq<Line>, shipped: nat, lastPruned: nat, ack: nat, maxNum: nat, suspended: bool, busy: bool)
    ensures var (lines', shipped', lastPruned') := AckEffect(lines, shipped, lastPruned, ack, maxNum, suspended, busy);
            && (ack < maxNum ==> lines' == lines && shipped' == shipped && lastPruned' == lastPruned)
            && (ack >= maxNum ==> shipped' == ack)
            && (!suspended || busy || ack <= lastPruned ==> lines' == lines && lastPruned' == lastPruned)
            && (ack >= maxNum && suspended && !busy && ack > lastPruned ==>
                  lastPruned' == ack && Events(lines') == Above(Events(lines), ack))
  {
    PruneIsFilter(lines, ack);
  }
}
