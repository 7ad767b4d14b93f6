/**
 The durable message queue of one agent and its drain loop. A message is identified by its
 position in the queue: row ids grow in enqueue order. Messages may arrive at every await
 of the loop; a script says what arrives where, and whether each prompt succeeds.
 */
module MessageQueue {
  import Strings

  datatype Status = Queued | Waking | Delivered | Undeliverable

  datatype Message = Message(body: string, status: Status)

  predicate Settled(m: Message) { m.status == Delivered || m.status == Undeliverable }

  /** Positions of the undelivered messages, oldest first. */
  function Pending(q: seq<Message>): seq<nat> {
    if q == [] then []
    else
      var rest, m := Pending(q[..|q| - 1]), q[|q| - 1];
      if Settled(m) then rest else rest + [|q| - 1]
  }

  function Mark(q: seq<Message>, ids: seq<nat>, status: Status): (r: seq<Message>)
    ensures |r| == |q|
  {
    seq(|q|, i requires 0 <= i < |q| => if i in ids then q[i].(status := status) else q[i])
  }

  function Arrived(bodies: seq<string>): seq<Message> {
    seq(|bodies|, i requires 0 <= i < |bodies| => Message(bodies[i], Queued))
  }

  function Bodies(q: seq<Message>, ids: seq<nat>): seq<string>
    requires forall i :: 0 <= i < |ids| ==> ids[i] < |q|
  {
    seq(|ids|, i requires 0 <= i < |ids| => q[ids[i]].body)
  }

  const SEPARATOR: string := "\n\n---\n\n"

  /** What happens around one round: arrivals before each await, and the prompt's fate. */
  datatype Round = Round(beforeRead: seq<string>, beforeMark: seq<string>, duringPrompt: seq<string>, ok: bool)

  datatype Prompt = Prompt(ids: seq<nat>, body: string)

  datatype Flushed = Flushed(ok: bool, queue: seq<Message>, prompts: seq<Prompt>)

  /** The round that follows when nothing arrives any more. */
  function Quiet(ok: bool): Round { Round([], [], [], ok) }

  /** The queue as the round reads it. */
  function AtRead(q: seq<Message>, r: Round): seq<Message> { q + Arrived(r.beforeRead) }

  function RoundAt(script: seq<Round>, last: bool): Round { if script == [] then Quiet(last) else script[0] }
  function Later(script: seq<Round>): seq<Round> { if script == [] then [] else script[1..] }

  /** The queue when a round settles its batch. */
  function AfterRound(q: seq<Message>, r: Round): seq<Message> {
    var read := AtRead(q, r);
    var ids := Pending(read);
    var marked := Mark(read + Arrived(r.beforeMark), ids, Waking);
    Mark(marked + Arrived(r.duringPrompt), ids, if r.ok then Delivered else Undeliverable)
  }

  function BatchOf(q: seq<Message>, r: Round): Prompt {
    var read := AtRead(q, r);
    PendingPositions(read);
    Prompt(Pending(read), Strings.Join(Bodies(read, Pending(read)), SEPARATOR))
  }

  /** Drain until empty; once the script is over nothing arrives and prompts succeed or not as `last` says. */
  function Flush(q: seq<Message>, script: seq<Round>, last: bool): Flushed
    decreases |script|, |Pending(q)|
  {
    var r := RoundAt(script, last);
    if Pending(AtRead(q, r)) == [] then Flushed(true, AtRead(q, r), [])
    else if !r.ok then Flushed(false, AfterRound(q, r), [BatchOf(q, r)])
    else
      QuietRoundEmpties(q, last);
      var rest := Flush(AfterRound(q, r), Later(script), last);
      rest.(prompts := [BatchOf(q, r)] + rest.prompts)
  }

  predicate AscendingBelow(ids: seq<nat>, n: nat) {
    && (forall i, j :: 0 <= i < j < |ids| ==> ids[i] < ids[j])
    && (forall i :: 0 <= i < |ids| ==> ids[i] < n)
  }

  lemma {:induction false} PendingPositions(q: seq<Message>)
    ensures AscendingBelow(Pending(q), |q|)
    ensures forall i :: i in Pending(q) <==> 0 <= i < |q| && !Settled(q[i])
    ensures Pending(q) == [] <==> forall i :: 0 <= i < |q| ==> Settled(q[i])
  {
    if q != [] {
      PendingPositions(q[..|q| - 1]);
      assert forall i :: 0 <= i < |q| - 1 ==> q[..|q| - 1][i] == q[i];
    }
  }

  /** A successful round: its batch is delivered, later arrivals wait, the rest is untouched. */
  lemma RoundEffect(q: seq<Message>, r: Round)
    ensures var read, after := AtRead(q, r), AfterRound(q, r);
            && |after| >= |read| >= |q|
            && (forall i :: 0 <= i < |q| ==> after[i].body == q[i].body)
            && (forall i :: 0 <= i < |after| ==>
                  if i in Pending(read) then after[i].status == (if r.ok then Delivered else Undeliverable)
                  else if i < |q| then after[i] == q[i] else i >= |read| && after[i].status == Queued)
  {
    var read := AtRead(q, r);
    PendingPositions(read);
  }

  lemma QuietRoundEmpties(q: seq<Message>, last: bool)
    ensures Pending(AfterRound(q, Quiet(last))) == []
    ensures q + Arrived([]) == q
  {
    var after := AfterRound(q, Quiet(last));
    assert q + Arrived([]) == q;
    RoundEffect(q, Quiet(last));
    PendingPositions(q);
    PendingPositions(after);
  }

  // ---- Conservation and order ----

  /** Every position prompted, in prompt order. */
  function Taken(prompts: seq<Prompt>): seq<nat> {
    if prompts == [] then [] else prompts[0].ids + Taken(prompts[1..])
  }

  /** Positions the flush is responsible for: pending at its start, or arrived since. */
  predicate Due(q: seq<Message>, i: nat) { i >= |q| || !Settled(q[i]) }

  /** Messages of the batch whose prompt failed, if one did. */
  predicate InFailedBatch(f: Flushed, i: nat) { !f.ok && f.prompts != [] && i in f.prompts[|f.prompts| - 1].ids }

  /** No message disappears, and arrivals only append. */
  predicate NothingLost(q: seq<Message>, f: Flushed) {
    |f.queue| >= |q| && forall i :: 0 <= i < |q| ==> f.queue[i].body == q[i].body
  }

  /** Prompted at most once each, in enqueue order, and only what was due. */
  predicate PromptedInOrder(q: seq<Message>, f: Flushed) {
    && AscendingBelow(Taken(f.prompts), |f.queue|)
    && (forall i :: i in Taken(f.prompts) ==> Due(q, i))
    && (!f.ok ==> f.prompts != [])
  }

  /** What was taken is delivered, or undeliverable if its own prompt failed; the rest keeps its status. */
  predicate Outcomes(q: seq<Message>, f: Flushed) {
    forall i :: 0 <= i < |f.queue| ==>
      f.queue[i].status ==
        if i in Taken(f.prompts) then (if InFailedBatch(f, i) then Undeliverable else Delivered)
        else if i < |q| then q[i].status else Queued
  }

  predicate Conserves(q: seq<Message>, f: Flushed) {
    NothingLost(q, f) && PromptedInOrder(q, f) && Outcomes(q, f)
  }

  lemma ArrivalsArePending(q: seq<Message>, r: Round)
    requires r.beforeRead != []
    ensures Pending(AtRead(q, r)) != []
  {
    PendingPositions(AtRead(q, r));
    assert !Settled(AtRead(q, r)[|q|]);
  }

  lemma {:induction false} FlushConserves(q: seq<Message>, script: seq<Round>, last: bool)
    ensures Conserves(q, Flush(q, script, last))
    decreases |script|, |Pending(q)|
  {
    var r := RoundAt(script, last);
    var read := AtRead(q, r);
    if r.beforeRead != [] { ArrivalsArePending(q, r); }
    if Pending(read) == [] {
      assert read == q;
    } else if !r.ok {
      RoundEffect(q, r);
      FailedRoundConserves(q, r);
    } else {
      QuietRoundEmpties(q, last);
      var after := AfterRound(q, r);
      var script' := Later(script);
      FlushConserves(after, script', last);
      OneRoundThenRest(q, r, Flush(after, script', last));
    }
  }

  lemma FailedRoundConserves(q: seq<Message>, r: Round)
    requires !r.ok && Pending(AtRead(q, r)) != []
    ensures Conserves(q, Flushed(false, AfterRound(q, r), [BatchOf(q, r)]))
  {
    TakenOfOne(BatchOf(q, r));
    assert NothingLost(q, Flushed(false, AfterRound(q, r), [BatchOf(q, r)])) by { RoundEffect(q, r); }
    FailedBatchInOrder(q, r);
    FailedOutcomes(q, r);
  }

  lemma TakenOfOne(p: Prompt)
    ensures Taken([p]) == p.ids
  {
    assert [p][1..] == [];
  }

  lemma FailedBatchInOrder(q: seq<Message>, r: Round)
    ensures PromptedInOrder(q, Flushed(false, AfterRound(q, r), [BatchOf(q, r)]))
  {
    TakenOfOne(BatchOf(q, r));
    PendingPositions(AtRead(q, r));
  }

  lemma FailedOutcomes(q: seq<Message>, r: Round)
    requires !r.ok
    ensures Outcomes(q, Flushed(false, AfterRound(q, r), [BatchOf(q, r)]))
  {
    TakenOfOne(BatchOf(q, r));
    RoundEffect(q, r);
  }

  lemma OneRoundThenRest(q: seq<Message>, r: Round, rest: Flushed)
    requires r.ok && Conserves(AfterRound(q, r), rest)
    ensures Conserves(q, rest.(prompts := [BatchOf(q, r)] + rest.prompts))
  {
    var whole := rest.(prompts := [BatchOf(q, r)] + rest.prompts);
    assert whole.prompts[1..] == rest.prompts;
    assert Taken(whole.prompts) == Pending(AtRead(q, r)) + Taken(rest.prompts);
    RoundEffect(q, r);
    LaterAreLater(q, r, rest);
    assert Outcomes(q, whole) by { OutcomesCompose(q, r, rest, whole); }
  }

  lemma AscendingConcat(a: seq<nat>, b: seq<nat>, m: nat, n: nat)
    requires AscendingBelow(a, m) && AscendingBelow(b, n) && m <= n
    requires forall i :: i in b ==> i >= m
    ensures AscendingBelow(a + b, n)
  {
    assert forall k :: 0 <= k < |b| ==> b[k] in b;
  }

  /** What a successful round leaves due arrived after its read. */
  lemma DueAfterRound(q: seq<Message>, r: Round, i: nat)
    requires Due(AfterRound(q, r), i)
    ensures i >= |AtRead(q, r)|
  {
    RoundEffect(q, r);
    PendingPositions(AtRead(q, r));
  }

  lemma LaterAreLater(q: seq<Message>, r: Round, rest: Flushed)
    requires PromptedInOrder(AfterRound(q, r), rest) && NothingLost(AfterRound(q, r), rest)
    ensures var all := Pending(AtRead(q, r)) + Taken(rest.prompts);
            AscendingBelow(all, |rest.queue|) && forall i :: i in all ==> Due(q, i)
    ensures forall i :: i in Taken(rest.prompts) ==> i >= |AtRead(q, r)|
  {
    var read := AtRead(q, r);
    PendingPositions(read);
    assert |read| <= |rest.queue| by { RoundEffect(q, r); }
    forall i | i in Taken(rest.prompts) ensures i >= |read| { DueAfterRound(q, r, i); }
    AscendingConcat(Pending(read), Taken(rest.prompts), |read|, |rest.queue|);
  }

  lemma OutcomesCompose(q: seq<Message>, r: Round, rest: Flushed, whole: Flushed)
    requires r.ok && whole.ok == rest.ok && whole.queue == rest.queue
    requires whole.prompts == [BatchOf(q, r)] + rest.prompts && (!rest.ok ==> rest.prompts != [])
    requires Outcomes(AfterRound(q, r), rest)
    requires Taken(whole.prompts) == Pending(AtRead(q, r)) + Taken(rest.prompts)
    requires forall i :: i in Taken(rest.prompts) ==> i >= |AtRead(q, r)|
    ensures Outcomes(q, whole)
  {
    var read := AtRead(q, r);
    RoundEffect(q, r);
    PendingPositions(read);
    assert !rest.ok ==> whole.prompts[|whole.prompts| - 1] == rest.prompts[|rest.prompts| - 1];
    assert forall i :: InFailedBatch(whole, i) == InFailedBatch(rest, i);
    if !rest.ok { LastIsTaken(rest.prompts); }
  }

  lemma {:induction false} LastIsTaken(prompts: seq<Prompt>)
    requires prompts != []
    ensures forall i :: i in prompts[|prompts| - 1].ids ==> i in Taken(prompts)
  {
    if |prompts| > 1 { LastIsTaken(prompts[1..]); }
  }

  // ---- The theorem ----

  /** For every queue and everything that can arrive at any await: no message disappears; every
      message taken is prompted exactly once, in enqueue order, and ends delivered, or
      undeliverable if its own prompt failed; everything else keeps its status. On success the
      queue is drained and every message that was due has been taken. */
  lemma {:induction false} DrainConserves(q: seq<Message>, script: seq<Round>, last: bool)
    ensures var f := Flush(q, script, last);
            && Conserves(q, f)
            && (f.ok ==> Pending(f.queue) == []
                         && forall i :: 0 <= i < |f.queue| && Due(q, i) ==> i in Taken(f.prompts))
  {
    FlushConserves(q, script, last);
    var f := Flush(q, script, last);
    if f.ok {
      SuccessDrains(q, script, last);
      PendingPositions(f.queue);
    }
  }

  lemma {:induction false} SuccessDrains(q: seq<Message>, script: seq<Round>, last: bool)
    requires Flush(q, script, last).ok
    ensures Pending(Flush(q, script, last).queue) == []
    decreases |script|, |Pending(q)|
  {
    var r := RoundAt(script, last);
    if Pending(AtRead(q, r)) != [] {
      QuietRoundEmpties(q, last);
      SuccessDrains(AfterRound(q, r), Later(script), last);
    }
  }

  predicate Carries(queue: seq<Message>, p: Prompt) {
    && (forall i :: 0 <= i < |p.ids| ==> p.ids[i] < |queue|)
    && p.body == Strings.Join(Bodies(queue, p.ids), SEPARATOR)
  }

  predicate SameBodies(a: seq<Message>, b: seq<Message>) {
    |b| >= |a| && forall i :: 0 <= i < |a| ==> b[i].body == a[i].body
  }

  lemma CarriesStill(a: seq<Message>, b: seq<Message>, p: Prompt)
    requires Carries(a, p) && SameBodies(a, b)
    ensures Carries(b, p)
  {
    assert Bodies(a, p.ids) == Bodies(b, p.ids);
  }

  /** Each prompt is the bodies of the messages it took, oldest first, joined by the separator. */
  lemma {:induction false} PromptsCarryBodies(q: seq<Message>, script: seq<Round>, last: bool)
    ensures SameBodies(q, Flush(q, script, last).queue)
    ensures forall p :: p in Flush(q, script, last).prompts ==> Carries(Flush(q, script, last).queue, p)
    decreases |script|, |Pending(q)|
  {
    var r := RoundAt(script, last);
    if Pending(AtRead(q, r)) != [] {
      RoundKeepsBodies(q, r);
      if r.ok {
        QuietRoundEmpties(q, last);
        PromptsCarryBodies(AfterRound(q, r), Later(script), last);
      }
      CarriesStill(AtRead(q, r), Flush(q, script, last).queue, BatchOf(q, r));
    }
  }

  /** In each prompt the bodies of the messages it took stand one after the other, oldest first,
      with a blank line, three dashes and a blank line between neighbours, and nothing else. */
  lemma PromptsLayOutBodies(q: seq<Message>, script: seq<Round>, last: bool, p: Prompt) returns (at: seq<nat>)
    requires p in Flush(q, script, last).prompts
    ensures var queue := Flush(q, script, last).queue;
            && (forall i :: 0 <= i < |p.ids| ==> p.ids[i] < |queue|)
            && Strings.LaidOut(p.body, Bodies(queue, p.ids), "\n\n---\n\n", at)
  {
    PromptsCarryBodies(q, script, last);
    assert Carries(Flush(q, script, last).queue, p);
    at := Strings.JoinLaysOut(Bodies(Flush(q, script, last).queue, p.ids), SEPARATOR);
  }

  lemma RoundKeepsBodies(q: seq<Message>, r: Round)
    ensures SameBodies(q, AtRead(q, r)) && SameBodies(AtRead(q, r), AfterRound(q, r))
    ensures Carries(AtRead(q, r), BatchOf(q, r))
  {
    PendingPositions(AtRead(q, r));
  }

  /** One turn of the loop, and what is left to do after it. */
  lemma {:induction false} FlushTurn(q: seq<Message>, script: seq<Round>, last: bool)
    ensures var r, f := RoundAt(script, last), Flush(q, script, last);
            if Pending(AtRead(q, r)) == [] then f == Flushed(true, AtRead(q, r), [])
            else if !r.ok then f == Flushed(false, AfterRound(q, r), [BatchOf(q, r)])
            else
              && f == (var rest := Flush(AfterRound(q, r), Later(script), last);
                       rest.(prompts := [BatchOf(q, r)] + rest.prompts))
              && (|Later(script)| < |script| || |Pending(AfterRound(q, r))| < |Pending(q)|)
  {
    QuietRoundEmpties(q, last);
  }

  /** What was sent so far and what is still to come make up the whole flush. */
  ghost predicate Continues(whole: Flushed, sent0: seq<Prompt>, sent: seq<Prompt>, f: Flushed) {
    whole.ok == f.ok && whole.queue == f.queue && sent0 + whole.prompts == sent + f.prompts
  }

  lemma {:induction false} TurnContinues(whole: Flushed, sent0: seq<Prompt>, sent: seq<Prompt>,
                      q: seq<Message>, script: seq<Round>, last: bool)
    requires Continues(whole, sent0, sent, Flush(q, script, last))
    ensures var r := RoundAt(script, last);
            if Pending(AtRead(q, r)) == [] then
              whole == Flushed(true, AtRead(q, r), whole.prompts) && sent0 + whole.prompts == sent
            else if !r.ok then
              whole == Flushed(false, AfterRound(q, r), whole.prompts)
              && sent0 + whole.prompts == sent + [BatchOf(q, r)]
            else
              && Continues(whole, sent0, sent + [BatchOf(q, r)], Flush(AfterRound(q, r), Later(script), last))
              && (|Later(script)| < |script| || (script == [] && |Pending(AfterRound(q, r))| < |Pending(q)|))
  {
    FlushTurn(q, script, last);
    var r := RoundAt(script, last);
    var f := Flush(AfterRound(q, r), Later(script), last);
    assert sent + ([BatchOf(q, r)] + f.prompts) == (sent + [BatchOf(q, r)]) + f.prompts;
  }

  // ---- The store and the loop that drains it ----

  class Inbox {
    var messages: seq<Message>
    var sent: seq<Prompt>

    constructor ()
      ensures messages == [] && sent == []
    {
      messages, sent := [], [];
    }

    method Enqueue(body: string)
      modifies this`messages
      ensures messages == old(messages) + [Message(body, Queued)]
    {
      messages := messages + [Message(body, Queued)];
    }

    method EnqueueAll(bodies: seq<string>)
      modifies this`messages
      ensures messages == old(messages) + Arrived(bodies)
    {
      for i := 0 to |bodies|
        invariant messages == old(messages) + Arrived(bodies[..i])
      {
        assert Arrived(bodies[..i + 1]) == Arrived(bodies[..i]) + [Message(bodies[i], Queued)];
        Enqueue(bodies[i]);
      }
      assert bodies[..|bodies|] == bodies;
    }

    method SetStatus(ids: seq<nat>, status: Status)
      requires forall i :: 0 <= i < |ids| ==> ids[i] < |messages|
      modifies this`messages
      ensures messages == Mark(old(messages), ids, status)
    {
      for i := 0 to |ids|
        invariant messages == Mark(old(messages), ids[..i], status)
      {
        assert ids[..i + 1] == ids[..i] + [ids[i]];
        messages := messages[ids[i] := messages[ids[i]].(status := status)];
      }
      assert ids[..|ids|] == ids;
    }

    /** Mark the batch, prompt it, settle it by the prompt's outcome. */
    method PromptBatch(ids: seq<nat>, body: string, r: Round)
      requires forall i :: 0 <= i < |ids| ==> ids[i] < |messages|
      modifies this
      ensures messages == Mark(Mark(old(messages) + Arrived(r.beforeMark), ids, Waking) + Arrived(r.duringPrompt),
                               ids, if r.ok then Delivered else Undeliverable)
      ensures sent == old(sent) + [Prompt(ids, body)]
    {
      EnqueueAll(r.beforeMark);
      SetStatus(ids, Waking);
      sent := sent + [Prompt(ids, body)];
      EnqueueAll(r.duringPrompt);
      SetStatus(ids, if r.ok then Delivered else Undeliverable);
    }

    /** One turn of the loop, up to its exits. */
    method Turn(r: Round) returns (empty: bool)
      modifies this
      ensures empty == (Pending(AtRead(old(messages), r)) == [])
      ensures empty ==> messages == AtRead(old(messages), r) && sent == old(sent)
      ensures !empty ==> messages == AfterRound(old(messages), r) && sent == old(sent) + [BatchOf(old(messages), r)]
    {
      EnqueueAll(r.beforeRead);
      var ids := Pending(messages);
      PendingPositions(messages);
      if ids == [] { return true; }
      PromptBatch(ids, Strings.Join(Bodies(messages, ids), SEPARATOR), r);
      return false;
    }

    method FlushPending(script: seq<Round>, last: bool) returns (ok: bool)
      modifies this
      ensures var f := Flush(old(messages), script, last);
              ok == f.ok && messages == f.queue && sent == old(sent) + f.prompts
    {
      var rest := script;
      ghost var whole := Flush(messages, script, last);
      while true
        invariant Continues(whole, old(sent), sent, Flush(messages, rest, last))
        decreases |rest|, |Pending(messages)|
      {
        TurnContinues(whole, old(sent), sent, messages, rest, last);
        var r := RoundAt(rest, last);
        var empty := Turn(r);
        if empty { return true; }
        if !r.ok { return false; }
        rest := Later(rest);
      }
    }
  }
}
