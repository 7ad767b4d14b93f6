/**
 The incremental SSE parser of the client. A byte is one `char`; nothing below depends on
 its range. The streaming parser is a class with the buffer, the ready queue and the
 end-of-input flag of the original; it is proved against parsing the whole input at once.
 */
module Sse {
  import opened Wrappers
  import Strings

  datatype Message = Message(event: string, data: string)

  /** One item of the chunk stream, and one item of the message stream. */
  datatype Item = Chunk(bytes: string) | Fault(error: string)
  datatype Output = Parsed(m: Message) | Failed(error: string)

  // ---- Block boundaries ----

  /** The length of the block separator starting at `i`, 0 when there is none. */
  function SeparatorAt(buf: string, i: nat): nat {
    if i + 1 < |buf| && buf[i] == '\n' && buf[i + 1] == '\n' then 2
    else if i + 3 < |buf| && buf[i] == '\r' && buf[i + 1] == '\n' && buf[i + 2] == '\r' && buf[i + 3] == '\n' then 4
    else 0
  }

  function Shift(r: Option<(nat, nat)>, n: nat): Option<(nat, nat)> {
    match r
    case None => None
    case Some((len, end)) => Some((len + n, end + n))
  }

  /** The length of the first block and the end of its separator. */
  function BlockEnd(buf: string): (r: Option<(nat, nat)>)
    ensures r.Some? ==> r.value.0 < r.value.1 <= |buf|
  {
    if |buf| < 2 then None
    else if SeparatorAt(buf, 0) > 0 then Some((0, SeparatorAt(buf, 0)))
    else Shift(BlockEnd(buf[1..]), 1)
  }

  /** The search moves past every position without a separator. */
  lemma BlockEndFrom(buf: string, i: nat)
    requires i + 1 < |buf|
    ensures BlockEnd(buf[i..]) ==
            if SeparatorAt(buf, i) > 0 then Some((0, SeparatorAt(buf, i))) else Shift(BlockEnd(buf[i + 1..]), 1)
  {
    assert buf[i..][1..] == buf[i + 1..];
    assert SeparatorAt(buf[i..], 0) == SeparatorAt(buf, i);
  }

  method FindBlockEnd(buf: string) returns (r: Option<(nat, nat)>)
    ensures r == BlockEnd(buf)
  {
    var i: nat := 0;
    while i + 1 < |buf|
      invariant i <= |buf| && BlockEnd(buf) == Shift(BlockEnd(buf[i..]), i)
    {
      BlockEndFrom(buf, i);
      if buf[i] == '\n' && buf[i + 1] == '\n' { return Some((i, i + 2)); }
      if i + 3 < |buf| && buf[i] == '\r' && buf[i + 1] == '\n' && buf[i + 2] == '\r' && buf[i + 3] == '\n' {
        return Some((i, i + 4));
      }
      i := i + 1;
    }
    return None;
  }

  /** The boundary found is the first separator, and it is missed only if there is none. */
  lemma {:induction false} BlockEndIsFirst(buf: string)
    ensures match BlockEnd(buf)
            case None => forall i :: 0 <= i < |buf| ==> SeparatorAt(buf, i) == 0
            case Some((len, end)) =>
              SeparatorAt(buf, len) == end - len > 0 && forall i :: 0 <= i < len ==> SeparatorAt(buf, i) == 0
  {
    if |buf| >= 2 && SeparatorAt(buf, 0) == 0 {
      BlockEndIsFirst(buf[1..]);
      forall i | 0 < i < |buf| ensures SeparatorAt(buf, i) == SeparatorAt(buf[1..], i - 1) {}
    }
  }

  /** A boundary found in a prefix stays where it is when more input arrives. */
  lemma {:induction false} BlockEndStable(buf: string, more: string)
    requires BlockEnd(buf).Some?
    ensures BlockEnd(buf + more) == BlockEnd(buf)
  {
    if SeparatorAt(buf, 0) == 0 {
      BlockEndStable(buf[1..], more);
      assert (buf + more)[1..] == buf[1..] + more;
      BlockEndIsFirst(buf[1..]);
      assert SeparatorAt(buf + more, 0) == 0 by {
        var len := BlockEnd(buf[1..]).value.0;
        assert SeparatorAt(buf[1..], len) > 0;
      }
    }
  }

  /** The terminated blocks of an input, and what is left after them. */
  function CompleteBlocks(buf: string): seq<string>
    decreases |buf|
  {
    match BlockEnd(buf)
    case None => []
    case Some((len, end)) => [buf[..len]] + CompleteBlocks(buf[end..])
  }

  function Rest(buf: string): string
    decreases |buf|
  {
    match BlockEnd(buf)
    case None => buf
    case Some((len, end)) => Rest(buf[end..])
  }

  /** All blocks of an input, the unterminated last one included. */
  function Blocks(buf: string): seq<string> { CompleteBlocks(buf) + [Rest(buf)] }

  /** Blocks can be cut off as soon as they are complete. */
  lemma {:induction false} BlocksIncremental(buf: string, more: string)
    ensures CompleteBlocks(buf + more) == CompleteBlocks(buf) + CompleteBlocks(Rest(buf) + more)
    ensures Rest(buf + more) == Rest(Rest(buf) + more)
    decreases |buf|
  {
    match BlockEnd(buf)
    case None =>
    case Some((len, end)) =>
      BlockEndStable(buf, more);
      CutBoth(buf, more, len, end);
      BlocksIncremental(buf[end..], more);
  }

  lemma CutBoth(buf: string, more: string, len: nat, end: nat)
    requires len <= end <= |buf|
    ensures (buf + more)[..len] == buf[..len] && (buf + more)[end..] == buf[end..] + more
  {
  }

  lemma {:induction false} RestHasNoBlock(buf: string)
    ensures BlockEnd(Rest(buf)) == None && CompleteBlocks(Rest(buf)) == [] && Rest(Rest(buf)) == Rest(buf)
    decreases |buf|
  {
    match BlockEnd(buf)
    case None =>
    case Some((len, end)) => RestHasNoBlock(buf[end..]);
  }

  // ---- One block ----

  function IndexOf(s: string, c: char): (i: nat)
    ensures i <= |s| && (i < |s| ==> s[i] == c) && forall j :: 0 <= j < i ==> s[j] != c
  {
    if s == "" || s[0] == c then 0 else 1 + IndexOf(s[1..], c)
  }

  function StripCr(line: string): string {
    if line != "" && line[|line| - 1] == '\r' then line[..|line| - 1] else line
  }

  /** Text lines: a final unterminated line keeps a trailing carriage return. */
  function Lines(text: string): seq<string>
    decreases |text|
  {
    if text == "" then []
    else
      var n := IndexOf(text, '\n');
      if n == |text| then [text] else [StripCr(text[..n])] + Lines(text[n + 1..])
  }

  predicate IsSpace(c: char) { c == ' ' || 9 <= c as int <= 13 }

  function TrimStart(s: string): string {
    if s != "" && IsSpace(s[0]) then TrimStart(s[1..]) else s
  }

  function TrimEnd(s: string): string {
    if s != "" && IsSpace(s[|s| - 1]) then TrimEnd(s[..|s| - 1]) else s
  }

  function Trim(s: string): string { TrimEnd(TrimStart(s)) }

  const WHITESPACE: string := [' ', '\t', '\n', '\U{0B}', '\U{0C}', '\r']

  predicate AllSpace(s: string) { forall i :: 0 <= i < |s| ==> s[i] in WHITESPACE }

  lemma {:induction false} StartTrimmed(s: string) returns (before: string)
    ensures s == before + TrimStart(s) && AllSpace(before)
    ensures TrimStart(s) != "" ==> TrimStart(s)[0] !in WHITESPACE
  {
    if s != "" && IsSpace(s[0]) {
      var more := StartTrimmed(s[1..]);
      before := [s[0]] + more;
      Strings.HeadTail(s);
      Strings.Assoc([s[0]], more, TrimStart(s));
    } else {
      before := "";
    }
  }

  lemma SpaceAfter(more: string, c: char)
    requires AllSpace(more) && IsSpace(c)
    ensures AllSpace(more + [c])
  {
  }

  /** One more whitespace character at the end. */
  lemma EndTrims(init: string, c: char, more: string)
    requires IsSpace(c) && init == TrimEnd(init) + more
    ensures TrimEnd(init + [c]) == TrimEnd(init) && init + [c] == TrimEnd(init) + (more + [c])
  {
    assert (init + [c])[..|init|] == init;
    Strings.Assoc(TrimEnd(init), more, [c]);
  }

  lemma {:induction false} EndTrimmed(s: string) returns (after: string)
    ensures s == TrimEnd(s) + after && AllSpace(after)
    ensures TrimEnd(s) != "" ==> TrimEnd(s)[|TrimEnd(s)| - 1] !in WHITESPACE
  {
    if s != "" && IsSpace(s[|s| - 1]) {
      var init, c := s[..|s| - 1], s[|s| - 1];
      var more := EndTrimmed(init);
      after := more + [c];
      SpaceAfter(more, c);
      EndTrims(init, c, more);
      Strings.InitLast(s);
    } else {
      after := "";
    }
  }

  /** Trimming takes away whitespace at both ends, all of it, and nothing else. */
  lemma TrimMeans(s: string) returns (before: string, after: string)
    ensures s == before + Trim(s) + after && AllSpace(before) && AllSpace(after)
    ensures Trim(s) != "" ==> Trim(s)[0] !in WHITESPACE && Trim(s)[|Trim(s)| - 1] !in WHITESPACE
  {
    before := StartTrimmed(s);
    after := EndTrimmed(TrimStart(s));
    Strings.Assoc(before, Trim(s), after);
    if Trim(s) != "" { Strings.Front(Trim(s), after); }
  }

  const EVENT: string := "event:"
  const DATA: string := "data:"

  function DropSpace(v: string): string { if v != "" && v[0] == ' ' then v[1..] else v }

  /** The event name and data lines gathered from a block's lines. */
  function Fields(lines: seq<string>): (string, seq<string>) {
    if lines == [] then ("", [])
    else
      var (event, data) := Fields(lines[..|lines| - 1]);
      var line := lines[|lines| - 1];
      if ":" <= line then (event, data)
      else if EVENT <= line then (Trim(line[|EVENT|..]), data)
      else if DATA <= line then (event, data + [DropSpace(line[|DATA|..])])
      else (event, data)
  }

  function BlockMessage(block: string): Option<Message> {
    var (event, data) := Fields(Lines(block));
    if data == [] then None else Some(Message(event, Strings.Join(data, "\n")))
  }

  method ParseBlock(block: string) returns (r: Option<Message>)
    ensures r == BlockMessage(block)
  {
    var event, data: seq<string> := "", [];
    var lines := Lines(block);
    for i := 0 to |lines|
      invariant (event, data) == Fields(lines[..i])
    {
      assert lines[..i + 1][..i] == lines[..i];
      var line := lines[i];
      if ":" <= line { continue; }
      if EVENT <= line {
        event := Trim(line[|EVENT|..]);
      } else if DATA <= line {
        data := data + [DropSpace(line[|DATA|..])];
      }
    }
    assert lines[..|lines|] == lines;
    if data == [] { return None; }
    return Some(Message(event, Strings.Join(data, "\n")));
  }

  /** The messages of a list of blocks, in order. */
  function Messages(blocks: seq<string>): seq<Output> {
    if blocks == [] then []
    else OutputOf(blocks[0]) + Messages(blocks[1..])
  }

  function Found(m: Option<Message>): seq<Message> { if m.Some? then [m.value] else [] }

  function AsOutputs(ready: seq<Message>): seq<Output> {
    seq(|ready|, i requires 0 <= i < |ready| => Parsed(ready[i]))
  }

  function OutputOf(block: string): seq<Output> { AsOutputs(Found(BlockMessage(block))) }

  lemma {:induction false} MessagesAppend(a: seq<string>, b: seq<string>)
    ensures Messages(a + b) == Messages(a) + Messages(b)
  {
    if a == [] {
      assert a + b == b;
    } else {
      MessagesAppend(a[1..], b);
      ConsBlocks(a, b);
      Assoc(OutputOf(a[0]), Messages(a[1..]), Messages(b));
    }
  }

  lemma ConsBlocks(a: seq<string>, b: seq<string>)
    requires a != []
    ensures (a + b)[0] == a[0] && (a + b)[1..] == a[1..] + b
  {
  }

  // ---- The stream ----

  /** Everything the parser will still emit from its buffer and the remaining chunks. */
  function Pending(buf: string, chunks: seq<Item>, eof: bool): seq<Output>
    decreases |chunks|, !eof, 1
  {
    Messages(CompleteBlocks(buf)) + Later(Rest(buf), chunks, eof)
  }

  /** The same once the buffer holds no complete block. */
  function Later(rest: string, chunks: seq<Item>, eof: bool): seq<Output>
    decreases |chunks|, !eof, 0
  {
    if eof then Messages([rest])
    else if chunks == [] then Pending(rest, [], true)
    else match chunks[0]
         case Fault(e) => [Failed(e)] + Pending(rest, chunks[1..], true)
         case Chunk(c) => Pending(rest + c, chunks[1..], c == "")
  }

  lemma AsOutputsAppend(ready: seq<Message>, more: seq<Message>)
    ensures AsOutputs(ready + more) == AsOutputs(ready) + AsOutputs(more)
  {
  }

  lemma PendingFirstBlock(buf: string, chunks: seq<Item>, eof: bool)
    requires BlockEnd(buf).Some?
    ensures var (len, end) := BlockEnd(buf).value;
            Pending(buf, chunks, eof) == AsOutputs(Found(BlockMessage(buf[..len]))) + Pending(buf[end..], chunks, eof)
  {
    var (len, end) := BlockEnd(buf).value;
    var first, others := Messages([buf[..len]]), CompleteBlocks(buf[end..]);
    MessagesAppend([buf[..len]], others);
    MessagesOfOne(buf[..len]);
    Assoc(first, Messages(others), Later(Rest(buf), chunks, eof));
  }

  lemma MessagesOfOne(block: string)
    ensures Messages([block]) == AsOutputs(Found(BlockMessage(block)))
  {
    assert [block][1..] == [];
  }

  lemma DrainStep(ready: seq<Message>, buf: string, chunks: seq<Item>, eof: bool)
    requires BlockEnd(buf).Some?
    ensures var (len, end) := BlockEnd(buf).value;
            var m := BlockMessage(buf[..len]);
            AsOutputs(ready) + Pending(buf, chunks, eof)
            == AsOutputs(if m.Some? then ready + [m.value] else ready) + Pending(buf[end..], chunks, eof)
  {
    var (len, end) := BlockEnd(buf).value;
    var found := Found(BlockMessage(buf[..len]));
    PendingFirstBlock(buf, chunks, eof);
    AsOutputsAppend(ready, found);
    assert ready + [] == ready;
    Assoc(AsOutputs(ready), AsOutputs(found), Pending(buf[end..], chunks, eof));
  }

  lemma PendingWithoutBlock(buf: string, chunks: seq<Item>, eof: bool)
    requires BlockEnd(buf) == None
    ensures Pending(buf, chunks, eof) == Later(buf, chunks, eof)
  {
  }

  class SseStream {
    var chunks: seq<Item>
    var buf: string
    var ready: seq<Message>
    var eof: bool

    /** The messages (and at most one error) still to come. */
    function Future(): seq<Output>
      reads this
    {
      AsOutputs(ready) + Pending(buf, chunks, eof)
    }

    constructor (chunks: seq<Item>)
      ensures Future() == Pending("", chunks, false)
    {
      this.chunks, buf, ready, eof := chunks, "", [], false;
    }

    /** Move every complete block of the buffer to the ready queue. */
    method DrainBlocks()
      modifies this`buf, this`ready
      ensures Future() == old(Future())
      ensures BlockEnd(buf) == None
    {
      var found := FindBlockEnd(buf);
      while found.Some?
        invariant found == BlockEnd(buf)
        invariant Future() == old(Future())
        decreases |buf|
      {
        var (len, end) := found.value;
        DrainStep(ready, buf, chunks, eof);
        var m := ParseBlock(buf[..len]);
        if m.Some? { ready := ready + [m.value]; }
        buf := buf[end..];
        found := FindBlockEnd(buf);
      }
    }

    method PopReady() returns (o: Output)
      requires ready != []
      modifies this`ready
      ensures old(Future()) == [o] + Future()
    {
      o := Parsed(ready[0]);
      assert AsOutputs(ready) == [o] + AsOutputs(ready[1..]);
      ready := ready[1..];
    }

    /** Take the next chunk in; a transport error is passed on and ends the input. */
    method TakeChunk() returns (r: Option<Output>)
      requires ready == [] && BlockEnd(buf) == None && !eof
      modifies this
      ensures ready == [] && (|chunks| < old(|chunks|) || (chunks == old(chunks) && eof))
      ensures old(Future()) == (if r.Some? then [r.value] else []) + Future()
    {
      PendingWithoutBlock(buf, chunks, eof);
      PendingWithoutBlock(buf, [], true);
      r := None;
      if chunks == [] {
        eof := true;
      } else {
        var next := chunks[0];
        chunks := chunks[1..];
        match next {
          case Chunk(c) =>
            if c == "" { eof := true; assert buf + c == buf; } else { buf := buf + c; }
          case Fault(e) =>
            eof := true;
            r := Some(Failed(e));
        }
      }
    }

    /** At the end of input the unterminated block is emitted too, once. */
    method Finish() returns (r: Option<Output>)
      requires ready == [] && BlockEnd(buf) == None && eof
      modifies this`buf
      ensures match r
              case Some(o) => old(Future()) == [o] + Future()
              case None => old(Future()) == [] && Future() == []
    {
      PendingWithoutBlock(buf, chunks, eof);
      MessagesOfOne(buf);
      var last := ParseBlock(buf);
      match last {
        case Some(m) =>
          buf := "";
          assert Fields([]) == ("", []);
          PendingWithoutBlock(buf, chunks, eof);
          MessagesOfOne(buf);
          return Some(Parsed(m));
        case None => return None;
      }
    }

    /** The next item of the message stream, None at its end. */
    method Poll() returns (r: Option<Output>)
      modifies this
      ensures match r
              case Some(o) => old(Future()) == [o] + Future()
              case None => old(Future()) == [] && Future() == []
    {
      while true
        invariant Future() == old(Future())
        decreases |chunks|, !eof
      {
        if ready == [] { DrainBlocks(); }
        if ready != [] {
          var o := PopReady();
          return Some(o);
        }
        if eof {
          r := Finish();
          return;
        }
        r := TakeChunk();
        if r.Some? { return; }
      }
    }

    /** Poll to the end. */
    method Collect() returns (all: seq<Output>)
      modifies this
      ensures all == old(Future()) && Future() == []
    {
      all := [];
      while true
        invariant all + Future() == old(Future())
        decreases |Future()|
      {
        var r := Poll();
        if r.None? { return; }
        all := all + [r.value];
      }
    }
  }

  // ---- Streaming refines whole-input parsing ----

  /** The bytes before the first end marker, error or end of the chunk stream. */
  function Payload(chunks: seq<Item>): string {
    if chunks == [] || chunks[0].Fault? || chunks[0].bytes == "" then ""
    else chunks[0].bytes + Payload(chunks[1..])
  }

  /** The transport error that ends the input, if one does. */
  function Ending(chunks: seq<Item>): seq<Output> {
    if chunks == [] then []
    else match chunks[0]
         case Fault(e) => [Failed(e)]
         case Chunk(c) => if c == "" then [] else Ending(chunks[1..])
  }

  /** What whole-input parsing says: the complete blocks of the input, then the transport error
      if there was one, then the unterminated last block. */
  function WholeParse(whole: string, ending: seq<Output>): seq<Output> {
    Messages(CompleteBlocks(whole)) + (ending + Messages([Rest(whole)]))
  }

  lemma Assoc(a: seq<Output>, b: seq<Output>, c: seq<Output>)
    ensures (a + b) + c == a + (b + c)
  {
  }

  /** Whole-input parsing can be done in two steps, keeping only the rest of the first. */
  lemma WholeParseStep(buf: string, more: string, ending: seq<Output>)
    ensures WholeParse(buf + more, ending)
            == Messages(CompleteBlocks(buf)) + WholeParse(Rest(buf) + more, ending)
  {
    BlocksIncremental(buf, more);
    var done, later := CompleteBlocks(buf), CompleteBlocks(Rest(buf) + more);
    MessagesAppend(done, later);
    Assoc(Messages(done), Messages(later), ending + Messages([Rest(buf + more)]));
  }

  /** Whatever the chunking, the stream yields what whole-input parsing says. */
  lemma {:induction false} StreamingIsWholeInput(buf: string, chunks: seq<Item>)
    ensures Pending(buf, chunks, false) == WholeParse(buf + Payload(chunks), Ending(chunks))
    decreases |chunks|
  {
    var rest := Rest(buf);
    RestHasNoBlock(buf);
    if chunks == [] || chunks[0].Fault? || chunks[0].bytes == "" {
      assert buf + Payload(chunks) == buf;
      EndOfInput(rest, chunks);
    } else {
      var c, tail := chunks[0].bytes, Payload(chunks[1..]);
      assert Later(rest, chunks, false) == Pending(rest + c, chunks[1..], false);
      StreamingIsWholeInput(rest + c, chunks[1..]);
      assert rest + c + tail == rest + (c + tail);
      WholeParseStep(buf, c + tail, Ending(chunks));
    }
  }

  lemma EndOfInput(rest: string, chunks: seq<Item>)
    requires BlockEnd(rest) == None
    requires chunks == [] || chunks[0].Fault? || chunks[0].bytes == ""
    ensures Later(rest, chunks, false) == Ending(chunks) + Messages([rest])
  {
    assert rest + "" == rest;
    if chunks != [] { PendingWithoutBlock(rest, chunks[1..], true); }
    PendingWithoutBlock(rest, [], true);
  }

  function AsChunks(pieces: seq<string>): seq<Item> {
    seq(|pieces|, i requires 0 <= i < |pieces| => Chunk(pieces[i]))
  }

  function Concat(pieces: seq<string>): string {
    if pieces == [] then "" else pieces[0] + Concat(pieces[1..])
  }

  lemma {:induction false} PiecesPayload(pieces: seq<string>)
    requires forall i :: 0 <= i < |pieces| ==> pieces[i] != ""
    ensures Payload(AsChunks(pieces)) == Concat(pieces) && Ending(AsChunks(pieces)) == []
  {
    if pieces != [] {
      PiecesPayload(pieces[1..]);
      assert AsChunks(pieces)[1..] == AsChunks(pieces[1..]);
    }
  }

  /** For every input and every split of it into non-empty chunks the stream yields exactly the
      messages of the blocks of the input, the unterminated last one included. */
  lemma {:induction false} ChunkingDoesNotMatter(pieces: seq<string>)
    requires forall i :: 0 <= i < |pieces| ==> pieces[i] != ""
    ensures Pending("", AsChunks(pieces), false) == Messages(Blocks(Concat(pieces)))
  {
    var whole := Concat(pieces);
    assert Pending("", AsChunks(pieces), false) == WholeParse(whole, []) by {
      PiecesPayload(pieces);
      StreamingIsWholeInput("", AsChunks(pieces));
      assert "" + whole == whole;
    }
    MessagesAppend(CompleteBlocks(whole), [Rest(whole)]);
  }

  method ParseStream(pieces: seq<string>) returns (all: seq<Output>)
    requires forall i :: 0 <= i < |pieces| ==> pieces[i] != ""
    ensures all == Messages(Blocks(Concat(pieces)))
  {
    var stream := new SseStream(AsChunks(pieces));
    all := stream.Collect();
    ChunkingDoesNotMatter(pieces);
  }
}
