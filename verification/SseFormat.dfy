/**
 The event-stream format as a sender may write it (sections 9.2.5 and 9.2.6 of the WHATWG HTML
 standard, for line ends LF and CRLF), and the round trip through the parser.
 */
module SseFormat {
  import opened Wrappers
  import Strings
  import opened Sse

  // ---- What a sender writes ----

  /** A line: an event name with blanks around it, data after the colon or after a space, a
      comment, or a line the client ignores. */
  datatype SentLine =
    | EventLine(before: string, name: string, after: string)
    | DataLine(spaced: bool, text: string)
    | CommentLine(text: string)
    | OtherLine(text: string)

  datatype Ended = Ended(line: SentLine, crlf: bool)

  function Written(l: SentLine): string {
    match l
    case EventLine(before, name, after) => "event:" + (before + name + after)
    case DataLine(spaced, text) => "data:" + if spaced then " " + text else text
    case CommentLine(text) => ":" + text
    case OtherLine(text) => text
  }

  predicate Plain(s: string) { '\n' !in s && '\r' !in s }

  /** Blanks that may surround an event name. */
  predicate Blank(s: string) {
    forall i :: 0 <= i < |s| ==> s[i] == ' ' || s[i] == '\t' || s[i] as int == 11 || s[i] as int == 12
  }

  predicate White(c: char) { c in " \t\n\r" || c as int == 11 || c as int == 12 }

  predicate Bare(s: string) { s != "" ==> !White(s[0]) && !White(s[|s| - 1]) }

  predicate Proper(l: SentLine) {
    match l
    case EventLine(before, name, after) => Blank(before) && Blank(after) && Plain(name) && Bare(name)
    case DataLine(spaced, text) => Plain(text) && (spaced || text == "" || text[0] != ' ')
    case CommentLine(text) => Plain(text)
    case OtherLine(text) => Plain(text) && !(":" <= text) && !("event:" <= text) && !("data:" <= text)
  }

  /** A block: at least one line, none empty but possibly the first. */
  predicate Sendable(ls: seq<Ended>) {
    && ls != []
    && (forall i :: 0 <= i < |ls| ==> Proper(ls[i].line))
    && (forall i :: 0 < i < |ls| ==> Written(ls[i].line) != "")
  }

  function End(crlf: bool): string { if crlf then "\r\n" else "\n" }

  /** The lines with their ends between them. */
  function Body(ls: seq<Ended>): string {
    if ls == [] then ""
    else if |ls| == 1 then Written(ls[0].line) else Written(ls[0].line) + End(ls[0].crlf) + Body(ls[1..])
  }

  /** The last line ends, and an empty line with the same end closes the block. */
  function Closing(ls: seq<Ended>): string {
    if ls == [] then "" else End(ls[|ls| - 1].crlf) + End(ls[|ls| - 1].crlf)
  }

  function Encode(blocks: seq<seq<Ended>>): string {
    if blocks == [] then "" else Body(blocks[0]) + Closing(blocks[0]) + Encode(blocks[1..])
  }

  // ---- What it means ----

  /** The name on the last event line, empty when there is none. */
  function EventOf(ls: seq<Ended>): string {
    if ls == [] then ""
    else if ls[|ls| - 1].line.EventLine? then ls[|ls| - 1].line.name
    else EventOf(ls[..|ls| - 1])
  }

  /** The texts of the data lines, in order. */
  function DataOf(ls: seq<Ended>): seq<string> {
    if ls == [] then []
    else
      var init, last := DataOf(ls[..|ls| - 1]), ls[|ls| - 1].line;
      if last.DataLine? then init + [last.text] else init
  }

  /** A block with data is one message; any other block is none. */
  function Meaning(ls: seq<Ended>): seq<Output> {
    if DataOf(ls) == [] then [] else [Parsed(Message(EventOf(ls), Strings.Join(DataOf(ls), "\n")))]
  }

  function Received(blocks: seq<seq<Ended>>): seq<Output> {
    if blocks == [] then [] else Meaning(blocks[0]) + Received(blocks[1..])
  }

  // ---- Cutting out a block ----

  /** The rest of a block from inside its first line on: the line's own rest, then the others. */
  function From(text: string, crlf: bool, rest: seq<Ended>): string {
    if rest == [] then text else text + End(crlf) + Body(rest)
  }

  function Sealed(text: string, crlf: bool, rest: seq<Ended>, tail: string): string {
    From(text, crlf, rest) + (if rest == [] then End(crlf) + End(crlf) else Closing(rest)) + tail
  }

  predicate FullLines(ls: seq<Ended>) {
    forall i :: 0 <= i < |ls| ==> Plain(Written(ls[i].line)) && Written(ls[i].line) != ""
  }

  lemma SealedFront(text: string, crlf: bool, rest: seq<Ended>, tail: string)
    requires text != ""
    ensures From(text, crlf, rest) != "" && From(text, crlf, rest)[0] == text[0]
    ensures Sealed(text, crlf, rest, tail) == [text[0]] + Sealed(text[1..], crlf, rest, tail)
    ensures |From(text, crlf, rest)| == 1 + |From(text[1..], crlf, rest)|
  {
    Strings.HeadTail(text);
    var head, short := [text[0]], text[1..];
    if rest == [] {
      Strings.Assoc(head, short, End(crlf) + End(crlf));
      Strings.Assoc(head, short + (End(crlf) + End(crlf)), tail);
    } else {
      Strings.Assoc(head, short, End(crlf));
      Strings.Assoc(head, short + End(crlf), Body(rest));
      Strings.Assoc(head, short + End(crlf) + Body(rest), Closing(rest));
      Strings.Assoc(head, short + End(crlf) + Body(rest) + Closing(rest), tail);
    }
  }

  /** The end of one line, then the next. */
  lemma SealedEnd(crlf: bool, rest: seq<Ended>, tail: string)
    requires rest != []
    ensures var next := Sealed(Written(rest[0].line), rest[0].crlf, rest[1..], tail);
            Sealed("", crlf, rest, tail) == End(crlf) + next
    ensures From("", crlf, rest) == End(crlf) + From(Written(rest[0].line), rest[0].crlf, rest[1..])
  {
    BodyFrom(rest);
    var body := Body(rest);
    assert "" + End(crlf) == End(crlf);
    Strings.Assoc(End(crlf), body, Closing(rest));
    Strings.Assoc(End(crlf), body + Closing(rest), tail);
  }

  lemma BodyFrom(ls: seq<Ended>)
    requires ls != []
    ensures Body(ls) == From(Written(ls[0].line), ls[0].crlf, ls[1..])
    ensures |ls| > 1 ==> Closing(ls) == Closing(ls[1..])
  {
  }

  /** One character in front that starts no separator moves the boundary by one. */
  lemma OneBefore(c: char, s: string)
    requires |s| >= 1 && SeparatorAt([c] + s, 0) == 0
    ensures BlockEnd([c] + s) == Shift(BlockEnd(s), 1)
  {
    assert ([c] + s)[1..] == s;
  }

  /** A line end in front of a line that is not empty starts no separator. */
  lemma EndBefore(crlf: bool, s: string)
    requires |s| >= 1 && s[0] != '\n' && s[0] != '\r'
    ensures BlockEnd(End(crlf) + s) == Shift(BlockEnd(s), |End(crlf)|)
  {
    if crlf { ReturnBefore(s); } else { NewlineBefore(s); }
  }

  lemma ReturnBefore(s: string)
    requires |s| >= 1 && s[0] != '\n' && s[0] != '\r'
    ensures BlockEnd("\r\n" + s) == Shift(BlockEnd(s), 2)
  {
    var t := "\n" + s;
    assert "\r\n" + s == ['\r'] + t;
    assert SeparatorAt(['\r'] + t, 0) == 0;
    OneBefore('\r', t);
    NewlineBefore(s);
  }

  lemma NewlineBefore(s: string)
    requires |s| >= 1 && s[0] != '\n' && s[0] != '\r'
    ensures BlockEnd("\n" + s) == Shift(BlockEnd(s), 1)
  {
    OneBefore('\n', s);
  }

  lemma ClosesAtOnce(crlf: bool, tail: string)
    ensures BlockEnd(End(crlf) + End(crlf) + tail) == Some((0, |End(crlf) + End(crlf)|))
  {
    var s := End(crlf) + End(crlf) + tail;
    assert s[0] == End(crlf)[0] && SeparatorAt(s, 0) == |End(crlf) + End(crlf)|;
  }

  predicate IsCut(text: string, crlf: bool, rest: seq<Ended>, tail: string) {
    var block, whole := From(text, crlf, rest), Sealed(text, crlf, rest, tail);
    |whole| >= |tail| && BlockEnd(whole) == Some((|block|, |whole| - |tail|))
  }

  lemma CutInLine(text: string, crlf: bool, rest: seq<Ended>, tail: string)
    requires text != "" && Plain(text) && IsCut(text[1..], crlf, rest, tail)
    ensures IsCut(text, crlf, rest, tail)
  {
    SealedFront(text, crlf, rest, tail);
    assert text[0] in text;
    OneBefore(text[0], Sealed(text[1..], crlf, rest, tail));
  }

  lemma StartsInLine(rest: seq<Ended>, tail: string)
    requires rest != [] && FullLines(rest)
    ensures var sealed := Sealed(Written(rest[0].line), rest[0].crlf, rest[1..], tail);
            sealed != "" && sealed[0] != '\n' && sealed[0] != '\r'
  {
    var next: string := Written(rest[0].line);
    SealedFront(next, rest[0].crlf, rest[1..], tail);
    assert Plain(next) && next[0] in next;
  }

  lemma CutAtLineEnd(crlf: bool, rest: seq<Ended>, tail: string)
    requires rest != [] && IsCut(Written(rest[0].line), rest[0].crlf, rest[1..], tail)
    requires var sealed := Sealed(Written(rest[0].line), rest[0].crlf, rest[1..], tail);
             sealed != "" && sealed[0] != '\n' && sealed[0] != '\r'
    ensures IsCut("", crlf, rest, tail)
  {
    var next: string := Written(rest[0].line);
    SealedEnd(crlf, rest, tail);
    EndCut(crlf, Sealed(next, rest[0].crlf, rest[1..], tail), From(next, rest[0].crlf, rest[1..]),
           Sealed("", crlf, rest, tail), From("", crlf, rest), tail);
  }

  lemma EndCut(crlf: bool, sealed: string, block: string, whole: string, all: string, tail: string)
    requires |sealed| >= 1 && sealed[0] != '\n' && sealed[0] != '\r' && |sealed| >= |tail|
    requires BlockEnd(sealed) == Some((|block|, |sealed| - |tail|))
    requires whole == End(crlf) + sealed && all == End(crlf) + block
    ensures |whole| >= |tail| && BlockEnd(whole) == Some((|all|, |whole| - |tail|))
  {
    EndBefore(crlf, sealed);
  }

  lemma CutAtBlockEnd(crlf: bool, tail: string)
    ensures IsCut("", crlf, [], tail)
  {
    ClosesAtOnce(crlf, tail);
    assert Sealed("", crlf, [], tail) == End(crlf) + End(crlf) + tail;
  }

  /** No separator hides inside a block of plain lines, whatever their ends. */
  lemma {:induction false} CutExactly(text: string, crlf: bool, rest: seq<Ended>, tail: string)
    requires Plain(text) && FullLines(rest)
    ensures IsCut(text, crlf, rest, tail)
    decreases |rest|, |text|
  {
    if text != "" {
      CutExactly(text[1..], crlf, rest, tail);
      CutInLine(text, crlf, rest, tail);
    } else if rest == [] {
      CutAtBlockEnd(crlf, tail);
    } else {
      CutExactly(Written(rest[0].line), rest[0].crlf, rest[1..], tail);
      StartsInLine(rest, tail);
      CutAtLineEnd(crlf, rest, tail);
    }
  }

  // ---- Reading the lines of a block ----

  lemma Delimited(text: string, n: nat, c: char)
    requires n < |text| && text[n] == c && c !in text[..n]
    ensures IndexOf(text, c) == n
  {
    assert forall j :: 0 <= j < n ==> text[..n][j] == text[j];
  }

  /** The line as it stands before its newline. */
  function Raw(first: string, crlf: bool): string { if crlf then first + "\r" else first }

  lemma RawLine(first: string, crlf: bool)
    requires Plain(first)
    ensures first + End(crlf) == Raw(first, crlf) + "\n"
    ensures '\n' !in Raw(first, crlf) && StripCr(Raw(first, crlf)) == first
  {
    if crlf {
      Strings.Assoc(first, "\r", "\n");
      assert (first + "\r")[..|first|] == first;
    } else if first != "" {
      assert first[|first| - 1] in first;
    }
  }

  lemma RawFirst(raw: string, rest: string)
    requires '\n' !in raw
    ensures Lines(raw + "\n" + rest) == [StripCr(raw)] + Lines(rest)
  {
    var text := raw + "\n" + rest;
    assert text[..|raw|] == raw && text[|raw| + 1..] == rest;
    Delimited(text, |raw|, '\n');
  }

  lemma FirstLine(first: string, crlf: bool, rest: string)
    requires Plain(first)
    ensures Lines(first + End(crlf) + rest) == [first] + Lines(rest)
  {
    RawLine(first, crlf);
    RawFirst(Raw(first, crlf), rest);
  }

  lemma OnlyLine(only: string)
    requires Plain(only)
    ensures Lines(only) == if only == "" then [] else [only]
  {
    if only != "" { assert IndexOf(only, '\n') == |only|; }
  }

  function Texts(ls: seq<Ended>): seq<string> {
    seq(|ls|, i requires 0 <= i < |ls| => Written(ls[i].line))
  }

  lemma {:induction false} LinesOfBody(ls: seq<Ended>)
    requires ls != [] && forall i :: 0 <= i < |ls| ==> Plain(Written(ls[i].line))
    requires forall i :: 0 < i < |ls| ==> Written(ls[i].line) != ""
    ensures Lines(Body(ls)) == if |ls| == 1 && Written(ls[0].line) == "" then [] else Texts(ls)
  {
    if |ls| == 1 {
      OnlyLine(Written(ls[0].line));
    } else {
      LinesOfBody(ls[1..]);
      assert Written(ls[1].line) != "";
      FirstLine(Written(ls[0].line), ls[0].crlf, Body(ls[1..]));
      TextsSplit(ls);
    }
  }

  lemma TextsSplit(ls: seq<Ended>)
    requires ls != []
    ensures Texts(ls) == [Written(ls[0].line)] + Texts(ls[1..])
  {
  }

  // ---- What the client makes of a line ----

  lemma {:induction false} TrimStartBlank(before: string, rest: string)
    requires Blank(before) && (rest == "" || !White(rest[0]))
    ensures TrimStart(before + rest) == rest
  {
    if before == "" {
      assert before + rest == rest;
    } else {
      Strings.Front(before, rest);
      assert Blank(before[1..]);
      TrimStartBlank(before[1..], rest);
    }
  }

  lemma {:induction false} TrimEndBlank(rest: string, after: string)
    requires Blank(after) && (rest == "" || !White(rest[|rest| - 1]))
    ensures TrimEnd(rest + after) == rest
  {
    if after == "" {
      assert rest + after == rest;
    } else {
      var init := after[..|after| - 1];
      assert (rest + after)[..|rest + after| - 1] == rest + init;
      TrimEndBlank(rest, init);
    }
  }

  lemma {:induction false} BlankTrims(s: string)
    requires Blank(s)
    ensures TrimStart(s) == ""
  {
    if s != "" {
      assert Blank(s[1..]);
      BlankTrims(s[1..]);
    }
  }

  lemma NameTrims(before: string, name: string, after: string)
    requires Blank(before) && Blank(after) && Bare(name)
    ensures Trim(before + name + after) == name
  {
    if name == "" {
      assert before + name + after == before + after && Blank(before + after);
      BlankTrims(before + after);
    } else {
      Strings.Assoc(before, name, after);
      TrimStartBlank(before, name + after);
      TrimEndBlank(name, after);
    }
  }

  lemma Init<T>(init: seq<T>, last: T)
    ensures init + [last] != [] && (init + [last])[..|init + [last]| - 1] == init
    ensures (init + [last])[|init + [last]| - 1] == last
  {
  }

  lemma EventRead(lines: seq<string>, value: string)
    ensures Fields(lines + ["event:" + value]) == (Trim(value), Fields(lines).1)
  {
    var line := "event:" + value;
    Init(lines, line);
    Strings.Parts("event:", value);
    assert line[0] == 'e' && "event:" <= line;
  }

  lemma DataRead(lines: seq<string>, value: string)
    ensures Fields(lines + ["data:" + value]) == (Fields(lines).0, Fields(lines).1 + [DropSpace(value)])
  {
    var line := "data:" + value;
    Init(lines, line);
    Strings.Parts("data:", value);
    assert line[0] == 'd' && "data:" <= line;
  }

  lemma ReadEvent(lines: seq<string>, l: SentLine)
    requires l.EventLine? && Proper(l)
    ensures Fields(lines + [Written(l)]) == (l.name, Fields(lines).1)
  {
    EventRead(lines, l.before + l.name + l.after);
    NameTrims(l.before, l.name, l.after);
  }

  lemma ReadData(lines: seq<string>, l: SentLine)
    requires l.DataLine? && Proper(l)
    ensures Fields(lines + [Written(l)]) == (Fields(lines).0, Fields(lines).1 + [l.text])
  {
    DataRead(lines, if l.spaced then " " + l.text else l.text);
    Strings.Parts(" ", l.text);
  }

  lemma ReadOther(lines: seq<string>, l: SentLine)
    requires (l.CommentLine? || l.OtherLine?) && Proper(l)
    ensures Fields(lines + [Written(l)]) == Fields(lines)
  {
    assert (lines + [Written(l)])[..|lines|] == lines;
  }

  lemma {:induction false} FieldsOfTexts(ls: seq<Ended>)
    requires forall i :: 0 <= i < |ls| ==> Proper(ls[i].line)
    ensures Fields(Texts(ls)) == (EventOf(ls), DataOf(ls))
  {
    if ls != [] {
      var init, last := ls[..|ls| - 1], ls[|ls| - 1].line;
      FieldsOfTexts(init);
      assert Texts(ls) == Texts(init) + [Written(last)];
      match last
      case EventLine(_, _, _) => ReadEvent(Texts(init), last);
      case DataLine(_, _) => ReadData(Texts(init), last);
      case _ => ReadOther(Texts(init), last);
    }
  }

  lemma WrittenIsPlain(l: SentLine)
    requires Proper(l)
    ensures Plain(Written(l))
  {
  }

  lemma BlockParses(ls: seq<Ended>)
    requires Sendable(ls)
    ensures OutputOf(Body(ls)) == Meaning(ls)
  {
    forall i | 0 <= i < |ls| ensures Plain(Written(ls[i].line)) { WrittenIsPlain(ls[i].line); }
    LinesOfBody(ls);
    FieldsOfTexts(ls);
    if |ls| == 1 && Written(ls[0].line) == "" { NothingWritten(ls); }
  }

  lemma NothingWritten(ls: seq<Ended>)
    requires |ls| == 1 && Written(ls[0].line) == ""
    ensures Fields([]) == ("", []) && EventOf(ls) == "" && DataOf(ls) == []
  {
    assert ls[..0] == [];
  }

  // ---- The whole stream ----

  lemma CutBlock(ls: seq<Ended>, tail: string)
    requires Sendable(ls)
    ensures BlockEnd(Body(ls) + Closing(ls) + tail) == Some((|Body(ls)|, |Body(ls) + Closing(ls)|))
  {
    RestIsFull(ls);
    CutExactly(Written(ls[0].line), ls[0].crlf, ls[1..], tail);
    CutOfLines(ls, tail);
  }

  lemma CutOfLines(ls: seq<Ended>, tail: string)
    requires ls != [] && IsCut(Written(ls[0].line), ls[0].crlf, ls[1..], tail)
    ensures BlockEnd(Body(ls) + Closing(ls) + tail) == Some((|Body(ls)|, |Body(ls) + Closing(ls)|))
  {
    SealedBody(ls, tail);
    Lengths(Body(ls), Closing(ls), tail);
  }

  lemma SealedBody(ls: seq<Ended>, tail: string)
    requires ls != []
    ensures From(Written(ls[0].line), ls[0].crlf, ls[1..]) == Body(ls)
    ensures Sealed(Written(ls[0].line), ls[0].crlf, ls[1..], tail) == Body(ls) + Closing(ls) + tail
  {
    BodyFrom(ls);
  }

  lemma Lengths(a: string, b: string, c: string)
    ensures |a + b + c| - |c| == |a + b|
  {
  }

  lemma RestIsFull(ls: seq<Ended>)
    requires Sendable(ls)
    ensures Plain(Written(ls[0].line)) && FullLines(ls[1..])
  {
    forall i | 0 <= i < |ls| ensures Plain(Written(ls[i].line)) { WrittenIsPlain(ls[i].line); }
  }

  lemma BlocksOfCut(body: string, closing: string, tail: string)
    requires BlockEnd(body + closing + tail) == Some((|body|, |body + closing|))
    ensures Blocks(body + closing + tail) == [body] + Blocks(tail)
  {
    Strings.Parts(body + closing, tail);
    Strings.Assoc(body, closing, tail);
    Strings.Parts(body, closing + tail);
  }

  lemma {:induction false} EncodedParses(blocks: seq<seq<Ended>>)
    requires forall i :: 0 <= i < |blocks| ==> Sendable(blocks[i])
    ensures Messages(Blocks(Encode(blocks))) == Received(blocks)
  {
    if blocks == [] {
      assert Blocks("") == [""] && BlockMessage("") == None;
      assert [""][1..] == [];
    } else {
      var rest := Blocks(Encode(blocks[1..]));
      EncodedParses(blocks[1..]);
      CutBlock(blocks[0], Encode(blocks[1..]));
      BlocksOfCut(Body(blocks[0]), Closing(blocks[0]), Encode(blocks[1..]));
      BlockParses(blocks[0]);
      assert ([Body(blocks[0])] + rest)[1..] == rest;
    }
  }

  /** Whatever a sender writes arrives exactly: event lines before or after the data, data with and
      without the space, comments, keep-alive blocks, ignored fields, blocks without data, LF and CRLF
      line ends, in any mixture and however the bytes are chunked. */
  lemma {:induction false} StreamRoundTrip(blocks: seq<seq<Ended>>, pieces: seq<string>)
    requires forall i :: 0 <= i < |blocks| ==> Sendable(blocks[i])
    requires forall i :: 0 <= i < |pieces| ==> pieces[i] != ""
    requires Concat(pieces) == Encode(blocks)
    ensures Pending("", AsChunks(pieces), false) == Received(blocks)
  {
    ChunkingDoesNotMatter(pieces);
    EncodedParses(blocks);
  }

  /** The keep-alive of the server is a block of one empty comment: it yields nothing. */
  lemma KeepAliveIsSilent(crlf: bool)
    ensures var ping := [Ended(CommentLine(""), crlf)];
            Sendable(ping) && Encode([ping]) == ":" + End(crlf) + End(crlf) && Meaning(ping) == []
    ensures BlockMessage(":") == None
  {
    var ping := [Ended(CommentLine(""), crlf)];
    var all := [ping];
    assert ping[..0] == [] && Encode(all[1..]) == "";
    assert DataOf(ping) == DataOf([]);
    assert Body(ping) == ":";
    BlockParses(ping);
    assert Encode([ping]) == ":" + (End(crlf) + End(crlf)) + "";
  }
}
