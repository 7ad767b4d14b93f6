/** Facts about concatenation and slicing, stated once so that no other proof has to find them. */
module Strings {

  lemma Assoc(a: string, b: string, c: string)
    ensures a + (b + c) == a + b + c
  {
  }

  /** Taking a concatenation apart where it was put together. */
  lemma Parts(a: string, b: string)
    ensures (a + b)[..|a|] == a && (a + b)[|a|..] == b
  {
  }

  /** The first character of a concatenation, and what follows it. */
  lemma Front(a: string, b: string)
    requires a != ""
    ensures (a + b)[0] == a[0] && (a + b)[1..] == a[1..] + b
  {
  }

  lemma HeadTail(s: string)
    requires s != ""
    ensures [s[0]] + s[1..] == s
  {
  }

  lemma InitLast(s: string)
    requires s != ""
    ensures s[..|s| - 1] + [s[|s| - 1]] == s
  {
  }

  // ---- Joining ----

  function Join(parts: seq<string>, glue: string): string {
    if parts == [] then ""
    else if |parts| == 1 then parts[0]
    else parts[0] + glue + Join(parts[1..], glue)
  }

  /** `text` is the parts in order, part `i` starting at `at[i]`, with the glue between two
      neighbours and nothing else. */
  predicate LaidOut(text: string, parts: seq<string>, glue: string, at: seq<nat>) {
    && |at| == |parts|
    && (parts == [] ==> text == "")
    && (parts != [] ==> at[0] == 0 && at[|parts| - 1] + |parts[|parts| - 1]| == |text|)
    && (forall i :: 0 <= i < |parts| ==> StandsAt(text, parts[i], at[i]))
    && (forall i :: 0 <= i < |parts| - 1 ==> GluedAt(text, parts, glue, at, i))
  }

  predicate StandsAt(text: string, part: string, i: nat) {
    i + |part| <= |text| && text[i..i + |part|] == part
  }

  predicate GluedAt(text: string, parts: seq<string>, glue: string, at: seq<nat>, i: nat)
    requires i + 1 < |parts| == |at|
  {
    at[i + 1] == at[i] + |parts[i]| + |glue| && StandsAt(text, glue, at[i] + |parts[i]|)
  }

  function ShiftBy(at: seq<nat>, n: nat): seq<nat> { seq(|at|, i requires 0 <= i < |at| => at[i] + n) }

  lemma StandsLater(head: string, text: string, part: string, i: nat)
    requires StandsAt(text, part, i)
    ensures StandsAt(head + text, part, |head| + i)
  {
    assert (head + text)[|head| + i..|head| + i + |part|] == text[i..i + |part|];
  }

  /** Joining lays the parts out, all of them and nothing more. */
  lemma {:induction false} JoinLaysOut(parts: seq<string>, glue: string) returns (at: seq<nat>)
    ensures LaidOut(Join(parts, glue), parts, glue, at)
  {
    if parts == [] {
      at := [];
    } else if |parts| == 1 {
      at := [0];
      assert parts[0][0..0 + |parts[0]|] == parts[0];
    } else {
      var rest := JoinLaysOut(parts[1..], glue);
      at := [0] + ShiftBy(rest, |parts[0] + glue|);
      LayFirst(parts, glue, Join(parts[1..], glue), rest);
    }
  }

  lemma LayFirst(parts: seq<string>, glue: string, text: string, rest: seq<nat>)
    requires |parts| > 1 && LaidOut(text, parts[1..], glue, rest)
    ensures LaidOut(parts[0] + glue + text, parts, glue, [0] + ShiftBy(rest, |parts[0] + glue|))
  {
    var whole, at := parts[0] + glue + text, [0] + ShiftBy(rest, |parts[0] + glue|);
    FirstStands(parts[0], glue, text);
    forall i | 0 <= i < |parts| ensures StandsAt(whole, parts[i], at[i]) {
      if i > 0 { PartLater(parts, glue, text, rest, i); }
    }
    forall i | 0 <= i < |parts| - 1 ensures GluedAt(whole, parts, glue, at, i) {
      if i > 0 { GlueLater(parts, glue, text, rest, i); }
    }
  }

  lemma PartLater(parts: seq<string>, glue: string, text: string, rest: seq<nat>, i: nat)
    requires |parts| == |rest| + 1 && 0 < i < |parts| && StandsAt(text, parts[1..][i - 1], rest[i - 1])
    ensures StandsAt(parts[0] + glue + text, parts[i], ([0] + ShiftBy(rest, |parts[0] + glue|))[i])
  {
    StandsLater(parts[0] + glue, text, parts[i], rest[i - 1]);
  }

  lemma FirstStands(first: string, glue: string, text: string)
    ensures StandsAt(first + glue + text, first, 0) && StandsAt(first + glue + text, glue, |first|)
  {
    assert (first + glue + text)[0..0 + |first|] == first;
    assert (first + glue + text)[|first|..|first| + |glue|] == glue;
  }

  lemma GlueLater(parts: seq<string>, glue: string, text: string, rest: seq<nat>, i: nat)
    requires |parts| == |rest| + 1 && 0 < i < |parts| - 1 && GluedAt(text, parts[1..], glue, rest, i - 1)
    ensures GluedAt(parts[0] + glue + text, parts, glue, [0] + ShiftBy(rest, |parts[0] + glue|), i)
  {
    StandsLater(parts[0] + glue, text, glue, rest[i - 1] + |parts[1..][i - 1]|);
  }
}
