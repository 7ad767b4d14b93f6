/**
 Secret redaction of journal payloads. A text is modelled as its UTF-8 code units, one
 `char` each, so lengths are byte lengths and substring search is byte search.
 */
module Redaction {
  import opened Wrappers
  import Strings

  const MARKER: string := "[REDACTED]"
  const MIN_SECRET: nat := 12

  predicate OccursAt(p: string, s: string, i: int) {
    0 <= i <= |s| - |p| && s[i..i + |p|] == p
  }

  predicate Contains(s: string, p: string) {
    exists i | 0 <= i <= |s| - |p| :: OccursAt(p, s, i)
  }

  /** Every non-overlapping occurrence of `p`, left to right, becomes the marker. */
  function Replace(s: string, p: string): string
    requires p != ""
    decreases |s|
  {
    if |s| < |p| then s
    else if s[..|p|] == p then MARKER + Replace(s[|p|..], p)
    else [s[0]] + Replace(s[1..], p)
  }

  predicate NonEmpty(secrets: seq<string>) { forall i :: 0 <= i < |secrets| ==> secrets[i] != "" }

  /** Replace each secret in turn, skipping those that do not occur. */
  function RedactAll(secrets: seq<string>, text: string): string
    requires NonEmpty(secrets)
  {
    if secrets == [] then text
    else
      var last := secrets[|secrets| - 1];
      var out := RedactAll(secrets[..|secrets| - 1], text);
      if Contains(out, last) then Replace(out, last) else out
  }

  // ---- Which secrets can never come back ----

  /** `q` laid over the marker at offset `d` agrees with it wherever the two overlap. */
  predicate Agrees(q: string, d: int) {
    forall k :: 0 <= k < |q| && 0 <= d + k < |MARKER| ==> q[k] == MARKER[d + k]
  }

  /** No way of laying `q` across the marker agrees: no occurrence of `q` can use a marker byte. */
  predicate MarkerProof(q: string) {
    forall d | -|q| < d < |MARKER| :: !Agrees(q, d)
  }

  predicate BracketFree(q: string) { '[' !in q && ']' !in q }

  /** The 12-byte minimum at work: a bracket-free registered secret cannot fit inside the marker. */
  lemma BracketFreeIsMarkerProof(q: string)
    requires |q| >= MIN_SECRET && BracketFree(q)
    ensures MarkerProof(q)
  {
    forall d | -|q| < d < |MARKER| ensures !Agrees(q, d) {
      var k := if d <= 0 then -d else |MARKER| - 1 - d;
      assert q[k] in q && MARKER[d + k] in "[]";
    }
  }

  /** What is left of a marker-proof `q` at the front of the output was at the front of the input. */
  lemma {:induction false} FrontIsOriginal(q: string, k: nat, s: string, p: string)
    requires p != "" && MarkerProof(q) && k <= |q| && q[k..] <= Replace(s, p)
    ensures q[k..] <= s
    decreases |s|
  {
    if k < |q| && |s| >= |p| {
      var rest := q[k..];
      if s[..|p|] == p {
        var offset: int := k;
        assert Agrees(q, -offset) by {
          forall i | 0 <= i < |q| && 0 <= i - k < |MARKER| ensures q[i] == MARKER[i - k] {
            assert q[i] == rest[i - k] == Replace(s, p)[i - k];
          }
        }
        assert false;
      } else {
        assert rest[0] == Replace(s, p)[0] == s[0];
        assert q[k + 1..] == rest[1..] && Replace(s, p)[1..] == Replace(s[1..], p);
        assert rest[1..] <= Replace(s, p)[1..];
        FrontIsOriginal(q, k + 1, s[1..], p);
        assert s == [s[0]] + s[1..] && rest == [rest[0]] + rest[1..];
      }
    }
  }

  /** Every occurrence of a marker-proof `q` in the output comes from one in the input,
      and none is left of the replaced string itself. */
  lemma {:induction false} ReplaceAddsNothing(s: string, p: string, q: string, i: int)
    requires p != "" && q != "" && MarkerProof(q) && OccursAt(q, Replace(s, p), i)
    ensures Contains(s, q) && q != p
    decreases |s|
  {
    if |s| < |p| {
      assert OccursAt(q, s, i);
    } else if s[..|p|] == p {
      var tail := Replace(s[|p|..], p);
      MarkerIsPassed(q, tail, i);
      ReplaceAddsNothing(s[|p|..], p, q, i - |MARKER|);
      ContainsInTail(s, |p|, q);
    } else if i == 0 {
      assert q[0..] == q && Replace(s, p)[..|q|] == q;
      FrontIsOriginal(q, 0, s, p);
      assert OccursAt(q, s, 0);
    } else {
      OccursLater(q, [s[0]], Replace(s[1..], p), i);
      ReplaceAddsNothing(s[1..], p, q, i - 1);
      ContainsInTail(s, 1, q);
    }
  }

  lemma OccursLater(q: string, head: string, tail: string, i: nat)
    requires OccursAt(q, head + tail, i) && |head| <= i
    ensures OccursAt(q, tail, i - |head|)
  {
    assert (head + tail)[i..i + |q|] == tail[i - |head|..i - |head| + |q|];
  }

  /** No occurrence of a marker-proof string starts in the marker. */
  lemma MarkerIsPassed(q: string, tail: string, i: nat)
    requires q != "" && MarkerProof(q) && OccursAt(q, MARKER + tail, i)
    ensures i >= |MARKER| && OccursAt(q, tail, i - |MARKER|)
  {
    assert i < |MARKER| ==> Agrees(q, i) by {
      if i < |MARKER| { MarkerAgrees(q, tail, i); }
    }
    OccursLater(q, MARKER, tail, i);
  }

  lemma MarkerAgrees(q: string, tail: string, i: nat)
    requires i < |MARKER| && OccursAt(q, MARKER + tail, i)
    ensures Agrees(q, i)
  {
    var out := MARKER + tail;
    forall k | 0 <= k < |q| && 0 <= i + k < |MARKER| ensures q[k] == MARKER[i + k] {
      assert out[i..i + |q|][k] == out[i + k];
    }
  }

  lemma ContainsInTail(s: string, n: nat, q: string)
    requires n <= |s| && Contains(s[n..], q)
    ensures Contains(s, q)
  {
    var i :| 0 <= i <= |s[n..]| - |q| && OccursAt(q, s[n..], i);
    assert s[n..][i..i + |q|] == s[n + i..n + i + |q|];
    assert OccursAt(q, s, n + i);
  }

  lemma ReplaceClears(s: string, p: string, q: string)
    requires p != "" && q != "" && MarkerProof(q)
    requires q == p || !Contains(s, q)
    ensures !Contains(Replace(s, p), q)
  {
    if Contains(Replace(s, p), q) {
      var i :| 0 <= i <= |Replace(s, p)| - |q| && OccursAt(q, Replace(s, p), i);
      ReplaceAddsNothing(s, p, q, i);
    }
  }

  /** Whatever the other secrets are and in whatever order, a marker-proof secret is gone at the end. */
  lemma {:induction false} MarkerProofNeverSurvives(secrets: seq<string>, text: string, q: string)
    requires NonEmpty(secrets) && q in secrets && MarkerProof(q)
    ensures !Contains(RedactAll(secrets, text), q)
  {
    var init, last := secrets[..|secrets| - 1], secrets[|secrets| - 1];
    assert secrets == init + [last];
    var out := RedactAll(init, text);
    if q in init { MarkerProofNeverSurvives(init, text, q); }
    ReplaceClears(out, last, q);
  }

  // ---- The condition is exact ----

  ghost predicate NeverSurvives(q: string) {
    forall secrets: seq<string>, text: string ::
      q in secrets && (forall i :: 0 <= i < |secrets| ==> |secrets[i]| >= MIN_SECRET)
      ==> !Contains(RedactAll(secrets, text), q)
  }

  /** A character of '0'..'3' other than the three given. */
  function Fresh(x: char, y: char, z: char): (c: char)
    ensures c != x && c != y && c != z && c !in "[]"
  {
    if '0' != x && '0' != y && '0' != z then '0'
    else if '1' != x && '1' != y && '1' != z then '1'
    else if '2' != x && '2' != y && '2' != z then '2' else '3'
  }

  /** The companion secret: one `c` and then only `d`, so it cannot overlap itself. */
  function Companion(c: char, d: char, n: nat): (t: string)
    requires n > 0
    ensures |t| == n && t[0] == c && forall i :: 0 < i < n ==> t[i] == d
    ensures c !in "[]" && d !in "[]" ==> BracketFree(t)
  {
    seq(n, i => if i == 0 then c else d)
  }

  /** What sticks out of the marker on either side when `q` is laid over it at offset `d`. */
  function LeftPart(q: string, d: int): (u: string)
    requires -|q| < d < |MARKER|
    ensures |u| < |q| || q == ""
  {
    q[..if d < 0 then -d else 0]
  }

  function RightPart(q: string, d: int): (v: string)
    requires -|q| < d < |MARKER|
    ensures |v| < |q| || q == ""
  {
    q[if |MARKER| - d < |q| then |MARKER| - d else |q|..]
  }

  lemma {:induction false} CompanionReplaced(u: string, c: char, d: char, n: nat, v: string)
    requires c != d && |u| < n && |v| < n
    ensures Replace(u + Companion(c, d, n) + v, Companion(c, d, n)) == u + MARKER + v
    decreases |u|
  {
    var t := Companion(c, d, n);
    var s := u + t + v;
    if u == "" {
      assert s == t + v;
      Strings.Parts(t, v);
    } else {
      assert s[..n] != t by { assert s[..n][|u|] == c && t[|u|] == d; }
      Framing(u, t, v);
      CompanionReplaced(u[1..], c, d, n, v);
      Framing(u, MARKER, v);
      Strings.HeadTail(u + MARKER + v);
    }
  }

  lemma Framing(u: string, t: string, v: string)
    requires u != ""
    ensures (u + t + v)[0] == u[0] && (u + t + v)[1..] == u[1..] + t + v
  {
    Strings.Front(u, t);
    Strings.Front(u + t, v);
  }

  lemma CompanionHides(q: string, u: string, c: char, d: char, n: nat, v: string)
    requires 0 < |q| < n && |u| < |q| && |v| < |q|
    requires q[0] !in [c, d] && q[|q| - 1] !in [c, d]
    ensures !Contains(u + Companion(c, d, n) + v, q)
  {
    var s := u + Companion(c, d, n) + v;
    forall i | 0 <= i <= |s| - |q| ensures !OccursAt(q, s, i) {
      var k := if i >= |u| then 0 else |q| - 1;
      assert s[i..i + |q|][k] == s[i + k] && s[i + k] in [c, d];
    }
  }

  /** A bracket-free secret, longer than `q`, sharing neither its first nor its last byte. */
  function CompanionOf(q: string): (t: string)
    requires |q| >= MIN_SECRET
    ensures |t| == |q| + 1 && BracketFree(t)
  {
    var c := Fresh(q[0], q[|q| - 1], q[0]);
    Companion(c, Fresh(q[0], q[|q| - 1], c), |q| + 1)
  }

  /** A secret that fits across the marker is left in the output when its companion is redacted. */
  lemma OverlapSurvives(q: string, d: int)
    requires |q| >= MIN_SECRET && -|q| < d < |MARKER| && Agrees(q, d)
    ensures Contains(RedactAll([q, CompanionOf(q)], LeftPart(q, d) + CompanionOf(q) + RightPart(q, d)), q)
  {
    var c := Fresh(q[0], q[|q| - 1], q[0]);
    var e := Fresh(q[0], q[|q| - 1], c);
    var u, t, v := LeftPart(q, d), CompanionOf(q), RightPart(q, d);
    var text := u + t + v;
    assert !Contains(text, q) by { CompanionHides(q, u, c, e, |q| + 1, v); }
    assert Replace(text, t) == u + MARKER + v by { CompanionReplaced(u, c, e, |q| + 1, v); }
    assert RedactAll([q, t], text) == Replace(text, t) by {
      CompanionPresent(u, t, v);
      RedactPair(q, t, text);
    }
    MarkerCompletes(q, d);
  }

  lemma CompanionPresent(u: string, t: string, v: string)
    ensures Contains(u + t + v, t)
  {
    assert (u + t + v)[|u|..|u| + |t|] == t;
    assert OccursAt(t, u + t + v, |u|);
  }

  lemma RedactPair(q: string, t: string, text: string)
    requires q != "" && t != "" && !Contains(text, q) && Contains(text, t)
    ensures RedactAll([q, t], text) == Replace(text, t)
  {
    assert [q][..0] == [] && [q, t][..1] == [q];
    assert RedactAll([q], text) == RedactAll([], text) == text;
  }

  lemma MarkerCompletes(q: string, d: int)
    requires -|q| < d < |MARKER| && |q| >= MIN_SECRET && Agrees(q, d)
    ensures Contains(LeftPart(q, d) + MARKER + RightPart(q, d), q)
  {
    var left, right := LeftPart(q, d), RightPart(q, d);
    var out := left + MARKER + right;
    var at := |left| + d;
    forall k | 0 <= k < |q| ensures out[at + k] == q[k] {
      ThreeParts(left, MARKER, right, at + k);
      assert 0 <= d + k < |MARKER| ==> q[k] == MARKER[d + k];
    }
    assert out[at..at + |q|] == q;
    assert OccursAt(q, out, at);
  }

  lemma ThreeParts(a: string, b: string, c: string, i: nat)
    requires i < |a| + |b| + |c|
    ensures (a + b + c)[i] ==
            if i < |a| then a[i] else if i < |a| + |b| then b[i - |a|] else c[i - |a| - |b|]
  {
  }

  /** A registered secret is safe in every company and every text exactly when it is marker-proof. */
  lemma SafeExactlyWhenMarkerProof(q: string)
    requires |q| >= MIN_SECRET
    ensures NeverSurvives(q) <==> MarkerProof(q)
  {
    if MarkerProof(q) {
      forall secrets: seq<string>, text: string |
        q in secrets && (forall i :: 0 <= i < |secrets| ==> |secrets[i]| >= MIN_SECRET)
        ensures !Contains(RedactAll(secrets, text), q)
      {
        MarkerProofNeverSurvives(secrets, text, q);
      }
    } else {
      var d :| -|q| < d < |MARKER| && Agrees(q, d);
      OverlapSurvives(q, d);
      assert q in [q, CompanionOf(q)];
    }
  }

  /** A secret can even survive alone: one that starts with the marker's last bytes and is
      followed by its own remainder is re-created by its own redaction. */
  lemma {:induction false} OwnRedactionRecreates(tail: string)
    requires |tail| >= MIN_SECRET
    ensures var q := "]" + tail; Contains(RedactAll([q], q + tail), q)
  {
    var q := "]" + tail;
    var text := q + tail;
    assert [q][..0] == [];
    assert OccursAt(q, text, 0);
    assert text[..|q|] == q && text[|q|..] == tail;
    assert RedactAll([q], text) == Replace(text, q) == "" + MARKER + tail;
    assert Agrees(q, |MARKER| - 1);
    MarkerCompletes(q, |MARKER| - 1);
    assert LeftPart(q, |MARKER| - 1) == "" && RightPart(q, |MARKER| - 1) == tail;
  }

  // ---- JSON payloads ----

  datatype Json =
    | Null | Bool(b: bool) | Number(n: string)
    | Str(s: string)
    | Arr(items: seq<Json>)
    | Obj(fields: seq<Field>)

  datatype Field = Field(key: string, value: Json)

  /** Redact every string value; object keys and other values are left as they are. */
  function RedactValue(secrets: seq<string>, v: Json): Json
    requires NonEmpty(secrets)
  {
    match v
    case Str(s) => Str(RedactAll(secrets, s))
    case Arr(items) => Arr(seq(|items|, i requires 0 <= i < |items| => RedactValue(secrets, items[i])))
    case Obj(fields) =>
      Obj(seq(|fields|, i requires 0 <= i < |fields| =>
        Field(fields[i].key, RedactValue(secrets, fields[i].value))))
    case _ => v
  }

  /** No string value anywhere in `v` contains any of the secrets. */
  predicate Clean(secrets: seq<string>, v: Json) {
    match v
    case Str(s) => forall i :: 0 <= i < |secrets| ==> !Contains(s, secrets[i])
    case Arr(items) => forall i :: 0 <= i < |items| ==> Clean(secrets, items[i])
    case Obj(fields) => forall i :: 0 <= i < |fields| ==> Clean(secrets, fields[i].value)
    case _ => true
  }

  /** Redaction is total: with marker-proof secrets in any order no string value keeps one. */
  lemma {:induction false} RedactionIsTotal(secrets: seq<string>, v: Json)
    requires NonEmpty(secrets) && forall i :: 0 <= i < |secrets| ==> MarkerProof(secrets[i])
    ensures Clean(secrets, RedactValue(secrets, v))
  {
    match v
    case Str(s) =>
      forall i | 0 <= i < |secrets| ensures !Contains(RedactAll(secrets, s), secrets[i]) {
        MarkerProofNeverSurvives(secrets, s, secrets[i]);
      }
    case Arr(items) =>
      forall i | 0 <= i < |items| ensures Clean(secrets, RedactValue(secrets, items[i])) {
        RedactionIsTotal(secrets, items[i]);
      }
    case Obj(fields) =>
      forall i | 0 <= i < |fields| ensures Clean(secrets, RedactValue(secrets, fields[i].value)) {
        RedactionIsTotal(secrets, fields[i].value);
      }
    case _ =>
  }

  lemma {:induction false} CleanTextUnchanged(secrets: seq<string>, s: string)
    requires NonEmpty(secrets) && forall i :: 0 <= i < |secrets| ==> !Contains(s, secrets[i])
    ensures RedactAll(secrets, s) == s
  {
    if secrets != [] { CleanTextUnchanged(secrets[..|secrets| - 1], s); }
  }

  /** Redaction touches nothing else: a clean payload comes out identical. */
  lemma {:induction false} CleanValueUnchanged(secrets: seq<string>, v: Json)
    requires NonEmpty(secrets) && Clean(secrets, v)
    ensures RedactValue(secrets, v) == v
  {
    match v
    case Str(s) => CleanTextUnchanged(secrets, s);
    case Arr(items) =>
      forall i | 0 <= i < |items| ensures RedactValue(secrets, items[i]) == items[i] {
        CleanValueUnchanged(secrets, items[i]);
      }
    case Obj(fields) =>
      forall i | 0 <= i < |fields| ensures RedactValue(secrets, fields[i].value) == fields[i].value {
        CleanValueUnchanged(secrets, fields[i].value);
      }
    case _ =>
  }

  // ---- Nothing else changes ----

  /** The value reached by going down through the given children. */
  function At(v: Json, path: seq<nat>): Option<Json> {
    if path == [] then Some(v)
    else
      match v
      case Arr(items) => if path[0] < |items| then At(items[path[0]], path[1..]) else None
      case Obj(fields) => if path[0] < |fields| then At(fields[path[0]].value, path[1..]) else None
      case _ => None
  }

  /** The same node: an array with as many items, an object with the same keys, a string with its
      secrets replaced, anything else unchanged. */
  predicate SameButText(secrets: seq<string>, a: Json, b: Json)
    requires NonEmpty(secrets)
  {
    match a
    case Str(s) => b == Str(RedactAll(secrets, s))
    case Arr(items) => b.Arr? && |b.items| == |items|
    case Obj(fields) =>
      b.Obj? && |b.fields| == |fields| && forall i :: 0 <= i < |fields| ==> b.fields[i].key == fields[i].key
    case _ => b == a
  }

  /** Redaction keeps the shape: at every path the same node, and no other paths. */
  lemma {:induction false} RedactionKeepsShape(secrets: seq<string>, v: Json, path: seq<nat>)
    requires NonEmpty(secrets)
    ensures At(v, path).None? <==> At(RedactValue(secrets, v), path).None?
    ensures At(v, path).Some? ==> SameButText(secrets, At(v, path).value, At(RedactValue(secrets, v), path).value)
    decreases |path|
  {
    if path != [] {
      match v
      case Arr(items) => if path[0] < |items| { RedactionKeepsShape(secrets, items[path[0]], path[1..]); }
      case Obj(fields) => if path[0] < |fields| { RedactionKeepsShape(secrets, fields[path[0]].value, path[1..]); }
      case _ =>
    }
  }

  lemma {:induction false} ReplaceNothing(s: string, p: string)
    requires p != "" && !Contains(s, p)
    ensures Replace(s, p) == s
    decreases |s|
  {
    if |s| >= |p| {
      assert s[..|p|] != p by { assert !OccursAt(p, s, 0); }
      if Contains(s[1..], p) { ContainsInTail(s, 1, p); }
      ReplaceNothing(s[1..], p);
      Strings.HeadTail(s);
    }
  }

  /** The text around a secret is kept: up to its first occurrence the output is the input, then
      comes the marker, then whatever the rest gives. */
  lemma {:induction false} ReplaceFirst(u: string, p: string, v: string)
    requires p != "" && forall i :: OccursAt(p, u + p, i) ==> i == |u|
    ensures Replace(u + p + v, p) == u + "[REDACTED]" + Replace(v, p)
    decreases |u|
  {
    if u == "" {
      assert u + p + v == p + v;
      Strings.Parts(p, v);
    } else {
      var s := u + p + v;
      assert s[..|p|] != p by {
        assert !OccursAt(p, u + p, 0);
        assert s[..|p|] == (u + p)[0..|p|];
      }
      forall i | OccursAt(p, u[1..] + p, i) ensures i == |u[1..]| { OccursInLonger(p, u, i); }
      ReplaceFirst(u[1..], p, v);
      Framing(u, p, v);
      Framing(u, MARKER, Replace(v, p));
      Strings.HeadTail(u + MARKER + Replace(v, p));
    }
  }

  lemma OccursInLonger(p: string, u: string, i: int)
    requires u != "" && OccursAt(p, u[1..] + p, i)
    ensures OccursAt(p, u + p, i + 1)
  {
    Strings.Front(u, p);
    assert (u + p)[i + 1..i + 1 + |p|] == (u + p)[1..][i..i + |p|];
  }

  /** Secrets are replaced one after the other, in their order. */
  lemma RedactInOrder(secrets: seq<string>, p: string, text: string)
    requires NonEmpty(secrets + [p])
    ensures p != "" && NonEmpty(secrets)
    ensures RedactAll([], text) == text
    ensures RedactAll(secrets + [p], text) == Replace(RedactAll(secrets, text), p)
  {
    var all := secrets + [p];
    assert all[..|secrets|] == secrets && all[|secrets|] == p;
    assert forall i :: 0 <= i < |secrets| ==> all[i] == secrets[i];
    if !Contains(RedactAll(secrets, text), p) { ReplaceNothing(RedactAll(secrets, text), p); }
  }

  // ---- The registry of secrets ----

  type AgentId = nat

  function LongEnough(values: seq<string>): (kept: seq<string>)
    ensures forall v :: v in kept <==> v in values && |v| >= MIN_SECRET
  {
    if values == [] then []
    else
      var init, last := values[..|values| - 1], values[|values| - 1];
      assert values == init + [last];
      if |last| >= MIN_SECRET then LongEnough(init) + [last] else LongEnough(init)
  }

  class SecretRegistry {
    var values: map<AgentId, seq<string>>

    predicate Valid()
      reads this
    {
      forall a :: a in values ==> forall i :: 0 <= i < |values[a]| ==> |values[a][i]| >= MIN_SECRET
    }

    function SecretsOf(agent: AgentId): (s: seq<string>)
      requires Valid()
      reads this
      ensures NonEmpty(s) && forall i :: 0 <= i < |s| ==> |s[i]| >= MIN_SECRET
    {
      if agent in values then values[agent] else []
    }

    constructor ()
      ensures Valid() && values == map[]
    {
      values := map[];
    }

    /** Replace whatever was registered for the agent; short values are skipped. */
    method Register(agent: AgentId, secrets: seq<string>)
      requires Valid()
      modifies this
      ensures Valid() && SecretsOf(agent) == LongEnough(secrets)
      ensures forall other :: other != agent ==> SecretsOf(other) == old(SecretsOf(other))
    {
      var filtered: seq<string> := [];
      for i := 0 to |secrets|
        invariant filtered == LongEnough(secrets[..i])
      {
        assert secrets[..i + 1][..i] == secrets[..i];
        if |secrets[i]| >= MIN_SECRET { filtered := filtered + [secrets[i]]; }
      }
      assert secrets[..|secrets|] == secrets;
      assert forall i :: 0 <= i < |filtered| ==> filtered[i] in filtered;
      if filtered == [] {
        values := values - {agent};
      } else {
        values := values[agent := filtered];
      }
    }

    method Unregister(agent: AgentId)
      requires Valid()
      modifies this
      ensures Valid() && SecretsOf(agent) == []
      ensures forall other :: other != agent ==> SecretsOf(other) == old(SecretsOf(other))
    {
      values := values - {agent};
    }

    method Redact(agent: AgentId, text: string) returns (out: string)
      requires Valid()
      ensures out == RedactAll(SecretsOf(agent), text)
    {
      out := text;
      if agent !in values { return; }
      var secrets := values[agent];
      for i := 0 to |secrets|
        invariant out == RedactAll(secrets[..i], text)
      {
        assert secrets[..i + 1][..i] == secrets[..i];
        if Contains(out, secrets[i]) { out := Replace(out, secrets[i]); }
      }
      assert secrets[..|secrets|] == secrets;
    }
  }

  /** What a registration buys: whatever bracket-free values are registered, no string anywhere in a
      redacted payload contains any of those of 12 bytes or more. */
  lemma RegisteredSecretsNeverShip(values: seq<string>, v: Json, path: seq<nat>, x: string)
    requires forall y :: y in values ==> BracketFree(y)
    requires x in values && |x| >= 12
    ensures NonEmpty(LongEnough(values))
    ensures var shipped := At(RedactValue(LongEnough(values), v), path);
            shipped.Some? && shipped.value.Str? ==> !Contains(shipped.value.s, x)
  {
    var secrets := LongEnough(values);
    forall i | 0 <= i < |secrets| ensures secrets[i] != "" && MarkerProof(secrets[i]) {
      assert secrets[i] in secrets;
      BracketFreeIsMarkerProof(secrets[i]);
    }
    RedactionIsTotal(secrets, v);
    CleanEverywhere(secrets, RedactValue(secrets, v), path);
    assert x in secrets;
  }

  lemma {:induction false} CleanEverywhere(secrets: seq<string>, v: Json, path: seq<nat>)
    requires Clean(secrets, v)
    ensures At(v, path).Some? ==> Clean(secrets, At(v, path).value)
    decreases |path|
  {
    if path != [] {
      match v
      case Arr(items) => if path[0] < |items| { CleanEverywhere(secrets, items[path[0]], path[1..]); }
      case Obj(fields) => if path[0] < |fields| { CleanEverywhere(secrets, fields[path[0]].value, path[1..]); }
      case _ =>
    }
  }
}
