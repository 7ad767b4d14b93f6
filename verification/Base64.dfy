/**
 The hand-written base64 codecs (section 4 of RFC 4648). The three encoders are the same
 algorithm; of the decoders, the two in castellan and in the bundle store are strict about
 characters, the one in the client library is not. Shifts and masks are written as
 multiplication, division and remainder; the operands never overlap.
 */
module Base64 {
  import opened Wrappers
  import Strings

  type Byte = x: int | 0 <= x < 256

  const UPPER: string := "ABCDEFGHIJKLMNOPQRSTUVWXYZ"
  const LOWER: string := "abcdefghijklmnopqrstuvwxyz"
  const DIGITS: string := "0123456789"
  const ALPHABET: string := UPPER + LOWER + DIGITS + "+/"
  const PAD: char := '='

  /** The digit value of a character, None outside the alphabet. */
  function Val(c: char): (v: Option<nat>)
    ensures v.Some? ==> v.value < 64
  {
    if 'A' <= c <= 'Z' then Some(c as int - 'A' as int)
    else if 'a' <= c <= 'z' then Some(c as int - 'a' as int + 26)
    else if '0' <= c <= '9' then Some(c as int - '0' as int + 52)
    else if c == '+' then Some(62)
    else if c == '/' then Some(63)
    else None
  }

  function IsWhitespace(c: char): bool { c == ' ' || c == '\t' || c == '\n' || c == '\r' || c as int == 12 }

  function Strip(text: string): string {
    if text == "" then ""
    else
      var rest, c := Strip(text[..|text| - 1]), text[|text| - 1];
      if IsWhitespace(c) then rest else rest + [c]
  }

  /** The character of a digit, by ranges: reading it back gives the digit. */
  function Digit(v: nat): (c: char)
    requires v < 64
    ensures Val(c) == Some(v) && c != PAD && !IsWhitespace(c)
  {
    if v < 26 then ('A' as int + v) as char
    else if v < 52 then ('a' as int + (v - 26)) as char
    else if v < 62 then ('0' as int + (v - 52)) as char
    else if v == 62 then '+' else '/'
  }

  lemma UpperLetter(v: nat)
    requires v < 26
    ensures UPPER[v] == Digit(v)
  {
  }

  lemma LowerLetter(v: nat)
    requires v < 26
    ensures LOWER[v] == Digit(v + 26)
  {
  }

  /** The ranges are the lookup table of the encoders. */
  lemma DigitIsTableEntry(v: nat)
    requires v < 64
    ensures Digit(v) == ALPHABET[v]
  {
    if v < 26 {
      assert ALPHABET[v] == UPPER[v];
      UpperLetter(v);
    } else if v < 52 {
      assert ALPHABET[v] == LOWER[v - 26];
      LowerLetter(v - 26);
    } else if v < 62 {
      assert ALPHABET[v] == DIGITS[v - 52];
    }
  }

  function Min(a: nat, b: nat): nat { if a <= b then a else b }

  // ---- Encoding ----

  function ByteAt(chunk: seq<Byte>, i: nat): Byte { if i < |chunk| then chunk[i] else 0 }

  function Packed(chunk: seq<Byte>): (n: nat)
    ensures n < 0x100_0000
  {
    ByteAt(chunk, 0) * 0x1_0000 + ByteAt(chunk, 1) * 0x100 + ByteAt(chunk, 2)
  }

  function EncodeChunk(chunk: seq<Byte>): string
    requires 0 < |chunk| <= 3
  {
    var n := Packed(chunk);
    [Digit(n / 0x4_0000 % 64), Digit(n / 0x1000 % 64),
     if |chunk| > 1 then Digit(n / 64 % 64) else PAD,
     if |chunk| > 2 then Digit(n % 64) else PAD]
  }

  function Encode(data: seq<Byte>): string {
    if data == [] then ""
    else
      var k := Min(3, |data|);
      EncodeChunk(data[..k]) + Encode(data[k..])
  }

  method Base64Encode(data: seq<Byte>) returns (out: string)
    ensures out == Encode(data)
  {
    out := "";
    var rest := data;
    while rest != []
      invariant out + Encode(rest) == Encode(data)
      decreases |rest|
    {
      var k := Min(3, |rest|);
      EncodeStep(out, rest);
      out := out + EncodeChunk(rest[..k]);
      rest := rest[k..];
    }
  }

  lemma EncodeStep(out: string, rest: seq<Byte>)
    requires rest != []
    ensures var k := Min(3, |rest|);
            out + Encode(rest) == out + EncodeChunk(rest[..k]) + Encode(rest[k..])
  {
    var k := Min(3, |rest|);
    var chunk, tail := EncodeChunk(rest[..k]), Encode(rest[k..]);
    Strings.Assoc(out, chunk, tail);
  }

  // ---- Decoding ----

  function CountPads(group: string): (n: nat)
    ensures n <= |group|
  {
    if group == "" then 0
    else CountPads(group[..|group| - 1]) + if group[|group| - 1] == PAD then 1 else 0
  }

  function Weight(i: nat): nat
    requires i < 4
  {
    if i == 0 then 0x4_0000 else if i == 1 then 0x1000 else if i == 2 then 64 else 1
  }

  /** The first `k` digits of a group at their fixed positions; None on a foreign character. */
  function StrictSum(group: string, k: nat): (n: Option<nat>)
    requires k <= |group| <= 4
  {
    if k == 0 then Some(0)
    else
      var before, c := StrictSum(group, k - 1), group[k - 1];
      if before.None? || (c != PAD && Val(c).None?) then None
      else Some(before.value + if c == PAD then 0 else Val(c).value * Weight(k - 1))
  }

  function TopByte(n: nat): Byte { n / 0x1_0000 % 256 }
  function MidByte(n: nat): Byte { n / 0x100 % 256 }
  function LowByte(n: nat): Byte { n % 256 }

  function StrictGroup(group: string): Option<seq<Byte>>
    requires 0 < |group| <= 4
  {
    var n, pad := StrictSum(group, |group|), CountPads(group);
    if n.None? then None
    else Some([TopByte(n.value)] + (if pad < 2 then [MidByte(n.value)] else [])
              + (if pad < 1 then [LowByte(n.value)] else []))
  }

  function StrictGroups(s: string): Option<seq<Byte>> {
    if s == "" then Some([])
    else
      var k := Min(4, |s|);
      var first := StrictGroup(s[..k]);
      if first.None? then None else Prepend(first.value, StrictGroups(s[k..]))
  }

  /** The decoder of castellan and of the bundle store. */
  function StrictDecode(text: string): Option<seq<Byte>> { StrictGroups(Strip(text)) }

  function DigitOrZero(c: char): (v: nat)
    ensures v < 64
  {
    if Val(c).Some? then Val(c).value else 0
  }

  /** Digits shifted in one by one; a foreign character or a pad counts as 0. */
  function LenientSum(group: string): nat {
    if group == "" then 0
    else LenientSum(group[..|group| - 1]) * 64 + DigitOrZero(group[|group| - 1])
  }

  function LenientGroup(group: string): seq<Byte> {
    var n, len := LenientSum(group), |group| - CountPads(group);
    (if len >= 2 then [TopByte(n)] else []) + (if len >= 3 then [MidByte(n)] else [])
    + (if len >= 4 then [LowByte(n)] else [])
  }

  function LenientGroups(s: string): seq<Byte> {
    if s == "" then []
    else
      var k := Min(4, |s|);
      LenientGroup(s[..k]) + LenientGroups(s[k..])
  }

  /** The client library's decoder: it never fails. */
  function LenientDecode(text: string): seq<Byte> { LenientGroups(Strip(text)) }

  method StripWhitespace(text: string) returns (bytes: string)
    ensures bytes == Strip(text)
  {
    bytes := "";
    for i := 0 to |text|
      invariant bytes == Strip(text[..i])
    {
      assert text[..i + 1][..i] == text[..i];
      if !IsWhitespace(text[i]) { bytes := bytes + [text[i]]; }
    }
    assert text[..|text|] == text;
  }

  method DecodeGroup(group: string) returns (r: Option<seq<Byte>>)
    requires 0 < |group| <= 4
    ensures r == StrictGroup(group)
  {
    var pad, n := 0, 0;
    for i := 0 to |group|
      invariant pad == CountPads(group[..i]) && StrictSum(group, i) == Some(n)
    {
      assert group[..i + 1][..i] == group[..i];
      if group[i] == PAD {
        pad := pad + 1;
      } else {
        var v := Val(group[i]);
        if v.None? {
          StrictSumFails(group, i + 1);
          return None;
        }
        n := n + v.value * Weight(i);
      }
    }
    assert group[..|group|] == group;
    var out: seq<Byte> := [TopByte(n)];
    if pad < 2 { out := out + [MidByte(n)]; }
    if pad < 1 { out := out + [LowByte(n)]; }
    assert [TopByte(n)] + [] + [] == [TopByte(n)];
    assert [TopByte(n)] + [MidByte(n)] + [] == [TopByte(n)] + [MidByte(n)];
    return Some(out);
  }

  method Base64Decode(text: string) returns (r: Option<seq<Byte>>)
    ensures r == StrictDecode(text)
  {
    var rest := StripWhitespace(text);
    ghost var all := rest;
    var out: seq<Byte> := [];
    PrependNothing(StrictGroups(rest));
    while rest != ""
      invariant StrictGroups(all) == Prepend(out, StrictGroups(rest))
      decreases |rest|
    {
      var k := Min(4, |rest|);
      var bytes := DecodeGroup(rest[..k]);
      if bytes.None? { return None; }
      PrependTwice(out, bytes.value, StrictGroups(rest[k..]));
      out := out + bytes.value;
      rest := rest[k..];
    }
    assert out + [] == out;
    return Some(out);
  }

  lemma PrependTwice(out: seq<Byte>, first: seq<Byte>, more: Option<seq<Byte>>)
    ensures Prepend(out, Prepend(first, more)) == Prepend(out + first, more)
  {
    assert more.Some? ==> out + (first + more.value) == out + first + more.value;
  }

  lemma PrependNothing(more: Option<seq<Byte>>)
    ensures Prepend([], more) == more
  {
    assert more.Some? ==> [] + more.value == more.value;
  }

  function Prepend(out: seq<Byte>, more: Option<seq<Byte>>): Option<seq<Byte>> {
    if more.None? then None else Some(out + more.value)
  }

  lemma {:induction false} StrictSumFails(group: string, k: nat)
    requires k <= |group| <= 4 && StrictSum(group, k) == None
    ensures StrictSum(group, |group|) == None
    decreases |group| - k
  {
    if k < |group| { StrictSumFails(group, k + 1); }
  }

  method ClientDecodeGroup(group: string) returns (out: seq<Byte>)
    ensures out == LenientGroup(group)
  {
    var n, len := 0, 0;
    for i := 0 to |group|
      invariant n == LenientSum(group[..i]) && len == i - CountPads(group[..i])
    {
      assert group[..i + 1][..i] == group[..i];
      n := n * 64 + DigitOrZero(group[i]);
      if group[i] != PAD { len := len + 1; }
    }
    assert group[..|group|] == group;
    out := [];
    if len >= 2 { out := out + [TopByte(n)]; }
    if len >= 3 { out := out + [MidByte(n)]; }
    if len >= 4 { out := out + [LowByte(n)]; }
  }

  method ClientDecode(text: string) returns (out: seq<Byte>)
    ensures out == LenientDecode(text)
  {
    var rest := StripWhitespace(text);
    ghost var all := rest;
    out := [];
    while rest != ""
      invariant out + LenientGroups(rest) == LenientGroups(all)
      decreases |rest|
    {
      var k := Min(4, |rest|);
      var bytes := ClientDecodeGroup(rest[..k]);
      out := out + bytes;
      rest := rest[k..];
    }
  }

  // ---- Round trips ----

  lemma GroupOfFour(g: string)
    requires |g| == 4
    ensures LenientSum(g) == DigitOrZero(g[0]) * 0x4_0000 + DigitOrZero(g[1]) * 0x1000
                             + DigitOrZero(g[2]) * 64 + DigitOrZero(g[3])
    ensures CountPads(g) == (if g[0] == PAD then 1 else 0) + (if g[1] == PAD then 1 else 0)
                            + (if g[2] == PAD then 1 else 0) + (if g[3] == PAD then 1 else 0)
  {
    assert g[..3][..2] == g[..2] && g[..2][..1] == g[..1] && g[..1][..0] == "";
    assert g[..4] == g;
    assert CountPads(g[..1]) == if g[0] == PAD then 1 else 0;
    assert CountPads(g[..2]) == CountPads(g[..1]) + if g[1] == PAD then 1 else 0;
    assert LenientSum(g[..1]) == DigitOrZero(g[0]);
    assert LenientSum(g[..2]) == DigitOrZero(g[0]) * 64 + DigitOrZero(g[1]);
    assert LenientSum(g[..3]) == DigitOrZero(g[0]) * 0x1000 + DigitOrZero(g[1]) * 64 + DigitOrZero(g[2]);
  }

  predicate DigitOrPad(c: char) { c == PAD || Val(c).Some? }

  /** On a full group of digits and pads both decoders read the same number. */
  lemma SameNumber(g: string)
    requires |g| == 4 && forall i :: 0 <= i < 4 ==> DigitOrPad(g[i])
    ensures StrictSum(g, 4) == Some(LenientSum(g))
  {
    GroupOfFour(g);
    assert Val(PAD) == None;
    assert StrictSum(g, 1) == Some(DigitOrZero(g[0]) * 0x4_0000);
    assert StrictSum(g, 2) == Some(DigitOrZero(g[0]) * 0x4_0000 + DigitOrZero(g[1]) * 0x1000);
    assert StrictSum(g, 3) == Some(DigitOrZero(g[0]) * 0x4_0000 + DigitOrZero(g[1]) * 0x1000 + DigitOrZero(g[2]) * 64);
  }

  lemma ChunkRoundTrip(chunk: seq<Byte>)
    requires 0 < |chunk| <= 3
    ensures LenientGroup(EncodeChunk(chunk)) == chunk
    ensures StrictGroup(EncodeChunk(chunk)) == Some(chunk)
    ensures forall i :: 0 <= i < 4 ==> DigitOrPad(EncodeChunk(chunk)[i]) && !IsWhitespace(EncodeChunk(chunk)[i])
  {
    var n, g := Packed(chunk), EncodeChunk(chunk);
    GroupOfFour(g);
    SameNumber(g);
    DigitsOf(n);
    assert LenientSum(g) == n by { PackedTail(chunk); }
    BytesOf(chunk);
  }

  lemma DigitsOf(n: nat)
    requires n < 0x100_0000
    ensures (n / 0x4_0000 % 64) * 0x4_0000 + (n / 0x1000 % 64) * 0x1000 + (n / 64 % 64) * 64 + n % 64 == n
  {
    var a, b := n / 64, n / 0x1000;
    var c := n / 0x4_0000;
    SixBits(n);
    assert n == a * 64 + n % 64 && a == b * 64 + a % 64 && b == c * 64 + b % 64;
    assert c % 64 == c;
  }

  /** Taking six bits off three times. */
  lemma SixBits(n: nat)
    requires n < 0x100_0000
    ensures n / 64 / 64 == n / 0x1000 && n / 0x1000 / 64 == n / 0x4_0000 && n / 0x4_0000 < 64
  {
  }

  /** The digits replaced by pads are zero. */
  lemma PackedTail(chunk: seq<Byte>)
    requires 0 < |chunk| <= 3
    ensures |chunk| == 1 ==> Packed(chunk) / 64 % 64 == 0
    ensures |chunk| <= 2 ==> Packed(chunk) % 64 == 0
  {
    var a: nat, b: nat := ByteAt(chunk, 0), ByteAt(chunk, 1);
    if |chunk| <= 2 {
      Shifted(a * 0x400 + b * 4);
      if |chunk| == 1 { Shifted(a * 16); }
    }
  }

  lemma Shifted(k: nat)
    ensures k * 64 % 64 == 0 && k * 64 / 64 == k
  {
  }

  lemma BytesOf(chunk: seq<Byte>)
    ensures TopByte(Packed(chunk)) == ByteAt(chunk, 0)
    ensures MidByte(Packed(chunk)) == ByteAt(chunk, 1)
    ensures LowByte(Packed(chunk)) == ByteAt(chunk, 2)
  {
    Unpack(ByteAt(chunk, 0), ByteAt(chunk, 1), ByteAt(chunk, 2));
  }

  lemma Unpack(a: Byte, b: Byte, c: Byte)
    ensures var n := a * 0x1_0000 + b * 0x100 + c;
            n / 0x1_0000 == a && n / 0x100 == a * 0x100 + b && n % 0x100 == c && (a * 0x100 + b) % 0x100 == b
  {
  }

  lemma {:induction false} StripConcat(a: string, b: string)
    ensures Strip(a + b) == Strip(a) + Strip(b)
  {
    if b == "" {
      assert a + b == a;
    } else {
      StripConcat(a, b[..|b| - 1]);
      assert (a + b)[..|a + b| - 1] == a + b[..|b| - 1];
    }
  }

  lemma {:induction false} StripClean(s: string)
    requires forall i :: 0 <= i < |s| ==> !IsWhitespace(s[i])
    ensures Strip(s) == s
  {
    if s != "" { StripClean(s[..|s| - 1]); }
  }

  /** Every decoder inverts every encoder, for every byte sequence. */
  lemma {:induction false} RoundTrip(data: seq<Byte>)
    ensures StrictDecode(Encode(data)) == Some(data)
    ensures LenientDecode(Encode(data)) == data
    ensures Strip(Encode(data)) == Encode(data)
    decreases |data|
  {
    if data != [] {
      var k := Min(3, |data|);
      var first, rest := EncodeChunk(data[..k]), Encode(data[k..]);
      ChunkRoundTrip(data[..k]);
      RoundTrip(data[k..]);
      StripConcat(first, rest);
      StripClean(first);
      assert (first + rest)[..4] == first && (first + rest)[4..] == rest;
      assert data[..k] + data[k..] == data;
    }
  }

  /** Encodings are unique: different bytes never share a text. */
  lemma EncodeInjective(a: seq<Byte>, b: seq<Byte>)
    requires Encode(a) == Encode(b)
    ensures a == b
  {
    RoundTrip(a);
    RoundTrip(b);
  }

  // ---- Where the decoders agree ----

  /** A full group of digits and pads with at most two pads. */
  predicate GoodGroup(g: string) {
    |g| == 4 && (forall i :: 0 <= i < 4 ==> DigitOrPad(g[i])) && CountPads(g) <= 2
  }

  predicate GoodGroups(s: string)
    decreases |s|
  {
    s == "" || (|s| >= 4 && GoodGroup(s[..4]) && GoodGroups(s[4..]))
  }

  lemma StrictSumNeedsDigits(g: string)
    requires |g| <= 4 && StrictSum(g, |g|).Some?
    ensures forall i :: 0 <= i < |g| ==> DigitOrPad(g[i])
  {
    forall i | 0 <= i < |g| ensures DigitOrPad(g[i]) {
      if !DigitOrPad(g[i]) { StrictSumFails(g, i + 1); }
    }
  }

  /** Strict decoding of a group never yields fewer bytes, and as many exactly on good groups. */
  lemma GroupLengths(g: string)
    requires 0 < |g| <= 4 && StrictGroup(g).Some?
    ensures |StrictGroup(g).value| >= |LenientGroup(g)|
    ensures |StrictGroup(g).value| == |LenientGroup(g)| <==> GoodGroup(g)
    ensures GoodGroup(g) ==> StrictGroup(g).value == LenientGroup(g)
  {
    StrictSumNeedsDigits(g);
    if GoodGroup(g) { SameNumber(g); }
  }

  lemma {:induction false} StrictIsLonger(s: string)
    requires StrictGroups(s).Some?
    ensures |StrictGroups(s).value| >= |LenientGroups(s)|
    decreases |s|
  {
    if s != "" {
      GroupLengths(s[..Min(4, |s|)]);
      StrictIsLonger(s[Min(4, |s|)..]);
    }
  }

  lemma {:induction false} AgreeOnGroups(s: string)
    ensures StrictGroups(s) == Some(LenientGroups(s)) <==> GoodGroups(s)
    decreases |s|
  {
    if s != "" {
      var k := Min(4, |s|);
      var g, rest := s[..k], s[k..];
      AgreeOnGroups(rest);
      if StrictGroups(s).Some? {
        GroupLengths(g);
        StrictIsLonger(rest);
        var x, y := StrictGroup(g).value, StrictGroups(rest).value;
        if StrictGroups(s) == Some(LenientGroups(s)) {
          assert |x| == |LenientGroup(g)|;
          assert (x + y)[|x|..] == y && (LenientGroup(g) + LenientGroups(rest))[|x|..] == LenientGroups(rest);
        }
      } else if GoodGroups(s) {
        SameNumber(g);
      }
    }
  }

  /** The strict and the lenient decoder agree on a text exactly when, whitespace aside, it
      consists of full groups of alphabet characters and at most two pads each. */
  lemma DecodersAgreeExactlyWhen(text: string)
    ensures StrictDecode(text) == Some(LenientDecode(text)) <==> GoodGroups(Strip(text))
  {
    AgreeOnGroups(Strip(text));
  }

  /** Canonical padding: digits only, except that the last group may end in one or two pads. */
  predicate Canonical(s: string)
    decreases |s|
  {
    s == "" ||
    (&& |s| >= 4
     && (forall i :: 0 <= i < 2 ==> Val(s[i]).Some?)
     && (if |s| == 4 then DigitOrPad(s[3]) && (Val(s[2]).Some? || (s[2] == PAD && s[3] == PAD))
         else Val(s[2]).Some? && Val(s[3]).Some?)
     && Canonical(s[4..]))
  }

  /** Every encoding is canonically padded. */
  lemma {:induction false} EncodeIsCanonical(data: seq<Byte>)
    ensures Canonical(Encode(data))
    decreases |data|
  {
    if data != [] {
      var k := Min(3, |data|);
      var first, rest := EncodeChunk(data[..k]), Encode(data[k..]);
      EncodeIsCanonical(data[k..]);
      assert (first + rest)[4..] == rest;
      assert rest == "" <==> data[k..] == [];
    }
  }

  lemma {:induction false} CanonicalIsGood(s: string)
    requires Canonical(s)
    ensures GoodGroups(s)
    decreases |s|
  {
    if s != "" {
      CanonicalIsGood(s[4..]);
      GroupOfFour(s[..4]);
      assert Val(PAD) == None;
    }
  }

  /** All decoders agree on every canonically padded text, wherever whitespace is inserted. */
  lemma CanonicalTextsInteroperate(text: string)
    requires Canonical(Strip(text))
    ensures StrictDecode(text) == Some(LenientDecode(text))
  {
    CanonicalIsGood(Strip(text));
    DecodersAgreeExactlyWhen(text);
  }

  // ---- Whitespace, foreign characters, odd groups ----

  lemma StripOne(a: string, c: char, b: string)
    ensures Strip(a + [c] + b)
            == if c in [' ', '\t', '\n', '\r', '\U{0C}'] then Strip(a) + Strip(b) else Strip(a) + [c] + Strip(b)
  {
    StripConcat(a + [c], b);
    StripConcat(a, [c]);
    assert Strip([c]) == if IsWhitespace(c) then "" else [c];
  }

  /** The five ASCII whitespace characters may stand anywhere; no decoder's answer changes. */
  lemma WhitespaceIsIgnored(a: string, c: char, b: string)
    requires c in [' ', '\t', '\n', '\r', '\U{0C}']
    ensures StrictDecode(a + [c] + b) == StrictDecode(a + b)
    ensures LenientDecode(a + [c] + b) == LenientDecode(a + b)
  {
    StripOne(a, c, b);
    StripConcat(a, b);
  }

  lemma {:induction false} StripMembers(text: string, c: char)
    ensures c in Strip(text) <==> c in text && !IsWhitespace(c)
  {
    if text != "" {
      StripMembers(text[..|text| - 1], c);
      assert text == text[..|text| - 1] + [text[|text| - 1]];
    }
  }

  lemma AlphabetHasDigits(c: char)
    ensures c in ALPHABET <==> Val(c).Some?
  {
    if Val(c).Some? {
      var v := Val(c).value;
      DigitIsTableEntry(v);
      assert Digit(v) == c;
    } else if c in ALPHABET {
      var v :| 0 <= v < |ALPHABET| && ALPHABET[v] == c;
      DigitIsTableEntry(v);
    }
  }

  lemma {:induction false} SumOfDigits(g: string, k: nat)
    requires k <= |g| <= 4 && forall i :: 0 <= i < k ==> DigitOrPad(g[i])
    ensures StrictSum(g, k).Some?
  {
    if k > 0 { SumOfDigits(g, k - 1); }
  }

  lemma {:induction false} StrictFailsOn(s: string)
    ensures StrictGroups(s) == None <==> exists i :: 0 <= i < |s| && !DigitOrPad(s[i])
    decreases |s|
  {
    if s != "" {
      var k := Min(4, |s|);
      var g, rest := s[..k], s[k..];
      StrictFailsOn(rest);
      if forall i :: 0 <= i < k ==> DigitOrPad(g[i]) { SumOfDigits(g, k); }
      if StrictSum(g, k).Some? { StrictSumNeedsDigits(g); }
      assert forall i :: 0 <= i < |rest| ==> rest[i] == s[i + k];
      assert forall i :: 0 <= i < k ==> g[i] == s[i];
    }
  }

  /** Strict decoding fails exactly on a character that is no digit, no pad and no whitespace. */
  lemma StrictFailsExactlyWhen(text: string)
    ensures StrictDecode(text) == None
            <==> exists c :: c in text && c !in ALPHABET && c !in ['=', ' ', '\t', '\n', '\r', '\U{0C}']
  {
    var s := Strip(text);
    StrictFailsOn(s);
    if i :| 0 <= i < |s| && !DigitOrPad(s[i]) {
      StripMembers(text, s[i]);
      AlphabetHasDigits(s[i]);
    }
    if c :| c in text && c !in ALPHABET && c !in ['=', ' ', '\t', '\n', '\r', '\U{0C}'] {
      StripMembers(text, c);
      AlphabetHasDigits(c);
      var i :| 0 <= i < |s| && s[i] == c;
    }
  }

  type Sextet = x: int | 0 <= x < 64

  /** The bytes of four digits by the bit layout of section 4 of RFC 4648. */
  function Layout(a: Sextet, b: Sextet, c: Sextet, d: Sextet): seq<int> {
    [a * 4 + b / 16, b % 16 * 16 + c / 4, c % 4 * 64 + d]
  }

  lemma LayoutOfNumber(a: Sextet, b: Sextet, c: Sextet, d: Sextet)
    ensures var n := a * 0x4_0000 + b * 0x1000 + c * 64 + d;
            [TopByte(n), MidByte(n), LowByte(n)] == Layout(a, b, c, d)
  {
    var b1, b2 := Halves(b, 16);
    var c1, c2 := Halves(c, 4);
    Assembled(a, b1, b2, c1, c2, d);
    LayoutFrom(a, b1, b2, c1, c2, d);
  }

  lemma Halves(b: Sextet, k: Sextet) returns (hi: Sextet, lo: Sextet)
    requires k == 16 || k == 4
    ensures b == hi * k + lo && hi < 64 / k && lo < k
  {
    hi, lo := b / k, b % k;
  }

  lemma LayoutFrom(a: Sextet, b1: Sextet, b2: Sextet, c1: Sextet, c2: Sextet, d: Sextet)
    requires b1 < 4 && b2 < 16 && c1 < 16 && c2 < 4
    ensures Layout(a, b1 * 16 + b2, c1 * 4 + c2, d) == [a * 4 + b1, b2 * 16 + c1, c2 * 64 + d]
  {
  }

  /** The second and third digit split where the bytes meet. */
  lemma Assembled(a: Sextet, b1: Sextet, b2: Sextet, c1: Sextet, c2: Sextet, d: Sextet)
    requires b1 < 4 && b2 < 16 && c1 < 16 && c2 < 4
    ensures var n := a * 0x4_0000 + (b1 * 16 + b2) * 0x1000 + (c1 * 4 + c2) * 64 + d;
            TopByte(n) == a * 4 + b1 && MidByte(n) == b2 * 16 + c1 && LowByte(n) == c2 * 64 + d
  {
    Unpack(a * 4 + b1, b2 * 16 + c1, c2 * 64 + d);
  }

  /** The bytes of a group's number, without those its pads take away. */
  function BytesLeft(n: nat, pads: nat): seq<Byte>
    requires pads <= 2
  {
    [TopByte(n), MidByte(n), LowByte(n)][..3 - pads]
  }

  lemma GoodGroupBytes(g: string)
    requires GoodGroup(g)
    ensures StrictGroup(g) == Some(BytesLeft(LenientSum(g), CountPads(g)))
    ensures LenientGroup(g) == BytesLeft(LenientSum(g), CountPads(g))
  {
    var n := LenientSum(g);
    SameNumber(g);
    ThreeBytes(TopByte(n), MidByte(n), LowByte(n));
  }

  lemma ThreeBytes(x: Byte, y: Byte, z: Byte)
    ensures var none: seq<Byte> := []; [x] + none + none == [x, y, z][..1] && [x] + [y] + none == [x, y, z][..2]
    ensures [x] + [y] + [z] == [x, y, z][..3]
  {
  }

  lemma DigitsAndPads(g: string)
    requires |g| == 4 && Val(g[0]).Some? && Val(g[1]).Some? && DigitOrPad(g[2]) && DigitOrPad(g[3])
    requires g[2] == '=' ==> g[3] == '='
    ensures GoodGroup(g) && CountPads(g) == if g[2] == '=' then 2 else if g[3] == '=' then 1 else 0
  {
    GroupOfFour(g);
    assert Val(PAD) == None;
  }

  /** Both decoders read a full group by the bit layout: three bytes of four digits, and the first
      two or the first byte if one or two pads stand for the last digits. */
  lemma GroupLayout(a: char, b: char, c: char, d: char)
    requires Val(a).Some? && Val(b).Some? && DigitOrPad(c) && DigitOrPad(d) && (c == '=' ==> d == '=')
    ensures var all := Layout(Val(a).value, Val(b).value, DigitOrZero(c), DigitOrZero(d));
            var bytes := if c == '=' then all[..1] else if d == '=' then all[..2] else all;
            StrictGroup([a, b, c, d]) == Some(bytes) && LenientGroup([a, b, c, d]) == bytes
  {
    var g := [a, b, c, d];
    var all := Layout(Val(a).value, Val(b).value, DigitOrZero(c), DigitOrZero(d));
    DigitsAndPads(g);
    GoodGroupBytes(g);
    GroupOfFour(g);
    LayoutOfNumber(Val(a).value, Val(b).value, DigitOrZero(c), DigitOrZero(d));
    assert BytesLeft(LenientSum(g), CountPads(g)) == all[..3 - CountPads(g)];
    assert all[..3] == all;
  }
}
