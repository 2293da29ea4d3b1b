/**
 * The request-body encoding of the desktop bridge (apps/desktop/src/bridge-fetch.ts): `base64Of`
 * encodes a large body slice by slice, and `bodyField` chooses the field a body crosses in.
 *
 * `Encode` is standard base64 as section 4 of RFC 4648 defines it, three octets to four letters with
 * padding at the end of the data only; it is also what `btoa` answers for one slice. The engine's
 * side of the crossing is `Decode`, which refuses everything that is not such an encoding.
 */
module Base64 {
  import opened Prelude
  import Utf8

  type sextet = x: int | 0 <= x < 64

  const PAD := '='

  function Letter(v: sextet): char {
    if v < 26 then ('A' as int + v) as char
    else if v < 52 then ('a' as int + v - 26) as char
    else if v < 62 then ('0' as int + v - 52) as char
    else if v == 62 then '+'
    else '/'
  }

  function Value(c: char): Option<sextet> {
    if 'A' <= c <= 'Z' then Some(c as int - 'A' as int)
    else if 'a' <= c <= 'z' then Some(c as int - 'a' as int + 26)
    else if '0' <= c <= '9' then Some(c as int - '0' as int + 52)
    else if c == '+' then Some(62)
    else if c == '/' then Some(63)
    else None
  }

  lemma LetterHasValue(v: sextet)
    ensures Value(Letter(v)) == Some(v) && Letter(v) != PAD
  {
  }

  lemma ValueHasLetter(c: char)
    requires Value(c).Some?
    ensures Letter(Value(c).value) == c
  {
  }

  const CAPITALS := "ABCDEFGHIJKLMNOPQRSTUVWXYZ"
  const SMALL_LETTERS := "abcdefghijklmnopqrstuvwxyz"

  /** Table 1 of RFC 4648. */
  const ALPHABET := CAPITALS + SMALL_LETTERS + "0123456789" + "+/"

  lemma Capitals(v: nat)
    requires v < 26
    ensures |CAPITALS| == 26 && CAPITALS[v] as int == 'A' as int + v
  {
  }

  lemma SmallLetters(v: nat)
    requires v < 26
    ensures |SMALL_LETTERS| == 26 && SMALL_LETTERS[v] as int == 'a' as int + v
  {
  }

  lemma Digits(v: nat)
    requires v < 10
    ensures "0123456789"[v] as int == '0' as int + v
  {
  }

  /** The letters are the table's, in its order. */
  lemma LettersAreTheTable(v: sextet)
    ensures |ALPHABET| == 64 && Letter(v) == ALPHABET[v]
  {
    Capitals(0);
    SmallLetters(0);
    hide CAPITALS, SMALL_LETTERS;
    if v < 26 { Capitals(v); } else if v < 52 { SmallLetters(v - 26); } else if v < 62 { Digits(v - 52); }
  }

  /** Three octets as four letters. */
  function Group(a: byte, b: byte, c: byte): (s: string)
    ensures |s| == 4
  {
    [Letter(a / 4), Letter(a % 4 * 16 + b / 16), Letter(b % 16 * 4 + c / 64), Letter(c % 64)]
  }

  function Encode(bytes: seq<byte>): (s: string)
    ensures |s| == (|bytes| + 2) / 3 * 4
  {
    if |bytes| == 0 then ""
    else if |bytes| == 1 then [Letter(bytes[0] / 4), Letter(bytes[0] % 4 * 16), PAD, PAD]
    else if |bytes| == 2 then
      [Letter(bytes[0] / 4), Letter(bytes[0] % 4 * 16 + bytes[1] / 16), Letter(bytes[1] % 16 * 4), PAD]
    else Group(bytes[0], bytes[1], bytes[2]) + Encode(bytes[3..])
  }

  /** Three octets and four sextets are the same 24 bits in the same order. */
  predicate SameBits(a: byte, b: byte, c: byte, w: sextet, x: sextet, y: sextet, z: sextet) {
    a as int * 0x1_0000 + b as int * 0x100 + c as int == w as int * 0x4_0000 + x as int * 0x1000 + y as int * 0x40 + z as int
  }

  /** The letters at group `g` are those of these sextets, the bits of its octets; zeros fill the last one up. */
  predicate GroupIs(bytes: seq<byte>, s: string, g: nat, w: sextet, x: sextet, y: sextet, z: sextet)
    requires 3 * g < |bytes| && 4 * g + 4 <= |s|
  {
    && s[4 * g] == Letter(w) && s[4 * g + 1] == Letter(x)
    && s[4 * g + 2] == (if 3 * g + 1 < |bytes| then Letter(y) else PAD)
    && s[4 * g + 3] == (if 3 * g + 2 < |bytes| then Letter(z) else PAD)
    && SameBits(bytes[3 * g], if 3 * g + 1 < |bytes| then bytes[3 * g + 1] else 0,
                if 3 * g + 2 < |bytes| then bytes[3 * g + 2] else 0, w, x, y, z)
  }

  ghost predicate GroupAt(bytes: seq<byte>, s: string, g: nat)
    requires 3 * g < |bytes| && 4 * g + 4 <= |s|
  {
    exists w: sextet, x: sextet, y: sextet, z: sextet :: GroupIs(bytes, s, g, w, x, y, z)
  }

  lemma SextetsOf(a: byte, b: byte, c: byte)
    ensures SameBits(a, b, c, a / 4, a % 4 * 16 + b / 16, b % 16 * 4 + c / 64, c % 64)
  {
  }

  lemma FirstGroup(bytes: seq<byte>)
    requires bytes != []
    ensures |Encode(bytes)| >= 4 && GroupAt(bytes, Encode(bytes), 0)
  {
    var a: byte, b: byte, c: byte :=
      bytes[0], if 1 < |bytes| then bytes[1] else 0, if 2 < |bytes| then bytes[2] else 0;
    SextetsOf(a, b, c);
    FirstLetters(bytes, a, b, c);
    hide Letter, SameBits, Encode;
    assert GroupIs(bytes, Encode(bytes), 0, a / 4, a % 4 * 16 + b / 16, b % 16 * 4 + c / 64, c % 64);
  }

  lemma FirstLetters(bytes: seq<byte>, a: byte, b: byte, c: byte)
    requires bytes != [] && a == bytes[0]
    requires b == if 1 < |bytes| then bytes[1] else 0
    requires c == if 2 < |bytes| then bytes[2] else 0
    ensures |Encode(bytes)| >= 4
    ensures var s := Encode(bytes);
            && s[0] == Letter(a / 4) && s[1] == Letter(a % 4 * 16 + b / 16)
            && s[2] == (if 1 < |bytes| then Letter(b % 16 * 4 + c / 64) else PAD)
            && s[3] == (if 2 < |bytes| then Letter(c % 64) else PAD)
  {
    hide Letter;
    if |bytes| > 2 { EncodeFirst(bytes); }
  }

  lemma GroupThen(bytes: seq<byte>, head: string, rest: string, g: nat)
    requires |bytes| >= 3 && |head| == 4 && g > 0 && 3 * g < |bytes| && 4 * g <= |rest|
    requires GroupAt(bytes[3..], rest, g - 1)
    ensures GroupAt(bytes, head + rest, g)
  {
    hide Letter, SameBits;
    var w: sextet, x: sextet, y: sextet, z: sextet :| GroupIs(bytes[3..], rest, g - 1, w, x, y, z);
    var k, s := 4 * (g - 1), head + rest;
    assert s[k + 4] == rest[k] && s[k + 5] == rest[k + 1] && s[k + 6] == rest[k + 2] && s[k + 7] == rest[k + 3];
    var j := 3 * (g - 1);
    assert bytes[j + 3] == bytes[3..][j];
    assert j + 4 < |bytes| ==> bytes[j + 4] == bytes[3..][j + 1];
    assert j + 5 < |bytes| ==> bytes[j + 5] == bytes[3..][j + 2];
    assert GroupIs(bytes, s, g, w, x, y, z);
  }

  /** Every group of letters is its octets' bits, in order. */
  lemma {:induction false} GroupsKeepTheBits(bytes: seq<byte>, g: nat)
    requires 3 * g < |bytes|
    ensures 4 * g + 4 <= |Encode(bytes)| && GroupAt(bytes, Encode(bytes), g)
  {
    hide Encode, Group, GroupAt;
    if g == 0 {
      FirstGroup(bytes);
    } else {
      EncodeFirst(bytes);
      GroupsKeepTheBits(bytes[3..], g - 1);
      GroupThen(bytes, Group(bytes[0], bytes[1], bytes[2]), Encode(bytes[3..]), g);
    }
  }

  /** The last four letters of an encoding: one, two or three octets, unused bits zero. */
  function DecodeLast(s: string): Option<seq<byte>>
    requires |s| == 4
  {
    var a, b, c, d := Value(s[0]), Value(s[1]), Value(s[2]), Value(s[3]);
    if a.None? || b.None? then None
    else if s[2] == PAD && s[3] == PAD then
      if b.value % 16 == 0 then Some([a.value * 4 + b.value / 16]) else None
    else if c.None? then None
    else if s[3] == PAD then
      if c.value % 4 == 0 then Some([a.value * 4 + b.value / 16, b.value % 16 * 16 + c.value / 4]) else None
    else if d.None? then None
    else Some([a.value * 4 + b.value / 16, b.value % 16 * 16 + c.value / 4, c.value % 4 * 64 + d.value])
  }

  function Decode(s: string): Option<seq<byte>> {
    if s == "" then Some([])
    else if |s| < 4 then None
    else
      var head := DecodeLast(s[..4]);
      if |s| == 4 then head
      else
        var tail := Decode(s[4..]);
        if head.Some? && |head.value| == 3 && tail.Some? then Some(head.value + tail.value) else None
  }

  /** Three octets cut into sextets and put together again. */
  lemma OctetsFromSextets(a: byte, b: byte, c: byte)
    ensures var x, y, z := a % 4 * 16 + b / 16, b % 16 * 4 + c / 64, c % 64;
            && a / 4 * 4 + x / 16 == a && x % 16 * 16 + y / 4 == b && y % 4 * 64 + z == c
  {
  }

  /** Four sextets put together into octets and cut again. */
  lemma SextetsFromOctets(w: sextet, x: sextet, y: sextet, z: sextet)
    ensures var a, b, c := w * 4 + x / 16, x % 16 * 16 + y / 4, y % 4 * 64 + z;
            && a < 256 && b < 256 && c < 256
            && a / 4 == w && a % 4 * 16 + b / 16 == x && b % 16 * 4 + c / 64 == y && c % 64 == z
  {
  }

  lemma GroupDecodes(a: byte, b: byte, c: byte)
    ensures DecodeLast(Group(a, b, c)) == Some([a, b, c])
  {
    hide Letter, Value;
    LetterHasValue(a / 4);
    LetterHasValue(a % 4 * 16 + b / 16);
    LetterHasValue(b % 16 * 4 + c / 64);
    LetterHasValue(c % 64);
    OctetsFromSextets(a, b, c);
  }

  lemma PadHasNoValue()
    ensures Value(PAD) == None
  {
  }

  /** The last group, one octet over. */
  lemma OneDecodes(a: byte)
    ensures DecodeLast(Encode([a])) == Some([a])
  {
    hide Letter, Value;
    var w, x := a / 4, a % 4 * 16;
    assert x % 16 == 0 && w * 4 + x / 16 == a;
    LetterHasValue(w);
    LetterHasValue(x);
    PadHasNoValue();
  }

  /** The last group, two octets over. */
  lemma TwoDecode(a: byte, b: byte)
    ensures DecodeLast(Encode([a, b])) == Some([a, b])
  {
    hide Letter, Value;
    var w, x, y := a / 4, a % 4 * 16 + b / 16, b % 16 * 4;
    assert y % 4 == 0 && w * 4 + x / 16 == a && x % 16 * 16 + y / 4 == b;
    LetterHasValue(w);
    LetterHasValue(x);
    LetterHasValue(y);
    PadHasNoValue();
  }

  /** What was encoded comes back: the two sides of the bridge agree on every body. */
  lemma {:induction false} DecodeEncode(bytes: seq<byte>)
    ensures Decode(Encode(bytes)) == Some(bytes)
  {
    hide DecodeLast, Group;
    var s := Encode(bytes);
    if |bytes| == 0 {
    } else if |bytes| == 1 {
      OneDecodes(bytes[0]);
      assert bytes == [bytes[0]] && s[..4] == s;
    } else if |bytes| == 2 {
      TwoDecode(bytes[0], bytes[1]);
      assert bytes == [bytes[0], bytes[1]] && s[..4] == s;
    } else {
      GroupDecodes(bytes[0], bytes[1], bytes[2]);
      var head := Group(bytes[0], bytes[1], bytes[2]);
      assert s == head + Encode(bytes[3..]);
      assert s[..4] == head && s[4..] == Encode(bytes[3..]);
      DecodeEncode(bytes[3..]);
      assert DecodeLast(s[..4]) == Some([bytes[0], bytes[1], bytes[2]]);
      if |s| == 4 { assert bytes == [bytes[0], bytes[1], bytes[2]]; }
      assert bytes == [bytes[0], bytes[1], bytes[2]] + bytes[3..];
    }
  }

  /** And nothing else is accepted: a string decodes only if it is the encoding of what it decodes to. */
  lemma {:induction false} EncodeDecode(s: string)
    requires Decode(s).Some?
    ensures Encode(Decode(s).value) == s
  {
    if s != "" {
      LastEncodes(s[..4]);
      var head := DecodeLast(s[..4]).value;
      if |s| == 4 {
        assert s[..4] == s;
      } else {
        EncodeDecode(s[4..]);
        var tail := Decode(s[4..]).value;
        assert (head + tail)[3..] == tail;
        assert Encode(head) == Group(head[0], head[1], head[2]) + Encode([]);
        assert s == s[..4] + s[4..];
      }
    }
  }

  lemma LastEncodes(s: string)
    requires |s| == 4 && DecodeLast(s).Some?
    ensures Encode(DecodeLast(s).value) == s
    ensures 1 <= |DecodeLast(s).value| <= 3
  {
    hide Letter, Value;
    var bytes := DecodeLast(s).value;
    var y := if Value(s[2]).Some? then Value(s[2]).value else 0;
    var z := if Value(s[3]).Some? then Value(s[3]).value else 0;
    PadHasNoValue();
    SextetsFromOctets(Value(s[0]).value, Value(s[1]).value, y, z);
    ValueHasLetter(s[0]);
    ValueHasLetter(s[1]);
    if |bytes| >= 2 { ValueHasLetter(s[2]); }
    if |bytes| == 3 {
      ValueHasLetter(s[3]);
      assert bytes[3..] == [];
    }
  }

  lemma EncodeFirst(bytes: seq<byte>)
    requires |bytes| >= 3
    ensures Encode(bytes) == Group(bytes[0], bytes[1], bytes[2]) + Encode(bytes[3..])
  {
  }

  lemma EncodeEmpty()
    ensures Encode([]) == ""
  {
  }

  /** A slice of whole groups carries no padding, so its encoding joins on to the rest. */
  lemma {:induction false} EncodeJoins(a: seq<byte>, b: seq<byte>)
    requires |a| % 3 == 0
    ensures Encode(a + b) == Encode(a) + Encode(b)
  {
    hide Encode, Group;
    if a == [] {
      EncodeEmpty();
      assert a + b == b;
    } else {
      assert (a + b)[3..] == a[3..] + b;
      EncodeFirst(a);
      EncodeFirst(a + b);
      EncodeJoins(a[3..], b);
    }
  }

  lemma LettersAreNoPad(v: sextet)
    ensures Letter(v) != PAD
  {
  }

  /** The last group: one octet leaves two pads, two leave one. */
  lemma PadsOfTheLast(bytes: seq<byte>, k: nat)
    requires |bytes| < 3 && k < |Encode(bytes)|
    ensures Encode(bytes)[k] == PAD <==> k >= 1 + |bytes|
  {
    hide Letter;
    forall v: sextet ensures Letter(v) != PAD { LettersAreNoPad(v); }
  }

  lemma GroupHasNoPad(a: byte, b: byte, c: byte, k: nat)
    requires k < 4
    ensures Group(a, b, c)[k] != PAD
  {
    hide Letter;
    forall v: sextet ensures Letter(v) != PAD { LettersAreNoPad(v); }
  }

  /** How many letters of padding `n` octets leave. */
  function PadsFor(n: nat): nat {
    (3 - n % 3) % 3
  }

  lemma PadsForRest(n: nat)
    ensures PadsFor(n + 3) == PadsFor(n)
    ensures n < 3 ==> PadsFor(n) == if n == 0 then 0 else 3 - n
  {
  }

  lemma PadsThen(head: string, tail: string, k: nat, pads: nat)
    requires |head| == 4 && k < 4 + |tail|
    requires forall i :: 0 <= i < 4 ==> head[i] != PAD
    requires pads <= |tail| && (k >= 4 ==> (tail[k - 4] == PAD <==> k - 4 >= |tail| - pads))
    ensures (head + tail)[k] == PAD <==> k >= |head + tail| - pads
  {
  }

  lemma PadsFit(bytes: seq<byte>)
    ensures PadsFor(|bytes|) <= |Encode(bytes)|
  {
    if bytes == [] { EncodeEmpty(); }
  }

  /** Padding stands at the very end and nowhere else: how much of it there is says how many octets are over. */
  lemma {:induction false} PadsOnlyAtTheEnd(bytes: seq<byte>, k: nat)
    requires k < |Encode(bytes)|
    ensures Encode(bytes)[k] == PAD <==> k >= |Encode(bytes)| - PadsFor(|bytes|)
  {
    hide Encode, Group, PadsFor;
    if |bytes| < 3 {
      PadsForRest(|bytes|);
      PadsOfTheLast(bytes, k);
      ShortLength(bytes);
    } else {
      var head, rest := Group(bytes[0], bytes[1], bytes[2]), bytes[3..];
      EncodeFirst(bytes);
      PadsForRest(|rest|);
      PadsFit(rest);
      if k >= 4 { PadsOnlyAtTheEnd(rest, k - 4); }
      forall i | 0 <= i < 4 ensures head[i] != PAD { GroupHasNoPad(bytes[0], bytes[1], bytes[2], i); }
      PadsThen(head, Encode(rest), k, PadsFor(|rest|));
    }
  }

  lemma ShortLength(bytes: seq<byte>)
    requires |bytes| < 3
    ensures |Encode(bytes)| == if bytes == [] then 0 else 4
  {
  }

  const SLICE := 3 * 0x2000

  function Join(parts: seq<string>): string {
    if parts == [] then "" else Join(parts[..|parts| - 1]) + parts[|parts| - 1]
  }

  /** The pieces of a front of the bytes, and one more of what follows it. */
  lemma JoinOneMore(bytes: seq<byte>, i: nat, end: nat, parts: seq<string>)
    requires i <= end <= |bytes| && i % 3 == 0 && Join(parts) == Encode(bytes[..i])
    ensures Join(parts + [Encode(bytes[i..end])]) == Encode(bytes[..end])
  {
    hide Encode;
    EncodeJoins(bytes[..i], bytes[i..end]);
    assert bytes[..i] + bytes[i..end] == bytes[..end];
    assert (parts + [Encode(bytes[i..end])])[..|parts|] == parts;
  }

  lemma JoinNone(bytes: seq<byte>)
    ensures Join([]) == Encode(bytes[..0])
  {
    EncodeEmpty();
  }

  lemma NextSlice(i: nat)
    requires i % 3 == 0
    ensures (i + SLICE) % 3 == 0
  {
  }

  /** `base64Of`: encoded slice by slice, the same string as the whole body encoded at once. */
  method Base64Of(bytes: seq<byte>) returns (s: string)
    ensures s == Encode(bytes)
  {
    hide Encode, Join;
    var parts: seq<string> := [];
    var i := 0;
    JoinNone(bytes);
    while i < |bytes|
      invariant i % 3 == 0
      invariant Join(parts) == Encode(bytes[..Min(i, |bytes|)])
    {
      var end := Min(i + SLICE, |bytes|);
      JoinOneMore(bytes, i, end, parts);
      NextSlice(i);
      parts := parts + [Encode(bytes[i..end])];
      i := i + SLICE;
    }
    assert bytes[..|bytes|] == bytes;
    s := Join(parts);
  }

  const LARGE_BODY_FROM_BYTES := 64 * 1024

  /** A body the client composes: nothing, a text, octets, or anything else. */
  datatype RequestBody = Absent | Text(text: seq<Utf8.CodeUnit>) | Octets(bytes: seq<byte>) | Other

  datatype Field = Bytes(body: seq<byte>) | BodyText(text: seq<Utf8.CodeUnit>) | Body64(encoded: string) | Refused

  /**
   * What the shell reads out of a field (`window_request_body`): the octets of the body. A text crosses
   * the command channel as JSON, which carries no lone surrogate.
   */
  function OctetsOf(f: Field): Option<seq<byte>> {
    match f
    case Bytes(b) => Some(b)
    case BodyText(t) => if Utf8.WellFormed(t) then Some(Utf8.Encode(t)) else None
    case Body64(s) => Decode(s)
    case Refused => None
  }

  /** `bodyField`: which field of the command a body crosses in, and that it crosses whole. */
  method BodyField(body: RequestBody) returns (f: Field)
    ensures f.Refused? <==> body.Other?
    ensures body.Absent? ==> f == Bytes([])
    ensures body.Text? ==>
              && (f.BodyText? <==> |body.text| >= LARGE_BODY_FROM_BYTES) && (f.BodyText? ==> f.text == body.text)
              && !f.Body64? && OctetsOf(f) == (if f.BodyText? && !Utf8.WellFormed(body.text) then None else Some(Utf8.Encode(body.text)))
              && (f.Bytes? ==> Utf8.Read(f.body) == Some(Utf8.Scalars(body.text)))
    ensures body.Octets? ==>
              && (f.Body64? <==> |body.bytes| >= LARGE_BODY_FROM_BYTES)
              && !f.BodyText? && OctetsOf(f) == Some(body.bytes)
  {
    hide Decode, Encode, Utf8.Encode, Utf8.Read;
    match body {
      case Absent => f := Bytes([]);
      case Text(text) =>
        Utf8.TextCrosses(text);
        if text == [] {
          assert Utf8.Encode(text) == [] by { Utf8.EncodeNothing(); }
          f := Bytes([]);
        }
        else if |text| >= LARGE_BODY_FROM_BYTES { f := BodyText(text); }
        else { f := Bytes(Utf8.Encode(text)); }
      case Octets(bytes) =>
        if |bytes| >= LARGE_BODY_FROM_BYTES {
          var encoded := Base64Of(bytes);
          DecodeEncode(bytes);
          f := Body64(encoded);
        } else {
          f := Bytes(bytes);
        }
      case Other => f := Refused;
    }
  }
}
