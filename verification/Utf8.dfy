/**
 * What `TextEncoder` does with a text, as JavaScript holds it: a sequence of UTF-16 code units in which a
 * surrogate may stand alone. Each scalar becomes its UTF-8 octets (RFC 3629, section 3), and a lone
 * surrogate those of U+FFFD.
 */
module Utf8 {
  import opened Prelude

  type CodeUnit = u: int | 0 <= u < 0x1_0000

  predicate IsScalar(c: int) {
    0 <= c < 0xD800 || 0xE000 <= c < 0x11_0000
  }

  type Scalar = c: int | 0 <= c < 0xD800 || 0xE000 <= c < 0x11_0000

  const REPLACEMENT: Scalar := 0xFFFD

  predicate High(u: CodeUnit) {
    0xD800 <= u < 0xDC00
  }

  predicate Low(u: CodeUnit) {
    0xDC00 <= u < 0xE000
  }

  // ---- Code units and scalars ----

  /** A surrogate pair stands at the front. */
  predicate Paired(t: seq<CodeUnit>) {
    |t| >= 2 && High(t[0]) && Low(t[1])
  }

  function Scalars(t: seq<CodeUnit>): seq<Scalar> {
    if t == [] then []
    else if Paired(t) then [0x1_0000 + (t[0] - 0xD800) * 0x400 + (t[1] - 0xDC00)] + Scalars(t[2..])
    else [if High(t[0]) || Low(t[0]) then REPLACEMENT else t[0]] + Scalars(t[1..])
  }

  function UnitsOf(c: Scalar): seq<CodeUnit> {
    var c: int := c;
    if c < 0x1_0000 then [c] else [0xD800 + (c - 0x1_0000) / 0x400, 0xDC00 + (c - 0x1_0000) % 0x400]
  }

  function Units(s: seq<Scalar>): seq<CodeUnit> {
    if s == [] then [] else UnitsOf(s[0]) + Units(s[1..])
  }

  /** No surrogate stands alone. */
  predicate WellFormed(t: seq<CodeUnit>) {
    t == [] || (if Paired(t) then WellFormed(t[2..]) else !High(t[0]) && !Low(t[0]) && WellFormed(t[1..]))
  }

  /** A pair is one scalar, and comes back. */
  lemma PairComesBack(t: seq<CodeUnit>)
    requires Paired(t)
    ensures Scalars(t) == [Scalars(t)[0]] + Scalars(t[2..]) && UnitsOf(Scalars(t)[0]) == [t[0], t[1]]
  {
    var high: int, low: int := t[0] - 0xD800, t[1] - 0xDC00;
    assert (high * 0x400 + low) / 0x400 == high && (high * 0x400 + low) % 0x400 == low;
    assert UnitsOf(0x1_0000 + high * 0x400 + low) == [t[0], t[1]];
  }

  /** A unit outside a pair comes back if it is no surrogate, and as another unit if it is one. */
  lemma SingleComesBack(t: seq<CodeUnit>)
    requires t != [] && !Paired(t)
    ensures Scalars(t) == [Scalars(t)[0]] + Scalars(t[1..]) && |UnitsOf(Scalars(t)[0])| == 1
    ensures UnitsOf(Scalars(t)[0])[0] == t[0] <==> !High(t[0]) && !Low(t[0])
  {
  }

  lemma UnitsThen(c: Scalar, rest: seq<Scalar>)
    ensures Units([c] + rest) == UnitsOf(c) + Units(rest)
  {
    assert ([c] + rest)[1..] == rest;
  }

  /** The scalars of a text give back exactly that text if and only if no surrogate in it stands alone. */
  lemma {:induction false} UnitsOfScalars(t: seq<CodeUnit>)
    ensures Units(Scalars(t)) == t <==> WellFormed(t)
    ensures |Units(Scalars(t))| == |t|
  {
    if t != [] {
      var n := if Paired(t) then 2 else 1;
      if Paired(t) { PairComesBack(t); } else { SingleComesBack(t); }
      assert WellFormed(t) <==> (Paired(t) || (!High(t[0]) && !Low(t[0]))) && WellFormed(t[n..]);
      var first := Scalars(t)[0];
      UnitsThen(first, Scalars(t[n..]));
      UnitsOfScalars(t[n..]);
      hide Scalars, Units, UnitsOf, WellFormed, High, Low;
      Joins(UnitsOf(first), Units(Scalars(t[n..])), t, n);
    }
  }

  /** A text is its front and the rest of it, and nothing else is. */
  lemma Joins(front: seq<CodeUnit>, rest: seq<CodeUnit>, t: seq<CodeUnit>, n: nat)
    requires |front| == n <= |t|
    ensures front + rest == t <==> front == t[..n] && rest == t[n..]
  {
    assert (front + rest)[..n] == front && (front + rest)[n..] == rest;
  }

  // ---- Scalars and octets ----

  function Octets(c: Scalar): (o: seq<byte>)
    ensures 1 <= |o| <= 4
  {
    var c: int := c;
    if c < 0x80 then [c]
    else if c < 0x800 then [0xC0 + c / 64, 0x80 + c % 64]
    else if c < 0x1_0000 then [0xE0 + c / 64 / 64, 0x80 + c / 64 % 64, 0x80 + c % 64]
    else [0xF0 + c / 64 / 64 / 64, 0x80 + c / 64 / 64 % 64, 0x80 + c / 64 % 64, 0x80 + c % 64]
  }

  function Encoded(s: seq<Scalar>): seq<byte> {
    if s == [] then [] else Octets(s[0]) + Encoded(s[1..])
  }

  /** `TextEncoder.encode`. */
  function Encode(t: seq<CodeUnit>): seq<byte> {
    Encoded(Scalars(t))
  }

  lemma EncodeNothing()
    ensures Encode([]) == []
  {
  }

  /** How many octets the one at the front says its scalar takes; 0 for one that starts none. */
  function LengthOf(lead: byte): nat {
    if lead < 0x80 then 1
    else if 0xC2 <= lead < 0xE0 then 2
    else if 0xE0 <= lead < 0xF0 then 3
    else if 0xF0 <= lead < 0xF5 then 4
    else 0
  }

  predicate Follows(b: byte) {
    0x80 <= b < 0xC0
  }

  /** Six more bits. */
  function Joined(high: int, b: byte): int {
    high * 64 + (b - 0x80)
  }

  /** The scalar at the front, or None where the octets there are those of none, over-long ones among them. */
  function First(b: seq<byte>): Option<Scalar>
    requires b != []
  {
    var n := LengthOf(b[0]);
    if n == 0 || n > |b| || exists i :: 1 <= i < n && !Follows(b[i]) then None
    else
      var c :=
        if n == 1 then b[0] as int
        else if n == 2 then Joined(b[0] - 0xC0, b[1])
        else if n == 3 then Joined(Joined(b[0] - 0xE0, b[1]), b[2])
        else Joined(Joined(Joined(b[0] - 0xF0, b[1]), b[2]), b[3]);
      if IsScalar(c) && (n == 3 ==> c >= 0x800) && (n == 4 ==> c >= 0x1_0000) then Some(c) else None
  }

  /** A strict reader: the scalars of the octets, or None. */
  function Read(b: seq<byte>): Option<seq<Scalar>> {
    if b == [] then Some([])
    else
      var first := First(b);
      if first.None? then None
      else
        var rest := Read(b[LengthOf(b[0])..]);
        if rest.None? then None else Some([first.value] + rest.value)
  }

  lemma FirstOf(c: Scalar, rest: seq<byte>)
    ensures First(Octets(c) + rest) == Some(c) && LengthOf((Octets(c) + rest)[0]) == |Octets(c)|
  {
    var o, b := Octets(c), Octets(c) + rest;
    assert forall i :: 0 <= i < |o| ==> b[i] == o[i];
    if c < 0x80 {
      assert First(b) == Some(c);
    } else if c < 0x800 {
      assert LengthOf(b[0]) == 2 && Follows(b[1]);
      assert Joined(b[0] - 0xC0, b[1]) == c;
    } else if c < 0x1_0000 {
      assert LengthOf(b[0]) == 3 && Follows(b[1]) && Follows(b[2]);
      assert Joined(b[0] - 0xE0, b[1]) == c / 64;
      assert Joined(c / 64, b[2]) == c;
    } else {
      assert LengthOf(b[0]) == 4 && Follows(b[1]) && Follows(b[2]) && Follows(b[3]);
      assert Joined(b[0] - 0xF0, b[1]) == c / 64 / 64;
      assert Joined(c / 64 / 64, b[2]) == c / 64;
      assert Joined(c / 64, b[3]) == c;
    }
  }

  /** The octets of any scalars are read back as those scalars. */
  lemma {:induction false} ReadEncoded(s: seq<Scalar>)
    ensures Read(Encoded(s)) == Some(s)
  {
    if s != [] {
      var rest := Encoded(s[1..]);
      FirstOf(s[0], rest);
      hide First, Octets, LengthOf;
      ReadEncoded(s[1..]);
      assert (Octets(s[0]) + rest)[|Octets(s[0])|..] == rest;
      assert [s[0]] + s[1..] == s;
    }
  }

  /**
   * The text crosses: its octets read back as its scalars, lone surrogates replaced, and as the very text
   * if and only if it has none.
   */
  lemma TextCrosses(t: seq<CodeUnit>)
    ensures Read(Encode(t)) == Some(Scalars(t))
    ensures Units(Read(Encode(t)).value) == t <==> WellFormed(t)
  {
    ReadEncoded(Scalars(t));
    UnitsOfScalars(t);
  }

  /** Examples of section 7 of RFC 3629; the third is a surrogate pair, the last two the halves of it alone. */
  lemma Examples()
    ensures Encode([0x41]) == [0x41] && Encode([0x391]) == [0xCE, 0x91] && Encode([0x2262]) == [0xE2, 0x89, 0xA2]
    ensures Encode([0xD84C, 0xDFB4]) == [0xF0, 0xA3, 0x8E, 0xB4]
    ensures Encode([0xD84C]) == [0xEF, 0xBF, 0xBD] && Encode([0xDFB4]) == [0xEF, 0xBF, 0xBD]
  {
    OctetsOfExamples();
    EncodeNothing();
    EncodeThen([0x41]);
    EncodeThen([0x391]);
    EncodeThen([0x2262]);
    EncodeThen([0xD84C, 0xDFB4]);
    EncodeThen([0xD84C]);
    EncodeThen([0xDFB4]);
    hide Encode, Octets;
  }

  lemma OctetsOfExamples()
    ensures Octets(0x41) == [0x41] && Octets(0x391) == [0xCE, 0x91] && Octets(0x2262) == [0xE2, 0x89, 0xA2]
    ensures Octets(0x233B4) == [0xF0, 0xA3, 0x8E, 0xB4] && Octets(0xFFFD) == [0xEF, 0xBF, 0xBD]
  {
  }

  /** The front of a text, then the rest of it. */
  lemma EncodeThen(t: seq<CodeUnit>)
    requires t != []
    ensures Encode(t) ==
            if Paired(t) then Octets(0x1_0000 + (t[0] as int - 0xD800) * 0x400 + (t[1] as int - 0xDC00)) + Encode(t[2..])
            else Octets(if High(t[0]) || Low(t[0]) then 0xFFFD else t[0]) + Encode(t[1..])
  {
    var c := Scalars(t)[0];
    assert Scalars(t)[1..] == Scalars(t[if Paired(t) then 2 else 1..]);
  }

  /** An octet sequence says its own length, in its first octet, and every other octet says it follows one. */
  lemma OctetsSayTheirPlace(c: Scalar, i: nat)
    requires i < |Octets(c)|
    ensures |Octets(c)| == if c < 0x80 then 1 else if c < 0x800 then 2 else if c < 0x1_0000 then 3 else 4
    ensures i > 0 <==> 0x80 <= Octets(c)[i] < 0xC0
  {
  }
}
