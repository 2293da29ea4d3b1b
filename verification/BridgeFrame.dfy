/**
 * The shell's answer to one bridge request (apps/desktop/src/bridge-fetch.ts): four bytes of
 * metadata length, big-endian, the metadata as JSON, then the body.
 *
 * JSON is a parameter: a reader, and where a round trip is stated a writer it undoes.
 */
module BridgeFrame {
  import opened Prelude
  import opened Base64

  /** The fields read from the metadata; a field that is absent or of another type is None. */
  datatype Meta = Meta(status: Option<int>, statusText: Option<string>, headers: seq<(string, string)>)

  /** None where `JSON.parse` throws, and for a bare `null`, whose fields cannot be read. */
  type Reader = seq<byte> -> Option<Meta>

  datatype Answer =
    | Response(status: int, statusText: string, headers: seq<(string, string)>, body: Option<seq<byte>>)
    | TooShort
    | OverDeclared
    | BadMeta
    | BadStatus(status: int)
    | BadStatusText

  const NULL_BODY_STATUSES := {101, 103, 204, 205, 304}

  function GetUint32(b: seq<byte>): (n: nat)
    requires |b| >= 4
    ensures n < 0x1_0000_0000
  {
    b[0] as int * 0x100_0000 + b[1] as int * 0x1_0000 + b[2] as int * 0x100 + b[3] as int
  }

  /** Octets as one number, the first of them the most significant. */
  function BigEndian(b: seq<byte>): nat {
    if b == [] then 0 else BigEndian(b[..|b| - 1]) * 256 + b[|b| - 1]
  }

  /** The length is read from the first four octets, the most significant first. */
  lemma LengthIsBigEndian(b: seq<byte>)
    requires |b| >= 4
    ensures GetUint32(b) == BigEndian(b[..4])
  {
    var f := b[..4];
    assert f[..3][..2] == f[..2] && f[..2][..1] == f[..1] && f[..1][..0] == [];
    assert BigEndian(f[..1]) == b[0] as int;
    assert BigEndian(f[..2]) == b[0] as int * 256 + b[1];
    assert BigEndian(f[..3]) == (b[0] as int * 256 + b[1]) * 256 + b[2];
  }

  function PutUint32(n: nat): (b: seq<byte>)
    requires n < 0x1_0000_0000
    ensures |b| == 4
  {
    [n / 0x100_0000, n / 0x1_0000 % 0x100, n / 0x100 % 0x100, n % 0x100]
  }

  /** A reason phrase a `Response` takes: tabs, visible ASCII and spaces, and octets from 0x80 on. */
  predicate ReasonPhrase(text: string) {
    forall c :: c in text ==> c == '\t' || ' ' <= c <= '~' || 0x80 <= c as int <= 0xFF
  }

  predicate TokenChar(c: char) {
    'a' <= c <= 'z' || 'A' <= c <= 'Z' || '0' <= c <= '9' || c in "!#$%&'*+-.^_`|~"
  }

  const TOKEN_CHARS :=
    "!#$%&'*+-.^_`|~" + "0123456789" + SMALL_LETTERS + CAPITALS

  /** The characters of a token, section 5.6.2 of RFC 9110. */
  lemma TokenCharsAreTheStandards(c: char)
    ensures TokenChar(c) <==> c in TOKEN_CHARS
  {
    hide CAPITALS, SMALL_LETTERS;
    assert c in TOKEN_CHARS <==> c in "!#$%&'*+-.^_`|~" || c in "0123456789" || c in SMALL_LETTERS || c in CAPITALS;
    DigitsAre(c);
    LettersAre(c);
  }

  lemma DigitsAre(c: char)
    ensures c in "0123456789" <==> '0' <= c <= '9'
  {
    if '0' <= c <= '9' { assert "0123456789"[c as int - '0' as int] == c; }
  }

  lemma LettersAre(c: char)
    ensures c in SMALL_LETTERS <==> 'a' <= c <= 'z'
    ensures c in CAPITALS <==> 'A' <= c <= 'Z'
  {
    forall v: nat | v < 26
      ensures |CAPITALS| == 26 == |SMALL_LETTERS|
      ensures CAPITALS[v] as int == 'A' as int + v && SMALL_LETTERS[v] as int == 'a' as int + v
    {
      Capitals(v);
      SmallLetters(v);
    }
    Capitals(0);
    SmallLetters(0);
    hide CAPITALS, SMALL_LETTERS;
    if 'a' <= c <= 'z' { assert SMALL_LETTERS[c as int - 'a' as int] == c; }
    if 'A' <= c <= 'Z' { assert CAPITALS[c as int - 'A' as int] == c; }
  }

  /** A reason phrase, by the octets of section 4 of RFC 9112: tab, space, visible characters, and 0x80 to 0xFF. */
  lemma ReasonPhraseOctets(c: char)
    ensures ReasonPhrase([c]) <==> c as int == 9 || 32 <= c as int < 127 || 128 <= c as int < 256
  {
    assert c in [c];
  }

  predicate Blank(c: char) {
    c in "\t\n\r "
  }

  /** A character that stops a header value: one that fits no octet, and NUL, LF or CR but at the ends, which are trimmed. */
  predicate Stops(value: string, i: nat)
    requires i < |value|
  {
    || value[i] as int > 0xFF
    || (value[i] in "\0\n\r" && (exists j :: 0 <= j <= i && !Blank(value[j])) && exists j :: i <= j < |value| && !Blank(value[j]))
  }

  /** A pair `Headers.append` takes. */
  predicate Acceptable(pair: (string, string)) {
    && pair.0 != "" && (forall c :: c in pair.0 ==> TokenChar(c))
    && forall i: nat :: i < |pair.1| ==> !Stops(pair.1, i)
  }

  /** A value between blanks is accepted if and only if every character of it is one octet, and none NUL, LF or CR. */
  lemma AcceptableExact(name: string, before: string, value: string, after: string)
    requires forall c :: c in before || c in after ==> Blank(c)
    requires value != "" && !Blank(value[0]) && !Blank(value[|value| - 1])
    ensures Acceptable((name, before + value + after)) <==>
            && name != "" && (forall c :: c in name ==> c in TOKEN_CHARS)
            && forall c :: c in value ==> c as int < 256 && c as int != 0 && c as int != 10 && c as int != 13
  {
    forall c | c in name ensures TokenChar(c) <==> c in TOKEN_CHARS { TokenCharsAreTheStandards(c); }
    hide TokenChar, TOKEN_CHARS;
    var whole, n := before + value + after, |before|;
    forall i: nat | i < |whole|
      ensures Stops(whole, i) <==> n <= i < n + |value| && StopsWithin(value[i - n])
    {
      WithinBlanks(before, value, after, i);
    }
    forall k | 0 <= k < |value| ensures whole[n + k] == value[k] {}
    if forall c :: c in value ==> !StopsWithin(c) {
      assert forall i: nat :: i < |whole| ==> !Stops(whole, i);
    } else {
      var k :| 0 <= k < |value| && StopsWithin(value[k]);
      assert Stops(whole, n + k);
    }
  }

  predicate StopsWithin(c: char) {
    c as int > 255 || c as int == 0 || c as int == 10 || c as int == 13
  }

  lemma WithinBlanks(before: string, value: string, after: string, i: nat)
    requires forall c :: c in before || c in after ==> Blank(c)
    requires value != "" && !Blank(value[0]) && !Blank(value[|value| - 1])
    requires i < |before + value + after|
    ensures Stops(before + value + after, i) <==>
            |before| <= i < |before| + |value| && StopsWithin(value[i - |before|])
  {
    var whole, n := before + value + after, |before|;
    assert whole[n] == value[0] && whole[n + |value| - 1] == value[|value| - 1];
    if i < n {
      assert forall j :: 0 <= j <= i ==> whole[j] == before[j] && Blank(before[j]);
    } else if i < n + |value| {
      assert whole[i] == value[i - n];
    } else {
      assert forall j :: i <= j < |whole| ==> whole[j] == after[j - n - |value|] && Blank(after[j - n - |value|]);
    }
  }

  /** The pairs the platform accepts, in order. */
  function Kept(pairs: seq<(string, string)>): seq<(string, string)> {
    if pairs == [] then []
    else
      var last := pairs[|pairs| - 1];
      Kept(pairs[..|pairs| - 1]) + if Acceptable(last) then [last] else []
  }

  /** `toHeaders`: a pair the platform refuses does not lose the rest. */
  method ToHeaders(pairs: seq<(string, string)>) returns (headers: seq<(string, string)>)
    ensures headers == Kept(pairs)
  {
    hide Acceptable;
    headers := [];
    for i := 0 to |pairs|
      invariant headers == Kept(pairs[..i])
    {
      assert pairs[..i + 1][..i] == pairs[..i];
      if Acceptable(pairs[i]) { headers := headers + [pairs[i]]; }
    }
    assert pairs[..|pairs|] == pairs;
  }

  /** Nothing acceptable is lost, and nothing else is kept. */
  lemma {:induction false} KeptExactly(pairs: seq<(string, string)>)
    ensures forall p :: p in Kept(pairs) <==> p in pairs && Acceptable(p)
    ensures (forall p :: p in pairs ==> Acceptable(p)) ==> Kept(pairs) == pairs
  {
    hide Acceptable;
    if pairs != [] {
      var n := |pairs| - 1;
      KeptExactly(pairs[..n]);
      assert pairs == pairs[..n] + [pairs[n]];
    }
  }

  /** `toResponse`. */
  function ToResponse(bytes: seq<byte>, parse: Reader): Answer {
    if |bytes| < 4 then TooShort
    else
      var metaLength := GetUint32(bytes);
      if 4 + metaLength > |bytes| then OverDeclared
      else
        var meta := parse(bytes[4..4 + metaLength]);
        if meta.None? then BadMeta
        else
          var status := if meta.value.status.Some? then meta.value.status.value else 0;
          var text := if meta.value.statusText.Some? then meta.value.statusText.value else "";
          if status < 200 || status > 599 then BadStatus(status)
          else if !ReasonPhrase(text) then BadStatusText
          else
            Response(
              status,
              text,
              Kept(meta.value.headers),
              if status in NULL_BODY_STATUSES then None else Some(bytes[4 + metaLength..]))
  }

  /** The frame the shell writes. */
  function Frame(meta: seq<byte>, body: seq<byte>): seq<byte>
    requires |meta| < 0x1_0000_0000
  {
    PutUint32(|meta|) + meta + body
  }

  lemma LengthRoundTrip(n: nat)
    requires n < 0x1_0000_0000
    ensures GetUint32(PutUint32(n)) == n
  {
    var h := n / 0x1_0000;
    assert n / 0x100_0000 == h / 0x100;
    assert h == h / 0x100 * 0x100 + h % 0x100;
    var l := n % 0x1_0000;
    assert n / 0x100 % 0x100 == l / 0x100 && n % 0x100 == l % 0x100;
    assert l == l / 0x100 * 0x100 + l % 0x100;
  }

  lemma LastDigit(high: int, low: int)
    requires 0 <= low < 0x100
    ensures (high * 0x100 + low) / 0x100 == high && (high * 0x100 + low) % 0x100 == low
  {
  }

  lemma Halves(n: int)
    ensures n / 0x1_0000 == n / 0x100 / 0x100 && n / 0x100_0000 == n / 0x100 / 0x100 / 0x100
  {
  }

  lemma BytesOfLength(b: seq<byte>)
    requires |b| >= 4
    ensures PutUint32(GetUint32(b)) == b[..4]
  {
    var w: int, x: int, y: int, z: int := b[0], b[1], b[2], b[3];
    var n := GetUint32(b);
    assert n == ((w * 0x100 + x) * 0x100 + y) * 0x100 + z;
    LastDigit((w * 0x100 + x) * 0x100 + y, z);
    LastDigit(w * 0x100 + x, y);
    LastDigit(w, x);
    Halves(n);
    hide GetUint32;
    assert n / 0x100_0000 == w && n / 0x1_0000 % 0x100 == x && n / 0x100 % 0x100 == y && n % 0x100 == z;
  }

  lemma FrameParts(meta: seq<byte>, body: seq<byte>)
    requires |meta| < 0x1_0000_0000
    ensures var f := Frame(meta, body);
            && |f| == 4 + |meta| + |body| && GetUint32(f) == |meta|
            && f[4..4 + |meta|] == meta && f[4 + |meta|..] == body
  {
    LengthRoundTrip(|meta|);
    var f := Frame(meta, body);
    assert f[..4] == PutUint32(|meta|);
    assert GetUint32(f) == GetUint32(f[..4]);
  }

  /**
   * What the shell framed is what the window reads: every field of the metadata and every byte of
   * the body, for every status and status text a `Response` can carry, with no body where the standard
   * forbids one and without the headers the platform refuses.
   */
  lemma FrameRoundTrip(m: Meta, body: seq<byte>, write: Meta -> seq<byte>, parse: Reader)
    requires parse(write(m)) == Some(m) && |write(m)| < 0x1_0000_0000
    requires m.status.Some? && m.statusText.Some? && 200 <= m.status.value <= 599 && ReasonPhrase(m.statusText.value)
    ensures ToResponse(Frame(write(m), body), parse)
              == Response(m.status.value, m.statusText.value, Kept(m.headers),
                          if m.status.value in NULL_BODY_STATUSES then None else Some(body))
    ensures (forall p :: p in m.headers ==> Acceptable(p)) ==> Kept(m.headers) == m.headers
  {
    KeptExactly(m.headers);
    hide Kept, Acceptable, ReasonPhrase;
    FrameParts(write(m), body);
  }

  /** The same bytes are never two frames. */
  lemma FrameInjective(m1: seq<byte>, b1: seq<byte>, m2: seq<byte>, b2: seq<byte>)
    requires |m1| < 0x1_0000_0000 && |m2| < 0x1_0000_0000
    requires Frame(m1, b1) == Frame(m2, b2)
    ensures m1 == m2 && b1 == b2
  {
    FrameParts(m1, b1);
    FrameParts(m2, b2);
  }

  ghost predicate IsFrame(bytes: seq<byte>, meta: seq<byte>, body: seq<byte>) {
    |meta| < 0x1_0000_0000 && bytes == Frame(meta, body)
  }

  /**
   * Exactly which bytes are an answer: those that are the frame of some metadata and some body,
   * whose metadata reads, under a status and a status text that a `Response` takes. Everything else is refused, and the refusal says
   * which of these failed first.
   */
  lemma AcceptedIffFramed(bytes: seq<byte>, parse: Reader)
    ensures ToResponse(bytes, parse).Response? <==>
            exists meta, body ::
              && IsFrame(bytes, meta, body)
              && parse(meta).Some? && parse(meta).value.status.Some?
              && 200 <= parse(meta).value.status.value <= 599
              && (parse(meta).value.statusText.Some? ==> ReasonPhrase(parse(meta).value.statusText.value))
    ensures ToResponse(bytes, parse).TooShort? || ToResponse(bytes, parse).OverDeclared?
            <==> !exists meta, body :: IsFrame(bytes, meta, body)
  {
    assert ReasonPhrase("");
    hide Kept, ReasonPhrase;
    if |bytes| >= 4 && 4 + GetUint32(bytes) <= |bytes| {
      var n := GetUint32(bytes);
      var meta, body := bytes[4..4 + n], bytes[4 + n..];
      BytesOfLength(bytes);
      assert bytes == bytes[..4] + meta + body;
      assert IsFrame(bytes, meta, body);
    }
    forall meta, body | IsFrame(bytes, meta, body)
      ensures |bytes| >= 4 && 4 + GetUint32(bytes) <= |bytes| && bytes[4..4 + GetUint32(bytes)] == meta
    {
      FrameParts(meta, body);
    }
  }
}
