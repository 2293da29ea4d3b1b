/**
 * The cookie-host decision of the API host (apps/api-vercel/src/config.ts): which environment values
 * are accepted, which hosts a request asserts, and whether its cookie is a credential.
 *
 * Strings are compared after `trim`, `toLowerCase` (on ASCII letters) and one removal of a trailing
 * ":digits". The removal is not idempotent and runs at three places, so what the composition promises
 * has to count it.
 */
module CookieHosts {
  import opened Prelude

  const DEFAULT_COOKIE_HOSTS := ["api.ohmail.app", "ohmail.app", "admin.ohmail.app"]
  const LOOPBACK_COOKIE_HOSTS := ["localhost", "127.0.0.1", "[::1]", "::1"]
  const PERMITTED_COOKIE_HOSTS := DEFAULT_COOKIE_HOSTS + LOOPBACK_COOKIE_HOSTS

  // ---- Strings ----

  predicate IsSpace(c: char) {
    || '\t' <= c <= '\r' || c == ' ' || c == '\U{00A0}' || c == '\U{1680}'
    || '\U{2000}' <= c <= '\U{200A}' || c == '\U{2028}' || c == '\U{2029}' || c == '\U{202F}'
    || c == '\U{205F}' || c == '\U{3000}' || c == '\U{FEFF}'
  }

  function TrimStart(s: string): string {
    if s != "" && IsSpace(s[0]) then TrimStart(s[1..]) else s
  }

  function TrimEnd(s: string): string {
    if s != "" && IsSpace(s[|s| - 1]) then TrimEnd(s[..|s| - 1]) else s
  }

  function LowerChar(c: char): char {
    if 'A' <= c <= 'Z' then (c as int + 32) as char else c
  }

  function Lower(s: string): (t: string)
    ensures |t| == |s|
  {
    seq(|s|, i requires 0 <= i < |s| => LowerChar(s[i]))
  }

  /** `h.trim().toLowerCase()`. */
  function Name(h: string): string {
    Lower(TrimEnd(TrimStart(h)))
  }

  predicate IsDigit(c: char) {
    '0' <= c <= '9'
  }

  function TrailingDigits(s: string): (n: nat)
    ensures n <= |s|
  {
    if s != "" && IsDigit(s[|s| - 1]) then TrailingDigits(s[..|s| - 1]) + 1 else 0
  }

  /** `s.replace(/:\d+$/, "")`. */
  function StripPort(s: string): string {
    var d := TrailingDigits(s);
    if d > 0 && |s| > d && s[|s| - d - 1] == ':' then s[..|s| - d - 1] else s
  }

  /** A host as both sides of the comparison normalize it once. */
  function Norm(h: string): string {
    StripPort(Name(h))
  }

  function Split(s: string, at: char): (parts: seq<string>)
    ensures parts != []
  {
    if s == "" then [""]
    else
      var rest := Split(s[1..], at);
      if s[0] == at then [""] + rest else [[s[0]] + rest[0]] + rest[1..]
  }

  function Filled(parts: seq<string>): seq<string> {
    if parts == [] then []
    else if parts[0] == "" then Filled(parts[1..]) else [parts[0]] + Filled(parts[1..])
  }

  /** `csv`: split at commas, trimmed, the empty entries dropped. */
  function Csv(raw: Option<string>): seq<string> {
    Filled(Trimmed(Split(if raw.Some? then raw.value else "", ',')))
  }

  function Trimmed(parts: seq<string>): seq<string> {
    if parts == [] then [] else [TrimEnd(TrimStart(parts[0]))] + Trimmed(parts[1..])
  }

  // ---- The configuration ----

  predicate Permitted(h: string) {
    exists p :: p in PERMITTED_COOKIE_HOSTS && Lower(p) == Norm(h)
  }

  /** `assertCookieHosts`: the list as given, or None for the throw. */
  method AssertCookieHosts(hosts: seq<string>) returns (r: Option<seq<string>>)
    ensures r == if forall h :: h in hosts ==> Permitted(h) then Some(hosts) else None
  {
    hide Permitted;
    for i := 0 to |hosts|
      invariant forall k :: 0 <= k < i ==> Permitted(hosts[k])
    {
      if !Permitted(hosts[i]) { return None; }
    }
    return Some(hosts);
  }

  /** The cookie hosts `loadHostConfig` settles on, or None when it throws. */
  function LoadCookieHosts(env: Option<string>): Option<seq<string>> {
    var listed := Csv(env);
    if exists h :: h in listed && !Permitted(h) then None
    else if listed == [] then Some(DEFAULT_COOKIE_HOSTS)
    else Some(listed)
  }

  // ---- The request ----

  /** The host of the request's URL ("" when it is not absolute) and the two headers. */
  datatype Request = Request(urlHost: string, host: Option<string>, forwarded: Option<string>)

  predicate AllowFor(host: string, cookieHosts: seq<string>) {
    host != "" && exists c :: c in cookieHosts && Name(c) == Norm(host)
  }

  function Sources(r: Request): seq<string> {
    [r.urlHost, if r.host.Some? then r.host.value else ""]
    + Split(if r.forwarded.Some? then r.forwarded.value else "", ',')
  }

  function Asserted(sources: seq<string>): seq<string> {
    if sources == [] then []
    else
      var first, rest := Norm(sources[0]), Asserted(sources[1..]);
      if first == "" || first in rest then rest else [first] + rest
  }

  predicate AllowForRequest(r: Request, cookieHosts: seq<string>) {
    var asserted := Asserted(Sources(r));
    asserted != [] && forall h :: h in asserted ==> AllowFor(h, cookieHosts)
  }

  lemma {:induction false} AssertedMembers(sources: seq<string>, h: string)
    ensures h in Asserted(sources) <==> h != "" && exists raw :: raw in sources && Norm(raw) == h
  {
    if sources != [] {
      AssertedMembers(sources[1..], h);
      assert forall raw :: raw in sources <==> raw == sources[0] || raw in sources[1..];
    }
  }

  /** What "accepted" comes to over the list of sources: at least one asserts a host, and each that does is listed. */
  lemma AllowIffListed(r: Request, cookieHosts: seq<string>)
    ensures AllowForRequest(r, cookieHosts) <==>
            && (exists raw :: raw in Sources(r) && Norm(raw) != "")
            && (forall raw :: raw in Sources(r) && Norm(raw) != "" ==> AllowFor(Norm(raw), cookieHosts))
  {
    hide AllowFor, Norm, Sources, Asserted;
    var sources, asserted := Sources(r), Asserted(Sources(r));
    forall h ensures h in asserted <==> h != "" && exists raw :: raw in sources && Norm(raw) == h {
      AssertedMembers(sources, h);
    }
    forall raw | raw in sources && Norm(raw) != "" ensures Norm(raw) in asserted {}
    if asserted != [] { assert asserted[0] in asserted; }
  }

  // ---- Commas ----

  /** `part` stands in `s` at `i`, holds no comma, and a comma or the end follows it. */
  predicate PartAt(s: string, i: nat, part: string) {
    && i + |part| <= |s| && s[i..i + |part|] == part && ',' !in part
    && (i + |part| == |s| || s[i + |part|] == ',')
  }

  /** A stretch of `s` between commas, or between a comma and an end of it. */
  ghost predicate Between(s: string, part: string) {
    exists i: nat :: PartAt(s, i, part) && (i == 0 || s[i - 1] == ',')
  }

  lemma PartOfRest(s: string, i: nat, part: string)
    requires s != "" && i > 0
    ensures PartAt(s, i, part) <==> PartAt(s[1..], i - 1, part)
  {
    if i + |part| <= |s| { assert s[i..i + |part|] == s[1..][i - 1..i - 1 + |part|]; }
  }

  lemma NoCommaWithin(s: string, i: nat, part: string)
    requires PartAt(s, i, part)
    ensures forall k :: i <= k < i + |part| ==> s[k] != ','
  {
    forall k | i <= k < i + |part| ensures s[k] != ',' { assert s[k] == part[k - i]; }
  }

  lemma PartIsOne(s: string, i: nat, part: string, other: string)
    requires PartAt(s, i, part) && PartAt(s, i, other)
    ensures part == other
  {
    NoCommaWithin(s, i, part);
    NoCommaWithin(s, i, other);
  }

  ghost predicate Later(s: string, part: string) {
    exists i: nat :: 0 < i && PartAt(s, i, part) && s[i - 1] == ','
  }

  lemma LaterOfRest(s: string, part: string)
    requires s != ""
    ensures Later(s, part) <==> Later(s[1..], part) || (s[0] == ',' && PartAt(s[1..], 0, part))
  {
    var rest := s[1..];
    if Later(s, part) {
      var i: nat :| 0 < i && PartAt(s, i, part) && s[i - 1] == ',';
      PartOfRest(s, i, part);
      if i > 1 { assert rest[i - 2] == s[i - 1]; }
    }
    if Later(rest, part) {
      var i: nat :| 0 < i && PartAt(rest, i, part) && rest[i - 1] == ',';
      PartOfRest(s, i + 1, part);
      assert s[i + 1 - 1] == ',';
    }
    if s[0] == ',' && PartAt(rest, 0, part) {
      PartOfRest(s, 1, part);
      assert s[1 - 1] == ',';
    }
  }

  lemma {:induction false} SplitParts(s: string, part: string)
    ensures PartAt(s, 0, Split(s, ',')[0])
    ensures part in Split(s, ',')[1..] <==> Later(s, part)
  {
    if s != "" {
      var rest := s[1..];
      var parts := Split(rest, ',');
      SplitParts(rest, part);
      LaterOfRest(s, part);
      hide Later;
      if s[0] == ',' {
        assert Split(s, ',')[1..] == parts;
        assert part in parts <==> part == parts[0] || part in parts[1..];
        if PartAt(rest, 0, part) { PartIsOne(rest, 0, part, parts[0]); }
      } else {
        assert Split(s, ',')[1..] == parts[1..];
        var first := [s[0]] + parts[0];
        assert Split(s, ',')[0] == first;
        assert s[..|first|] == [s[0]] + rest[..|parts[0]|];
      }
    }
  }

  /** Splitting at commas gives exactly the stretches between them. */
  lemma SplitExact(s: string, part: string)
    ensures part in Split(s, ',') <==> Between(s, part)
  {
    SplitParts(s, part);
    hide Split;
    var parts := Split(s, ',');
    assert part in parts <==> part == parts[0] || part in parts[1..];
    if PartAt(s, 0, part) { PartIsOne(s, 0, part, parts[0]); }
    assert Between(s, part) <==> PartAt(s, 0, part) || Later(s, part);
  }

  /** The parts with commas between them. */
  function Joined(parts: seq<string>): string
    requires parts != []
  {
    if |parts| == 1 then parts[0] else parts[0] + "," + Joined(parts[1..])
  }

  /** And it loses nothing: the parts, joined by commas, are the text. */
  lemma {:induction false} SplitJoins(s: string)
    ensures Joined(Split(s, ',')) == s
  {
    if s != "" {
      var parts := Split(s[1..], ',');
      SplitJoins(s[1..]);
      assert s == [s[0]] + s[1..];
      if s[0] == ',' {
        assert Split(s, ',')[1..] == parts;
      } else if |parts| > 1 {
        assert Split(s, ',')[1..] == parts[1..];
      }
    }
  }

  /** What a request carries as a host: its URL's, its Host header, each stretch of its forwarded hosts. */
  ghost predicate Claims(r: Request, raw: string) {
    || raw == r.urlHost
    || r.host == Some(raw)
    || (r.forwarded.Some? && Between(r.forwarded.value, raw))
  }

  lemma SourcesAreClaims(r: Request, raw: string)
    requires raw != ""
    ensures raw in Sources(r) <==> Claims(r, raw)
  {
    hide Between, Split;
    var text := if r.forwarded.Some? then r.forwarded.value else "";
    var host := if r.host.Some? then r.host.value else "";
    SplitExact(text, raw);
    assert Split("", ',') == [""] by { SplitNothing(); }
    assert raw in Sources(r) <==> raw == r.urlHost || raw == host || raw in Split(text, ',');
  }

  lemma SplitNothing()
    ensures Split("", ',') == [""]
  {
  }

  /**
   * Exactly which requests are accepted: those that carry at least one host, and of whose hosts, each
   * stretch of the forwarded ones among them, every one is listed.
   */
  lemma AllowIffEverySource(r: Request, cookieHosts: seq<string>)
    ensures AllowForRequest(r, cookieHosts) <==>
            && (exists raw :: Claims(r, raw) && Norm(raw) != "")
            && (forall raw :: Claims(r, raw) && Norm(raw) != "" ==> AllowFor(Norm(raw), cookieHosts))
  {
    AllowIffListed(r, cookieHosts);
    NormEmpty();
    hide Norm, AllowFor, AllowForRequest, Sources, Claims;
    forall raw | Norm(raw) != "" ensures raw in Sources(r) <==> Claims(r, raw) {
      SourcesAreClaims(r, raw);
    }
  }

  /**
   * Cookie safety, end to end. For every environment and every request: if the configuration loads
   * and the cookie is accepted, then the request carries at least one host, and every host it
   * carries, with its port removed three times, is one this program was compiled with. Once is in
   * the reading of the request, once in the comparison and once in the check of the variable.
   */
  lemma CookieSafety(env: Option<string>, r: Request, raw: string)
    requires LoadCookieHosts(env).Some? && AllowForRequest(r, LoadCookieHosts(env).value)
    ensures exists s :: Claims(r, s) && Norm(s) != ""
    ensures Claims(r, raw) && Norm(raw) != "" ==> StripPort(Norm(Norm(raw))) in PERMITTED_COOKIE_HOSTS
  {
    var hosts := LoadCookieHosts(env).value;
    AllowIffEverySource(r, hosts);
    if Claims(r, raw) && Norm(raw) != "" {
      hide Claims;
      var c :| c in hosts && Name(c) == Norm(Norm(raw));
      CompiledNames();
      if Csv(env) == [] { assert c in PERMITTED_COOKIE_HOSTS; }
      assert Permitted(c);
      var p :| p in PERMITTED_COOKIE_HOSTS && Lower(p) == Norm(c);
    }
  }

  // ---- What the reading of a host does to it ----

  function Trim(s: string): string {
    TrimEnd(TrimStart(s))
  }

  predicate Blanks(s: string) {
    forall c :: c in s ==> IsSpace(c)
  }

  lemma {:induction false} TrimStartExact(before: string, s: string)
    requires Blanks(before) && (s != "" ==> !IsSpace(s[0]))
    ensures TrimStart(before + s) == s
  {
    if before == "" {
      assert before + s == s;
    } else {
      assert IsSpace(before[0]) && (before + s)[0] == before[0];
      assert (before + s)[1..] == before[1..] + s;
      TrimStartExact(before[1..], s);
    }
  }

  lemma {:induction false} TrimEndExact(s: string, after: string)
    requires Blanks(after) && (s != "" ==> !IsSpace(s[|s| - 1]))
    ensures TrimEnd(s + after) == s
  {
    if after == "" {
      assert s + after == s;
    } else {
      var n := |after| - 1;
      assert IsSpace(after[n]) && (s + after)[|s + after| - 1] == after[n];
      assert (s + after)[..|s + after| - 1] == s + after[..n];
      TrimEndExact(s, after[..n]);
    }
  }

  /** The white space and line terminators of ECMAScript, by code point. */
  lemma SpacesAreTheStandards(c: char)
    ensures IsSpace(c) <==>
            || 9 <= c as int <= 13
            || c as int in {0x20, 0xA0, 0x1680, 0x2028, 0x2029, 0x202F, 0x205F, 0x3000, 0xFEFF}
            || 0x2000 <= c as int <= 0x200A
  {
  }

  /** White space at either end goes, the rest stays. */
  lemma TrimExact(before: string, s: string, after: string)
    requires Blanks(before) && Blanks(after) && s != "" && !IsSpace(s[0]) && !IsSpace(s[|s| - 1])
    ensures Trim(before + s + after) == s
  {
    TrimStartExact(before, s + after);
    TrimEndExact(s, after);
    assert before + s + after == before + (s + after);
  }

  /** The name of a host: what is between the white space, each capital its small letter. */
  lemma NameExact(before: string, s: string, after: string)
    requires Blanks(before) && Blanks(after) && s != "" && !IsSpace(s[0]) && !IsSpace(s[|s| - 1])
    ensures var name := Name(before + s + after);
            && |name| == |s|
            && forall i :: 0 <= i < |s| ==>
                 if 'A' <= s[i] <= 'Z' then name[i] as int - 'a' as int == s[i] as int - 'A' as int else name[i] == s[i]
  {
    TrimExact(before, s, after);
  }

  /** `s` is `host` and one port group. */
  predicate HasPort(s: string, host: string) {
    |host| < |s| && s[..|host|] == host && s[|host|] == ':' && Digits(s[|host| + 1..])
  }

  lemma {:induction false} TrailingDigitsAreDigits(s: string)
    ensures var n := |s| - TrailingDigits(s);
            && (forall i :: n <= i < |s| ==> IsDigit(s[i])) && (n > 0 ==> !IsDigit(s[n - 1]))
  {
    if s != "" && IsDigit(s[|s| - 1]) { TrailingDigitsAreDigits(s[..|s| - 1]); }
  }

  /** The removal takes one port group where there is one, and nothing where there is none. */
  lemma StripExact(s: string)
    ensures forall host :: HasPort(s, host) ==> StripPort(s) == host
    ensures StripPort(s) == s || HasPort(s, StripPort(s))
  {
    forall host | HasPort(s, host) ensures StripPort(s) == host {
      assert s == host + ":" + s[|host| + 1..];
      StripOne(host, s[|host| + 1..]);
    }
    TrailingDigitsAreDigits(s);
  }

  /** A host may be named if and only if, read once, it is one this program was compiled with. */
  lemma PermittedExact(h: string)
    ensures Permitted(h) <==> Norm(h) in PERMITTED_COOKIE_HOSTS
  {
    CompiledNames();
    hide Norm;
    if Norm(h) in PERMITTED_COOKIE_HOSTS { assert Lower(Norm(h)) == Norm(h); }
  }

  lemma {:induction false} FilledTrimmed(parts: seq<string>, h: string)
    ensures h in Filled(Trimmed(parts)) <==> h != "" && exists part :: part in parts && Trim(part) == h
  {
    if parts != [] {
      hide TrimStart, TrimEnd;
      FilledTrimmed(parts[1..], h);
      var rest := Trimmed(parts[1..]);
      assert Trimmed(parts)[0] == Trim(parts[0]) && Trimmed(parts)[1..] == rest;
      assert forall part :: part in parts <==> part == parts[0] || part in parts[1..];
    }
  }

  /** The entries of the variable are the trimmed stretches between its commas, without the empty ones. */
  lemma CsvExact(env: Option<string>, h: string)
    ensures h in Csv(env) <==> h != "" && env.Some? && exists part :: Between(env.value, part) && Trim(part) == h
  {
    var text := if env.Some? then env.value else "";
    FilledTrimmed(Split(text, ','), h);
    forall part ensures part in Split(text, ',') <==> Between(text, part) { SplitExact(text, part); }
    hide Between, Filled, Trimmed;
    if env.None? { SplitNothing(); }
  }

  /** An entry the variable names. */
  ghost predicate Names(env: Option<string>, h: string) {
    h != "" && env.Some? && exists part :: Between(env.value, part) && Trim(part) == h
  }

  /**
   * What the configuration comes to: it is refused if and only if the variable names a host that is not
   * permitted; otherwise the hosts are exactly those it names, or the default ones where it names none.
   */
  lemma LoadExact(env: Option<string>)
    ensures LoadCookieHosts(env).None? <==> exists h :: Names(env, h) && !Permitted(h)
    ensures LoadCookieHosts(env).Some? ==>
              forall h :: h in LoadCookieHosts(env).value <==>
                (Names(env, h) || (h in DEFAULT_COOKIE_HOSTS && !exists k :: Names(env, k)))
  {
    forall h ensures h in Csv(env) <==> Names(env, h) { CsvExact(env, h); }
    hide Csv, Names, Permitted;
    if Csv(env) != [] { assert Csv(env)[0] in Csv(env); }
  }

  lemma CompiledNames()
    ensures forall p :: p in PERMITTED_COOKIE_HOSTS ==> Lower(p) == p
    ensures forall p :: p in DEFAULT_COOKIE_HOSTS ==> Name(p) == p && StripPort(p) == p
  {
    forall p | p in PERMITTED_COOKIE_HOSTS ensures Lower(p) == p {
      forall i | 0 <= i < |p| ensures Lower(p)[i] == p[i] {}
    }
    forall p | p in DEFAULT_COOKIE_HOSTS ensures Name(p) == p && StripPort(p) == p {
      assert !IsSpace(p[0]) && p[|p| - 1] == 'p';
    }
  }

  predicate Digits(s: string) {
    s != "" && forall i :: 0 <= i < |s| ==> IsDigit(s[i])
  }

  lemma {:induction false} TrailingDigitsOf(s: string, port: string)
    requires forall i :: 0 <= i < |port| ==> IsDigit(port[i])
    requires s != "" && !IsDigit(s[|s| - 1])
    ensures TrailingDigits(s + port) == |port|
  {
    if port == "" {
      assert s + port == s;
    } else {
      var short := port[..|port| - 1];
      assert (s + port)[..|s + port| - 1] == s + short;
      TrailingDigitsOf(s, short);
    }
  }

  /** One well-formed port group comes off, and only it. */
  lemma StripOne(host: string, port: string)
    requires Digits(port)
    ensures StripPort(host + ":" + port) == host
  {
    TrailingDigitsOf(host + ":", port);
    var s := host + ":" + port;
    assert s[|s| - |port| - 1] == ':';
    assert s[..|s| - |port| - 1] == host;
  }

  /** Already trimmed and in lower case. */
  predicate Settled(s: string) {
    && (s != "" ==> !IsSpace(s[0]) && !IsSpace(s[|s| - 1]))
    && forall i :: 0 <= i < |s| ==> LowerChar(s[i]) == s[i]
  }

  lemma NameOf(s: string)
    requires Settled(s)
    ensures Name(s) == s
  {
    assert TrimEnd(TrimStart(s)) == s;
    assert forall i :: 0 <= i < |s| ==> Lower(s)[i] == s[i];
  }

  lemma NormOf(host: string, port: string)
    requires Digits(port) && Settled(host + ":" + port)
    ensures Norm(host + ":" + port) == host
  {
    hide StripPort, Name;
    NameOf(host + ":" + port);
    StripOne(host, port);
  }

  lemma NormEmpty()
    ensures Norm("") == ""
  {
  }

  lemma NormTwice()
    ensures Norm("a:1:2") == "a:1" && Norm(Norm("a:1:2")) == "a"
    ensures Norm("ohmail.app:1:2") == "ohmail.app:1" && Norm(Norm("ohmail.app:1:2")) == "ohmail.app"
  {
    hide Norm, Name;
    assert "a:1:2" == "a:1" + ":" + "2" && "a:1" == "a" + ":" + "1";
    NormOf("a:1", "2");
    NormOf("a", "1");
    assert "ohmail.app:1:2" == "ohmail.app:1" + ":" + "2" && "ohmail.app:1" == "ohmail.app" + ":" + "1";
    NormOf("ohmail.app:1", "2");
    NormOf("ohmail.app", "1");
  }

  /** The removal is not idempotent, and the composition does let a second port group through. */
  lemma TwoPortGroupsAreRemoved()
    ensures Norm("a:1:2") == "a:1" && Norm(Norm("a:1:2")) == "a"
    ensures AllowForRequest(Request("", Some("ohmail.app:1:2"), None), DEFAULT_COOKIE_HOSTS)
  {
    hide Norm, Asserted, AllowForRequest, Name;
    NormTwice();
    CompiledNames();
    NormEmpty();
    var r := Request("", Some("ohmail.app:1:2"), None);
    assert Split("", ',') == [""];
    assert Sources(r) == ["", "ohmail.app:1:2", ""];
    assert Sources(r)[1] == "ohmail.app:1:2" && DEFAULT_COOKIE_HOSTS[1] == "ohmail.app";
    AllowIffListed(r, DEFAULT_COOKIE_HOSTS);
    assert "ohmail.app:1:2" in Sources(r) && "ohmail.app" in DEFAULT_COOKIE_HOSTS;
    assert AllowFor("ohmail.app:1", DEFAULT_COOKIE_HOSTS);
  }

  // ---- Well-formed authorities ----

  /** A host with no port on it, as a configuration would write it. */
  predicate BareHost(h: string) {
    h != "" && Settled(h) && StripPort(h) == h
  }

  /** What a well-formed request writes for `h`: the host, or the host and one port. */
  predicate Authority(raw: string, h: string) {
    BareHost(h) && (raw == h || exists n :: 0 <= n < |raw| && raw[..n] == h && raw[n] == ':' && Digits(raw[n + 1..]))
  }

  lemma AuthorityNames(raw: string, h: string)
    requires Authority(raw, h)
    ensures Norm(raw) == h && Norm(h) == h
  {
    hide StripPort, Name;
    NameOf(h);
    if raw != h {
      var n :| 0 <= n < |raw| && raw[..n] == h && raw[n] == ':' && Digits(raw[n + 1..]);
      var port := raw[n + 1..];
      assert raw == h + ":" + port;
      SettledWithPort(h, port);
      NormOf(h, port);
    }
  }

  lemma SettledWithPort(h: string, port: string)
    requires h != "" && Settled(h) && Digits(port)
    ensures Settled(h + ":" + port)
  {
    var s := h + ":" + port;
    forall i | 0 <= i < |s| ensures LowerChar(s[i]) == s[i] {
      if i > |h| { assert s[i] == port[i - |h| - 1]; }
    }
    assert s[|s| - 1] == port[|port| - 1];
  }

  /**
   * Exactly which well-formed requests are accepted: those whose every non-empty source names a
   * configured host, whatever ports they carry.
   */
  lemma WellFormedExact(r: Request, hosts: seq<string>, cookieHosts: seq<string>)
    requires |hosts| == |Sources(r)|
    requires forall i :: 0 <= i < |hosts| ==> Sources(r)[i] == "" || Authority(Sources(r)[i], hosts[i])
    ensures AllowForRequest(r, cookieHosts) <==>
            && (exists i :: 0 <= i < |hosts| && Sources(r)[i] != "")
            && (forall i :: 0 <= i < |hosts| && Sources(r)[i] != "" ==>
                  exists c :: c in cookieHosts && Name(c) == hosts[i])
  {
    var sources := Sources(r);
    assert Norm("") == "" by { NameOf(""); }
    forall i | 0 <= i < |hosts| && sources[i] != ""
      ensures Norm(sources[i]) == hosts[i] && hosts[i] != "" && Norm(hosts[i]) == hosts[i]
    {
      AuthorityNames(sources[i], hosts[i]);
    }
    AllowIffListed(r, cookieHosts);
    forall i | 0 <= i < |hosts| ensures sources[i] in sources {}
  }

  lemma {:induction false} TrimStartTrims(s: string)
    ensures TrimStart(s) != "" ==> !IsSpace(TrimStart(s)[0])
  {
    if s != "" && IsSpace(s[0]) { TrimStartTrims(s[1..]); }
  }

  lemma {:induction false} TrimEndTrims(s: string)
    ensures TrimEnd(s) != "" ==> !IsSpace(TrimEnd(s)[|TrimEnd(s)| - 1]) && TrimEnd(s)[0] == s[0]
    ensures TrimEnd(s) != "" ==> s != ""
  {
    if s != "" && IsSpace(s[|s| - 1]) { TrimEndTrims(s[..|s| - 1]); }
  }

  lemma NameSettles(c: string)
    ensures Settled(Name(c))
  {
    TrimStartTrims(c);
    TrimEndTrims(TrimStart(c));
  }

  /**
   * Which entries of TF_COOKIE_HOSTS can be of use: some well-formed request host is taken for the entry
   * if and only if the entry, in lower case and trimmed, does not end in a port group. One that does is
   * accepted by the check of the variable, which removes the port, and is then inert.
   */
  lemma EntryMatchesIffNoPort(c: string)
    requires Name(c) != ""
    ensures (exists raw, h :: Authority(raw, h) && AllowFor(Norm(raw), [c])) <==> StripPort(Name(c)) == Name(c)
  {
    hide StripPort, Name;
    if StripPort(Name(c)) == Name(c) {
      NameSettles(c);
      AuthorityNames(Name(c), Name(c));
      assert c in [c];
      assert Authority(Name(c), Name(c)) && AllowFor(Norm(Name(c)), [c]);
    }
    forall raw, h | Authority(raw, h) && AllowFor(Norm(raw), [c]) ensures StripPort(Name(c)) == Name(c) {
      AuthorityNames(raw, h);
    }
  }

  /**
   * The compiled list names "::1", and that entry alone cannot be selected by its own name: the
   * removal takes its last group for a port.
   */
  lemma OneCompiledHostCannotBeSelected(p: string)
    requires p in PERMITTED_COOKIE_HOSTS
    ensures Permitted(p) <==> p != "::1"
  {
    CompiledNames();
    NormOfCompiled(p);
    if Permitted(p) {
      hide Norm;
      var q :| q in PERMITTED_COOKIE_HOSTS && Lower(q) == Norm(p);
      assert |q| > 1;
    }
  }

  lemma NormOfCompiled(p: string)
    requires p in PERMITTED_COOKIE_HOSTS
    ensures Norm(p) == if p == "::1" then ":" else p
  {
    hide Name;
    CompiledAreSettled(p);
    NameOf(p);
    if p == "::1" {
      StripOne(":", "1");
      assert p == ":" + ":" + "1";
    } else if p == "127.0.0.1" {
      LoopbackKeepsItsLastGroup();
    } else {
      StripNothing(p);
    }
  }

  lemma StripNothing(p: string)
    requires p != "" && !IsDigit(p[|p| - 1])
    ensures StripPort(p) == p
  {
  }

  lemma CompiledAreSettled(p: string)
    requires p in PERMITTED_COOKIE_HOSTS
    ensures p != "" && Settled(p)
    ensures p != "::1" && p != "127.0.0.1" ==> !IsDigit(p[|p| - 1])
  {
    CompiledEnds(p);
    assert Lower(p) == p by { CompiledNames(); }
    SettledIfLower(p);
  }

  lemma SettledIfLower(p: string)
    requires p != "" && !IsSpace(p[0]) && !IsSpace(p[|p| - 1]) && Lower(p) == p
    ensures Settled(p)
  {
    forall i | 0 <= i < |p| ensures LowerChar(p[i]) == p[i] {
      assert Lower(p)[i] == p[i];
    }
  }

  lemma CompiledEnds(p: string)
    requires p in PERMITTED_COOKIE_HOSTS
    ensures p != "" && p[0] in {'a', 'o', 'l', '1', '[', ':'}
    ensures p[|p| - 1] in {'p', 't', '1', ']'}
    ensures p != "::1" && p != "127.0.0.1" ==> p[|p| - 1] != '1'
  {
    if p in DEFAULT_COOKIE_HOSTS {
      assert p[0] in {'a', 'o'} && p[|p| - 1] == 'p';
    } else {
      assert p in LOOPBACK_COOKIE_HOSTS;
    }
  }

  lemma LoopbackKeepsItsLastGroup()
    ensures StripPort("127.0.0.1") == "127.0.0.1"
  {
    TrailingDigitsOf("127.0.0.", "1");
    assert "127.0.0." + "1" == "127.0.0.1";
  }

  // ---- Forwarded hosts ----

  function WithoutForwarded(r: Request): Request {
    r.(forwarded := None)
  }

  lemma {:induction false} SplitPlain(s: string)
    requires ',' !in s
    ensures Split(s, ',') == [s]
  {
    if s != "" {
      SplitPlain(s[1..]);
      assert [s[0]] + s[1..] == s;
    }
  }

  /**
   * A forwarded host only subtracts. Where the URL or the Host header already asserts a host, no
   * X-Forwarded-Host value, however it is split, turns a refusal into an acceptance.
   */
  lemma ForwardedOnlySubtracts(r: Request, cookieHosts: seq<string>)
    requires Asserted(Sources(WithoutForwarded(r))) != []
    requires AllowForRequest(r, cookieHosts)
    ensures AllowForRequest(WithoutForwarded(r), cookieHosts)
  {
    hide Norm, AllowFor, AllowForRequest, Asserted;
    var bare := WithoutForwarded(r);
    AllowIffListed(r, cookieHosts);
    AllowIffListed(bare, cookieHosts);
    var h := Asserted(Sources(bare))[0];
    AssertedMembers(Sources(bare), h);
    NormEmpty();
    BareSources(r);
    forall raw | raw in Sources(bare) && Norm(raw) != "" ensures raw in Sources(r) {
      assert raw == Sources(r)[0] || raw == Sources(r)[1];
    }
  }

  lemma BareSources(r: Request)
    ensures Sources(WithoutForwarded(r)) == Sources(r)[..2] + [""]
  {
    assert Split("", ',') == [""];
  }

  ghost predicate CanBeForged(r: Request, cookieHosts: seq<string>) {
    exists forged ::
      && !AllowForRequest(WithoutForwarded(r), cookieHosts)
      && AllowForRequest(r.(forwarded := Some(forged)), cookieHosts)
  }

  /**
   * And the premise is exactly what it takes. Under any configuration with a usable entry, a
   * forwarded host can turn a refusal into an acceptance if and only if nothing else asserts one.
   */
  lemma ForgedIffNothingElseAsserts(r: Request, cookieHosts: seq<string>, entry: string)
    requires entry in cookieHosts && BareHost(entry) && ',' !in entry
    ensures CanBeForged(r, cookieHosts) <==> Asserted(Sources(WithoutForwarded(r))) == []
  {
    var bare := WithoutForwarded(r);
    if Asserted(Sources(bare)) == [] {
      var forged := r.(forwarded := Some(entry));
      assert Norm(entry) == entry && Name(entry) == entry by { NameOf(entry); }
      hide Norm, Name, StripPort, Asserted, Split;
      SplitPlain(entry);
      BareSources(r);
      AllowIffListed(forged, cookieHosts);
      assert Sources(forged) == [r.urlHost, Sources(bare)[1], entry];
      assert Sources(forged)[2] == entry && entry in Sources(forged);
      forall raw | raw in Sources(forged) && Norm(raw) != "" ensures raw == entry {
        AssertedMembers(Sources(bare), Norm(raw));
        assert raw == entry || raw in Sources(bare);
      }
      assert !AllowForRequest(bare, cookieHosts) && AllowForRequest(forged, cookieHosts);
    } else {
      forall forged | AllowForRequest(r.(forwarded := Some(forged)), cookieHosts)
        ensures AllowForRequest(bare, cookieHosts)
      {
        assert WithoutForwarded(r.(forwarded := Some(forged))) == bare;
        ForwardedOnlySubtracts(r.(forwarded := Some(forged)), cookieHosts);
      }
    }
  }
}
