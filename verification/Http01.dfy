/** The http-01 fetch (section 8.3 of RFC 8555): URL parsing, the refused address ranges, and
    the redirect walk. Name resolution and the HTTP exchange are parameters; both may answer
    differently at every hop. */
module Http01 {
  import opened Text

  // ---- addresses -------------------------------------------------------------

  // Network order, four bytes or sixteen.
  type Addr = a: seq<byte> | |a| == 4 || |a| == 16 witness [0, 0, 0, 0]

  datatype Cidr = Cidr(net: Addr, bits: nat)

  const V6_MAPPED: seq<byte> := [0, 0, 0, 0, 0, 0, 0, 0, 0, 0, 255, 255]

  predicate Mapped(a: Addr) { |a| == 16 && a[..12] == V6_MAPPED }

  // The fold of parse_addr: an IPv4-mapped IPv6 address is the IPv4 address.
  function Fold(a: Addr): Addr
  {
    if Mapped(a) then a[12..] else a
  }

  // The r high bits of a byte.
  function High(x: byte, r: nat): byte
    requires r <= 8
  {
    x / [256, 128, 64, 32, 16, 8, 4, 2, 1][r]
  }

  // same_prefix: whole bytes, then the masked high bits of the next one.
  predicate SamePrefix(x: Addr, y: Addr, prefix: nat)
    requires |x| == |y| && prefix <= 8 * |x|
  {
    var whole, rest := prefix / 8, prefix % 8;
    x[..whole] == y[..whole] && (rest == 0 || High(x[whole], rest) == High(y[whole], rest))
  }

  predicate IpInCidr(ip: Addr, cidr: Cidr)
  {
    var n, a := Fold(cidr.net), Fold(ip);
    cidr.bits <= 8 * |n| && |n| == |a| && SamePrefix(n, a, cidr.bits)
  }

  // Bit b of a byte and bit i of an address, most significant first.
  function ByteBit(x: byte, b: nat): (v: nat)
    requires b < 8
    ensures v < 2
  {
    x / [128, 64, 32, 16, 8, 4, 2, 1][b] % 2
  }

  function Bit(a: Addr, i: nat): nat
    requires i < 8 * |a|
  {
    ByteBit(a[i / 8], i % 8)
  }

  // Prefix membership, bit by bit.
  lemma SamePrefixBits(x: Addr, y: Addr, prefix: nat)
    requires |x| == |y| && prefix <= 8 * |x|
    ensures SamePrefix(x, y, prefix) <==> forall i | 0 <= i < prefix :: Bit(x, i) == Bit(y, i)
  {
    hide High, ByteBit;
    if SamePrefix(x, y, prefix) {
      forall i | 0 <= i < prefix ensures Bit(x, i) == Bit(y, i) { PrefixBit(x, y, prefix, i); }
    }
    if forall i | 0 <= i < prefix :: Bit(x, i) == Bit(y, i) {
      var whole, rest := prefix / 8, prefix % 8;
      forall k | 0 <= k < whole ensures x[k] == y[k] { BitsOfByte(x, y, prefix, k, 8); }
      if rest > 0 { BitsOfByte(x, y, prefix, whole, rest); }
    }
  }

  lemma PrefixBit(x: Addr, y: Addr, prefix: nat, i: nat)
    requires |x| == |y| && i < prefix <= 8 * |x| && SamePrefix(x, y, prefix)
    ensures Bit(x, i) == Bit(y, i)
  {
    hide High, ByteBit;
    var whole, rest := prefix / 8, prefix % 8;
    if i / 8 < whole { assert x[..whole][i / 8] == y[..whole][i / 8]; }
    else { HighBit(x[whole], y[whole], rest, i % 8); }
  }

  lemma BitsOfByte(x: Addr, y: Addr, prefix: nat, k: nat, r: nat)
    requires |x| == |y| && k < |x| && r <= 8 && 8 * k + r <= prefix <= 8 * |x|
    requires forall i | 0 <= i < prefix :: Bit(x, i) == Bit(y, i)
    ensures High(x[k], r) == High(y[k], r)
    ensures r == 8 ==> x[k] == y[k]
  {
    hide High, ByteBit;
    forall b | 0 <= b < r ensures ByteBit(x[k], b) == ByteBit(y[k], b) {
      assert Bit(x, 8 * k + b) == Bit(y, 8 * k + b);
    }
    HighBits(x[k], y[k], r);
    HighEnds(x[k]);
    HighEnds(y[k]);
  }

  lemma HighEnds(x: byte)
    ensures High(x, 0) == 0 && High(x, 8) == x
  {
  }

  lemma HighStep(x: byte, r: nat)
    requires r < 8
    ensures High(x, r + 1) == 2 * High(x, r) + ByteBit(x, r)
  {
  }

  lemma {:induction false} HighBits(x: byte, y: byte, r: nat)
    requires r <= 8 && forall b | 0 <= b < r :: ByteBit(x, b) == ByteBit(y, b)
    ensures High(x, r) == High(y, r)
  {
    hide High, ByteBit;
    if r == 0 {
      HighEnds(x);
      HighEnds(y);
    } else {
      HighBits(x, y, r - 1);
      HighStep(x, r - 1);
      HighStep(y, r - 1);
    }
  }

  lemma {:induction false} HighBit(x: byte, y: byte, r: nat, b: nat)
    requires b < r <= 8 && High(x, r) == High(y, r)
    ensures ByteBit(x, b) == ByteBit(y, b)
    decreases r
  {
    hide High, ByteBit;
    HighStep(x, r - 1);
    HighStep(y, r - 1);
    if b < r - 1 { HighBit(x, y, r - 1, b); }
  }

  // kHttp01Refused.
  function RefusedRanges(): seq<Cidr>
  {
    [Cidr([0, 0, 0, 0], 8), Cidr([169, 254, 0, 0], 16), Cidr([224, 0, 0, 0], 4), Cidr([240, 0, 0, 0], 4),
     Cidr([0, 0, 0, 0, 0, 0, 0, 0, 0, 0, 0, 0, 0, 0, 0, 0], 128),
     Cidr([254, 128, 0, 0, 0, 0, 0, 0, 0, 0, 0, 0, 0, 0, 0, 0], 10),
     Cidr([255, 0, 0, 0, 0, 0, 0, 0, 0, 0, 0, 0, 0, 0, 0, 0], 8)]
  }

  predicate Refused(a: Addr)
  {
    exists i | 0 <= i < |RefusedRanges()| :: IpInCidr(a, RefusedRanges()[i])
  }

  predicate Zero(a: Addr) { forall i | 0 <= i < |a| :: a[i] == 0 }

  // The table, read as numbers: exactly these addresses are never dialled, and an IPv4-mapped
  // spelling of one is no way round.
  lemma RefusedExactly(a: Addr)
    ensures Refused(a) <==>
              var f := if |a| == 16 && a[..12] == [0, 0, 0, 0, 0, 0, 0, 0, 0, 0, 255, 255] then a[12..] else a;
              if |f| == 4 then f[0] == 0 || (f[0] == 169 && f[1] == 254) || f[0] >= 224
              else Zero(f) || (f[0] == 254 && 128 <= f[1] < 192) || f[0] == 255
  {
    hide High, Fold;
    FoldMeans(a);
    var f := Fold(a);
    var rs := RefusedRanges();
    NetsUnfolded();
    if |f| == 4 { RangesV4(a); } else { RangesV6(a); }
  }

  lemma FoldMeans(a: Addr)
    ensures Fold(a) == if |a| == 16 && a[..12] == [0, 0, 0, 0, 0, 0, 0, 0, 0, 0, 255, 255] then a[12..] else a
  {
  }

  lemma NetsUnfolded()
    ensures forall i | 0 <= i < |RefusedRanges()| :: Fold(RefusedRanges()[i].net) == RefusedRanges()[i].net
  {
    var rs := RefusedRanges();
    forall i | 0 <= i < |rs| ensures Fold(rs[i].net) == rs[i].net {
      if i == 4 { assert rs[4].net[10] == 0; }
      if i == 5 { assert rs[5].net[10] == 0; }
      if i == 6 { assert rs[6].net[10] == 0; }
    }
  }

  lemma RangesV4(a: Addr)
    requires |Fold(a)| == 4
    ensures var f, rs := Fold(a), RefusedRanges();
            && (IpInCidr(a, rs[0]) <==> f[0] == 0)
            && (IpInCidr(a, rs[1]) <==> f[0] == 169 && f[1] == 254)
            && (IpInCidr(a, rs[2]) <==> 224 <= f[0] < 240)
            && (IpInCidr(a, rs[3]) <==> f[0] >= 240)
            && !IpInCidr(a, rs[4]) && !IpInCidr(a, rs[5]) && !IpInCidr(a, rs[6])
  {
    hide Fold;
    NetsUnfolded();
    var f, rs := Fold(a), RefusedRanges();
    assert rs[0].net[..1] == [0] && rs[1].net[..2] == [169, 254];
    assert f[..1] == [f[0]] && f[..2] == [f[0], f[1]] && f[..0] == [];
    assert forall x: byte :: High(x, 4) == x / 16;
  }

  lemma RangesV6(a: Addr)
    requires |Fold(a)| == 16
    ensures var f, rs := Fold(a), RefusedRanges();
            && (IpInCidr(a, rs[4]) <==> Zero(f))
            && (IpInCidr(a, rs[5]) <==> f[0] == 254 && 128 <= f[1] < 192)
            && (IpInCidr(a, rs[6]) <==> f[0] == 255)
            && !IpInCidr(a, rs[0]) && !IpInCidr(a, rs[1]) && !IpInCidr(a, rs[2]) && !IpInCidr(a, rs[3])
  {
    hide Fold;
    NetsUnfolded();
    var f, rs := Fold(a), RefusedRanges();
    assert rs[5].net[..1] == [254] && rs[6].net[..1] == [255] && f[..1] == [f[0]];
    assert forall x: byte :: High(x, 2) == x / 64;
    assert f[..16] == f && rs[4].net[..16] == rs[4].net;
    assert Zero(rs[4].net);
    assert Zero(f) <==> f == rs[4].net;
  }

  // The addresses of a host that may be dialled: in order, without repetition.
  function Usable(resolved: seq<Addr>): (out: seq<Addr>)
    ensures forall a :: a in out <==> a in resolved && !Refused(a)
    ensures forall i, j | 0 <= i < j < |out| :: out[i] != out[j]
  {
    if resolved == [] then []
    else
      var n := |resolved| - 1;
      var a, before := resolved[n], Usable(resolved[..n]);
      assert resolved == resolved[..n] + [a];
      if Refused(a) || a in before then before else before + [a]
  }

  // They keep the order in which the resolver listed them.
  lemma {:induction false} UsableInOrder(resolved: seq<Addr>, i: nat, j: nat) returns (k: nat)
    requires i < j < |Usable(resolved)|
    ensures k <= |resolved| && Usable(resolved)[i] in resolved[..k] && Usable(resolved)[j] !in resolved[..k]
  {
    hide Refused;
    var n := |resolved| - 1;
    var before := Usable(resolved[..n]);
    if j < |before| {
      k := UsableInOrder(resolved[..n], i, j);
      assert resolved[..n][..k] == resolved[..k];
    } else {
      k := n;
    }
  }

  // http01_addresses.
  method Addresses(resolved: seq<Addr>) returns (out: seq<Addr>)
    ensures out == Usable(resolved)
  {
    hide Refused;
    out := [];
    for i := 0 to |resolved|
      invariant out == Usable(resolved[..i])
    {
      var hit := IsRefused(resolved[i]);
      assert resolved[..i + 1][..i] == resolved[..i];
      if !hit && resolved[i] !in out { out := out + [resolved[i]]; }
    }
    assert resolved[..|resolved|] == resolved;
  }

  method IsRefused(ip: Addr) returns (hit: bool)
    ensures hit <==> Refused(ip)
  {
    hide IpInCidr;
    var ranges := RefusedRanges();
    for k := 0 to |ranges|
      invariant forall j | 0 <= j < k :: !IpInCidr(ip, ranges[j])
    {
      if IpInCidr(ip, ranges[k]) { return true; }
    }
    hit := false;
  }

  // ---- URLs ------------------------------------------------------------------

  datatype Url = Url(scheme: string, host: string, path: string, port: nat)

  datatype Fault = NotUrl | BadScheme | Credentials | BadAddress | NoHost | BadPort | OtherPort(port: nat)

  datatype Parsed = Good(url: Url) | Bad(fault: Fault)

  function FirstOf(s: string, cs: set<char>): (i: nat)
    ensures i <= |s| && (i < |s| ==> s[i] in cs) && forall j | 0 <= j < i :: s[j] !in cs
  {
    if s == "" || s[0] in cs then 0 else 1 + FirstOf(s[1..], cs)
  }

  function LastOf(s: string, c: char): (i: Option<nat>)
    ensures i.None? <==> c !in s
    ensures i.Some? ==> i.value < |s| && s[i.value] == c && forall j | i.value < j < |s| :: s[j] != c
  {
    if s == "" then None
    else if s[|s| - 1] == c then Some(|s| - 1)
    else assert s == s[..|s| - 1] + [s[|s| - 1]]; LastOf(s[..|s| - 1], c)
  }

  predicate SepAt(s: string, i: nat) { i + 3 <= |s| && s[i] == ':' && s[i + 1] == '/' && s[i + 2] == '/' }

  // find("://"), or the length when there is none.
  function FindSep(s: string): (i: nat)
    ensures i <= |s| && (i < |s| ==> SepAt(s, i)) && forall j | 0 <= j < i :: !SepAt(s, j)
  {
    if s == "" || SepAt(s, 0) then 0
    else
      var i := FindSep(s[1..]);
      assert forall j | 0 <= j < |s[1..]| :: SepAt(s[1..], j) <==> SepAt(s, j + 1);
      assert forall j | 0 < j < 1 + i :: SepAt(s, j) <==> SepAt(s[1..], j - 1);
      1 + i
  }

  function Lower(s: string): (l: string)
    ensures |l| == |s|
  {
    seq(|s|, i requires 0 <= i < |s| => if 'A' <= s[i] <= 'Z' then s[i] + ' ' else s[i])
  }

  const STOPS: set<char> := {'/', '?', '#'}

  // http01_parse.
  function Parse(loc: string, base: Option<Url>): Parsed
  {
    if base.Some? && "//" <= loc then ParseRest(base.value.scheme, loc[2..])
    else if base.Some? && "/" <= loc then Good(base.value.(path := loc))
    else
      var sep := FindSep(loc);
      if sep == |loc| then Bad(NotUrl) else ParseRest(Lower(loc[..sep]), loc[sep + 3..])
  }

  function ParseRest(scheme: string, rest: string): Parsed
  {
    if scheme != "http" && scheme != "https" then Bad(BadScheme)
    else
      var slash := FirstOf(rest, STOPS);
      ParseAuthority(scheme, rest[..slash], if slash == |rest| then "/" else rest[slash..])
  }

  function ParseAuthority(scheme: string, authority: string, path: string): Parsed
  {
    if '@' in authority then Bad(Credentials)
    else if authority != "" && authority[0] == '[' then
      var close := FirstOf(authority, {']'});
      if close == |authority| then Bad(BadAddress)
      else
        ParsePort(scheme, authority[1..close], path,
                  if close + 1 < |authority| && authority[close + 1] == ':' then authority[close + 2..] else "")
    else
      match LastOf(authority, ':')
      case None => ParsePort(scheme, authority, path, "")
      case Some(colon) => ParsePort(scheme, authority[..colon], path, authority[colon + 1..])
  }

  function ParsePort(scheme: string, host: string, path: string, port: string): Parsed
  {
    if host == "" then Bad(NoHost)
    else if port == "" then Good(Url(scheme, host, path, if scheme == "https" then 443 else 80))
    else if !AllDigits(port) || |port| > 5 then Bad(BadPort)
    else if Value(port) != 80 && Value(port) != 443 then Bad(OtherPort(Value(port)))
    else Good(Url(scheme, host, path, Value(port)))
  }

  // What the walk relies on: where it may connect.
  predicate Dialable(u: Url)
  {
    (u.scheme == "http" || u.scheme == "https") && (u.port == 80 || u.port == 443)
  }

  predicate WellFormed(u: Url)
  {
    && Dialable(u)
    && u.host != "" && (forall c | c in u.host :: c !in STOPS && c != '@')
    && u.path != "" && u.path[0] in STOPS
  }

  // The two ways of writing a URL; the HTTP client is given the bracketed one exactly when
  // the host holds a colon.
  function Plain(u: Url): string { u.scheme + "://" + (u.host + ":" + Decimal(u.port)) + u.path }

  function Bracketed(u: Url): string { u.scheme + "://" + ("[" + u.host + "]:" + Decimal(u.port)) + u.path }

  function Print(u: Url): string { if ':' in u.host then Bracketed(u) else Plain(u) }

  // ---- parsing and printing --------------------------------------------------

  lemma ParsedIsWellFormed(loc: string, base: Option<Url>)
    requires base.Some? ==> WellFormed(base.value)
    ensures Parse(loc, base).Good? ==> WellFormed(Parse(loc, base).url)
  {
    hide FindSep, Lower, ParseRest, FirstOf, LastOf;
    if base.Some? && "//" <= loc { RestIsWellFormed(base.value.scheme, loc[2..]); }
    else if base.Some? && "/" <= loc { assert loc[0] == '/'; }
    else if FindSep(loc) < |loc| { RestIsWellFormed(Lower(loc[..FindSep(loc)]), loc[FindSep(loc) + 3..]); }
  }

  lemma RestIsWellFormed(scheme: string, rest: string)
    ensures ParseRest(scheme, rest).Good? ==> WellFormed(ParseRest(scheme, rest).url)
    ensures ParseRest(scheme, rest).Good? ==> HostPossible(ParseRest(scheme, rest).url.host)
  {
    hide FirstOf, LastOf, Value;
    var slash := FirstOf(rest, STOPS);
    var authority := rest[..slash];
    assert forall c | c in authority :: c !in STOPS;
    if authority != "" && authority[0] == '[' {
      var close := FirstOf(authority, {']'});
      if close < |authority| {
        assert forall c | c in authority[1..close] :: c in authority;
        assert forall j | 0 <= j < close :: authority[j] != ']';
      }
    } else {
      var colon := LastOf(authority, ':');
      if colon.Some? {
        assert forall c | c in authority[..colon.value] :: c in authority;
      }
    }
  }

  // Hosts the parser can produce: from brackets, or not starting with one.
  predicate HostPossible(host: string) { host != "" && (']' !in host || host[0] != '[') }

  lemma ParseSpelled(scheme: string, authority: string, path: string, base: Option<Url>)
    requires scheme == "http" || scheme == "https"
    requires (forall c | c in authority :: c !in STOPS) && path != "" && path[0] in STOPS
    ensures Parse(scheme + "://" + authority + path, base) == ParseAuthority(scheme, authority, path)
  {
    hide FirstOf, FindSep, ParseAuthority, Lower;
    var loc, rest := scheme + "://" + authority + path, authority + path;
    assert loc == scheme + "://" + rest;
    SchemeFound(scheme, rest);
    PathFound(authority, path);
  }

  lemma SchemeFound(scheme: string, rest: string)
    requires scheme == "http" || scheme == "https"
    ensures var loc, n := scheme + "://" + rest, |scheme|;
            FindSep(loc) == n && Lower(loc[..n]) == scheme && loc[n + 3..] == rest && loc[0] == 'h'
  {
    hide FindSep;
    var loc := scheme + "://" + rest;
    assert forall j | 0 <= j < |scheme| :: loc[j] == scheme[j] && scheme[j] != ':';
    assert SepAt(loc, |scheme|);
    assert loc[..|scheme|] == scheme;
    assert Lower(scheme) == scheme;
  }

  lemma PathFound(authority: string, path: string)
    requires (forall c | c in authority :: c !in STOPS) && path != "" && path[0] in STOPS
    ensures var rest, n := authority + path, |authority|;
            FirstOf(rest, STOPS) == n && rest[..n] == authority && rest[n..] == path
  {
  }

  lemma PortText(port: nat)
    requires port == 80 || port == 443
    ensures var p := Decimal(port); 0 < |p| <= 5 && AllDigits(p) && Value(p) == port
  {
    DecimalRoundTrip(port);
    if port == 80 { assert Decimal(80) == Decimal(8) + ['0']; } else {
      assert Decimal(443) == Decimal(44) + ['3'];
      assert Decimal(44) == Decimal(4) + ['4'];
    }
  }

  lemma PlainParsed(u: Url, base: Option<Url>)
    requires WellFormed(u) && u.host[0] != '['
    ensures Parse(Plain(u), base) == Good(u)
  {
    hide FirstOf, LastOf, Parse, Decimal, Value;
    PortText(u.port);
    var p := Decimal(u.port);
    var authority := u.host + ":" + p;
    LastColon(u.host, p);
    assert forall c | c in authority :: c in u.host || c == ':' || c in p;
    ParseSpelled(u.scheme, authority, u.path, base);
    assert authority[0] == u.host[0];
  }

  lemma LastColon(h: string, p: string)
    requires ':' !in p
    ensures var a := h + ":" + p; LastOf(a, ':') == Some(|h|) && a[..|h|] == h && a[|h| + 1..] == p
  {
    hide LastOf;
    var a := h + ":" + p;
    assert a[|h|] == ':' && a[|h| + 1..] == p;
    assert forall j | |h| < j < |a| :: a[j] == p[j - |h| - 1];
  }

  lemma BracketedParsed(u: Url, base: Option<Url>)
    requires WellFormed(u) && ']' !in u.host
    ensures Parse(Bracketed(u), base) == Good(u)
  {
    hide FirstOf, LastOf, Parse, Decimal, Value;
    PortText(u.port);
    var p := Decimal(u.port);
    CleanAuthority(u.host, p);
    ParseSpelled(u.scheme, InBrackets(u.host, p), u.path, base);
    ClosesBehind(u.host, p);
  }

  function InBrackets(host: string, port: string): string { "[" + host + "]:" + port }

  lemma CleanAuthority(host: string, port: string)
    requires (forall c | c in host :: c !in STOPS && c != '@') && AllDigits(port)
    ensures forall c | c in InBrackets(host, port) :: c !in STOPS && c != '@'
  {
    assert forall c | c in InBrackets(host, port) :: c in host || c in port || c in "[" || c in "]:";
    assert forall c | c in port :: IsDigit(c);
  }

  lemma ClosesBehind(host: string, port: string)
    requires ']' !in host
    ensures var a, n := InBrackets(host, port), |host|;
            && FirstOf(a, {']'}) == n + 1 && a[0] == '[' && a[1..n + 1] == host
            && a[n + 2] == ':' && a[n + 3..] == port
  {
    hide FirstOf;
    var a, n := InBrackets(host, port), |host|;
    assert a[0] == '[' && a[n + 1] == ']';
    assert forall j | 0 < j <= n :: a[j] == host[j - 1];
  }

  lemma ClosesWithin(host: string, port: string)
    requires ']' in host
    ensures FirstOf(InBrackets(host, port), {']'}) <= |host| && InBrackets(host, port)[0] == '['
  {
    hide FirstOf;
    var a := InBrackets(host, port);
    var k :| 0 <= k < |host| && host[k] == ']';
    assert a[k + 1] == ']';
  }

  // Exactly these URLs are ever accepted from an absolute spelling.
  lemma AcceptedExactly(u: Url)
    ensures (exists loc :: Parse(loc, None) == Good(u)) <==> WellFormed(u) && HostPossible(u.host)
  {
    hide Parse, ParseRest, WellFormed, HostPossible;
    if loc :| Parse(loc, None) == Good(u) {
      AbsoluteIsPossible(loc);
    }
    if WellFormed(u) && HostPossible(u.host) { Reachable(u); }
  }

  lemma AbsoluteIsPossible(loc: string)
    ensures Parse(loc, None).Good? ==> WellFormed(Parse(loc, None).url) && HostPossible(Parse(loc, None).url.host)
  {
    hide ParseRest, WellFormed, HostPossible;
    var sep := FindSep(loc);
    if sep < |loc| { RestIsWellFormed(Lower(loc[..sep]), loc[sep + 3..]); }
  }

  lemma Reachable(u: Url)
    requires WellFormed(u) && HostPossible(u.host)
    ensures exists loc :: Parse(loc, None) == Good(u)
  {
    hide Parse;
    if u.host[0] != '[' {
      PlainParsed(u, None);
      assert Parse(Plain(u), None) == Good(u);
    } else {
      BracketedParsed(u, None);
      assert Parse(Bracketed(u), None) == Good(u);
    }
  }

  // Whether the parser reads a URL back from what is printed can be told from the host.
  predicate Printable(host: string)
    requires host != ""
  {
    if ':' in host then ']' !in host else host[0] != '['
  }

  lemma PrintInvertedExactly(u: Url, base: Option<Url>)
    requires WellFormed(u)
    ensures Parse(Print(u), base) == Good(u) <==> Printable(u.host)
  {
    hide Parse;
    if ':' in u.host {
      if ']' !in u.host { BracketedParsed(u, base); } else { BracketInHost(u, base); }
    } else {
      if u.host[0] != '[' { PlainParsed(u, base); } else { BareBracket(u, base); }
    }
  }

  // A ']' inside the host ends the bracketed form early.
  lemma BracketInHost(u: Url, base: Option<Url>)
    requires WellFormed(u) && ']' in u.host
    ensures Parse(Bracketed(u), base) != Good(u)
  {
    hide FirstOf, LastOf, Parse, Decimal, Value, InBrackets;
    PortText(u.port);
    var p := Decimal(u.port);
    CleanAuthority(u.host, p);
    assert Bracketed(u) == u.scheme + "://" + InBrackets(u.host, p) + u.path by { BracketedIs(u); }
    ParseSpelled(u.scheme, InBrackets(u.host, p), u.path, base);
    ClosesWithin(u.host, p);
  }

  lemma BracketedIs(u: Url)
    ensures Bracketed(u) == u.scheme + "://" + InBrackets(u.host, Decimal(u.port)) + u.path
  {
  }

  // A leading '[' of the host is taken for the bracket of an address.
  lemma BareBracket(u: Url, base: Option<Url>)
    requires WellFormed(u) && u.host[0] == '['
    ensures Parse(Plain(u), base) != Good(u)
  {
    hide FirstOf, LastOf, Parse, Decimal, Value;
    PortText(u.port);
    var p := Decimal(u.port);
    var authority := u.host + ":" + p;
    assert forall c | c in authority :: c in u.host || c == ':' || c in p;
    ParseSpelled(u.scheme, authority, u.path, base);
    ClosesInHost(u.host, p);
  }

  lemma ClosesInHost(host: string, port: string)
    requires host != "" && AllDigits(port)
    ensures var a := host + ":" + port;
            a[0] == host[0] && (FirstOf(a, {']'}) < |a| ==> FirstOf(a, {']'}) < |host|)
  {
    hide FirstOf;
    var a, n := host + ":" + port, |host|;
    assert a[n] == ':';
    assert forall j | n < j < |a| :: a[j] == port[j - n - 1] && a[j] in port;
  }

  // So printing is not inverted for every URL the parser accepts.
  lemma PrintNotAlwaysInverted()
    ensures exists u :: (exists loc :: Parse(loc, None) == Good(u)) && Parse(Print(u), None) != Good(u)
  {
    hide Parse, Print;
    var u := Url("http", "a]:b", "/", 80);
    assert u.host[1] == ']' && u.host[2] == ':' && ']' in u.host && ':' in u.host;
    AcceptedExactly(u);
    PrintInvertedExactly(u, None);
  }
}
