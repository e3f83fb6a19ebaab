/** Which locations the http-01 fetch accepts, and as what: a grammar of absolute, scheme-relative
    and path-only locations, written by concatenation and proved equal to the parser. */
module Http01Urls {
  import opened Text
  import opened Http01

  // ---- the grammar -----------------------------------------------------------

  // "http" and "https" in any mixture of cases.
  ghost predicate SchemeSpells(text: string, scheme: string)
  {
    && (scheme == "http" || scheme == "https") && |text| == |scheme|
    && forall i | 0 <= i < |text| :: text[i] == scheme[i] || text[i] as int == scheme[i] as int - 32
  }

  // No port is the scheme's own; otherwise up to five digits that make 80 or 443.
  ghost predicate PortSpells(scheme: string, text: string, port: nat)
  {
    if text == "" then port == if scheme == "https" then 443 else 80
    else |text| <= 5 && AllDigits(text) && Value(text) == port && (port == 80 || port == 443)
  }

  // host, host:port, or an address in brackets with whatever follows it.
  ghost predicate AuthoritySpells(authority: string, host: string, port: string)
  {
    && '@' !in authority && host != ""
    && (|| (authority == host && port == "" && ':' !in host && host[0] != '[')
        || (authority == host + ":" + port && ':' !in port && host[0] != '[')
        || BracketSpells(authority, host, port))
  }

  ghost predicate BracketSpells(authority: string, host: string, port: string)
  {
    && ']' !in host && "[" + host + "]" <= authority
    && var tail := authority[|host| + 2..]; port == if ":" <= tail then tail[1..] else ""
  }

  ghost predicate Bare(s: string) { '/' !in s && '?' !in s && '#' !in s }

  ghost predicate RestSpells(rest: string, u: Url)
  {
    exists authority, port ::
      && AuthoritySpells(authority, u.host, port) && PortSpells(u.scheme, port, u.port)
      && Bare(authority) && authority <= rest
      && var tail := rest[|authority|..];
         if tail == "" then u.path == "/" else tail[0] in {'/', '?', '#'} && u.path == tail
  }

  ghost predicate AbsoluteSpells(loc: string, u: Url)
  {
    exists text :: SchemeSpells(text, u.scheme) && text + "://" <= loc && RestSpells(loc[|text| + 3..], u)
  }

  ghost predicate Spells(loc: string, base: Option<Url>, u: Url)
  {
    if base.None? || !("/" <= loc) then AbsoluteSpells(loc, u)
    else if "//" <= loc then
      u.scheme == base.value.scheme && (u.scheme == "http" || u.scheme == "https") && RestSpells(loc[2..], u)
    else u == base.value.(path := loc)
  }

  // ---- the parser follows it -------------------------------------------------

  lemma PortExactly(scheme: string, host: string, path: string, port: string, u: Url)
    ensures ParsePort(scheme, host, path, port) == Good(u) <==>
              host != "" && u == Url(scheme, host, path, u.port) && PortSpells(scheme, port, u.port)
  {
    hide Value;
  }

  // What an authority is split into, and that it is split one way only.
  lemma SplitsTo(authority: string, host: string, port: string)
    requires AuthoritySpells(authority, host, port)
    ensures forall scheme, path ::
              ParseAuthority(scheme, authority, path) == ParsePort(scheme, host, path, port)
  {
    hide FirstOf, LastOf, ParsePort;
    if authority[0] == '[' {
      var close := FirstOf(authority, {']'});
      var open := "[" + host + "]";
      assert authority[..|open|] == open;
      assert open[|host| + 1] == ']' && authority[|host| + 1] == ']';
      assert forall j | 0 < j <= |host| :: authority[j] == open[j] == host[j - 1];
      assert authority[0] == open[0];
      assert close == |host| + 1;
      assert authority[1..close] == host;
      var tail := authority[|host| + 2..];
      if ":" <= tail { assert tail[0] == authority[close + 1] && tail[1..] == authority[close + 2..]; }
      else if close + 1 < |authority| { assert tail[..1] == [authority[close + 1]]; }
    } else if authority == host && ':' !in host {
      assert LastOf(authority, ':').None?;
    } else {
      assert authority == host + ":" + port;
      LastColon(host, port);
    }
  }

  lemma SplitFound(scheme: string, authority: string, path: string) returns (host: string, port: string)
    requires ParseAuthority(scheme, authority, path).Good?
    ensures AuthoritySpells(authority, host, port)
  {
    hide FirstOf, LastOf, Value;
    if authority != "" && authority[0] == '[' {
      var close := FirstOf(authority, {']'});
      host := authority[1..close];
      port := if close + 1 < |authority| && authority[close + 1] == ':' then authority[close + 2..] else "";
      var open, tail := "[" + host + "]", authority[|host| + 2..];
      assert authority[..|open|] == open;
      assert forall j | 0 <= j < |host| :: host[j] == authority[j + 1];
      if close + 1 < |authority| { assert tail[0] == authority[close + 1] && tail[1..] == authority[close + 2..]; }
      assert BracketSpells(authority, host, port);
    } else {
      var colon := LastOf(authority, ':');
      if colon.None? {
        host, port := authority, "";
      } else {
        host, port := authority[..colon.value], authority[colon.value + 1..];
        assert authority == host + ":" + port;
        assert forall c | c in port :: c != ':';
        assert host[0] == authority[0];
      }
    }
  }

  lemma AuthorityExactly(scheme: string, authority: string, path: string, u: Url)
    ensures ParseAuthority(scheme, authority, path) == Good(u) <==>
              && u.scheme == scheme && u.path == path
              && exists port :: AuthoritySpells(authority, u.host, port) && PortSpells(scheme, port, u.port)
  {
    hide ParseAuthority, ParsePort, AuthoritySpells, PortSpells;
    if ParseAuthority(scheme, authority, path) == Good(u) {
      var host, port := SplitFound(scheme, authority, path);
      SplitsTo(authority, host, port);
      PortExactly(scheme, host, path, port, u);
    }
    if u.scheme == scheme && u.path == path {
      if port :| AuthoritySpells(authority, u.host, port) && PortSpells(scheme, port, u.port) {
        SplitsTo(authority, u.host, port);
        PortExactly(scheme, u.host, path, port, u);
        assert u.host != "" by { HostThere(authority, u.host, port); }
      }
    }
  }

  lemma HostThere(authority: string, host: string, port: string)
    requires AuthoritySpells(authority, host, port)
    ensures host != ""
  {
  }

  lemma RestExactly(scheme: string, rest: string, u: Url)
    ensures ParseRest(scheme, rest) == Good(u) <==>
              u.scheme == scheme && (scheme == "http" || scheme == "https") && RestSpells(rest, u)
  {
    hide FirstOf, ParseAuthority, AuthoritySpells, PortSpells;
    var slash := FirstOf(rest, STOPS);
    var authority, path := rest[..slash], if slash == |rest| then "/" else rest[slash..];
    AuthorityExactly(scheme, authority, path, u);
    if ParseRest(scheme, rest) == Good(u) {
      assert Bare(authority) && rest[|authority|..] == rest[slash..];
      assert RestSpells(rest, u);
    }
    if u.scheme == scheme && RestSpells(rest, u) {
      var a, port :| && AuthoritySpells(a, u.host, port) && PortSpells(u.scheme, port, u.port)
                     && Bare(a) && a <= rest
                     && var tail := rest[|a|..];
                        if tail == "" then u.path == "/" else tail[0] in {'/', '?', '#'} && u.path == tail;
      BareEnds(a, rest);
      assert a == authority && u.path == path;
    }
  }

  // The authority is everything up to the first slash, question mark or number sign.
  lemma BareEnds(a: string, rest: string)
    requires Bare(a) && a <= rest && (|a| == |rest| || rest[|a|] in {'/', '?', '#'})
    ensures FirstOf(rest, STOPS) == |a|
  {
    hide FirstOf;
    forall j | 0 <= j < |a| ensures rest[j] !in STOPS { assert rest[j] == a[j] && a[j] in a; }
  }

  lemma SchemeExactly(text: string, scheme: string)
    ensures SchemeSpells(text, scheme) <==> Lower(text) == scheme && (scheme == "http" || scheme == "https")
  {
    if SchemeSpells(text, scheme) {
      assert forall i | 0 <= i < |text| :: Lower(text)[i] == scheme[i];
    }
    if Lower(text) == scheme && (scheme == "http" || scheme == "https") {
      forall i | 0 <= i < |text| ensures text[i] == scheme[i] || text[i] as int == scheme[i] as int - 32 {
        assert Lower(text)[i] == scheme[i];
      }
    }
  }

  lemma AbsoluteExactly(loc: string, u: Url)
    ensures Parse(loc, None) == Good(u) <==> AbsoluteSpells(loc, u)
  {
    hide Parse, RestSpells, SchemeSpells;
    if Parse(loc, None) == Good(u) { var text := SchemeRead(loc, u); }
    if text :| SchemeSpells(text, u.scheme) && text + "://" <= loc && RestSpells(loc[|text| + 3..], u) {
      NoColon(text, u.scheme);
      assert loc[..|text| + 3] == text + "://";
      SchemeExactly(text, u.scheme);
      ReadAs(loc, text);
      RestExactly(u.scheme, loc[|text| + 3..], u);
    }
  }

  lemma SchemeRead(loc: string, u: Url) returns (text: string)
    requires Parse(loc, None) == Good(u)
    ensures SchemeSpells(text, u.scheme) && text + "://" <= loc && RestSpells(loc[|text| + 3..], u)
  {
    hide FindSep, ParseRest, RestSpells, Lower, SchemeSpells;
    var sep := FindSep(loc);
    text := loc[..sep];
    RestExactly(Lower(text), loc[sep + 3..], u);
    SchemeExactly(text, u.scheme);
    SepSplits(loc, sep);
  }

  lemma SepSplits(loc: string, sep: nat)
    requires SepAt(loc, sep)
    ensures loc[..sep] + "://" <= loc
  {
    assert loc[..sep + 3] == loc[..sep] + "://";
  }

  lemma ReadAs(loc: string, text: string)
    requires ':' !in text && |loc| >= |text| + 3 && loc[..|text| + 3] == text + "://"
    ensures Parse(loc, None) == ParseRest(Lower(text), loc[|text| + 3..])
  {
    hide FindSep, ParseRest, Lower;
    SepFound(loc, text);
  }

  lemma NoColon(text: string, scheme: string)
    requires SchemeSpells(text, scheme)
    ensures ':' !in text && text != ""
  {
  }

  lemma SepFound(loc: string, text: string)
    requires ':' !in text && |loc| >= |text| + 3 && loc[..|text| + 3] == text + "://"
    ensures FindSep(loc) == |text| && loc[..|text|] == text
  {
    hide FindSep;
    var head := text + "://";
    assert forall j | 0 <= j < |head| :: loc[j] == head[j];
    assert forall j | 0 <= j < |text| :: loc[j] == text[j] && text[j] in text;
    assert SepAt(loc, |text|);
  }

  // A location is accepted as a URL if and only if it spells that URL.
  lemma ParsedExactly(loc: string, base: Option<Url>, u: Url)
    ensures Parse(loc, base) == Good(u) <==> Spells(loc, base, u)
  {
    hide FindSep, ParseRest, RestSpells, AbsoluteSpells, Lower;
    if base.None? || !("/" <= loc) {
      AbsoluteExactly(loc, u);
      assert "//" <= loc ==> loc[0] == '/';
    } else if "//" <= loc {
      RestExactly(base.value.scheme, loc[2..], u);
    }
  }

  // ---- what an ordinary redirect reads as ------------------------------------

  lemma DefaultPort(scheme: string, host: string, path: string, base: Option<Url>)
    requires scheme == "http" || scheme == "https"
    requires host != "" && host[0] != '[' && Bare(host) && '@' !in host && ':' !in host
    requires path == "" || path[0] in {'/', '?', '#'}
    ensures Parse(scheme + "://" + host + path, base) ==
            Good(Url(scheme, host, if path == "" then "/" else path, if scheme == "https" then 443 else 80))
  {
    hide Parse, RestSpells, SchemeSpells;
    var u := Url(scheme, host, if path == "" then "/" else path, if scheme == "https" then 443 else 80);
    var loc := scheme + "://" + host + path;
    LocationParts(scheme, host + path);
    assert loc == scheme + "://" + (host + path);
    HostOnly(host, path, u);
    assert SchemeSpells(scheme, u.scheme) by { SchemeItself(scheme); }
    assert AbsoluteSpells(loc, u);
    ParsedExactly(loc, base, u);
  }

  lemma LocationParts(scheme: string, rest: string)
    requires scheme == "http" || scheme == "https"
    ensures var loc := scheme + "://" + rest;
            scheme + "://" <= loc && loc[|scheme| + 3..] == rest && loc[0] == 'h' && !("/" <= loc)
  {
    var loc := scheme + "://" + rest;
    assert loc[..|scheme| + 3] == scheme + "://";
    assert loc[0] == scheme[0];
  }

  lemma SchemeItself(scheme: string)
    requires scheme == "http" || scheme == "https"
    ensures SchemeSpells(scheme, scheme)
  {
  }

  lemma HostOnly(host: string, path: string, u: Url)
    requires host != "" && host[0] != '[' && Bare(host) && '@' !in host && ':' !in host && u.host == host
    requires path == "" || path[0] in {'/', '?', '#'}
    requires u.path == (if path == "" then "/" else path) && PortSpells(u.scheme, "", u.port)
    ensures RestSpells(host + path, u)
  {
    var rest := host + path;
    assert AuthoritySpells(host, u.host, "");
    assert host <= rest && rest[|host|..] == path;
  }

  lemma PathOnly(loc: string, base: Url)
    requires "/" <= loc && !("//" <= loc)
    ensures Parse(loc, Some(base)) == Good(base.(path := loc))
  {
    hide Parse;
    ParsedExactly(loc, Some(base), base.(path := loc));
  }

  lemma SchemeRelative(rest: string, base: Url)
    requires base.scheme == "http" || base.scheme == "https"
    ensures Parse("//" + rest, Some(base)) == Parse(base.scheme + "://" + rest, None)
  {
    hide ParseRest, FindSep, Lower;
    SchemeFound(base.scheme, rest);
    assert ("//" + rest)[2..] == rest;
  }

  // ---- why a location is refused ---------------------------------------------

  // The first thing wrong with it, from left to right; without a base for what is no URL.
  lemma FaultsExactly(text: string, authority: string, path: string)
    requires ':' !in text && Bare(authority) && (path == "" || path[0] in {'/', '?', '#'})
    ensures var r := Parse(text + "://" + authority + path, None);
            if !SchemeSpells(text, "http") && !SchemeSpells(text, "https") then r == Bad(BadScheme)
            else if '@' in authority then r == Bad(Credentials)
            else if "[" <= authority && ']' !in authority then r == Bad(BadAddress)
            else r.Bad? ==> r.fault.NoHost? || r.fault.BadPort? || r.fault.OtherPort?
  {
    hide Parse, Lower, SchemeSpells, FirstOf, ParseAuthority;
    var loc, rest := text + "://" + authority + path, authority + path;
    assert loc[..|text| + 3] == text + "://" && loc[|text| + 3..] == rest;
    ReadAs(loc, text);
    SchemeExactly(text, "http");
    SchemeExactly(text, "https");
    assert rest[..|authority|] == authority && rest[|authority|..] == path;
    BareEnds(authority, rest);
    AuthorityFaults(Lower(text), authority, if path == "" then "/" else path);
  }

  lemma AuthorityFaults(scheme: string, authority: string, path: string)
    ensures var r := ParseAuthority(scheme, authority, path);
            if '@' in authority then r == Bad(Credentials)
            else if "[" <= authority && ']' !in authority then r == Bad(BadAddress)
            else r.Bad? ==> r.fault.NoHost? || r.fault.BadPort? || r.fault.OtherPort?
  {
    hide FirstOf, LastOf, Value;
    if authority != "" && authority[0] == '[' { assert authority[..1] == "["; }
  }

  // Behind a host that is read, a port is refused as unreadable or as another one.
  lemma PortFaults(scheme: string, host: string, path: string, port: string)
    ensures var r := ParsePort(scheme, host, path, port);
            && (r == Bad(NoHost) <==> host == "")
            && (r == Bad(BadPort) <==> host != "" && port != "" && (|port| > 5 || !AllDigits(port)))
            && (r.Bad? && r.fault.OtherPort? <==>
                  host != "" && port != "" && |port| <= 5 && AllDigits(port) && Value(port) !in {80, 443})
            && (r.Bad? && r.fault.OtherPort? ==> r.fault.port == Value(port))
  {
    hide Value;
  }

  lemma NoSeparator(loc: string)
    requires forall i | 0 <= i < |loc| :: !SepAt(loc, i)
    ensures Parse(loc, None) == Bad(NotUrl)
  {
    hide FindSep;
  }
}
