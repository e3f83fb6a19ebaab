/** fetch_http01: the bounded redirect walk, proved against the redirect chains that ought to
    count as proof, with the list of everything it dialled. */
module Http01Walk {
  import opened Text
  import opened Http01

  datatype Response = Response(status: nat, location: string, body: string)

  // Resolution of (host, port) and a GET of a URL at one address, at a given hop.
  datatype Net = Net(resolve: (string, nat, nat) -> seq<Addr>, get: (Url, Addr, nat) -> Option<Response>)

  datatype Dial = Dial(hop: nat, url: Url, addr: Addr)

  datatype Failure =
    | NoAddress | NoAnswer | TooManyRedirects | NoLocation | BadLocation(fault: Fault) | BadStatus(status: nat)
    | Mismatch

  datatype Outcome = Proved | Failed(why: Failure)

  const MAX_REDIRECTS := 10

  function Targets(net: Net, url: Url, hop: nat): seq<Addr>
  {
    Usable(net.resolve(url.host, url.port, hop))
  }

  // The first address that answers decides; the ones before it did not answer.
  ghost function FirstAnswer(net: Net, url: Url, hop: nat, addrs: seq<Addr>): (n: nat)
    ensures n <= |addrs|
    ensures forall i | 0 <= i < n :: net.get(url, addrs[i], hop).None?
    ensures n < |addrs| ==> net.get(url, addrs[n], hop).Some?
  {
    if addrs == [] || net.get(url, addrs[0], hop).Some? then 0
    else 1 + FirstAnswer(net, url, hop, addrs[1..])
  }

  ghost function Heard(net: Net, url: Url, hop: nat): Option<Response>
  {
    var addrs := Targets(net, url, hop);
    var n := FirstAnswer(net, url, hop, addrs);
    if n == |addrs| then None else net.get(url, addrs[n], hop)
  }

  ghost function Dialled(net: Net, url: Url, hop: nat): seq<Dial>
  {
    var addrs := Targets(net, url, hop);
    var n := FirstAnswer(net, url, hop, addrs);
    seq(if n == |addrs| then n else n + 1, i requires 0 <= i <= n && i < |addrs| => Dial(hop, url, addrs[i]))
  }

  predicate Redirect(status: nat) { status in {301, 302, 303, 307, 308} }

  predicate Space(c: char) { c == '\n' || c == '\r' || c == ' ' || c == '\t' }

  function TrimEnd(body: string): (t: string)
    ensures t <= body && (forall c | c in body[|t|..] :: Space(c))
    ensures t != "" ==> !Space(t[|t| - 1])
  {
    if body == "" || !Space(body[|body| - 1]) then body
    else
      var shorter := body[..|body| - 1];
      var t := TrimEnd(shorter);
      assert body[|t|..] == shorter[|t|..] + [body[|body| - 1]];
      t
  }

  ghost function Walk(net: Net, keyAuth: string, url: Url, hop: nat): (Outcome, seq<Dial>)
    requires hop <= MAX_REDIRECTS
    decreases MAX_REDIRECTS - hop
  {
    var dials, heard := Dialled(net, url, hop), Heard(net, url, hop);
    if Targets(net, url, hop) == [] then (Failed(NoAddress), dials)
    else if heard.None? then (Failed(NoAnswer), dials)
    else
      var r := heard.value;
      if Redirect(r.status) then
        if hop == MAX_REDIRECTS then (Failed(TooManyRedirects), dials)
        else if r.location == "" then (Failed(NoLocation), dials)
        else
          match Parse(r.location, Some(url))
          case Bad(f) => (Failed(BadLocation(f)), dials)
          case Good(next) => var w := Walk(net, keyAuth, next, hop + 1); (w.0, dials + w.1)
      else if r.status != 200 then (Failed(BadStatus(r.status)), dials)
      else (if TrimEnd(r.body) == keyAuth then Proved else Failed(Mismatch), dials)
  }

  function Challenge(host: string, token: string): Url
  {
    Url("http", host, "/.well-known/acme-challenge/" + token, 80)
  }

  // fetch_http01.
  method FetchHttp01(net: Net, host: string, token: string, keyAuth: string)
    returns (outcome: Outcome, dials: seq<Dial>)
    ensures (outcome, dials) == Walk(net, keyAuth, Challenge(host, token), 0)
  {
    hide Parse, Dialled, Heard, TrimEnd, Targets;
    var url, hop := Challenge(host, token), 0;
    dials := [];
    ghost var whole := Walk(net, keyAuth, url, 0);
    assert dials + whole.1 == whole.1;
    while true
      invariant hop <= MAX_REDIRECTS
      invariant var w := Walk(net, keyAuth, url, hop); whole == (w.0, dials + w.1)
      decreases MAX_REDIRECTS - hop
    {
      var addrs := Addresses(net.resolve(url.host, url.port, hop));
      TargetsMeans(net, url, hop);
      var heard, tried := DialEach(net, url, hop, addrs);
      ghost var before := dials;
      dials := dials + tried;
      if addrs == [] { return Failed(NoAddress), dials; }
      if heard.None? { return Failed(NoAnswer), dials; }
      var r := heard.value;
      if Redirect(r.status) {
        if hop >= MAX_REDIRECTS { return Failed(TooManyRedirects), dials; }
        if r.location == "" { return Failed(NoLocation), dials; }
        var next := Parse(r.location, Some(url));
        if next.Bad? { return Failed(BadLocation(next.fault)), dials; }
        assert before + (tried + Walk(net, keyAuth, next.url, hop + 1).1) ==
               dials + Walk(net, keyAuth, next.url, hop + 1).1;
        url, hop := next.url, hop + 1;
        continue;
      }
      if r.status != 200 { return Failed(BadStatus(r.status)), dials; }
      var body := Trimmed(r.body);
      if body != keyAuth { return Failed(Mismatch), dials; }
      return Proved, dials;
    }
  }

  lemma TargetsMeans(net: Net, url: Url, hop: nat)
    ensures Targets(net, url, hop) == Usable(net.resolve(url.host, url.port, hop))
  {
  }

  method Trimmed(body: string) returns (t: string)
    ensures t == TrimEnd(body)
  {
    t := body;
    while t != "" && Space(t[|t| - 1])
      invariant TrimEnd(t) == TrimEnd(body)
      decreases |t|
    {
      t := t[..|t| - 1];
    }
  }

  method DialEach(net: Net, url: Url, hop: nat, addrs: seq<Addr>) returns (heard: Option<Response>, dials: seq<Dial>)
    requires addrs == Targets(net, url, hop)
    ensures heard == Heard(net, url, hop) && dials == Dialled(net, url, hop)
  {
    hide Targets, FirstAnswer;
    heard, dials := None, [];
    ghost var n := FirstAnswer(net, url, hop, addrs);
    for i := 0 to |addrs|
      invariant i <= n && heard.None?
      invariant |dials| == i && forall k | 0 <= k < i :: dials[k] == Dial(hop, url, addrs[k])
    {
      dials := dials + [Dial(hop, url, addrs[i])];
      heard := net.get(url, addrs[i], hop);
      if heard.Some? { break; }
    }
  }

  // ---- what a walk may touch -------------------------------------------------

  lemma ParsedDialable(loc: string, base: Url)
    requires Dialable(base)
    ensures Parse(loc, Some(base)).Good? ==> Dialable(Parse(loc, Some(base)).url)
  {
    hide FindSep, Lower, ParseRest;
    if "//" <= loc { RestIsWellFormed(base.scheme, loc[2..]); }
    else if !("/" <= loc) && FindSep(loc) < |loc| {
      RestIsWellFormed(Lower(loc[..FindSep(loc)]), loc[FindSep(loc) + 3..]);
    }
  }

  ghost predicate Checked(net: Net, d: Dial)
  {
    Dialable(d.url) && !Refused(d.addr) && d.addr in net.resolve(d.url.host, d.url.port, d.hop)
  }

  // Every connection goes to http or https on port 80 or 443, at an address that the host
  // resolved to at that hop and that is not refused. Hops stay within the limit, and all
  // connections of a hop are for one URL: at most eleven URLs are tried.
  lemma {:induction false} DialsChecked(net: Net, keyAuth: string, url: Url, hop: nat)
    requires hop <= MAX_REDIRECTS && Dialable(url)
    ensures forall d | d in Walk(net, keyAuth, url, hop).1 ::
              Checked(net, d) && hop <= d.hop <= MAX_REDIRECTS && (d.hop == hop ==> d.url == url)
    ensures forall d, e | d in Walk(net, keyAuth, url, hop).1 && e in Walk(net, keyAuth, url, hop).1 ::
              d.hop == e.hop ==> d.url == e.url
    decreases MAX_REDIRECTS - hop
  {
    hide Parse, Dialled, Heard, Refused, Dialable;
    var dials := Dialled(net, url, hop);
    DialledHere(net, url, hop);
    var heard := Heard(net, url, hop);
    if heard.Some? && Redirect(heard.value.status) && hop < MAX_REDIRECTS {
      var next := Parse(heard.value.location, Some(url));
      ParsedDialable(heard.value.location, url);
      if next.Good? { DialsChecked(net, keyAuth, next.url, hop + 1); }
    }
  }

  lemma DialledHere(net: Net, url: Url, hop: nat)
    requires Dialable(url)
    ensures forall d | d in Dialled(net, url, hop) :: Checked(net, d) && d.hop == hop && d.url == url
  {
  }

  // ---- what counts as proof --------------------------------------------------

  ghost predicate RedirectsTo(net: Net, url: Url, hop: nat, next: Url)
  {
    var h := Heard(net, url, hop);
    h.Some? && Redirect(h.value.status) && h.value.location != "" && Parse(h.value.location, Some(url)) == Good(next)
  }

  ghost predicate Serves(net: Net, keyAuth: string, url: Url, hop: nat)
  {
    var h := Heard(net, url, hop);
    h.Some? && h.value.status == 200 && TrimEnd(h.value.body) == keyAuth
  }

  // A chain of redirects from the first URL to one that serves the key authorization.
  ghost predicate Chain(net: Net, keyAuth: string, urls: seq<Url>, hop: nat)
  {
    && urls != [] && hop + |urls| <= MAX_REDIRECTS + 1
    && (forall i | 0 <= i < |urls| - 1 :: RedirectsTo(net, urls[i], hop + i, urls[i + 1]))
    && Serves(net, keyAuth, urls[|urls| - 1], hop + |urls| - 1)
  }

  // The walk succeeds exactly when such a chain of at most eleven URLs exists.
  lemma {:induction false} ProvedExactly(net: Net, keyAuth: string, url: Url, hop: nat)
    requires hop <= MAX_REDIRECTS
    ensures Walk(net, keyAuth, url, hop).0.Proved? <==>
            exists urls :: Chain(net, keyAuth, urls, hop) && urls[0] == url
    decreases MAX_REDIRECTS - hop
  {
    if Walk(net, keyAuth, url, hop).0.Proved? {
      var urls := ChainOf(net, keyAuth, url, hop);
    }
    if urls :| Chain(net, keyAuth, urls, hop) && urls[0] == url {
      ChainProves(net, keyAuth, urls, hop);
    }
  }

  lemma {:induction false} ChainOf(net: Net, keyAuth: string, url: Url, hop: nat) returns (urls: seq<Url>)
    requires hop <= MAX_REDIRECTS && Walk(net, keyAuth, url, hop).0.Proved?
    ensures Chain(net, keyAuth, urls, hop) && urls[0] == url
    decreases MAX_REDIRECTS - hop
  {
    hide Walk, Chain, Parse, Heard;
    WalkProves(net, keyAuth, url, hop);
    if Serves(net, keyAuth, url, hop) {
      urls := [url];
      LastLink(net, keyAuth, url, hop);
    } else {
      var next := Parse(Heard(net, url, hop).value.location, Some(url)).url;
      var rest := ChainOf(net, keyAuth, next, hop + 1);
      urls := [url] + rest;
      OneLinkMore(net, keyAuth, url, rest, hop);
    }
  }

  // One hop of the walk, as far as success goes.
  lemma WalkProves(net: Net, keyAuth: string, url: Url, hop: nat)
    requires hop <= MAX_REDIRECTS
    ensures Walk(net, keyAuth, url, hop).0.Proved? <==>
              || Serves(net, keyAuth, url, hop)
              || (&& hop < MAX_REDIRECTS && Heard(net, url, hop).Some?
                  && var next := Parse(Heard(net, url, hop).value.location, Some(url));
                     next.Good? && RedirectsTo(net, url, hop, next.url) &&
                     Walk(net, keyAuth, next.url, hop + 1).0.Proved?)
  {
    hide Parse, Dialled, TrimEnd, FirstAnswer;
  }

  lemma LastLink(net: Net, keyAuth: string, url: Url, hop: nat)
    requires hop <= MAX_REDIRECTS && Serves(net, keyAuth, url, hop)
    ensures Chain(net, keyAuth, [url], hop)
  {
    hide Serves, RedirectsTo;
  }

  lemma OneLinkMore(net: Net, keyAuth: string, url: Url, rest: seq<Url>, hop: nat)
    requires Chain(net, keyAuth, rest, hop + 1) && RedirectsTo(net, url, hop, rest[0])
    ensures Chain(net, keyAuth, [url] + rest, hop)
  {
    hide Serves, RedirectsTo;
    var urls := [url] + rest;
    forall i | 0 <= i < |urls| - 1 ensures RedirectsTo(net, urls[i], hop + i, urls[i + 1]) {
      if i > 0 { Shifted(net, keyAuth, rest, hop + 1, i - 1); }
    }
    assert urls[|urls| - 1] == rest[|rest| - 1];
  }

  lemma Shifted(net: Net, keyAuth: string, urls: seq<Url>, hop: nat, i: nat)
    requires Chain(net, keyAuth, urls, hop) && i < |urls| - 1
    ensures RedirectsTo(net, urls[i], hop + i, urls[i + 1])
  {
    hide Serves, RedirectsTo;
  }

  lemma OneLinkLess(net: Net, keyAuth: string, urls: seq<Url>, hop: nat)
    requires Chain(net, keyAuth, urls, hop) && |urls| > 1
    ensures RedirectsTo(net, urls[0], hop, urls[1]) && Chain(net, keyAuth, urls[1..], hop + 1)
  {
    hide Serves, RedirectsTo;
    Shifted(net, keyAuth, urls, hop, 0);
    var rest := urls[1..];
    forall i | 0 <= i < |rest| - 1 ensures RedirectsTo(net, rest[i], hop + 1 + i, rest[i + 1]) {
      Shifted(net, keyAuth, urls, hop, i + 1);
    }
  }

  lemma {:induction false} ChainProves(net: Net, keyAuth: string, urls: seq<Url>, hop: nat)
    requires Chain(net, keyAuth, urls, hop)
    ensures Walk(net, keyAuth, urls[0], hop).0.Proved?
    decreases |urls|
  {
    hide Walk, Parse, Heard, Serves, TrimEnd;
    WalkProves(net, keyAuth, urls[0], hop);
    if |urls| > 1 {
      OneLinkLess(net, keyAuth, urls, hop);
      ChainProves(net, keyAuth, urls[1..], hop + 1);
    }
  }
}
