/** How a whole http-01 fetch ends, and everything it connects to, said of the resolver's answers,
    the replies and the locations in them alone. */
module Http01Exact {
  import opened Text
  import opened Http01
  import opened Http01Walk
  import opened Http01Urls

  // ---- one URL ---------------------------------------------------------------

  // The address is tried: it may be dialled, and no address listed before it answered.
  ghost predicate TriedIn(net: Net, url: Url, hop: nat, listed: seq<Addr>, k: nat)
  {
    && k < |listed| && !Refused(listed[k])
    && forall j | 0 <= j < k :: Refused(listed[j]) || net.get(url, listed[j], hop).None?
  }

  // The reply that counts is the first one.
  ghost predicate AnswersIn(net: Net, url: Url, hop: nat, listed: seq<Addr>, r: Response)
  {
    exists k: nat :: TriedIn(net, url, hop, listed, k) && net.get(url, listed[k], hop) == Some(r)
  }

  ghost function Listed(net: Net, url: Url, hop: nat): seq<Addr> { net.resolve(url.host, url.port, hop) }

  ghost predicate Answers(net: Net, url: Url, hop: nat, r: Response)
  {
    AnswersIn(net, url, hop, Listed(net, url, hop), r)
  }

  // What the fetch hears of the usable ones among some listed addresses.
  ghost function HeardIn(net: Net, url: Url, hop: nat, listed: seq<Addr>): Option<Response>
  {
    var addrs := Usable(listed);
    var n := FirstAnswer(net, url, hop, addrs);
    if n == |addrs| then None else net.get(url, addrs[n], hop)
  }

  lemma FirstUnique(net: Net, url: Url, hop: nat, addrs: seq<Addr>, n: nat)
    requires n <= |addrs| && (forall i | 0 <= i < n :: net.get(url, addrs[i], hop).None?)
    requires n < |addrs| ==> net.get(url, addrs[n], hop).Some?
    ensures FirstAnswer(net, url, hop, addrs) == n
  {
    hide FirstAnswer;
    var m := FirstAnswer(net, url, hop, addrs);
    assert m < |addrs| ==> net.get(url, addrs[m], hop).Some?;
    assert n < |addrs| ==> net.get(url, addrs[n], hop).Some?;
  }

  // One more listed address matters only when nothing before it answered.
  lemma HeardStep(net: Net, url: Url, hop: nat, listed: seq<Addr>, a: Addr)
    ensures HeardIn(net, url, hop, listed + [a]) ==
              if HeardIn(net, url, hop, listed).Some? then HeardIn(net, url, hop, listed)
              else if Refused(a) then None else net.get(url, a, hop)
  {
    hide FirstAnswer, Refused;
    var before, all := Usable(listed), listed + [a];
    var n := FirstAnswer(net, url, hop, before);
    assert all[..|listed|] == listed && all[|listed|] == a;
    assert Usable(all) == if Refused(a) || a in before then before else before + [a];
    if n < |before| {
      assert Usable(all)[..|before|] == before;
      forall i | 0 <= i <= n ensures Usable(all)[i] == before[i] { assert Usable(all)[..|before|][i] == before[i]; }
      FirstUnique(net, url, hop, Usable(all), n);
    } else if !Refused(a) && a !in before {
      FirstUnique(net, url, hop, before + [a], if net.get(url, a, hop).Some? then n else n + 1);
    } else if a in before {
      var i :| 0 <= i < |before| && before[i] == a;
      assert net.get(url, before[i], hop).None?;
    }
  }

  lemma {:induction false} HeardExactly(net: Net, url: Url, hop: nat, listed: seq<Addr>, r: Response)
    ensures HeardIn(net, url, hop, listed) == Some(r) <==> AnswersIn(net, url, hop, listed, r)
  {
    hide HeardIn, Refused;
    if listed == [] {
      NothingHeard(net, url, hop);
    } else {
      var n := |listed| - 1;
      var before, a := listed[..n], listed[n];
      assert listed == before + [a];
      HeardStep(net, url, hop, before, a);
      HeardExactly(net, url, hop, before, r);
      if HeardIn(net, url, hop, before).Some? {
        HeardExactly(net, url, hop, before, HeardIn(net, url, hop, before).value);
      }
      AnswersLonger(net, url, hop, before, a, r);
      Silence(net, url, hop, before);
    }
  }

  lemma NothingHeard(net: Net, url: Url, hop: nat)
    ensures HeardIn(net, url, hop, []).None?
  {
  }

  // No address of the list answers.
  ghost predicate Silent(net: Net, url: Url, hop: nat, listed: seq<Addr>)
  {
    forall j | 0 <= j < |listed| :: Refused(listed[j]) || net.get(url, listed[j], hop).None?
  }

  lemma {:induction false} Silence(net: Net, url: Url, hop: nat, listed: seq<Addr>)
    ensures HeardIn(net, url, hop, listed).None? <==> Silent(net, url, hop, listed)
  {
    hide HeardIn, Refused;
    if listed == [] {
      NothingHeard(net, url, hop);
    } else {
      var n := |listed| - 1;
      assert listed == listed[..n] + [listed[n]];
      HeardStep(net, url, hop, listed[..n], listed[n]);
      Silence(net, url, hop, listed[..n]);
    }
  }

  lemma AnswersLonger(net: Net, url: Url, hop: nat, listed: seq<Addr>, a: Addr, r: Response)
    ensures AnswersIn(net, url, hop, listed + [a], r) <==>
              || AnswersIn(net, url, hop, listed, r)
              || (Silent(net, url, hop, listed) && !Refused(a) && net.get(url, a, hop) == Some(r))
  {
    hide Refused;
    var all := listed + [a];
    assert forall j | 0 <= j < |listed| :: listed[j] == all[j];
    if k: nat :| TriedIn(net, url, hop, all, k) && net.get(url, all[k], hop) == Some(r) {
      if k < |listed| { assert TriedIn(net, url, hop, listed, k); }
    }
    if k: nat :| TriedIn(net, url, hop, listed, k) && net.get(url, listed[k], hop) == Some(r) {
      assert TriedIn(net, url, hop, all, k);
    }
    if Silent(net, url, hop, listed) && !Refused(a) && net.get(url, a, hop) == Some(r) {
      assert all[|listed|] == a;
      assert TriedIn(net, url, hop, all, |listed|);
    }
  }

  lemma HeardMeans(net: Net, url: Url, hop: nat)
    ensures forall r :: Heard(net, url, hop) == Some(r) <==> Answers(net, url, hop, r)
    ensures Heard(net, url, hop).None? <==> Silent(net, url, hop, Listed(net, url, hop))
    ensures Targets(net, url, hop) == [] <==> forall a | a in Listed(net, url, hop) :: Refused(a)
  {
    hide HeardIn, Refused, AnswersIn, Silent, FirstAnswer;
    var listed := Listed(net, url, hop);
    assert Heard(net, url, hop) == HeardIn(net, url, hop, listed) by { SameHeard(net, url, hop); }
    forall r ensures Heard(net, url, hop) == Some(r) <==> Answers(net, url, hop, r) {
      HeardExactly(net, url, hop, listed, r);
    }
    Silence(net, url, hop, listed);
    var addrs := Targets(net, url, hop);
    if addrs != [] { assert addrs[0] in listed && !Refused(addrs[0]); }
  }

  lemma SameHeard(net: Net, url: Url, hop: nat)
    ensures Heard(net, url, hop) == HeardIn(net, url, hop, Listed(net, url, hop))
  {
  }

  // ---- the walk --------------------------------------------------------------

  ghost predicate Moves(net: Net, url: Url, hop: nat, next: Url)
  {
    exists r :: && Answers(net, url, hop, r) && r.status in {301, 302, 303, 307, 308} && r.location != ""
                && Spells(r.location, Some(url), next)
  }

  // A route: every URL redirects to the one after it.
  ghost predicate Route(net: Net, urls: seq<Url>, hop: nat)
  {
    urls != [] && hop + |urls| <= 11 && forall i | 0 <= i < |urls| - 1 :: Moves(net, urls[i], hop + i, urls[i + 1])
  }

  // The body is the key authorization, perhaps with blanks and line ends behind it.
  ghost predicate Carries(body: string, keyAuth: string)
  {
    && keyAuth <= body && (forall c | c in body[|keyAuth|..] :: c in {'\n', '\r', ' ', '\t'})
    && (keyAuth != "" ==> keyAuth[|keyAuth| - 1] !in {'\n', '\r', ' ', '\t'})
  }

  ghost predicate LeadsNowhere(location: string, url: Url) { forall next :: !Spells(location, Some(url), next) }

  ghost function FaultOf(location: string, url: Url): Fault
  {
    var p := Parse(location, Some(url)); if p.Bad? then p.fault else NotUrl
  }

  // How the fetch ends at a URL that does not redirect any further.
  ghost predicate Ends(net: Net, keyAuth: string, url: Url, hop: nat, o: Outcome)
  {
    if forall a | a in Listed(net, url, hop) :: Refused(a) then o == Failed(NoAddress)
    else if Silent(net, url, hop, Listed(net, url, hop)) then o == Failed(NoAnswer)
    else exists r :: Answers(net, url, hop, r) && EndsWith(r, keyAuth, url, hop, o)
  }

  ghost predicate EndsWith(r: Response, keyAuth: string, url: Url, hop: nat, o: Outcome)
  {
    if r.status in {301, 302, 303, 307, 308} then
      if hop == 10 then o == Failed(TooManyRedirects)
      else if r.location == "" then o == Failed(NoLocation)
      else LeadsNowhere(r.location, url) && o == Failed(BadLocation(FaultOf(r.location, url)))
    else if r.status != 200 then o == Failed(BadStatus(r.status))
    else o == if Carries(r.body, keyAuth) then Proved else Failed(Mismatch)
  }

  lemma CarriesMeans(body: string, keyAuth: string)
    ensures TrimEnd(body) == keyAuth <==> Carries(body, keyAuth)
  {
    hide TrimEnd;
    var t := TrimEnd(body);
    if Carries(body, keyAuth) {
      assert t == body[..|t|] && keyAuth == body[..|keyAuth|];
      InTail(body, |t|, |keyAuth| - 1);
      InTail(body, |keyAuth|, |t| - 1);
      assert |t| == |keyAuth|;
    }
  }

  lemma InTail(s: string, n: nat, i: int)
    requires n <= |s|
    ensures n <= i < |s| ==> s[i] in s[n..]
  {
    if n <= i < |s| { assert s[n..][i - n] == s[i]; }
  }

  // One hop of the walk.
  lemma HopExactly(net: Net, keyAuth: string, url: Url, hop: nat)
    requires hop <= 10
    ensures var w := Walk(net, keyAuth, url, hop).0;
            && (forall next | hop < 10 && Moves(net, url, hop, next) :: w == Walk(net, keyAuth, next, hop + 1).0)
            && (forall o :: Ends(net, keyAuth, url, hop, o) <==>
                              o == w && (hop == 10 || forall next :: !Moves(net, url, hop, next)))
  {
    hide Parse, Dialled, Heard, Targets, TrimEnd, Answers, Silent, Spells, Listed, Refused, Carries;
    HeardMeans(net, url, hop);
    var heard := Heard(net, url, hop);
    if heard.None? { NoMove(net, url, hop); return; }
    var r := heard.value;
    assert Answers(net, url, hop, r) && forall q | Answers(net, url, hop, q) :: q == r;
    assert Targets(net, url, hop) != [] by { HeardSome(net, url, hop); }
    CarriesMeans(r.body, keyAuth);
    ParsedAs(r.location, url);
    var p := Parse(r.location, Some(url));
    if p.Good? { assert Spells(r.location, Some(url), p.url); }
    MovesBy(net, url, hop, r);
  }

  lemma NoMove(net: Net, url: Url, hop: nat)
    requires Heard(net, url, hop).None?
    ensures forall next :: !Moves(net, url, hop, next)
  {
    hide Heard, Answers, Spells;
    HeardMeans(net, url, hop);
  }

  lemma HeardSome(net: Net, url: Url, hop: nat)
    requires Heard(net, url, hop).Some?
    ensures Targets(net, url, hop) != []
  {
  }

  lemma MovesBy(net: Net, url: Url, hop: nat, r: Response)
    requires Answers(net, url, hop, r) && forall q | Answers(net, url, hop, q) :: q == r
    ensures forall next :: Moves(net, url, hop, next) <==>
              r.status in {301, 302, 303, 307, 308} && r.location != "" && Spells(r.location, Some(url), next)
  {
    hide Answers, Spells;
  }

  lemma ParsedAs(loc: string, url: Url)
    ensures forall next :: Parse(loc, Some(url)) == Good(next) <==> Spells(loc, Some(url), next)
  {
    hide Parse, Spells;
    forall next ensures Parse(loc, Some(url)) == Good(next) <==> Spells(loc, Some(url), next) {
      ParsedExactly(loc, Some(url), next);
    }
  }

  // Where the fetch can get to within the limit.
  lemma {:induction false} RouteEnds(net: Net, keyAuth: string, urls: seq<Url>, hop: nat)
    requires Route(net, urls, hop)
    ensures Walk(net, keyAuth, urls[0], hop).0 == Walk(net, keyAuth, urls[|urls| - 1], hop + |urls| - 1).0
    decreases |urls|
  {
    hide Walk, Moves;
    if |urls| > 1 {
      HopExactly(net, keyAuth, urls[0], hop);
      assert Moves(net, urls[0], hop + 0, urls[1]);
      RouteLess(net, urls, hop);
      RouteEnds(net, keyAuth, urls[1..], hop + 1);
    }
  }

  lemma RouteLess(net: Net, urls: seq<Url>, hop: nat)
    requires Route(net, urls, hop) && |urls| > 1
    ensures Route(net, urls[1..], hop + 1)
  {
    hide Moves;
    var rest := urls[1..];
    forall i | 0 <= i < |rest| - 1 ensures Moves(net, rest[i], hop + 1 + i, rest[i + 1]) {
      assert Moves(net, urls[i + 1], hop + (i + 1), urls[i + 2]);
    }
  }

  lemma RouteMore(net: Net, url: Url, rest: seq<Url>, hop: nat)
    requires Route(net, rest, hop + 1) && Moves(net, url, hop, rest[0])
    ensures Route(net, [url] + rest, hop)
  {
    hide Moves;
    var urls := [url] + rest;
    forall i | 0 <= i < |urls| - 1 ensures Moves(net, urls[i], hop + i, urls[i + 1]) {
      if i > 0 { assert Moves(net, rest[i - 1], hop + 1 + (i - 1), rest[i]); }
    }
  }

  lemma {:induction false} RouteTaken(net: Net, keyAuth: string, url: Url, hop: nat) returns (urls: seq<Url>)
    requires hop <= 10
    ensures Route(net, urls, hop) && urls[0] == url
    ensures Ends(net, keyAuth, urls[|urls| - 1], hop + |urls| - 1, Walk(net, keyAuth, url, hop).0)
    decreases 10 - hop
  {
    hide Walk, Moves, Ends, Route;
    HopExactly(net, keyAuth, url, hop);
    if next :| hop < 10 && Moves(net, url, hop, next) {
      var rest := RouteTaken(net, keyAuth, next, hop + 1);
      urls := [url] + rest;
      RouteMore(net, url, rest, hop);
      assert urls[|urls| - 1] == rest[|rest| - 1] by { RouteThere(net, rest, hop + 1); }
    } else {
      urls := [url];
      RouteOne(net, url, hop);
    }
  }

  lemma RouteThere(net: Net, urls: seq<Url>, hop: nat)
    requires Route(net, urls, hop)
    ensures urls != []
  {
  }

  lemma RouteOne(net: Net, url: Url, hop: nat)
    requires hop <= 10
    ensures Route(net, [url], hop)
  {
  }

  lemma WalkExactly(net: Net, keyAuth: string, url: Url, o: Outcome)
    ensures Walk(net, keyAuth, url, 0).0 == o <==>
            exists urls :: Route(net, urls, 0) && urls[0] == url && Ends(net, keyAuth, urls[|urls| - 1], |urls| - 1, o)
  {
    hide Walk, Moves, Ends;
    if Walk(net, keyAuth, url, 0).0 == o {
      var urls := RouteTaken(net, keyAuth, url, 0);
      assert Ends(net, keyAuth, urls[|urls| - 1], 0 + |urls| - 1, o);
    }
    if urls :| Route(net, urls, 0) && urls[0] == url && Ends(net, keyAuth, urls[|urls| - 1], |urls| - 1, o) {
      RouteEnds(net, keyAuth, urls, 0);
      HopExactly(net, keyAuth, urls[|urls| - 1], |urls| - 1);
    }
  }

  // The fetch ends in a given way if and only if redirects lead, within eleven URLs, from the
  // challenge URL to one where it ends so.
  lemma FetchedExactly(net: Net, host: string, token: string, keyAuth: string, o: Outcome)
    ensures Walk(net, keyAuth, Challenge(host, token), 0).0 == o <==>
            exists urls :: && Route(net, urls, 0)
                           && urls[0] == Url("http", host, "/.well-known/acme-challenge/" + token, 80)
                           && Ends(net, keyAuth, urls[|urls| - 1], |urls| - 1, o)
  {
    hide Walk, Moves, Ends;
    assert Challenge(host, token) == Url("http", host, "/.well-known/acme-challenge/" + token, 80);
    WalkExactly(net, keyAuth, Challenge(host, token), o);
  }

  // ---- what is dialled -------------------------------------------------------

  ghost predicate Tries(net: Net, url: Url, hop: nat, a: Addr)
  {
    exists k: nat :: TriedIn(net, url, hop, Listed(net, url, hop), k) && Listed(net, url, hop)[k] == a
  }

  // At one URL: the addresses that may be dialled, in order, up to the first that answers.
  lemma DialledExactly(net: Net, url: Url, hop: nat, d: Dial)
    ensures d in Dialled(net, url, hop) <==> d.hop == hop && d.url == url && Tries(net, url, hop, d.addr)
  {
    hide FirstAnswer, Refused;
    var addrs, listed := Targets(net, url, hop), Listed(net, url, hop);
    var n := FirstAnswer(net, url, hop, addrs);
    if d in Dialled(net, url, hop) {
      var i: nat :| i < |Dialled(net, url, hop)| && Dialled(net, url, hop)[i] == d;
      assert d == Dial(hop, url, addrs[i]);
      var k := FirstListed(listed, addrs[i]);
      forall j | 0 <= j < k ensures Refused(listed[j]) || net.get(url, listed[j], hop).None? {
        if !Refused(listed[j]) { EarlierSilent(net, url, hop, i, k, j); }
      }
      assert TriedIn(net, url, hop, listed, k);
    }
    if d.hop == hop && d.url == url && Tries(net, url, hop, d.addr) {
      var k: nat :| TriedIn(net, url, hop, listed, k) && listed[k] == d.addr;
      TriedReached(net, url, hop, k);
    }
  }

  lemma FirstListed(listed: seq<Addr>, a: Addr) returns (k: nat)
    requires a in listed
    ensures k < |listed| && listed[k] == a && a !in listed[..k]
  {
    k := 0;
    while listed[k] != a
      invariant k < |listed| && a !in listed[..k] && a in listed[k..]
      decreases |listed| - k
    {
      assert listed[..k + 1] == listed[..k] + [listed[k]];
      assert listed[k..] == [listed[k]] + listed[k + 1..];
      k := k + 1;
    }
  }

  // A usable address listed before the first place of addrs[i] is addrs[h] for some h < i.
  lemma EarlierSilent(net: Net, url: Url, hop: nat, i: nat, k: nat, j: nat)
    requires var addrs, listed := Targets(net, url, hop), Listed(net, url, hop);
             && i < |addrs| && i <= FirstAnswer(net, url, hop, addrs)
             && k < |listed| && listed[k] == addrs[i] && addrs[i] !in listed[..k] && j < k && !Refused(listed[j])
    ensures net.get(url, Listed(net, url, hop)[j], hop).None?
  {
    hide FirstAnswer, Refused;
    var addrs, listed := Targets(net, url, hop), Listed(net, url, hop);
    assert listed[j] in addrs;
    var h: nat :| h < |addrs| && addrs[h] == listed[j];
    assert listed[..k][j] == listed[j];
    if h > i {
      var p := UsableInOrder(listed, i, h);
      ListedBefore(listed, k, j, p);
      assert false;
    }
  }

  // What is listed before the first place of an address comes with it in every longer prefix.
  lemma ListedBefore(listed: seq<Addr>, k: nat, j: nat, p: nat)
    requires j < k < |listed| && p <= |listed| && listed[k] !in listed[..k]
    ensures listed[k] in listed[..p] ==> listed[j] in listed[..p]
  {
    if listed[k] in listed[..p] {
      NotAmong(listed, k, listed[k]);
      var q :| 0 <= q < p && listed[..p][q] == listed[k];
      assert k <= q;
      assert listed[..p][j] == listed[j];
    }
  }

  lemma EarlierPlace(listed: seq<Addr>, k: nat, p: nat, x: Addr) returns (q: nat)
    requires k < |listed| && p <= |listed| && listed[k] !in listed[..p] && x in listed[..p]
    ensures q < k && listed[q] == x
  {
    NotAmong(listed, p, listed[k]);
    q :| 0 <= q < p && listed[..p][q] == x;
  }

  lemma NotAmong(listed: seq<Addr>, n: nat, x: Addr)
    requires n <= |listed| && x !in listed[..n]
    ensures forall q | 0 <= q < n :: listed[q] != x
  {
    forall q | 0 <= q < n ensures listed[q] != x { assert listed[..n][q] == listed[q]; }
  }

  lemma TriedReached(net: Net, url: Url, hop: nat, k: nat)
    requires TriedIn(net, url, hop, Listed(net, url, hop), k)
    ensures Dial(hop, url, Listed(net, url, hop)[k]) in Dialled(net, url, hop)
  {
    hide FirstAnswer, Refused;
    var addrs, listed := Targets(net, url, hop), Listed(net, url, hop);
    var n, a := FirstAnswer(net, url, hop, addrs), listed[k];
    assert a in addrs;
    var i: nat :| i < |addrs| && addrs[i] == a;
    if n < i {
      var p := UsableInOrder(listed, n, i);
      var q := EarlierPlace(listed, k, p, addrs[n]);
      assert false;
    }
    assert Dialled(net, url, hop)[i] == Dial(hop, url, a);
  }

  // Everything the fetch connects to, and nothing else.
  lemma {:induction false} DialsExactly(net: Net, keyAuth: string, url: Url, hop: nat, d: Dial)
    requires hop <= 10
    ensures d in Walk(net, keyAuth, url, hop).1 <==>
            exists urls :: && Route(net, urls, hop) && urls[0] == url && urls[|urls| - 1] == d.url
                           && d.hop == hop + |urls| - 1 && Tries(net, d.url, d.hop, d.addr)
    decreases 10 - hop
  {
    hide Walk, Moves, Tries, Dialled;
    WalkDials(net, keyAuth, url, hop, d);
    if d in Walk(net, keyAuth, url, hop).1 {
      if d in Dialled(net, url, hop) {
        DialledExactly(net, url, hop, d);
        RouteOne(net, url, hop);
        assert [url][|[url]| - 1] == url;
      } else {
        var next :| hop < 10 && Moves(net, url, hop, next) && d in Walk(net, keyAuth, next, hop + 1).1;
        DialsExactly(net, keyAuth, next, hop + 1, d);
        var rest :| && Route(net, rest, hop + 1) && rest[0] == next && rest[|rest| - 1] == d.url
                    && d.hop == hop + 1 + |rest| - 1 && Tries(net, d.url, d.hop, d.addr);
        RouteMore(net, url, rest, hop);
        RouteThere(net, rest, hop + 1);
        assert ([url] + rest)[|[url] + rest| - 1] == d.url;
      }
    }
    if urls :| && Route(net, urls, hop) && urls[0] == url && urls[|urls| - 1] == d.url
               && d.hop == hop + |urls| - 1 && Tries(net, d.url, d.hop, d.addr) {
      RouteDials(net, keyAuth, urls, hop, d);
    }
  }

  lemma WalkDials(net: Net, keyAuth: string, url: Url, hop: nat, d: Dial)
    requires hop <= 10
    ensures d in Walk(net, keyAuth, url, hop).1 <==>
              || d in Dialled(net, url, hop)
              || exists next :: hop < 10 && Moves(net, url, hop, next) && d in Walk(net, keyAuth, next, hop + 1).1
  {
    hide Parse, Dialled, Heard, Targets, TrimEnd, Answers, Silent, Spells, Listed, Refused;
    HeardMeans(net, url, hop);
    var heard := Heard(net, url, hop);
    if heard.None? { NoMove(net, url, hop); return; }
    var r := heard.value;
    assert Answers(net, url, hop, r) && forall q | Answers(net, url, hop, q) :: q == r;
    HeardSome(net, url, hop);
    ParsedAs(r.location, url);
    MovesBy(net, url, hop, r);
    var p := Parse(r.location, Some(url));
    if p.Good? { assert Spells(r.location, Some(url), p.url); }
  }

  lemma {:induction false} RouteDials(net: Net, keyAuth: string, urls: seq<Url>, hop: nat, d: Dial)
    requires Route(net, urls, hop) && urls[|urls| - 1] == d.url
    requires d.hop == hop + |urls| - 1 && Tries(net, d.url, d.hop, d.addr)
    ensures d in Walk(net, keyAuth, urls[0], hop).1
    decreases |urls|
  {
    hide Walk, Moves, Tries, Dialled;
    WalkDials(net, keyAuth, urls[0], hop, d);
    if |urls| == 1 {
      DialledExactly(net, d.url, hop, d);
    } else {
      assert Moves(net, urls[0], hop + 0, urls[1]);
      RouteLess(net, urls, hop);
      RouteDials(net, keyAuth, urls[1..], hop + 1, d);
    }
  }
}
