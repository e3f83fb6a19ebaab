/** What one ACME event does to authorizations, challenges and the verifiers at work on them. */
module AcmeAuthzRules {
  import opened Text
  import opened Names
  import opened Acme
  import opened AcmeFrames
  import opened AcmeRules
  import opened AcmeOrderRules

  // ---- what is placed for an identifier --------------------------------------

  ghost predicate Wild(v: Name) { |v| >= 2 && v[0] == 42 && v[1] == 46 }

  // A new authorization: open, for the bare name, flagged when it was a wildcard.
  ghost function NewRow(ident: Ident, order: Option<nat>, account: nat, d: Draw): Authz
  {
    Authz(Open, ident.(value := if Wild(ident.value) then ident.value[2..] else ident.value), Wild(ident.value), order,
          account, d.expires)
  }

  // A valid authorization of the account for exactly this identifier that has not run out.
  ghost predicate Original(authzs: map<nat, Authz>, account: nat, ident: Ident, d: Draw, r: nat)
  {
    && r in authzs && authzs[r].account == account && authzs[r].ident == ident
    && authzs[r].status == Proven && authzs[r].expires > d.now
  }

  // The row placed for one identifier of an order: a copy of such an original, or a new one.
  ghost predicate PlacedRow(authzs: map<nat, Authz>, order: nat, account: nat, ident: Ident, d: Draw, row: Authz)
  {
    if d.reuse.None? then row == NewRow(ident, Some(order), account, d)
    else exists r :: Original(authzs, account, ident, d, r) && row == authzs[r].(order := Some(order))
  }

  // The challenges offered for a new authorization: attestation for a device, dns-01 for a
  // wildcard, all three for any other name.
  ghost function Offered(ident: Ident, d: Draw): map<nat, ChallengeType>
  {
    if ident.kind == Device then map[d.attest := DeviceAttest01]
    else if Wild(ident.value) then map[d.dns := Dns01]
    else map[d.http := Http01, d.tls := TlsAlpn01, d.dns := Dns01]
  }

  lemma MadeRows(s: State, order: Option<nat>, account: nat, ident: Ident, d: Draw)
    requires d.http != d.tls && d.http != d.dns && d.tls != d.dns
    ensures var n := MakeAuthz(s, order, account, ident, d);
            && n.authzs == s.authzs[d.authz := NewRow(ident, order, account, d)]
            && (forall c :: c in n.challs <==> c in s.challs || c in Offered(ident, d))
            && (forall c | c in n.challs ::
                  n.challs[c] == if c in Offered(ident, d) then Challenge(Offered(ident, d)[c], Untried, d.authz)
                                 else s.challs[c])
  {
  }

  // ---- an order on names -----------------------------------------------------

  // The authorizations after placing rows for these identifiers.
  ghost predicate RowsPlaced(xs: map<nat, Authz>, order: nat, account: nat, idents: seq<Ident>, ds: seq<Draw>,
                             ys: map<nat, Authz>)
    requires |ds| == |idents|
  {
    && (forall a | a in xs :: a in ys && ys[a] == xs[a])
    && (forall a | a in ys && a !in xs :: exists i :: 0 <= i < |ds| && a == ds[i].authz)
    && (forall i | 0 <= i < |ds| ::
          && ds[i].authz !in xs && ds[i].authz in ys
          && PlacedRow(xs, order, account, idents[i], ds[i], ys[ds[i].authz]))
  }

  lemma PlaceOneRow(xs: map<nat, Authz>, n: State, order: nat, account: nat, idents: seq<Ident>, ds: seq<Draw>,
                    ident: Ident, d: Draw)
    requires |ds| == |idents| && RowsPlaced(xs, order, account, idents, ds, n.authzs)
    requires FreshDraw(n, d) && ReuseFound(n, account, ident, d)
    ensures var m := PlaceAuthz(n, order, account, ident, d);
            && d.authz !in n.authzs && d.authz in m.authzs && m.authzs == n.authzs[d.authz := m.authzs[d.authz]]
            && PlacedRow(xs, order, account, ident, d, m.authzs[d.authz])
  {
    hide Offer, IsWild, Base;
    if d.reuse.Some? {
      var r := FirstOriginal(xs, n, order, account, idents, ds, ident, d);
    } else {
      BareRow(ident, Some(order), account, d);
    }
  }

  lemma BareRow(ident: Ident, order: Option<nat>, account: nat, d: Draw)
    ensures Authz(Open, BareIdent(ident), IsWild(ident.value), order, account, d.expires) ==
            NewRow(ident, order, account, d)
  {
  }

  // A copy placed moments ago goes back to an original that was there before.
  lemma FirstOriginal(xs: map<nat, Authz>, n: State, order: nat, account: nat, idents: seq<Ident>, ds: seq<Draw>,
                      ident: Ident, d: Draw) returns (r: nat)
    requires |ds| == |idents| && RowsPlaced(xs, order, account, idents, ds, n.authzs)
    requires d.reuse.Some? && ReuseFound(n, account, ident, d)
    ensures Original(xs, account, ident, d, r)
    ensures n.authzs[d.reuse.value].(order := Some(order), account := account, status := Proven) ==
            xs[r].(order := Some(order))
  {
    var u := d.reuse.value;
    if u in xs {
      r := u;
    } else {
      var i :| 0 <= i < |ds| && u == ds[i].authz;
      assert PlacedRow(xs, order, account, idents[i], ds[i], n.authzs[u]);
      assert ds[i].reuse.Some?;
      r :| Original(xs, account, idents[i], ds[i], r) && n.authzs[u] == xs[r].(order := Some(order));
    }
  }

  lemma {:induction false} PlacedRows(s: State, order: nat, account: nat, idents: seq<Ident>, ds: seq<Draw>)
    requires LegalDraws(s, order, account, idents, ds)
    ensures RowsPlaced(s.authzs, order, account, idents, ds, PlaceAuthzs(s, order, account, idents, ds).authzs)
  {
    hide PlaceAuthz, FreshDraw, ReuseFound, PlacedRow;
    if idents != [] {
      var k := |idents| - 1;
      PlacedRows(s, order, account, idents[..k], ds[..k]);
      var n := PlaceAuthzs(s, order, account, idents[..k], ds[..k]);
      PlaceOneRow(s.authzs, n, order, account, idents[..k], ds[..k], idents[k], ds[k]);
      var m := PlaceAuthz(n, order, account, idents[k], ds[k]);
      OneRowMore(s.authzs, order, account, idents, ds, n.authzs, m.authzs);
    }
  }

  lemma OneRowMore(xs: map<nat, Authz>, order: nat, account: nat, idents: seq<Ident>, ds: seq<Draw>,
                   ys: map<nat, Authz>, zs: map<nat, Authz>)
    requires |ds| == |idents| > 0
    requires var k := |ds| - 1;
             && RowsPlaced(xs, order, account, idents[..k], ds[..k], ys)
             && ds[k].authz !in ys && ds[k].authz in zs && zs == ys[ds[k].authz := zs[ds[k].authz]]
             && PlacedRow(xs, order, account, idents[k], ds[k], zs[ds[k].authz])
    ensures RowsPlaced(xs, order, account, idents, ds, zs)
  {
    hide PlacedRow;
    var k := |ds| - 1;
    forall i | 0 <= i < |ds|
      ensures ds[i].authz !in xs && ds[i].authz in zs
      ensures PlacedRow(xs, order, account, idents[i], ds[i], zs[ds[i].authz])
    {
      if i < k { assert ds[..k][i] == ds[i] && idents[..k][i] == idents[i]; }
    }
    forall a | a in zs && a !in xs ensures exists i :: 0 <= i < |ds| && a == ds[i].authz {
      if a != ds[k].authz {
        var i :| 0 <= i < k && a == ds[..k][i].authz;
        assert a == ds[i].authz;
      }
    }
  }

  // The challenges: nothing changes but what is offered for identifiers that were not reused.
  ghost predicate OffersPlaced(xs: map<nat, Challenge>, idents: seq<Ident>, ds: seq<Draw>, ys: map<nat, Challenge>)
    requires |ds| == |idents|
  {
    && (forall c | c in xs :: c in ys && ys[c] == xs[c])
    && (forall c | c in ys && c !in xs :: exists i :: 0 <= i < |ds| && OfferedFor(idents[i], ds[i], c))
    && (forall i, c | 0 <= i < |ds| && OfferedFor(idents[i], ds[i], c) ::
          && c !in xs && c in ys && ys[c] == Challenge(Offered(idents[i], ds[i])[c], Untried, ds[i].authz))
  }

  ghost predicate OfferedFor(ident: Ident, d: Draw, c: nat) { d.reuse.None? && c in Offered(ident, d) }

  lemma {:induction false} PlacedOffers(s: State, order: nat, account: nat, idents: seq<Ident>, ds: seq<Draw>)
    requires LegalDraws(s, order, account, idents, ds)
    ensures OffersPlaced(s.challs, idents, ds, PlaceAuthzs(s, order, account, idents, ds).challs)
  {
    hide PlaceAuthz, FreshDraw, ReuseFound, Offered;
    if idents != [] {
      var k := |idents| - 1;
      PlacedOffers(s, order, account, idents[..k], ds[..k]);
      var n := PlaceAuthzs(s, order, account, idents[..k], ds[..k]);
      OneOffer(n, order, account, idents[k], ds[k]);
      OneOfferMore(s.challs, idents, ds, n.challs, PlaceAuthz(n, order, account, idents[k], ds[k]).challs);
    }
  }

  // What one identifier adds.
  ghost predicate OffersOne(xs: map<nat, Challenge>, ident: Ident, d: Draw, ys: map<nat, Challenge>)
  {
    if d.reuse.Some? then ys == xs
    else
      && (forall c | c in Offered(ident, d) :: c !in xs)
      && (forall c :: c in ys <==> c in xs || c in Offered(ident, d))
      && (forall c | c in ys ::
            ys[c] == if c in Offered(ident, d) then Challenge(Offered(ident, d)[c], Untried, d.authz) else xs[c])
  }

  lemma OneOffer(s: State, order: nat, account: nat, ident: Ident, d: Draw)
    requires FreshDraw(s, d) && ReuseFound(s, account, ident, d)
    ensures OffersOne(s.challs, ident, d, PlaceAuthz(s, order, account, ident, d).challs)
  {
    hide MakeAuthz, Offered;
    if d.reuse.None? {
      MadeRows(s, Some(order), account, ident, d);
      FreshOffers(s, ident, d);
      assert PlaceAuthz(s, order, account, ident, d) == MakeAuthz(s, Some(order), account, ident, d);
    }
  }

  lemma FreshOffers(s: State, ident: Ident, d: Draw)
    requires FreshDraw(s, d)
    ensures forall c | c in Offered(ident, d) :: c !in s.challs
  {
    forall c | c in Offered(ident, d) ensures c !in s.challs { assert c in {d.http, d.tls, d.dns, d.attest}; }
  }

  lemma OneOfferMore(xs: map<nat, Challenge>, idents: seq<Ident>, ds: seq<Draw>, ys: map<nat, Challenge>,
                     zs: map<nat, Challenge>)
    requires |ds| == |idents| > 0
    requires var k := |ds| - 1;
             OffersPlaced(xs, idents[..k], ds[..k], ys) && OffersOne(ys, idents[k], ds[k], zs)
    ensures OffersPlaced(xs, idents, ds, zs)
  {
    hide Offered;
    var k := |ds| - 1;
    OneKept(ys, idents[k], ds[k], zs);
    forall c | c in zs && c !in xs ensures exists i :: 0 <= i < |ds| && OfferedFor(idents[i], ds[i], c) {
      if c in ys {
        var i :| 0 <= i < k && OfferedFor(idents[..k][i], ds[..k][i], c);
        assert OfferedFor(idents[i], ds[i], c);
      } else {
        assert OfferedFor(idents[k], ds[k], c);
      }
    }
    forall i, c | 0 <= i < |ds| && OfferedFor(idents[i], ds[i], c)
      ensures c !in xs && c in zs && zs[c] == Challenge(Offered(idents[i], ds[i])[c], Untried, ds[i].authz)
    {
      if i < k { assert OfferedFor(idents[..k][i], ds[..k][i], c); }
    }
  }

  lemma OneKept(xs: map<nat, Challenge>, ident: Ident, d: Draw, ys: map<nat, Challenge>)
    requires OffersOne(xs, ident, d, ys)
    ensures forall c | c in xs :: c in ys && ys[c] == xs[c]
    ensures forall c | c in ys && c !in xs :: OfferedFor(ident, d, c)
  {
    hide Offered;
  }

  // ---- every authorization, at every event -----------------------------------

  ghost predicate OrdersNames(s: State, e: Event)
  {
    Asks(s, e) && WantsNames(s, Sender(e), e.body)
  }

  ghost predicate OrdersDevice(s: State, e: Event)
  {
    Asks(s, e) && WantsDevice(s, e.body)
  }

  ghost predicate PreAuthorizes(s: State, e: Event)
  {
    Asks(s, e) && e.body.NewAuthz? && e.body.ident.kind == DnsName && e.body.ident.value != []
  }

  ghost predicate Deactivates(s: State, e: Event, a: nat)
  {
    && Asks(s, e) && e.body.UpdateAuthz? && e.body.target == a && e.body.deactivate
    && a in s.authzs && s.authzs[a].account == Sender(e)
  }

  ghost predicate DeviceProved(s: State, e: Event, a: nat)
  {
    Asks(s, e) && DeviceProves(s, Sender(e), e.body) && s.challs[e.body.target].authz == a
  }

  ghost predicate NameProved(s: State, e: Event, a: nat) { VerifierProves(s, e) && s.running[e.job].authz == a }

  ghost predicate SameAuthzRow(s: State, n: State, a: nat)
  {
    (a in n.authzs <==> a in s.authzs) && (a in s.authzs ==> n.authzs[a] == s.authzs[a])
  }

  // Placed for an order or ahead of one, deactivated by its owner, proved by its device or by a
  // verifier, which writes back the row it read; nothing else ever touches it.
  lemma AuthzRule(s: State, e: Event, a: nat)
    requires Legal(s, e)
    ensures var n := Step(s, e);
            if OrdersNames(s, e) then
              RowsPlaced(s.authzs, e.body.id, Sender(e), e.body.idents, e.body.draws, n.authzs)
            else if OrdersDevice(s, e) && e.body.draws[0].authz == a then
              a in n.authzs && n.authzs[a] == NewRow(e.body.idents[0], Some(e.body.id), Sender(e), e.body.draws[0])
            else if PreAuthorizes(s, e) && e.body.draw.authz == a then
              a in n.authzs && n.authzs[a] == NewRow(e.body.ident, None, Sender(e), e.body.draw)
            else if Deactivates(s, e, a) then a in n.authzs && n.authzs[a] == s.authzs[a].(status := Deactivated)
            else if DeviceProved(s, e, a) then a in n.authzs && n.authzs[a] == s.authzs[a].(status := Proven)
            else if NameProved(s, e, a) then a in n.authzs && n.authzs[a] == s.running[e.job].a.(status := Proven)
            else SameAuthzRow(s, n, a)
  {
    hide Step, Legal, WantsNames, WantsDevice, DeviceProves, VerifierProves, RowsPlaced, NewRow;
    if Asks(s, e) && e.body.NewOrder? {
      AuthzsOrdered(s, e);
    } else if Asks(s, e) && e.body.NewAuthz? {
      AuthzsPrepared(s, e);
    } else if Asks(s, e) && e.body.UpdateAuthz? {
      AuthzsUpdated(s, e);
    } else if Asks(s, e) && e.body.PostChallenge? {
      AuthzsAttested(s, e);
    } else if e.VerifierFinishes? {
      AuthzsVerified(s, e);
    } else {
      OthersKeepAuthzs(s, e);
    }
    EventKinds(s, e);
  }

  lemma EventKinds(s: State, e: Event)
    ensures e.Post? && !e.body.NewOrder? ==> !WantsNames(s, Sender(e), e.body) && !WantsDevice(s, e.body)
    ensures e.Post? && !e.body.PostChallenge? ==> !DeviceProves(s, Sender(e), e.body)
    ensures !e.VerifierFinishes? ==> !VerifierProves(s, e)
  {
  }

  lemma AuthzsOrdered(s: State, e: Event)
    requires Asks(s, e) && e.body.NewOrder? && Legal(s, e)
    ensures var n, b := Step(s, e), e.body;
            if WantsNames(s, Sender(e), b) then
              && |b.draws| == |b.idents| && RowsPlaced(s.authzs, b.id, Sender(e), b.idents, b.draws, n.authzs)
              && OffersPlaced(s.challs, b.idents, b.draws, n.challs)
            else if WantsDevice(s, b) then
              && |b.draws| == |b.idents| == 1
              && n.authzs == s.authzs[b.draws[0].authz := NewRow(b.idents[0], Some(b.id), Sender(e), b.draws[0])]
              && OffersOne(s.challs, b.idents[0], b.draws[0].(reuse := None), n.challs)
            else n.authzs == s.authzs && n.challs == s.challs
  {
    hide Step, Legal, PlaceOrder, PlaceDnsOrder, PlaceDeviceOrder, LegalBody, RowsPlaced, OffersPlaced, OffersOne,
         NewRow;
    var m, a, b := Consumed(s, e.nonce), e.form.account, e.body;
    AsksOrder(s, e);
    LegalPost(s, e);
    PlacedBy(m, a, b);
    if WantsNames(m, a, b) { DnsRows(m, a, b); }
    else if WantsDevice(m, b) { DeviceRows(m, a, b, Claimed(m, b)); }
  }

  lemma DnsRows(s: State, account: nat, b: Body)
    requires b.NewOrder? && LegalBody(s, Kid(account), b)
    ensures var n := PlaceDnsOrder(s, account, b);
            && RowsPlaced(s.authzs, b.id, account, b.idents, b.draws, n.authzs)
            && OffersPlaced(s.challs, b.idents, b.draws, n.challs)
  {
    hide PlaceAuthzs, LegalDraws, FreshDraw, RowsPlaced, OffersPlaced;
    var o := Order(Pending, b.idents, account, b.ca, "");
    var begun := s.(orders := s.orders[b.id := o]);
    PlacedRows(begun, b.id, account, b.idents, b.draws);
    PlacedOffers(begun, b.id, account, b.idents, b.draws);
    if AllReused(b.draws) { return; }
  }

  lemma DeviceRows(s: State, account: nat, b: Body, tickets: map<Name, Ticket>)
    requires b.NewOrder? && |b.idents| == |b.draws| == 1 && LegalBody(s, Kid(account), b)
    ensures var n := PlaceDeviceOrder(s, account, b, tickets);
            && n.authzs == s.authzs[b.draws[0].authz := NewRow(b.idents[0], Some(b.id), account, b.draws[0])]
            && OffersOne(s.challs, b.idents[0], b.draws[0].(reuse := None), n.challs)
  {
    hide MakeAuthz, LegalDraws, NewRow, Offered;
    var ident, d := b.idents[0], b.draws[0];
    assert d in b.draws;
    var begun := s.(tickets := tickets, orders := s.orders[b.id := Order(Pending, b.idents, account, b.ca, "")]);
    MadeRows(begun, Some(b.id), account, ident, d);
    FreshOffers(begun, ident, d);
    SameOffer(ident, d);
  }

  lemma SameOffer(ident: Ident, d: Draw)
    ensures Offered(ident, d.(reuse := None)) == Offered(ident, d)
  {
  }

  lemma AuthzsPrepared(s: State, e: Event)
    requires Asks(s, e) && e.body.NewAuthz? && Legal(s, e)
    ensures var n, b := Step(s, e), e.body;
            if PreAuthorizes(s, e) then
              && n.authzs == s.authzs[b.draw.authz := NewRow(b.ident, None, Sender(e), b.draw)]
              && OffersOne(s.challs, b.ident, b.draw.(reuse := None), n.challs)
            else n.authzs == s.authzs && n.challs == s.challs
  {
    hide Step, Legal, MakeAuthz, NewRow, Offered;
    var m, b := Consumed(s, e.nonce), e.body;
    AsksAuthz(s, e);
    LegalPost(s, e);
    MadeRows(m, None, e.form.account, b.ident, b.draw);
    FreshOffers(m, b.ident, b.draw);
    SameOffer(b.ident, b.draw);
  }

  lemma AuthzsUpdated(s: State, e: Event)
    requires Asks(s, e) && e.body.UpdateAuthz?
    ensures var n, a := Step(s, e), e.body.target;
            && n.authzs == (if Deactivates(s, e, a) then s.authzs[a := s.authzs[a].(status := Deactivated)]
                            else s.authzs)
            && n.challs == s.challs
  {
    hide Step;
    AsksAuthzUpdate(s, e);
  }

  lemma AuthzsAttested(s: State, e: Event)
    requires Asks(s, e) && e.body.PostChallenge?
    ensures var n, b := Step(s, e), e.body;
            if DeviceProves(s, Sender(e), b) then
              && b.target in s.challs && s.challs[b.target].authz in s.authzs
              && var c := s.challs[b.target];
                 && n.authzs == s.authzs[c.authz := s.authzs[c.authz].(status := Proven)]
                 && n.challs == s.challs[b.target := c.(status := Passed)] && n.waiting == s.waiting
            else n.authzs == s.authzs
  {
    hide Step, Trigger;
    var m, a, b := Consumed(s, e.nonce), e.form.account, e.body;
    AsksChallenge(s, e);
    AttestedBy(m, a, b);
    if b.target in m.challs && m.challs[b.target].typ != DeviceAttest01 { NamesTriggered(m, a, b); }
    if DeviceProves(m, a, b) {
      var c := m.challs[b.target];
      AcceptedRows(m, b, c, m.authzs[c.authz], m.tickets[b.held.value]);
    }
  }

  lemma AcceptedRows(s: State, b: Body, c: Challenge, a: Authz, t: Ticket)
    requires b.PostChallenge? && b.verdict.Attested? && b.held.Some? && a.order.Some? && a.order.value in s.orders
    ensures var n := AcceptAttestation(s, b, c, a, t);
            && n.authzs == s.authzs[c.authz := a.(status := Proven)]
            && n.challs == s.challs[b.target := c.(status := Passed)] && n.waiting == s.waiting
  {
    hide AllProven;
    if AllProven(s.authzs[c.authz := a.(status := Proven)], a.order.value) { return; }
  }

  lemma AuthzsVerified(s: State, e: Event)
    requires e.VerifierFinishes?
    ensures var n := Step(s, e);
            if VerifierProves(s, e) then
              var sn := s.running[e.job];
              && n.authzs == s.authzs[sn.authz := sn.a.(status := Proven)]
              && n.challs == OnlyPassed(s.challs[sn.chall := sn.c.(status := Passed)], sn.authz, sn.chall)
              && n.proofs == s.proofs + {Proof(sn.account, sn.a.ident.value, sn.c.typ)}
            else
              && n.authzs == s.authzs && n.proofs == s.proofs
              && n.challs == if e.job in s.running
                             then s.challs[s.running[e.job].chall := s.running[e.job].c.(status := Failed)]
                             else s.challs
  {
    hide FinishVerifier, WriteBack, OnlyPassed, Step;
    FinishIs(s, e);
    VerifiedBy(s, e);
    if VerifierProves(s, e) { WrittenRows(s.(running := s.running - {e.job}), s.running[e.job]); }
  }

  lemma FinishIs(s: State, e: Event)
    requires e.VerifierFinishes?
    ensures Step(s, e) == FinishVerifier(s, e.job, e.ok)
  {
  }

  lemma WrittenRows(s: State, sn: Snapshot)
    ensures var n := WriteBack(s, sn);
            && n.authzs == s.authzs[sn.authz := sn.a.(status := Proven)]
            && n.challs == OnlyPassed(s.challs[sn.chall := sn.c.(status := Passed)], sn.authz, sn.chall)
            && n.proofs == s.proofs + {Proof(sn.account, sn.a.ident.value, sn.c.typ)}
  {
    hide AllProven, OnlyPassed, MakeReady;
    var n := s.(challs := OnlyPassed(s.challs[sn.chall := sn.c.(status := Passed)], sn.authz, sn.chall),
                authzs := s.authzs[sn.authz := sn.a.(status := Proven)],
                proofs := s.proofs + {Proof(sn.account, sn.a.ident.value, sn.c.typ)});
    if sn.order.Some? && sn.a.order.Some? { ReadyFrame(n, sn.a.order.value, sn.order.value); }
  }

  lemma OthersKeepAuthzs(s: State, e: Event)
    requires !(Asks(s, e) && (e.body.NewOrder? || e.body.NewAuthz? || e.body.UpdateAuthz? || e.body.PostChallenge?))
    requires !e.VerifierFinishes?
    ensures Step(s, e).authzs == s.authzs && Step(s, e).challs == s.challs
  {
    hide Answer, StartVerifier, RevokeRow, ReleaseRow;
    if e.Post? {
      PostKeepsAuthzs(s, e);
    } else if e.VerifierStarts? {
      StartFrame(s, e.chall, e.job);
    }
  }

  lemma PostKeepsAuthzs(s: State, e: Event)
    requires e.Post?
    requires !(Asks(s, e) && (e.body.NewOrder? || e.body.NewAuthz? || e.body.UpdateAuthz? || e.body.PostChallenge?))
    ensures Answer(s, e).authzs == s.authzs && Answer(s, e).challs == s.challs
  {
    hide Handled, Answer;
    AnswerRows(s, e);
    if e.nonce in s.nonces { HandledKeepsAuthzs(Consumed(s, e.nonce), e.signer, e.form, e.body); }
  }

  lemma HandledKeepsAuthzs(s: State, signer: string, form: Form, b: Body)
    requires !(form.Kid? && SignedBy(s, signer, form, form.account) &&
               (b.NewOrder? || b.NewAuthz? || b.UpdateAuthz? || b.PostChallenge?))
    ensures var n := Handled(s, signer, form, b); n.authzs == s.authzs && n.challs == s.challs
  {
    hide CreateAccount, DeactivateAccount, ChangeKey, PlaceOrder, PreAuthorize, DeactivateAuthz, Trigger,
         FinalizeOrder, RevokeByHolder;
    if form.Kid? && !SignedBy(s, signer, form, form.account) { return; }
    if b.RevokeCert? { RevokeFrame(s, signer, form, b); return; }
    if form.Jwk? {
      if b.NewAccount? { CreateFrame(s, signer, b); }
      return;
    }
    match b
    case NewAccount(_, _, _, _) =>
    case UpdateAccount(_, _) => DeactivateFrame(s, form.account, b);
    case KeyChange(_, _) => KeyFrame(s, form.account, b);
    case Finalize(_, _, _, _, _, _, _, _) => FinalizeFrame(s, form.account, b);
  }

  // ---- every challenge -------------------------------------------------------

  // The owner of a name's authorization has its untried challenge checked.
  ghost predicate Tries(s: State, e: Event, c: nat)
  {
    && Asks(s, e) && e.body.PostChallenge? && e.body.target == c && c in s.challs
    && s.challs[c].typ != DeviceAttest01 && s.challs[c].status == Untried && s.challs[c].authz in s.authzs
    && var a := s.authzs[s.challs[c].authz];
       if a.order.Some? then a.order.value in s.orders && s.orders[a.order.value].account == Sender(e)
       else a.account == Sender(e)
  }

  ghost predicate SameChallenge(s: State, n: State, c: nat)
  {
    (c in n.challs <==> c in s.challs) && (c in s.challs ==> n.challs[c] == s.challs[c])
  }

  // What becomes of a challenge when a verifier comes back: its own row is decided, and a
  // success removes the other challenges of the authorization.
  ghost predicate Decided(s: State, e: Event, n: State, c: nat)
    requires e.VerifierFinishes? && e.job in s.running
  {
    var sn := s.running[e.job];
    if c == sn.chall then
      c in n.challs && n.challs[c] == sn.c.(status := if VerifierProves(s, e) then Passed else Failed)
    else if VerifierProves(s, e) && c in s.challs && s.challs[c].authz == sn.authz then c !in n.challs
    else SameChallenge(s, n, c)
  }

  lemma ChallengeRule(s: State, e: Event, c: nat)
    requires Legal(s, e)
    ensures var n := Step(s, e);
            if OrdersNames(s, e) then OffersPlaced(s.challs, e.body.idents, e.body.draws, n.challs)
            else if OrdersDevice(s, e) then
              OffersOne(s.challs, e.body.idents[0], e.body.draws[0].(reuse := None), n.challs)
            else if PreAuthorizes(s, e) then OffersOne(s.challs, e.body.ident, e.body.draw.(reuse := None), n.challs)
            else if Tries(s, e, c) then c in n.challs && n.challs[c] == s.challs[c].(status := Processing)
            else if Asks(s, e) && AnswersDevice(s, Sender(e), e.body) && e.body.target == c then
              c in n.challs &&
              n.challs[c] == s.challs[c].(status := if DeviceProves(s, Sender(e), e.body) then Passed else Failed)
            else if e.VerifierFinishes? && e.job in s.running then Decided(s, e, n, c)
            else SameChallenge(s, n, c)
  {
    hide Step, Legal, WantsNames, WantsDevice, DeviceProves, AnswersDevice, VerifierProves, RowsPlaced, OffersPlaced,
         OffersOne, NewRow, OnlyPassed;
    EventKinds(s, e);
    AnswerKinds(s, e);
    if Asks(s, e) && e.body.NewOrder? {
      AuthzsOrdered(s, e);
    } else if Asks(s, e) && e.body.NewAuthz? {
      AuthzsPrepared(s, e);
    } else if Asks(s, e) && e.body.UpdateAuthz? {
      AuthzsUpdated(s, e);
    } else if Asks(s, e) && e.body.PostChallenge? {
      ChallengesTried(s, e);
    } else if e.VerifierFinishes? {
      AuthzsVerified(s, e);
      if VerifierProves(s, e) { OnlyPassedRow(s.challs, s.running[e.job], c); }
    } else {
      OthersKeepAuthzs(s, e);
    }
  }

  lemma AnswerKinds(s: State, e: Event)
    ensures e.Post? && !e.body.PostChallenge? ==> !AnswersDevice(s, Sender(e), e.body)
    ensures e.VerifierFinishes? && VerifierProves(s, e) ==> e.job in s.running
  {
  }

  lemma OnlyPassedRow(challs: map<nat, Challenge>, sn: Snapshot, c: nat)
    ensures var n := OnlyPassed(challs[sn.chall := sn.c.(status := Passed)], sn.authz, sn.chall);
            if c == sn.chall then c in n && n[c] == sn.c.(status := Passed)
            else if c in challs && challs[c].authz == sn.authz then c !in n
            else (c in n <==> c in challs) && (c in challs ==> n[c] == challs[c])
  {
  }

  lemma ChallengesTried(s: State, e: Event)
    requires Asks(s, e) && e.body.PostChallenge?
    ensures var n, c := Step(s, e), e.body.target;
            && n.challs == (if Tries(s, e, c) then s.challs[c := s.challs[c].(status := Processing)]
                            else if AnswersDevice(s, Sender(e), e.body) then
                              s.challs[c := s.challs[c].(status := if DeviceProves(s, Sender(e), e.body) then Passed
                                                                   else Failed)]
                            else s.challs)
            && n.waiting == s.waiting + (if Tries(s, e, c) then {c} else {})
  {
    hide Step, DeviceProves, Attest;
    var m, a, b := Consumed(s, e.nonce), e.form.account, e.body;
    AsksChallenge(s, e);
    SameAnswers(s, e);
    AttestedBy(m, a, b);
    if DeviceProves(m, a, b) {
      ProvesAnswers(m, a, b);
      var c := m.challs[b.target];
      AcceptedRows(m, b, c, m.authzs[c.authz], m.tickets[b.held.value]);
    }
  }

  lemma SameAnswers(s: State, e: Event)
    requires e.Post?
    ensures DeviceProves(Consumed(s, e.nonce), Sender(e), e.body) == DeviceProves(s, Sender(e), e.body)
  {
  }

  // ---- verifiers -------------------------------------------------------------

  // The rows a verifier takes with it to the network.
  ghost function Taken(s: State, chall: nat): Snapshot
    requires chall in s.challs && s.challs[chall].authz in s.authzs
  {
    var c := s.challs[chall];
    var a := s.authzs[c.authz];
    var o := if a.order.Some? && a.order.value in s.orders then Some(s.orders[a.order.value]) else None;
    Snapshot(chall, c, c.authz, a, o, if o.Some? then o.value.account else a.account)
  }

  // A waiting challenge is taken up once; the verifier goes out if all its rows are there, and
  // comes back once.
  lemma VerifierRule(s: State, e: Event)
    ensures var n := Step(s, e);
            && n.waiting == (if e.Post? && e.body.PostChallenge? && Tries(s, e, e.body.target)
                             then s.waiting + {e.body.target}
                             else if e.VerifierStarts? then s.waiting - {e.chall} else s.waiting)
            && n.running ==
                 if && e.VerifierStarts? && e.chall in s.waiting && e.chall in s.challs
                    && s.challs[e.chall].authz in s.authzs && Taken(s, e.chall).account in s.accounts
                 then s.running[e.job := Taken(s, e.chall)]
                 else if e.VerifierFinishes? then s.running - {e.job} else s.running
  {
    hide Step;
    if Asks(s, e) && e.body.PostChallenge? {
      ChallengesTried(s, e);
      RunningKept(s, e);
    } else if e.VerifierStarts? {
      Started(s, e);
    } else if e.VerifierFinishes? {
      Finished(s, e);
    } else {
      OthersKeepWaiting(s, e);
      RunningKept(s, e);
    }
  }

  lemma Started(s: State, e: Event)
    requires e.VerifierStarts?
    ensures var n := Step(s, e);
            && n.waiting == s.waiting - {e.chall}
            && n.running == if && e.chall in s.waiting && e.chall in s.challs && s.challs[e.chall].authz in s.authzs
                               && Taken(s, e.chall).account in s.accounts
                            then s.running[e.job := Taken(s, e.chall)] else s.running
  {
    if e.chall !in s.waiting || e.chall !in s.challs { return; }
    if s.challs[e.chall].authz !in s.authzs { return; }
  }

  lemma Finished(s: State, e: Event)
    requires e.VerifierFinishes?
    ensures Step(s, e).waiting == s.waiting && Step(s, e).running == s.running - {e.job}
  {
    hide FinishVerifier;
    FinishedJob(s, e.job, e.ok);
  }

  lemma FinishedJob(s: State, job: nat, ok: bool)
    ensures var n := FinishVerifier(s, job, ok); n.waiting == s.waiting && n.running == s.running - {job}
  {
    hide WriteBack;
    if job !in s.running {
      assert s.running - {job} == s.running;
      return;
    }
    var sn := s.running[job];
    if (sn.a.wildcard && sn.c.typ != Dns01) || sn.c.typ == DeviceAttest01 || !ok { return; }
    WriteBackFrame(s.(running := s.running - {job}), sn);
  }

  lemma RunningKept(s: State, e: Event)
    requires !e.VerifierStarts? && !e.VerifierFinishes?
    ensures Step(s, e).running == s.running && Step(s, e).proofs == s.proofs
  {
    hide Answer, RevokeRow, ReleaseRow;
    if e.Post? { AnswerKeepsRunning(s, e); }
  }

  lemma AnswerKeepsRunning(s: State, e: Event)
    requires e.Post?
    ensures Answer(s, e).running == s.running && Answer(s, e).proofs == s.proofs
  {
    hide Handled, Answer;
    AnswerRows(s, e);
    HandledFrame(Consumed(s, e.nonce), e.signer, e.form, e.body);
  }

  lemma OthersKeepWaiting(s: State, e: Event)
    requires !(Asks(s, e) && e.body.PostChallenge?) && !e.VerifierStarts? && !e.VerifierFinishes?
    ensures Step(s, e).waiting == s.waiting
  {
    hide Answer, RevokeRow, ReleaseRow;
    if e.Post? { PostKeepsWaiting(s, e); }
  }

  lemma PostKeepsWaiting(s: State, e: Event)
    requires e.Post? && !(Asks(s, e) && e.body.PostChallenge?)
    ensures Answer(s, e).waiting == s.waiting
  {
    hide Handled, Answer;
    AnswerRows(s, e);
    if e.nonce in s.nonces { HandledKeepsWaiting(Consumed(s, e.nonce), e.signer, e.form, e.body); }
  }

  lemma HandledKeepsWaiting(s: State, signer: string, form: Form, b: Body)
    requires !(form.Kid? && SignedBy(s, signer, form, form.account) && b.PostChallenge?)
    ensures Handled(s, signer, form, b).waiting == s.waiting
  {
    hide CreateAccount, DeactivateAccount, ChangeKey, PlaceOrder, PreAuthorize, DeactivateAuthz, Trigger,
         FinalizeOrder, RevokeByHolder;
    if form.Kid? && !SignedBy(s, signer, form, form.account) { return; }
    if b.RevokeCert? { RevokeFrame(s, signer, form, b); return; }
    if form.Jwk? {
      if b.NewAccount? { CreateFrame(s, signer, b); }
      return;
    }
    match b
    case NewAccount(_, _, _, _) =>
    case NewOrder(_, _, _, _, _, _, _) => OrderFrame(s, form.account, b);
    case NewAuthz(_, _) => AuthzFrame(s, form.account, b);
    case UpdateAccount(_, _) => DeactivateFrame(s, form.account, b);
    case KeyChange(_, _) => KeyFrame(s, form.account, b);
    case UpdateAuthz(_, _) => AuthzFrame(s, form.account, b);
    case Finalize(_, _, _, _, _, _, _, _) => FinalizeFrame(s, form.account, b);
  }

  // A proof is recorded exactly when a verifier succeeds, for the account and the name it took along.
  lemma ProofRule(s: State, e: Event)
    ensures Step(s, e).proofs ==
              s.proofs + if VerifierProves(s, e)
                         then {Proof(s.running[e.job].account, s.running[e.job].a.ident.value, s.running[e.job].c.typ)}
                         else {}
  {
    hide Step, VerifierProves;
    EventKinds(s, e);
    if e.VerifierFinishes? {
      AuthzsVerified(s, e);
    } else if e.VerifierStarts? {
      StartedProofs(s, e);
    } else {
      RunningKept(s, e);
    }
  }

  lemma StartedProofs(s: State, e: Event)
    requires e.VerifierStarts?
    ensures Step(s, e).proofs == s.proofs
  {
    hide StartVerifier;
    StartFrame(s, e.chall, e.job);
  }
}
