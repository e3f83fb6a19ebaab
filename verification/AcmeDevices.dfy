/** Issuance to attested devices, over every run: a ticket backs one order for good, its
    certificate carries the attested key and goes to the ticket's owner on the ticket's CA, and a
    device has at most one certificate that is not finally revoked. */
module AcmeDevices {
  import opened Text
  import opened Certs
  import opened Names
  import opened Acme
  import opened AcmeFrames
  import opened AcmeLinks
  import opened AcmeRows

  // c is the attestation challenge of order o.
  ghost predicate AsksDevice(s: State, c: nat, o: nat)
  {
    && c in s.challs && s.challs[c].typ == DeviceAttest01 && s.challs[c].authz in s.authzs
    && s.authzs[s.challs[c].authz].order == Some(o)
  }

  // The device challenge of the order, if any, has been answered for good or bad.
  ghost predicate Decided(s: State, o: nat)
  {
    forall c | AsksDevice(s, c, o) :: s.challs[c].status != Untried
  }

  ghost predicate TicketOk(s: State, t: Name, r: Ticket)
  {
    && r.ca != "" && (r.cert != "" ==> r.spki != "")
    && match r.order
       case None => r.spki == ""
       case Some(o) =>
         && o in s.orders && IsDeviceOrder(s.orders[o].idents) && s.orders[o].ca == r.ca
         && (r.spki != "" ==>
               && Attestation(o, t, r.serial, r.spki) in s.attested
               && (r.expected != [] ==> r.serial == r.expected)
               && Decided(s, o))
         && (r.cert != "" ==> s.orders[o].status == Valid && r.cert in s.certs)
  }

  ghost predicate TicketsOk(s: State) { forall t | t in s.tickets :: TicketOk(s, t, s.tickets[t]) }

  ghost predicate OneBacking(tickets: map<Name, Ticket>)
  {
    forall t, u | t in tickets && u in tickets && tickets[t].order.Some? && tickets[t].order == tickets[u].order ::
      t == u
  }

  ghost predicate OrdersDecided(s: State)
  {
    forall o | o in s.orders && IsDeviceOrder(s.orders[o].idents) && s.orders[o].status != Pending :: Decided(s, o)
  }

  ghost predicate OneChallenge(s: State)
  {
    forall c, d, o | AsksDevice(s, c, o) && AsksDevice(s, d, o) :: c == d
  }

  // Of two tickets' certificates for one device, one is revoked for good.
  ghost predicate OneLive(tickets: map<Name, Ticket>, certs: map<string, Cert>)
  {
    forall t, u | t in tickets && u in tickets && t != u && SharesDevice(tickets, t, u) ::
      GoneFor(certs, tickets[t].cert) || GoneFor(certs, tickets[u].cert)
  }

  ghost predicate SharesDevice(tickets: map<Name, Ticket>, t: Name, u: Name)
    requires t in tickets && u in tickets
  {
    tickets[t].cert != "" && tickets[u].cert != "" && tickets[t].serial == tickets[u].serial
  }

  ghost predicate GoneFor(certs: map<string, Cert>, c: string) { c in certs && Final(certs[c]) }

  // What a certificate issued to a device rests on.
  ghost predicate DeviceSound(s: State, i: Issue, t: Name)
  {
    && t in s.tickets && s.tickets[t].order == Some(i.order) && s.tickets[t].cert == i.cert && i.cert != ""
    && s.tickets[t].owner == i.owner && s.tickets[t].ca == i.ca && s.tickets[t].spki == i.spki
    && i.order in s.orders && s.orders[i.order].account == i.account
    && Attestation(i.order, t, s.tickets[t].serial, i.spki) in s.attested
    && (s.tickets[t].expected != [] ==> s.tickets[t].serial == s.tickets[t].expected)
  }

  ghost predicate DeviceIssues(s: State)
  {
    forall i | i in s.issued && i.ticket.Some? :: DeviceSound(s, i, i.ticket.value)
  }

  ghost predicate RegisteredOk(registered: map<(Name, string), string>)
  {
    forall k | k in registered :: k.1 != ""
  }

  ghost predicate Devices(s: State)
  {
    && RegisteredOk(s.registered) && TicketsOk(s) && OneBacking(s.tickets) && OrdersDecided(s) && OneChallenge(s)
    && OneLive(s.tickets, s.certs) && DeviceIssues(s)
  }

  // A claimed ticket keeps its order, owner, CA and expected serial.
  ghost predicate ClaimsKept(ts: map<Name, Ticket>, us: map<Name, Ticket>)
  {
    forall t | t in ts && ts[t].order.Some? ::
      && t in us && us[t].order == ts[t].order && us[t].owner == ts[t].owner && us[t].ca == ts[t].ca
      && us[t].expected == ts[t].expected
  }

  // ---- steps that are quiet about devices ------------------------------------

  ghost predicate CertsKept(cs: map<string, Cert>, ds: map<string, Cert>)
  {
    forall c | c in cs :: c in ds && (Final(cs[c]) ==> Final(ds[c]))
  }

  // No device order is new or restated, no device challenge is new or reopened.
  ghost predicate OrdersQuiet(s: State, n: State)
  {
    && OrdersGrow(s.orders, n.orders) && AuthzsGrow(s.authzs, n.authzs)
    && (forall o | o in n.orders && IsDeviceOrder(n.orders[o].idents) ::
          o in s.orders && n.orders[o].status == s.orders[o].status)
    && (forall c | c in n.challs && n.challs[c].typ == DeviceAttest01 ::
          && c in s.challs && s.challs[c].typ == DeviceAttest01 && s.challs[c].authz == n.challs[c].authz
          && s.challs[c].authz in s.authzs
          && (s.challs[c].status != Untried ==> n.challs[c].status != Untried))
  }

  lemma AskedBefore(s: State, n: State, c: nat, o: nat)
    requires OrdersQuiet(s, n) && AsksDevice(n, c, o)
    ensures AsksDevice(s, c, o) && (s.challs[c].status != Untried ==> n.challs[c].status != Untried)
  {
  }

  lemma QuietDecided(s: State, n: State, o: nat)
    requires OrdersQuiet(s, n) && Decided(s, o)
    ensures Decided(n, o)
  {
  }

  lemma QuietTicket(s: State, n: State, t: Name, r: Ticket)
    requires OrdersQuiet(s, n) && TicketOk(s, t, r) && s.attested <= n.attested && CertsKept(s.certs, n.certs)
    ensures TicketOk(n, t, r)
  {
  }

  lemma QuietKeeps(s: State, n: State)
    requires Devices(s) && OrdersQuiet(s, n) && n.attested == s.attested && CertsKept(s.certs, n.certs)
    requires n.tickets == s.tickets && RegisteredOk(n.registered)
    requires forall i | i in n.issued && i.ticket.Some? :: i in s.issued
    ensures Devices(n)
  {
    hide IsDeviceOrder, Final, AsksDevice, Decided, TicketOk, OneBacking;
    forall t | t in n.tickets ensures TicketOk(n, t, n.tickets[t]) { QuietTicket(s, n, t, n.tickets[t]); }
    forall o | o in n.orders && IsDeviceOrder(n.orders[o].idents) && n.orders[o].status != Pending
      ensures Decided(n, o)
    {
      QuietDecided(s, n, o);
    }
    forall c, d, o | AsksDevice(n, c, o) && AsksDevice(n, d, o) ensures c == d {
      AskedBefore(s, n, c, o);
      AskedBefore(s, n, d, o);
    }
  }

  // Rows outside the device machinery.
  lemma UntouchedDevices(s: State, n: State)
    requires Devices(s) && Linked(s) && n.orders == s.orders && n.authzs == s.authzs && n.challs == s.challs
    requires n.tickets == s.tickets && n.attested == s.attested && n.issued == s.issued && CertsKept(s.certs, n.certs)
    requires RegisteredOk(n.registered)
    ensures Devices(n) && ClaimsKept(s.tickets, n.tickets)
  {
    hide Devices, IsDeviceOrder, ChallOk;
    assert forall c | c in s.challs :: s.challs[c].authz in s.authzs by {
      forall c | c in s.challs ensures s.challs[c].authz in s.authzs { InAuthz(s, c); }
    }
    QuietKeeps(s, n);
  }

  lemma InAuthz(s: State, c: nat)
    requires Linked(s) && c in s.challs
    ensures s.challs[c].authz in s.authzs
    ensures s.challs[c].typ == DeviceAttest01 <==> s.authzs[s.challs[c].authz].ident.kind == Device
  {
  }

  lemma SameCerts(cs: map<string, Cert>)
    ensures CertsKept(cs, cs)
  {
  }

  lemma FinalStays(cs: map<string, Cert>, c: string, reason: int)
    ensures CertsKept(cs, RevokeRow(cs, c, reason))
  {
  }

  // ---- tickets ---------------------------------------------------------------

  lemma TicketIssued(s: State, ticket: Name, ca: string, owner: string, expires: int)
    requires Devices(s) && ticket !in s.tickets && ca != ""
    ensures var n := s.(tickets := s.tickets[ticket := Ticket(ca, owner, expires, None, [], "", "", [])]);
            Devices(n) && ClaimsKept(s.tickets, n.tickets)
  {
    hide IsDeviceOrder, Final, AsksDevice;
    var n := s.(tickets := s.tickets[ticket := Ticket(ca, owner, expires, None, [], "", "", [])]);
    TicketsChanged(s, n);
  }

  lemma TicketCancelled(s: State, ticket: Name)
    requires Devices(s) && ticket in s.tickets && s.tickets[ticket].order.None?
    ensures var n := s.(tickets := s.tickets - {ticket}); Devices(n) && ClaimsKept(s.tickets, n.tickets)
  {
    hide IsDeviceOrder, Final, AsksDevice;
    var n := s.(tickets := s.tickets - {ticket});
    assert s.tickets[ticket].cert == "" by { assert TicketOk(s, ticket, s.tickets[ticket]); }
    TicketsChanged(s, n);
  }

  // Unclaimed tickets come and go.
  lemma TicketsChanged(s: State, n: State)
    requires Devices(s) && n == s.(tickets := n.tickets)
    requires forall t | t in s.tickets && s.tickets[t].order.Some? :: t in n.tickets && n.tickets[t] == s.tickets[t]
    requires forall t | t in n.tickets && (t !in s.tickets || n.tickets[t] != s.tickets[t]) ::
               n.tickets[t].order.None? && n.tickets[t].ca != "" && n.tickets[t].spki == "" && n.tickets[t].cert == ""
    ensures Devices(n)
  {
    hide IsDeviceOrder, Final;
    forall c, o ensures AsksDevice(n, c, o) == AsksDevice(s, c, o) {}
    forall o ensures Decided(s, o) == Decided(n, o) { SameDecided(s, n, o); }
    forall t | t in n.tickets ensures TicketOk(n, t, n.tickets[t]) {
      if t in s.tickets && n.tickets[t] == s.tickets[t] { assert TicketOk(s, t, s.tickets[t]); }
    }
    forall t, u | t in n.tickets && u in n.tickets && t != u && SharesDevice(n.tickets, t, u)
      ensures GoneFor(n.certs, n.tickets[t].cert) || GoneFor(n.certs, n.tickets[u].cert)
    {
      assert t in s.tickets && u in s.tickets && SharesDevice(s.tickets, t, u);
    }
    forall i | i in n.issued && i.ticket.Some? ensures DeviceSound(n, i, i.ticket.value) {
      assert DeviceSound(s, i, i.ticket.value);
    }
  }

  lemma SameDecided(s: State, n: State, o: nat)
    requires n == s.(tickets := n.tickets)
    ensures Decided(s, o) == Decided(n, o)
  {
  }

  // ---- orders on names -------------------------------------------------------

  // Device challenges are carried over, none is added.
  ghost predicate DeviceRowsFrom(cs: map<nat, Challenge>, ds: map<nat, Challenge>)
  {
    forall c | c in ds && ds[c].typ == DeviceAttest01 :: c in cs && cs[c] == ds[c]
  }

  lemma OfferOnName(challs: map<nat, Challenge>, ident: Ident, d: Draw)
    requires ident.kind != Device
    ensures DeviceRowsFrom(challs, Offer(challs, ident, d))
  {
  }

  lemma {:induction false} PlacingOnNames(s: State, order: nat, account: nat, idents: seq<Ident>, ds: seq<Draw>)
    requires |ds| == |idents| && forall i | i in idents :: i.kind != Device
    ensures DeviceRowsFrom(s.challs, PlaceAuthzs(s, order, account, idents, ds).challs)
  {
    hide Offer, BareIdent;
    if idents != [] {
      var k := |idents| - 1;
      var before := PlaceAuthzs(s, order, account, idents[..k], ds[..k]);
      PlacingOnNames(s, order, account, idents[..k], ds[..k]);
      OfferOnName(before.challs, idents[k], ds[k]);
    }
  }

  // Growth that leaves device orders and device challenges as they are.
  lemma QuietByGrowth(s: State, n: State)
    requires Devices(s) && Linked(s) && Grows(s, n) && DeviceRowsFrom(s.challs, n.challs)
    requires forall o | o in n.orders && IsDeviceOrder(n.orders[o].idents) ::
               o in s.orders && n.orders[o] == s.orders[o]
    requires n.attested == s.attested && CertsKept(s.certs, n.certs) && n.tickets == s.tickets
    requires n.registered == s.registered
    requires forall i | i in n.issued && i.ticket.Some? :: i in s.issued
    ensures Devices(n) && ClaimsKept(s.tickets, n.tickets)
  {
    hide Devices, IsDeviceOrder, Linked, CertsKept;
    forall c | c in n.challs && n.challs[c].typ == DeviceAttest01
      ensures c in s.challs && s.challs[c].authz in s.authzs
    {
      InAuthz(s, c);
    }
    assert RegisteredOk(s.registered) by { DevicesRegistered(s); }
    QuietKeeps(s, n);
  }

  lemma DevicesRegistered(s: State)
    requires Devices(s)
    ensures RegisteredOk(s.registered)
  {
  }

  lemma DnsOrderDevices(s: State, account: nat, b: Body)
    requires Devices(s) && Linked(s) && Covered(s) && b.NewOrder? && LegalBody(s, Kid(account), b)
    requires forall i | i in b.idents :: i.kind == DnsName
    ensures var n := PlaceDnsOrder(s, account, b); Devices(n) && ClaimsKept(s.tickets, n.tickets)
  {
    hide Devices, Linked, Covered, PlaceAuthzs, LegalDraws, AllReused, FreshDraw, Grows;
    DnsOrderKeeps(s, account, b);
    var begun := s.(orders := s.orders[b.id := Order(Pending, b.idents, account, b.ca, "")]);
    PlacingOnNames(begun, b.id, account, b.idents, b.draws);
    PlacingFrame(begun, b.id, account, b.idents, b.draws);
    SameCerts(s.certs);
    QuietByGrowth(s, PlaceDnsOrder(s, account, b));
  }

  lemma AuthzDevices(s: State, account: nat, b: Body)
    requires Devices(s) && Linked(s) && Covered(s) && LegalBody(s, Kid(account), b)
    ensures b.NewAuthz? ==> var n := PreAuthorize(s, account, b); Devices(n) && ClaimsKept(s.tickets, n.tickets)
    ensures b.UpdateAuthz? ==> var n := DeactivateAuthz(s, account, b); Devices(n) && ClaimsKept(s.tickets, n.tickets)
  {
    hide Devices, Linked, Covered, PreAuthorize, DeactivateAuthz, LegalBody, Grows, DeviceRowsFrom;
    AuthzKeeps(s, account, b);
    AuthzFrame(s, account, b);
    SameCerts(s.certs);
    if b.NewAuthz? {
      PreAuthorizedOnName(s, account, b);
      QuietByGrowth(s, PreAuthorize(s, account, b));
    }
    if b.UpdateAuthz? {
      SameDeviceRows(s.challs);
      QuietByGrowth(s, DeactivateAuthz(s, account, b));
    }
  }

  lemma PreAuthorizedOnName(s: State, account: nat, b: Body)
    requires b.NewAuthz?
    ensures DeviceRowsFrom(s.challs, PreAuthorize(s, account, b).challs)
  {
    hide Offer, BareIdent;
    if b.ident.kind != Device { OfferOnName(s.challs, b.ident, b.draw); }
  }

  lemma SameDeviceRows(cs: map<nat, Challenge>)
    ensures DeviceRowsFrom(cs, cs)
  {
  }

  lemma FinishDevices(s: State, job: nat, ok: bool)
    requires Devices(s) && Linked(s) && Covered(s)
    ensures var n := FinishVerifier(s, job, ok); Devices(n) && ClaimsKept(s.tickets, n.tickets)
  {
    hide Devices, Linked, Covered, Grows, WriteBack, IsDeviceOrder;
    var n := FinishVerifier(s, job, ok);
    FinishKeeps(s, job, ok);
    FinishFrame(s, job, ok);
    SameCerts(s.certs);
    if job in s.running {
      var sn := s.running[job];
      JobDone(s, job);
      SnapOnName(s, sn);
      WriteBackQuiet(s.(running := s.running - {job}), sn);
    }
    QuietByGrowth(s, n);
  }

  ghost predicate OrderOnNames(s: State, sn: Snapshot)
  {
    match sn.a.order
    case None => true
    case Some(o) =>
      && o in s.orders && sn.order.Some? && SameOrder(sn.order.value, s.orders[o])
      && !IsDeviceOrder(s.orders[o].idents)
  }

  lemma SnapOnName(s: State, sn: Snapshot)
    requires Linked(s) && SnapOk(s.orders, s.authzs, sn)
    ensures sn.c.typ != DeviceAttest01 && OrderOnNames(s, sn)
  {
  }

  lemma WriteBackQuiet(s: State, sn: Snapshot)
    requires sn.c.typ != DeviceAttest01 && OrderOnNames(s, sn)
    ensures var n := WriteBack(s, sn);
            && DeviceRowsFrom(s.challs, n.challs)
            && (forall o | o in n.orders && IsDeviceOrder(n.orders[o].idents) ::
                  o in s.orders && n.orders[o] == s.orders[o])
  {
    hide IsDeviceOrder, AllProven, OnlyPassed, OrderOnNames;
    var n := WriteBack(s, sn);
    var challs := OnlyPassed(s.challs[sn.chall := sn.c.(status := Passed)], sn.authz, sn.chall);
    PassedQuiet(s.challs, sn);
    if sn.order.Some? && sn.a.order.Some? && n.orders != s.orders {
      assert n.orders == s.orders[sn.a.order.value := sn.order.value.(status := Ready)] && n.challs == challs;
      OnNamesRow(s, sn);
    } else {
      assert n.orders == s.orders && n.challs == challs;
    }
  }

  lemma PassedQuiet(challs: map<nat, Challenge>, sn: Snapshot)
    requires sn.c.typ != DeviceAttest01
    ensures DeviceRowsFrom(challs, OnlyPassed(challs[sn.chall := sn.c.(status := Passed)], sn.authz, sn.chall))
  {
  }

  lemma OnNamesRow(s: State, sn: Snapshot)
    requires OrderOnNames(s, sn) && sn.a.order.Some? && sn.order.Some?
    ensures !IsDeviceOrder(sn.order.value.idents)
  {
  }

  lemma FinalizeDnsDevices(s: State, account: nat, b: Body)
    requires Devices(s) && Linked(s) && Covered(s) && b.Finalize? && b.target in s.orders && account in s.accounts
    requires !IsDeviceOrder(s.orders[b.target].idents)
    ensures var n := FinalizeDns(s, account, b); Devices(n) && ClaimsKept(s.tickets, n.tickets)
  {
    hide Devices, Linked, Covered, Grows, CsrFits, IsDeviceOrder, OwnerName, Final;
    FinalizeKeeps(s, account, b);
    if !MayFinalize(s, account, b, s.accounts[account].kid) || !CsrFits(b, s.orders[b.target]) {
      SameCerts(s.certs);
      QuietByGrowth(s, s);
      return;
    }
    var n := FinalizeDns(s, account, b);
    assert CertsKept(s.certs, n.certs);
    QuietByGrowth(s, n);
  }

  // ---- device orders ---------------------------------------------------------

  lemma DeviceOrderDevices(s: State, account: nat, b: Body)
    requires Devices(s) && Linked(s) && b.NewOrder? && LegalBody(s, Kid(account), b) && IsDeviceOrder(b.idents)
    ensures var n := DeviceOrder(s, account, b); Devices(n) && ClaimsKept(s.tickets, n.tickets)
  {
    hide Devices, Linked, LegalDraws, PlaceDeviceOrder, FreshDraw, IsDeviceOrder;
    if |b.idents| != 1 { return; }
    var v := b.idents[0].value;
    if ClaimableTicket(s, v, b.ca, b.now) {
      if !b.may(s.tickets[v].owner) { return; }
      UnclaimedRow(s, v);
      PlacedDevices(s, account, b, v, s.tickets[v].(order := Some(b.id)));
    } else if (v, b.ca) in s.registered {
      var owner := s.registered[(v, b.ca)];
      if !b.may(owner) { return; }
      DevicesRegistered(s);
      PlacedDevices(s, account, b, b.ticket, SerialTicket(b, owner));
    }
  }

  lemma UnclaimedRow(s: State, t: Name)
    requires Devices(s) && t in s.tickets && s.tickets[t].order.None?
    ensures s.tickets[t].spki == "" && s.tickets[t].cert == "" && s.tickets[t].ca != ""
  {
  }

  lemma PlacedDevices(s: State, account: nat, b: Body, t: Name, r: Ticket)
    requires Devices(s) && Linked(s) && b.NewOrder? && b.id !in s.orders && |b.idents| == |b.draws| == 1
    requires FreshDraw(s, b.draws[0]) && IsDeviceOrder(b.idents)
    requires r.order == Some(b.id) && r.ca == b.ca && r.ca != "" && r.spki == "" && r.cert == ""
    requires t in s.tickets ==> s.tickets[t].order.None? && s.tickets[t].cert == ""
    ensures var n := PlaceDeviceOrder(s, account, b, s.tickets[t := r]); Devices(n) && ClaimsKept(s.tickets, n.tickets)
  {
    hide Linked, AsksDevice, Decided, IsDeviceOrder, TicketOk, PlaceDeviceOrder, Final, DeviceSound;
    var n := PlaceDeviceOrder(s, account, b, s.tickets[t := r]);
    PlacedShape(s, account, b, s.tickets[t := r]);
    forall u | u in n.tickets ensures TicketOk(n, u, n.tickets[u]) {
      if u == t {
        PlacedTicket(n, t, r);
      } else {
        assert TicketOk(s, u, s.tickets[u]);
        PlacedOther(s, n, b.id, b.draws[0].attest, u, s.tickets[u]);
      }
    }
    assert OneBacking(n.tickets) by { NobodyBacks(s, b.id); }
    forall o | o in n.orders && IsDeviceOrder(n.orders[o].idents) && n.orders[o].status != Pending
      ensures Decided(n, o)
    {
      assert o in s.orders && Decided(s, o);
      PlacedDecided(s, n, b.id, b.draws[0].attest, o);
    }
    forall c, d, o | AsksDevice(n, c, o) && AsksDevice(n, d, o) ensures c == d {
      PlacedAsks(s, n, b.id, b.draws[0].attest, c, o);
      PlacedAsks(s, n, b.id, b.draws[0].attest, d, o);
      if o != b.id { assert AsksDevice(s, c, o) && AsksDevice(s, d, o); }
    }
    assert OneLive(n.tickets, n.certs) by { LiveAfterClaim(s.tickets, t, r, s.certs); }
    forall i | i in n.issued && i.ticket.Some? ensures DeviceSound(n, i, i.ticket.value) {
      assert DeviceSound(s, i, i.ticket.value);
      PlacedSound(s, n, t, i);
    }
  }

  // What placing a device order leaves behind.
  ghost predicate Placed(s: State, n: State, id: nat, chall: nat)
  {
    && id !in s.orders && id in n.orders && chall !in s.challs && chall in n.challs
    && (forall o | o in s.orders :: o in n.orders && n.orders[o] == s.orders[o])
    && (forall o | o in n.orders :: o == id || o in s.orders)
    && n.challs[chall].typ == DeviceAttest01 && n.challs[chall].authz in n.authzs
    && n.authzs[n.challs[chall].authz].order == Some(id)
    && (forall c | c in n.challs && c != chall :: c in s.challs && n.challs[c] == s.challs[c])
    && (forall c | c in s.challs :: c in n.challs && n.challs[c] == s.challs[c])
    && (forall a | a in s.authzs :: a in n.authzs && n.authzs[a] == s.authzs[a])
    && (forall c | c in s.challs :: s.challs[c].authz in s.authzs)
    && (forall a | a in s.authzs :: s.authzs[a].order != Some(id))
    && n.attested == s.attested && n.certs == s.certs && n.issued == s.issued
  }

  lemma PlacedShape(s: State, account: nat, b: Body, tickets: map<Name, Ticket>)
    requires Linked(s) && b.NewOrder? && b.id !in s.orders && |b.idents| == |b.draws| == 1
    requires FreshDraw(s, b.draws[0]) && IsDeviceOrder(b.idents)
    ensures var n := PlaceDeviceOrder(s, account, b, tickets);
            && Placed(s, n, b.id, b.draws[0].attest) && n.tickets == tickets && n.registered == s.registered
            && n.orders[b.id] == Order(Pending, b.idents, account, b.ca, "")
  {
    hide IsWild, Base, Linked, AuthzOk, BareIdent;
    var d := b.draws[0];
    var n := PlaceDeviceOrder(s, account, b, tickets);
    assert b.idents[0].kind == Device;
    assert n.challs == s.challs[d.attest := Challenge(DeviceAttest01, Untried, d.authz)];
    assert d.attest !in s.challs by { assert d.attest in {d.http, d.tls, d.dns, d.attest}; }
    forall c | c in s.challs ensures s.challs[c].authz in s.authzs { InAuthz(s, c); }
    forall a | a in s.authzs ensures s.authzs[a].order != Some(b.id) { RowOrder(s, a); }
  }

  lemma RowOrder(s: State, a: nat)
    requires Linked(s) && a in s.authzs
    ensures s.authzs[a].order.Some? ==> s.authzs[a].order.value in s.orders
  {
  }

  lemma PlacedAsks(s: State, n: State, id: nat, chall: nat, c: nat, o: nat)
    requires Placed(s, n, id, chall) && AsksDevice(n, c, o)
    ensures if o == id then c == chall else AsksDevice(s, c, o) && n.challs[c] == s.challs[c]
  {
  }

  lemma PlacedDecided(s: State, n: State, id: nat, chall: nat, o: nat)
    requires Placed(s, n, id, chall) && o != id && Decided(s, o)
    ensures Decided(n, o)
  {
  }

  lemma PlacedTicket(n: State, t: Name, r: Ticket)
    requires r.ca != "" && r.spki == "" && r.cert == "" && r.order.Some? && r.order.value in n.orders
    requires IsDeviceOrder(n.orders[r.order.value].idents) && n.orders[r.order.value].ca == r.ca
    ensures TicketOk(n, t, r)
  {
  }

  lemma PlacedOther(s: State, n: State, id: nat, chall: nat, u: Name, r: Ticket)
    requires Placed(s, n, id, chall) && TicketOk(s, u, r)
    ensures TicketOk(n, u, r)
  {
  }

  lemma NobodyBacks(s: State, id: nat)
    requires Devices(s) && id !in s.orders
    ensures forall t | t in s.tickets :: s.tickets[t].order != Some(id)
  {
  }

  lemma LiveAfterClaim(tickets: map<Name, Ticket>, t: Name, r: Ticket, certs: map<string, Cert>)
    requires OneLive(tickets, certs) && r.cert == ""
    ensures OneLive(tickets[t := r], certs)
  {
  }

  lemma PlacedSound(s: State, n: State, t: Name, i: Issue)
    requires i.ticket.Some? && DeviceSound(s, i, i.ticket.value)
    requires t in s.tickets ==> s.tickets[t].cert == ""
    requires forall u | u in s.tickets && u != t :: u in n.tickets && n.tickets[u] == s.tickets[u]
    requires forall o | o in s.orders :: o in n.orders && SameOrder(s.orders[o], n.orders[o])
    requires s.attested <= n.attested
    ensures DeviceSound(n, i, i.ticket.value)
  {
  }

  // ---- attestation -----------------------------------------------------------

  lemma TriggerDevices(s: State, account: nat, b: Body)
    requires Devices(s) && Linked(s) && Covered(s) && b.PostChallenge? && LegalBody(s, Kid(account), b)
    ensures var n := Trigger(s, account, b); Devices(n) && ClaimsKept(s.tickets, n.tickets)
  {
    hide Devices, Linked, Covered, Attest, OwnsChallenge, Grows, TicketFound;
    if !OwnsChallenge(s, account, b.target) { return; }
    Owned(s, account, b.target);
    if s.challs[b.target].typ == DeviceAttest01 {
      AttestDevices(s, b);
    } else {
      if s.challs[b.target].status != Untried { return; }
      TriggerKeeps(s, account, b);
      SameCerts(s.certs);
      QuietByGrowth(s, Trigger(s, account, b));
    }
  }

  lemma AttestDevices(s: State, b: Body)
    requires Devices(s) && Linked(s)
    requires b.PostChallenge? && b.target in s.challs && s.challs[b.target].authz in s.authzs
    requires s.challs[b.target].typ == DeviceAttest01
    requires var a := s.authzs[s.challs[b.target].authz]; a.order.Some? ==> TicketFound(s, a.order.value, b.held)
    ensures var n := Attest(s, b); Devices(n) && ClaimsKept(s.tickets, n.tickets)
  {
    hide Devices, Linked, AcceptAttestation;
    var c := s.challs[b.target];
    var a := s.authzs[c.authz];
    if c.status != Untried || a.order.None? || a.order.value !in s.orders { return; }
    if b.verdict.NoAttestation? || b.held.None? || b.held.value !in s.tickets { return; }
    var t := s.tickets[b.held.value];
    if b.verdict.BadAttestation? || (t.expected != [] && b.verdict.serial != t.expected) {
      FailedDevices(s, SetChallenge(s, b.target, c.(status := Failed)), b.target);
      return;
    }
    AcceptDevices(s, b, c, a, t);
  }

  // A device challenge is marked as answered.
  lemma FailedDevices(s: State, n: State, c: nat)
    requires Devices(s) && Linked(s) && c in s.challs
    requires n == SetChallenge(s, c, s.challs[c].(status := Failed))
    ensures Devices(n) && ClaimsKept(s.tickets, n.tickets)
  {
    hide Devices, IsDeviceOrder, Linked, Final;
    forall d | d in n.challs && n.challs[d].typ == DeviceAttest01
      ensures d in s.challs && s.challs[d].authz in s.authzs
    {
      InAuthz(s, d);
    }
    DevicesRegistered(s);
    SameCerts(s.certs);
    QuietKeeps(s, n);
  }

  // The only device challenge of its order has passed.
  ghost predicate Answered(s: State, n: State, c: nat, o: nat)
  {
    && AsksDevice(s, c, o) && s.challs[c].status == Untried
    && n.challs == s.challs[c := s.challs[c].(status := Passed)]
    && AuthzsGrow(s.authzs, n.authzs) && (forall d | d in s.challs :: s.challs[d].authz in s.authzs)
  }

  lemma AnsweredAsks(s: State, n: State, c: nat, o: nat, d: nat, p: nat)
    requires Answered(s, n, c, o) && AsksDevice(n, d, p)
    ensures AsksDevice(s, d, p) && (d != c ==> n.challs[d] == s.challs[d])
  {
  }

  lemma AnsweredDecides(s: State, n: State, c: nat, o: nat, p: nat)
    requires Answered(s, n, c, o) && OneChallenge(s) && (p == o || Decided(s, p))
    ensures Decided(n, p)
  {
    hide Answered;
    forall d | AsksDevice(n, d, p) ensures n.challs[d].status != Untried {
      AnsweredAsks(s, n, c, o, d, p);
      AnsweredRow(s, n, c, o);
    }
  }

  lemma AnsweredRow(s: State, n: State, c: nat, o: nat)
    requires Answered(s, n, c, o)
    ensures AsksDevice(s, c, o) && c in n.challs && n.challs[c].status == Passed
  {
  }

  lemma AcceptDevices(s: State, b: Body, c: Challenge, a: Authz, t: Ticket)
    requires Devices(s) && Linked(s) && b.PostChallenge? && b.verdict.Attested?
    requires b.target in s.challs && c == s.challs[b.target] && c.typ == DeviceAttest01 && c.status == Untried
    requires c.authz in s.authzs && a == s.authzs[c.authz] && a.order.Some? && a.order.value in s.orders
    requires b.held.Some? && b.held.value in s.tickets && t == s.tickets[b.held.value] && t.order == a.order
    requires t.expected != [] ==> b.verdict.serial == t.expected
    ensures var n := AcceptAttestation(s, b, c, a, t); Devices(n) && ClaimsKept(s.tickets, n.tickets)
  {
    hide Linked, AsksDevice, Decided, IsDeviceOrder, TicketOk, Final, DeviceSound, Answered, AllProven;
    var n, order, held := AcceptAttestation(s, b, c, a, t), a.order.value, b.held.value;
    var row := t.(serial := b.verdict.serial, spki := b.verdict.spki);
    AcceptShape(s, b, c, a, t);
    assert !Decided(s, order) by { StillOpen(s, b.target, order); }
    assert TicketOk(s, held, t);
    NotYetAttested(s, held, t, order);
    forall u | u in n.tickets ensures TicketOk(n, u, n.tickets[u]) {
      assert TicketOk(s, u, s.tickets[u]);
      AcceptTicket(s, n, b.target, order, u, s.tickets[u], n.tickets[u]);
    }
    assert OneBacking(n.tickets);
    forall o | o in n.orders && IsDeviceOrder(n.orders[o].idents) && n.orders[o].status != Pending
      ensures Decided(n, o)
    {
      assert o == order || (o in s.orders && n.orders[o] == s.orders[o]);
      AnsweredDecides(s, n, b.target, order, o);
    }
    forall x, y, o | AsksDevice(n, x, o) && AsksDevice(n, y, o) ensures x == y {
      AnsweredAsks(s, n, b.target, order, x, o);
      AnsweredAsks(s, n, b.target, order, y, o);
    }
    LiveAfterClaim(s.tickets, held, row, s.certs);
    forall i | i in n.issued && i.ticket.Some? ensures DeviceSound(n, i, i.ticket.value) {
      assert DeviceSound(s, i, i.ticket.value);
      PlacedSound(s, n, held, i);
    }
  }

  lemma StillOpen(s: State, c: nat, o: nat)
    requires AsksDevice(s, c, o) && s.challs[c].status == Untried
    ensures !Decided(s, o)
  {
  }

  lemma NotYetAttested(s: State, t: Name, r: Ticket, o: nat)
    requires TicketOk(s, t, r) && r.order == Some(o) && !Decided(s, o)
    ensures r.spki == "" && r.cert == ""
  {
  }

  lemma AcceptShape(s: State, b: Body, c: Challenge, a: Authz, t: Ticket)
    requires Linked(s) && b.PostChallenge? && b.verdict.Attested? && b.held.Some?
    requires b.target in s.challs && c == s.challs[b.target] && c.typ == DeviceAttest01 && c.status == Untried
    requires c.authz in s.authzs && a == s.authzs[c.authz] && a.order.Some? && a.order.value in s.orders
    ensures var n, order := AcceptAttestation(s, b, c, a, t), a.order.value;
            && Answered(s, n, b.target, order) && AsksDevice(s, b.target, order)
            && n.tickets == s.tickets[b.held.value := t.(serial := b.verdict.serial, spki := b.verdict.spki)]
            && n.attested == s.attested + {Attestation(order, b.held.value, b.verdict.serial, b.verdict.spki)}
            && n.certs == s.certs && n.issued == s.issued && n.registered == s.registered
            && (n.orders == s.orders || n.orders == s.orders[order := s.orders[order].(status := Ready)])
  {
    hide AcceptAttestation, Linked;
    forall d | d in s.challs ensures s.challs[d].authz in s.authzs { InAuthz(s, d); }
    AcceptRows(s, b, c, a, t);
  }

  lemma AcceptRows(s: State, b: Body, c: Challenge, a: Authz, t: Ticket)
    requires b.PostChallenge? && b.verdict.Attested? && b.held.Some? && a.order.Some? && a.order.value in s.orders
    ensures var n, order := AcceptAttestation(s, b, c, a, t), a.order.value;
            && n.challs == s.challs[b.target := c.(status := Passed)]
            && n.authzs == s.authzs[c.authz := a.(status := Proven)]
            && n.tickets == s.tickets[b.held.value := t.(serial := b.verdict.serial, spki := b.verdict.spki)]
            && n.attested == s.attested + {Attestation(order, b.held.value, b.verdict.serial, b.verdict.spki)}
            && n.certs == s.certs && n.issued == s.issued && n.registered == s.registered
            && (n.orders == s.orders || n.orders == s.orders[order := s.orders[order].(status := Ready)])
  {
    hide AllProven;
    if AllProven(s.authzs[c.authz := a.(status := Proven)], a.order.value) { return; }
  }

  lemma AcceptTicket(s: State, n: State, c: nat, o: nat, u: Name, was: Ticket, r: Ticket)
    requires TicketOk(s, u, was) && OneChallenge(s) && Answered(s, n, c, o) && o in s.orders
    requires n.orders == s.orders || n.orders == s.orders[o := s.orders[o].(status := Ready)]
    requires n.certs == s.certs && s.attested <= n.attested
    requires was.order != Some(o) ==> r == was
    requires was.order == Some(o) ==>
               && r == was.(serial := r.serial, spki := r.spki) && was.cert == ""
               && Attestation(o, u, r.serial, r.spki) in n.attested && (r.expected != [] ==> r.serial == r.expected)
    ensures TicketOk(n, u, r)
  {
    hide Decided, IsDeviceOrder, Answered, OneChallenge;
    if was.order.Some? {
      if was.order.value == o || was.spki != "" { AnsweredDecides(s, n, c, o, was.order.value); }
    }
  }

  // ---- issuing to a device ---------------------------------------------------

  lemma FinalizeDeviceDevices(s: State, account: nat, b: Body)
    requires Devices(s) && Linked(s) && b.Finalize? && b.target in s.orders && b.cert != ""
    requires IsDeviceOrder(s.orders[b.target].idents) && TicketFound(s, b.target, b.backing)
    ensures var n := FinalizeDevice(s, account, b); Devices(n) && ClaimsKept(s.tickets, n.tickets)
  {
    hide Devices, Linked, MayFinalize, RevokeAll, EarlierCerts, IsDeviceOrder;
    if b.backing.None? || b.backing.value !in s.tickets { return; }
    var t := s.tickets[b.backing.value];
    if !MayFinalize(s, account, b, t.owner) { return; }
    assert b.csr.Some? by { GateOpened(s, account, b, t.owner); }
    if t.spki == "" || b.csr.value.spki != t.spki { return; }
    IssuedDevices(s, account, b, t);
  }

  lemma GateOpened(s: State, account: nat, b: Body, user: string)
    requires b.Finalize? && MayFinalize(s, account, b, user)
    ensures b.csr.Some? && b.target in s.orders && s.orders[b.target].status == Ready && b.cert !in s.certs
    ensures s.orders[b.target].account == account && (s.orders[b.target].ca == "" || s.orders[b.target].ca == b.ca)
  {
  }

  lemma IssuedDevices(s: State, account: nat, b: Body, t: Ticket)
    requires Devices(s) && Linked(s) && b.Finalize? && b.target in s.orders && b.cert != ""
    requires IsDeviceOrder(s.orders[b.target].idents) && b.backing.Some? && b.backing.value in s.tickets
    requires t == s.tickets[b.backing.value] && t.order == Some(b.target)
    requires MayFinalize(s, account, b, t.owner) && b.csr.Some? && t.spki != "" && b.csr.value.spki == t.spki
    ensures var n := FinalizeDevice(s, account, b); Devices(n) && ClaimsKept(s.tickets, n.tickets)
  {
    hide Linked, AsksDevice, Decided, IsDeviceOrder, TicketOk, Final, DeviceSound, RevokeAll, EarlierCerts, MayFinalize,
         OneLive, FinalizeDevice;
    var n, held := FinalizeDevice(s, account, b), b.backing.value;
    GateOpened(s, account, b, t.owner);
    assert TicketOk(s, held, t);
    ReadyHasNoCert(s, held, t, b.target);
    IssuedShape(s, account, b, t);
    OnlyNewestLives(s, held, t, b.cert, Cert(0, 0, t.owner, b.ca), n.certs);
    forall o | Decided(s, o) ensures Decided(n, o) { SameChallsDecided(s, n, o); }
    forall u | u in n.tickets ensures TicketOk(n, u, n.tickets[u]) {
      assert TicketOk(s, u, s.tickets[u]);
      IssuedTicket(s, n, b.target, u, s.tickets[u], n.tickets[u], b.cert);
    }
    assert OneBacking(n.tickets);
    forall o | o in n.orders && IsDeviceOrder(n.orders[o].idents) && n.orders[o].status != Pending
      ensures Decided(n, o)
    {
      if o == b.target { assert Decided(s, o) by { AttestedDecided(s, held, t, o); } } else { assert Decided(s, o); }
    }
    forall x, y, o | AsksDevice(n, x, o) && AsksDevice(n, y, o) ensures x == y {
      SameChallsAsk(s, n, x, o);
      SameChallsAsk(s, n, y, o);
    }
    forall i | i in n.issued && i.ticket.Some? ensures DeviceSound(n, i, i.ticket.value) {
      if i in s.issued {
        assert DeviceSound(s, i, i.ticket.value);
        PlacedSound(s, n, held, i);
      } else {
        NewIssueSound(s, n, i, held, t, b.target);
      }
    }
  }

  lemma ReadyHasNoCert(s: State, u: Name, r: Ticket, o: nat)
    requires TicketOk(s, u, r) && r.order == Some(o) && o in s.orders && s.orders[o].status == Ready
    ensures r.cert == "" && s.orders[o].ca == r.ca && r.ca != ""
  {
  }

  lemma AttestedDecided(s: State, u: Name, r: Ticket, o: nat)
    requires TicketOk(s, u, r) && r.order == Some(o) && r.spki != ""
    ensures Decided(s, o)
  {
  }

  lemma IssuedShape(s: State, account: nat, b: Body, t: Ticket)
    requires b.Finalize? && b.target in s.orders && IsDeviceOrder(s.orders[b.target].idents)
    requires b.backing.Some? && b.backing.value in s.tickets && t == s.tickets[b.backing.value]
    requires MayFinalize(s, account, b, t.owner) && b.csr.Some? && t.spki != "" && b.csr.value.spki == t.spki
    ensures var n, held := FinalizeDevice(s, account, b), b.backing.value;
            && n.orders == s.orders[b.target := s.orders[b.target].(status := Valid, cert := b.cert)]
            && n.tickets == s.tickets[held := t.(cert := b.cert)]
            && n.authzs == s.authzs && n.challs == s.challs && n.attested == s.attested && n.registered == s.registered
            && n.certs == RevokeAll(s.certs[b.cert := Cert(0, 0, t.owner, b.ca)],
                                    EarlierCerts(s.tickets, t.serial, held), SUPERSEDED)
            && n.issued == s.issued + {Issue(b.target, account, b.ca, b.cert, b.csr.value.sans, b.csr.value.spki,
                                             t.owner, Some(held))}
  {
  }

  lemma SameChallsAsk(s: State, n: State, c: nat, o: nat)
    requires n.authzs == s.authzs && n.challs == s.challs
    ensures AsksDevice(n, c, o) == AsksDevice(s, c, o)
  {
  }

  lemma SameChallsDecided(s: State, n: State, o: nat)
    requires n.authzs == s.authzs && n.challs == s.challs && Decided(s, o)
    ensures Decided(n, o)
  {
  }

  lemma IssuedTicket(s: State, n: State, o: nat, u: Name, was: Ticket, r: Ticket, cert: string)
    requires TicketOk(s, u, was) && o in s.orders && cert != ""
    requires n.orders == s.orders[o := s.orders[o].(status := Valid, cert := cert)] && n.attested == s.attested
    requires forall c | c in s.certs || c == cert :: c in n.certs
    requires forall p | Decided(s, p) :: Decided(n, p)
    requires r == was || (was.order == Some(o) && was.spki != "" && r == was.(cert := cert))
    ensures TicketOk(n, u, r)
  {
  }

  // Superseding finishes off every other certificate of the device, held ones included, and
  // brings none back.
  lemma OnlyNewestLives(s: State, held: Name, t: Ticket, cert: string, row: Cert, certs: map<string, Cert>)
    requires TicketsOk(s) && OneLive(s.tickets, s.certs) && held in s.tickets && t == s.tickets[held]
    requires cert !in s.certs
    requires certs == RevokeAll(s.certs[cert := row], EarlierCerts(s.tickets, t.serial, held), SUPERSEDED)
    ensures OneLive(s.tickets[held := t.(cert := cert)], certs)
    ensures forall c | c in s.certs || c == cert :: c in certs
  {
    hide RevokeAll, EarlierCerts, TicketOk, GoneFor, Final;
    var n, olds := s.tickets[held := t.(cert := cert)], EarlierCerts(s.tickets, t.serial, held);
    RevokedAll(s.certs[cert := row], olds);
    forall u, v | u in n && v in n && u != v && SharesDevice(n, u, v)
      ensures GoneFor(certs, n[u].cert) || GoneFor(certs, n[v].cert)
    {
      if u != held && v != held {
        assert SharesDevice(s.tickets, u, v);
        if GoneFor(s.certs, n[u].cert) { StaysGone(s.certs, certs, cert, row, olds, n[u].cert); }
        if GoneFor(s.certs, n[v].cert) { StaysGone(s.certs, certs, cert, row, olds, n[v].cert); }
      } else {
        var w := if u == held then v else u;
        assert w in s.tickets && w != held && s.tickets[w].serial == t.serial && s.tickets[w].cert != "";
        assert s.tickets[w].cert in olds by { Earlier(s.tickets, t.serial, held, w); }
        assert TicketOk(s, w, s.tickets[w]);
        CertStored(s, w, s.tickets[w]);
      }
    }
  }

  lemma Earlier(tickets: map<Name, Ticket>, serial: Name, except: Name, w: Name)
    requires w in tickets && w != except && tickets[w].serial == serial && tickets[w].cert != ""
    ensures tickets[w].cert in EarlierCerts(tickets, serial, except)
  {
  }

  lemma CertStored(s: State, u: Name, r: Ticket)
    requires TicketOk(s, u, r) && r.cert != ""
    ensures r.cert in s.certs
  {
  }

  lemma RevokedAll(certs: map<string, Cert>, olds: set<string>)
    ensures var n := RevokeAll(certs, olds, SUPERSEDED);
            && (forall c | c in certs :: c in n) && (forall c | c in certs && c in olds :: GoneFor(n, c))
            && (forall c | c in certs && Final(certs[c]) :: GoneFor(n, c))
  {
  }

  lemma StaysGone(before: map<string, Cert>, after: map<string, Cert>, cert: string, row: Cert, olds: set<string>,
                  c: string)
    requires cert !in before && after == RevokeAll(before[cert := row], olds, SUPERSEDED) && GoneFor(before, c)
    ensures GoneFor(after, c)
  {
  }

  lemma NewIssueSound(s: State, n: State, i: Issue, held: Name, t: Ticket, o: nat)
    requires TicketOk(s, held, t) && t.order == Some(o) && t.spki != "" && held in n.tickets
    requires n.tickets[held] == t.(cert := i.cert) && i.cert != "" && i.order == o && i.owner == t.owner
    requires i.spki == t.spki && i.ticket == Some(held) && i.ca == t.ca
    requires o in n.orders && n.orders[o].account == i.account
    requires n.attested == s.attested
    ensures DeviceSound(n, i, held)
  {
  }

  // ---- every run -------------------------------------------------------------

  lemma OrderDevices(s: State, account: nat, b: Body)
    requires Devices(s) && Linked(s) && Covered(s)
    requires b.NewOrder? && account in s.accounts && LegalBody(s, Kid(account), b)
    ensures var n := PlaceOrder(s, account, b); Devices(n) && ClaimsKept(s.tickets, n.tickets)
  {
    hide Devices, Linked, Covered, DeviceOrder, PlaceDnsOrder, LegalBody, ValidDnsName;
    if |b.draws| != |b.idents| { return; }
    if IsDeviceOrder(b.idents) {
      DeviceOrderDevices(s, account, b);
    } else {
      if s.accounts[account].kid == "" || !b.may(s.accounts[account].kid) || b.idents == [] { return; }
      if exists i | i in b.idents :: i.kind != DnsName || !ValidDnsName(i.value) { return; }
      DnsOrderDevices(s, account, b);
    }
  }

  lemma FinalizeDevices(s: State, account: nat, b: Body)
    requires Devices(s) && Linked(s) && Covered(s)
    requires b.Finalize? && account in s.accounts && LegalBody(s, Kid(account), b)
    ensures var n := FinalizeOrder(s, account, b); Devices(n) && ClaimsKept(s.tickets, n.tickets)
  {
    hide Devices, Linked, Covered, FinalizeDevice, FinalizeDns, TicketFound, IsDeviceOrder;
    if b.target !in s.orders { return; }
    if IsDeviceOrder(s.orders[b.target].idents) {
      FinalizeDeviceDevices(s, account, b);
    } else {
      FinalizeDnsDevices(s, account, b);
    }
  }

  lemma RevokeDevices(s: State, signer: string, form: Form, b: Body)
    requires Devices(s) && Linked(s) && b.RevokeCert?
    ensures var n := RevokeByHolder(s, signer, form, b); Devices(n) && ClaimsKept(s.tickets, n.tickets)
  {
    hide Devices, Linked, RevokeRow, OwnerName;
    FinalStays(s.certs, b.cert, b.reason);
    SameCerts(s.certs);
    DevicesRegistered(s);
    UntouchedDevices(s, s);
    UntouchedDevices(s, s.(certs := RevokeRow(s.certs, b.cert, b.reason)));
  }

  lemma AccountsDevices(s: State, n: State)
    requires Devices(s) && Linked(s) && n == s.(accounts := n.accounts, nonces := n.nonces, spent := n.spent)
    ensures Devices(n) && ClaimsKept(s.tickets, n.tickets)
  {
    hide Devices, Linked;
    SameCerts(s.certs);
    DevicesRegistered(s);
    UntouchedDevices(s, n);
  }

  lemma HandledDevices(s: State, signer: string, form: Form, b: Body)
    requires Devices(s) && Linked(s) && Covered(s) && LegalBody(s, form, b)
    ensures var n := Handled(s, signer, form, b); Devices(n) && ClaimsKept(s.tickets, n.tickets)
  {
    hide Devices, Linked, Covered, CreateAccount, DeactivateAccount, ChangeKey, PlaceOrder, PreAuthorize,
         DeactivateAuthz, Trigger, FinalizeOrder, RevokeByHolder, LegalBody, ClaimsKept;
    AccountsDevices(s, s);
    if form.Kid? && !SignedBy(s, signer, form, form.account) {
    } else if b.RevokeCert? {
      RevokeDevices(s, signer, form, b);
    } else if form.Jwk? {
      if b.NewAccount? { CreateFrame(s, signer, b); AccountsDevices(s, Handled(s, signer, form, b)); }
    } else {
      match b
      case NewAccount(_, _, _, _) =>
      case NewOrder(_, _, _, _, _, _, _) => OrderDevices(s, form.account, b);
      case NewAuthz(_, _) => AuthzDevices(s, form.account, b);
      case UpdateAccount(_, _) => DeactivateFrame(s, form.account, b); AccountsDevices(s, Handled(s, signer, form, b));
      case KeyChange(_, _) => KeyFrame(s, form.account, b); AccountsDevices(s, Handled(s, signer, form, b));
      case UpdateAuthz(_, _) => AuthzDevices(s, form.account, b);
      case PostChallenge(_, _, _) => TriggerDevices(s, form.account, b);
      case Finalize(_, _, _, _, _, _, _, _) => FinalizeDevices(s, form.account, b);
    }
  }

  lemma AdminDevices(s: State, e: Event)
    requires Devices(s) && Linked(s) && Legal(s, e)
    requires e.IssueTicket? || e.CancelTicket? || e.Register? || e.Unregister? || e.Revoke? || e.ReleaseHold?
    ensures Devices(Step(s, e)) && ClaimsKept(s.tickets, Step(s, e).tickets)
  {
    hide Devices, Linked, RevokeRow, ReleaseRow, Handled, StartVerifier, FinishVerifier;
    SameCerts(s.certs);
    DevicesRegistered(s);
    match e
    case IssueTicket(ticket, ca, owner, expires) => TicketIssued(s, ticket, ca, owner, expires);
    case CancelTicket(ticket) =>
      if ticket in s.tickets && s.tickets[ticket].order.None? { TicketCancelled(s, ticket); }
    case Register(_, _, _) => UntouchedDevices(s, Step(s, e));
    case Unregister(_, _) => UntouchedDevices(s, Step(s, e));
    case Revoke(cert, reason) => FinalStays(s.certs, cert, reason); UntouchedDevices(s, Step(s, e));
    case ReleaseHold(cert, expired) => ReleaseStays(s.certs, cert, expired); UntouchedDevices(s, Step(s, e));
  }

  lemma ReleaseStays(cs: map<string, Cert>, c: string, expired: bool)
    ensures CertsKept(cs, ReleaseRow(cs, c, expired))
  {
  }

  lemma StepDevices(s: State, e: Event)
    requires Devices(s) && Linked(s) && Covered(s) && Legal(s, e)
    ensures Devices(Step(s, e)) && ClaimsKept(s.tickets, Step(s, e).tickets)
  {
    hide Devices, Linked, Covered, Handled, StartVerifier, FinishVerifier, RevokeRow, ReleaseRow, LegalBody;
    match e
    case GetNonce(_) => AccountsDevices(s, Step(s, e));
    case Post(nonce, _, signer, form, body) =>
      if nonce !in s.nonces {
        AccountsDevices(s, Step(s, e));
      } else {
        var m := Consumed(s, nonce);
        OutsideKeeps(s, m);
        AccountsDevices(s, m);
        HandledKeeps(m, signer, form, body);
        HandledDevices(m, signer, form, body);
        AccountsDevices(Handled(m, signer, form, body), Step(s, e));
      }
    case VerifierStarts(chall, job) =>
      StartFrame(s, chall, job);
      SameCerts(s.certs);
      DevicesRegistered(s);
      UntouchedDevices(s, Step(s, e));
    case VerifierFinishes(job, ok) => FinishDevices(s, job, ok);
    case _ => AdminDevices(s, e);
  }

  ghost predicate DeviceProper(s: State) { Devices(s) && Linked(s) && Covered(s) }

  lemma {:induction false} RunDevices(s: State, es: seq<Event>)
    requires DeviceProper(s) && Possible(s, es)
    ensures DeviceProper(Run(s, es)) && ClaimsKept(s.tickets, Run(s, es).tickets)
    decreases |es|
  {
    hide Step, Legal, Devices, Linked, Covered;
    if es != [] {
      StepDevices(s, es[0]);
      StepKeeps(s, es[0]);
      RunDevices(Step(s, es[0]), es[1..]);
    }
  }

  lemma FreshDevices(s: State)
    requires Fresh(s)
    ensures DeviceProper(s)
  {
  }

  // Every certificate issued on a device order, in every run from an empty store.
  lemma DevicesIssuedSoundly(s: State, es: seq<Event>, i: Issue)
    requires Fresh(s) && Possible(s, es) && i in Run(s, es).issued && i.ticket.Some?
    ensures DeviceSound(Run(s, es), i, i.ticket.value)
  {
    hide Run, Possible, DeviceSound, Linked, Covered, TicketsOk, OneBacking, OrdersDecided, OneChallenge, OneLive;
    FreshDevices(s);
    RunDevices(s, es);
  }

  // A ticket never backs two orders: not two at a time, and once claimed never another.
  lemma TicketBacksOneOrder(s: State, es: seq<Event>, later: seq<Event>, t: Name)
    requires Fresh(s) && Possible(s, es) && Possible(Run(s, es), later)
    requires t in Run(s, es).tickets && Run(s, es).tickets[t].order.Some?
    ensures var now, then' := Run(s, es), Run(Run(s, es), later);
            && t in then'.tickets && then'.tickets[t].order == now.tickets[t].order
            && (forall u | u in then'.tickets && then'.tickets[u].order == now.tickets[t].order :: u == t)
  {
    hide Run, Possible, Linked, Covered, TicketsOk, OrdersDecided, OneChallenge, OneLive, DeviceIssues;
    FreshDevices(s);
    RunDevices(s, es);
    RunDevices(Run(s, es), later);
  }

  // Of two certificates issued for one attested device, one is revoked for good.
  lemma OneLivePerDevice(s: State, es: seq<Event>, i: Issue, j: Issue)
    requires Fresh(s) && Possible(s, es) && i in Run(s, es).issued && j in Run(s, es).issued && i != j
    requires i.ticket.Some? && i.ticket.value in Run(s, es).tickets
    requires j.ticket.Some? && j.ticket.value in Run(s, es).tickets
    requires Run(s, es).tickets[i.ticket.value].serial == Run(s, es).tickets[j.ticket.value].serial
    ensures GoneFor(Run(s, es).certs, i.cert) || GoneFor(Run(s, es).certs, j.cert)
  {
    hide Run, Possible, Linked, Covered, TicketsOk, OneBacking, OrdersDecided, OneChallenge, GoneFor, RowMatches;
    FreshDevices(s);
    RunDevices(s, es);
    DevicesIssuedSoundly(s, es, i);
    DevicesIssuedSoundly(s, es, j);
    IssuedRowsMatch(s, es, i);
    assert SharesDevice(Run(s, es).tickets, i.ticket.value, j.ticket.value);
  }
}
