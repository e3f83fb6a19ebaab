/** What one ACME event does to orders and to the record of issued certificates: when an order is
    placed, made ready and served, for whom, and with what. */
module AcmeOrderRules {
  import opened Text
  import opened Names
  import opened Certs
  import opened Acme
  import opened AcmeFrames
  import opened AcmeRules

  // ---- placing ---------------------------------------------------------------

  // The account is bound to a user who may enrol here, and every name is a valid DNS name.
  ghost predicate WantsNames(s: State, account: nat, b: Body)
  {
    && b.NewOrder? && |b.draws| == |b.idents| && b.idents != []
    && (forall i | i in b.idents :: i.kind == DnsName && ValidDnsName(i.value))
    && account in s.accounts && s.accounts[account].kid != "" && b.may(s.accounts[account].kid)
  }

  ghost predicate OneDevice(b: Body)
  {
    b.NewOrder? && |b.idents| == |b.draws| == 1 && b.idents[0].kind == Device
  }

  // The identifier is a ticket for this CA that nobody has claimed and that has not run out.
  ghost predicate OpenTicket(s: State, b: Body)
    requires OneDevice(b)
  {
    var v := b.idents[0].value;
    v in s.tickets && s.tickets[v].ca == b.ca && s.tickets[v].order.None? && s.tickets[v].expires > b.now
  }

  // It is such a ticket, or else a serial registered for this CA, and the owner may enrol.
  ghost predicate WantsDevice(s: State, b: Body)
  {
    && OneDevice(b)
    && var v := b.idents[0].value;
       if OpenTicket(s, b) then b.may(s.tickets[v].owner)
       else (v, b.ca) in s.registered && b.may(s.registered[(v, b.ca)])
  }

  // The tickets once the order holds one: the one named, or a new one that expects the serial.
  ghost function Claimed(s: State, b: Body): map<Name, Ticket>
    requires WantsDevice(s, b)
  {
    var v := b.idents[0].value;
    if OpenTicket(s, b) then s.tickets[v := s.tickets[v].(order := Some(b.id))]
    else s.tickets[b.ticket := Ticket(b.ca, s.registered[(v, b.ca)], b.draws[0].expires, Some(b.id), [], "", "", v)]
  }

  lemma PlacedBy(s: State, account: nat, b: Body)
    requires b.NewOrder? && account in s.accounts
    ensures !(WantsNames(s, account, b) && WantsDevice(s, b))
    ensures WantsNames(s, account, b) ==> PlaceOrder(s, account, b) == PlaceDnsOrder(s, account, b)
    ensures WantsDevice(s, b) ==>
              PlaceOrder(s, account, b) == PlaceDeviceOrder(s, account, b, Claimed(s, b))
    ensures !WantsNames(s, account, b) && !WantsDevice(s, b) ==> PlaceOrder(s, account, b) == s
  {
    hide PlaceDnsOrder, PlaceDeviceOrder, ValidDnsName;
    if |b.draws| != |b.idents| { return; }
    if IsDeviceOrder(b.idents) {
      if |b.idents| == 1 { assert b.idents[0] in b.idents; }
    } else {
      assert forall i | i in b.idents :: i.kind != Device;
    }
  }

  lemma OrdersPlaced(s: State, account: nat, b: Body)
    requires b.NewOrder? && account in s.accounts
    ensures PlaceOrder(s, account, b).orders ==
              if WantsNames(s, account, b) then
                s.orders[b.id := Order(if forall d | d in b.draws :: d.reuse.Some? then Ready else Pending, b.idents,
                                       account, b.ca, "")]
              else if WantsDevice(s, b) then s.orders[b.id := Order(Pending, b.idents, account, b.ca, "")]
              else s.orders
  {
    hide PlaceOrder, PlaceDnsOrder, PlaceDeviceOrder, WantsNames, WantsDevice;
    PlacedBy(s, account, b);
    if WantsNames(s, account, b) {
      NamesMatched(s, account, b);
      DnsOrders(s, account, b);
    } else if WantsDevice(s, b) {
      DeviceMatched(s, b);
      DeviceOrders(s, account, b, Claimed(s, b));
    }
  }

  lemma DnsOrders(s: State, account: nat, b: Body)
    requires b.NewOrder? && |b.draws| == |b.idents|
    ensures PlaceDnsOrder(s, account, b).orders ==
              s.orders[b.id := Order(if forall d | d in b.draws :: d.reuse.Some? then Ready else Pending, b.idents,
                                     account, b.ca, "")]
  {
    hide PlaceAuthzs;
    var o := Order(Pending, b.idents, account, b.ca, "");
    PlacingFrame(s.(orders := s.orders[b.id := o]), b.id, account, b.idents, b.draws);
    if AllReused(b.draws) { return; }
  }

  lemma DeviceOrders(s: State, account: nat, b: Body, tickets: map<Name, Ticket>)
    requires b.NewOrder? && |b.idents| == 1 && |b.draws| == 1
    ensures PlaceDeviceOrder(s, account, b, tickets).orders ==
              s.orders[b.id := Order(Pending, b.idents, account, b.ca, "")]
  {
    hide MakeAuthz;
    var o := Order(Pending, b.idents, account, b.ca, "");
    MadeFrame(s.(tickets := tickets, orders := s.orders[b.id := o]), Some(b.id), account, b.idents[0], b.draws[0]);
  }

  lemma NamesMatched(s: State, account: nat, b: Body)
    requires WantsNames(s, account, b)
    ensures |b.draws| == |b.idents| && forall i | i in b.idents :: i.kind == DnsName
  {
  }

  lemma DeviceMatched(s: State, b: Body)
    requires WantsDevice(s, b)
    ensures |b.idents| == |b.draws| == 1 && b.idents[0].kind == Device
  {
  }

  // ---- making ready ----------------------------------------------------------

  // Every authorization of the order but this one is valid.
  ghost predicate OthersProven(s: State, o: nat, a: nat)
  {
    forall x | x in s.authzs && x != a && s.authzs[x].order == Some(o) :: s.authzs[x].status == Proven
  }

  lemma OthersMeans(s: State, o: nat, a: nat, row: Authz)
    requires row.status == Proven
    ensures AllProven(s.authzs[a := row], o) <==> OthersProven(s, o, a)
  {
    var n := s.authzs[a := row];
    if AllProven(n, o) {
      forall x | x in s.authzs && x != a && s.authzs[x].order == Some(o) ensures s.authzs[x].status == Proven {
        assert x in n && n[x] == s.authzs[x];
      }
    }
  }

  // The owner of a device order answers its untried challenge with an attestation that verifies,
  // for the serial the order's ticket expects if it expects one.
  ghost predicate DeviceProves(s: State, account: nat, b: Body)
  {
    && AnswersDevice(s, account, b) && b.verdict.Attested?
    && var expected := s.tickets[b.held.value].expected; expected == [] || b.verdict.serial == expected
  }

  // Such an answer, whatever the verdict.
  ghost predicate AnswersDevice(s: State, account: nat, b: Body)
  {
    && b.PostChallenge? && b.target in s.challs && s.challs[b.target].typ == DeviceAttest01
    && s.challs[b.target].status == Untried && s.challs[b.target].authz in s.authzs
    && var order := s.authzs[s.challs[b.target].authz].order;
       && order.Some? && order.value in s.orders && s.orders[order.value].account == account
       && !b.verdict.NoAttestation? && b.held.Some? && b.held.value in s.tickets
  }

  lemma AttestedBy(s: State, account: nat, b: Body)
    requires b.PostChallenge?
    ensures DeviceProves(s, account, b) ==>
              var c := s.challs[b.target];
              Trigger(s, account, b) == AcceptAttestation(s, b, c, s.authzs[c.authz], s.tickets[b.held.value])
    ensures AnswersDevice(s, account, b) && !DeviceProves(s, account, b) ==>
              Trigger(s, account, b) == SetChallenge(s, b.target, s.challs[b.target].(status := Failed))
    ensures b.target in s.challs && s.challs[b.target].typ == DeviceAttest01 && !AnswersDevice(s, account, b) ==>
              Trigger(s, account, b) == s
    ensures b.target !in s.challs ==> Trigger(s, account, b) == s
  {
    hide AcceptAttestation, SetChallenge;
  }

  lemma OrdersTriggered(s: State, account: nat, b: Body)
    requires b.PostChallenge?
    ensures Trigger(s, account, b).orders ==
              if DeviceProves(s, account, b) then
                var a := s.challs[b.target].authz;
                var o := s.authzs[a].order.value;
                if OthersProven(s, o, a) then s.orders[o := s.orders[o].(status := Ready)] else s.orders
              else s.orders
  {
    hide DeviceProves, AnswersDevice, AllProven, OthersProven, Attest, OwnsChallenge;
    AttestedBy(s, account, b);
    if DeviceProves(s, account, b) {
      assert AnswersDevice(s, account, b) && b.verdict.Attested? by { ProvesAnswers(s, account, b); }
      AnswersRows(s, account, b);
      var a := s.challs[b.target].authz;
      OthersMeans(s, s.authzs[a].order.value, a, s.authzs[a].(status := Proven));
    } else if b.target in s.challs && s.challs[b.target].typ != DeviceAttest01 {
      NamesTriggered(s, account, b);
    }
  }

  lemma ProvesAnswers(s: State, account: nat, b: Body)
    requires DeviceProves(s, account, b)
    ensures AnswersDevice(s, account, b) && b.verdict.Attested?
  {
  }

  lemma AnswersRows(s: State, account: nat, b: Body)
    requires AnswersDevice(s, account, b)
    ensures b.PostChallenge? && b.target in s.challs && s.challs[b.target].authz in s.authzs
    ensures s.authzs[s.challs[b.target].authz].order.Some? && s.authzs[s.challs[b.target].authz].order.value in s.orders
    ensures b.held.Some? && b.held.value in s.tickets
  {
  }

  lemma NamesTriggered(s: State, account: nat, b: Body)
    requires b.PostChallenge? && b.target in s.challs && s.challs[b.target].typ != DeviceAttest01
    ensures var n := Trigger(s, account, b); n == s.(challs := n.challs, waiting := n.waiting)
  {
    hide OwnsChallenge;
    if !OwnsChallenge(s, account, b.target) || s.challs[b.target].status != Untried { return; }
  }

  // A verifier comes back with success, and a wildcard was tried by dns-01.
  ghost predicate VerifierProves(s: State, e: Event)
  {
    && e.VerifierFinishes? && e.job in s.running && e.ok
    && s.running[e.job].c.typ != DeviceAttest01
    && (s.running[e.job].a.wildcard ==> s.running[e.job].c.typ == Dns01)
  }

  lemma VerifiedBy(s: State, e: Event)
    requires e.VerifierFinishes?
    ensures VerifierProves(s, e) ==>
              FinishVerifier(s, e.job, e.ok) == WriteBack(s.(running := s.running - {e.job}), s.running[e.job])
    ensures !VerifierProves(s, e) && e.job in s.running ==>
              var sn := s.running[e.job];
              FinishVerifier(s, e.job, e.ok) ==
                SetChallenge(s.(running := s.running - {e.job}), sn.chall, sn.c.(status := Failed))
    ensures e.job !in s.running ==> FinishVerifier(s, e.job, e.ok) == s
  {
    hide WriteBack, SetChallenge;
  }

  lemma OrdersVerified(s: State, e: Event)
    requires e.VerifierFinishes?
    ensures FinishVerifier(s, e.job, e.ok).orders ==
              if VerifierProves(s, e) then
                var sn := s.running[e.job];
                if sn.order.Some? && sn.a.order.Some? && OthersProven(s, sn.a.order.value, sn.authz)
                then s.orders[sn.a.order.value := sn.order.value.(status := Ready)] else s.orders
              else s.orders
  {
    hide AllProven, OthersProven, WriteBack, FinishVerifier;
    VerifiedBy(s, e);
    if VerifierProves(s, e) {
      var one, sn := s.(running := s.running - {e.job}), s.running[e.job];
      if sn.a.order.Some? { OthersMeans(s, sn.a.order.value, sn.authz, sn.a.(status := Proven)); }
      WrittenBack(one, sn);
    }
  }

  lemma WrittenBack(s: State, sn: Snapshot)
    ensures WriteBack(s, sn).orders ==
              if sn.order.Some? && sn.a.order.Some? &&
                 AllProven(s.authzs[sn.authz := sn.a.(status := Proven)], sn.a.order.value)
              then s.orders[sn.a.order.value := sn.order.value.(status := Ready)] else s.orders
  {
    hide AllProven, OnlyPassed;
    if sn.order.None? || sn.a.order.None? { return; }
    if !AllProven(s.authzs[sn.authz := sn.a.(status := Proven)], sn.a.order.value) { return; }
  }

  // ---- serving ---------------------------------------------------------------

  // A ready order of the account, at the CA it was placed with, with a request the CA signs
  // under a new serial.
  ghost predicate Servable(s: State, account: nat, b: Body)
  {
    && b.Finalize? && account in s.accounts && b.target in s.orders
    && var o := s.orders[b.target];
       && o.account == account && o.status == Ready && (o.ca == "" || o.ca == b.ca) && b.ca != ""
       && b.csr.Some? && b.issues && b.cert !in s.certs
  }

  // The names of the request are the ordered ones and no others, its common name is one of them,
  // CAA allows each, and the account's user may enrol here.
  ghost predicate ServesNames(s: State, account: nat, b: Body)
  {
    && Servable(s, account, b) && b.may(s.accounts[account].kid)
    && var idents, csr := s.orders[b.target].idents, b.csr.value;
       && (forall i | i in idents :: i.kind != Device && b.caa(i.value) && DnsSan(i.value) in csr.sans)
       && (forall x | x in csr.sans :: x.DnsSan? && exists i | i in idents :: i.value == x.name)
       && (csr.cn.Some? ==> exists i | i in idents :: i.value == csr.cn.value)
  }

  // The order's ticket holds the attested key, the request is for that key, and the ticket's
  // owner may enrol here.
  ghost predicate ServesDevice(s: State, account: nat, b: Body)
  {
    && Servable(s, account, b) && (exists i | i in s.orders[b.target].idents :: i.kind == Device)
    && b.backing.Some? && b.backing.value in s.tickets
    && var t := s.tickets[b.backing.value]; b.may(t.owner) && t.spki != "" && b.csr.value.spki == t.spki
  }

  ghost function OwnerOf(s: State, account: nat, b: Body): string
    requires ServesNames(s, account, b) || ServesDevice(s, account, b)
  {
    if ServesDevice(s, account, b) then s.tickets[b.backing.value].owner
    else if s.accounts[account].kid != "" then s.accounts[account].kid else Decimal(account)
  }

  ghost function Certificate(s: State, account: nat, b: Body): Issue
    requires ServesNames(s, account, b) || ServesDevice(s, account, b)
  {
    Issue(b.target, account, b.ca, b.cert, b.csr.value.sans, b.csr.value.spki, OwnerOf(s, account, b),
          if ServesDevice(s, account, b) then b.backing else None)
  }

  lemma SansExactly(idents: seq<Ident>, sans: set<San>)
    ensures sans == SansOf(idents) <==>
              && (forall i | i in idents :: DnsSan(i.value) in sans)
              && (forall x | x in sans :: x.DnsSan? && exists i | i in idents :: i.value == x.name)
  {
    if (forall i | i in idents :: DnsSan(i.value) in sans) &&
       (forall x | x in sans :: x.DnsSan? && exists i | i in idents :: i.value == x.name) {
      forall x ensures x in sans <==> x in SansOf(idents) {
        if x in sans {
          var i :| i in idents && i.value == x.name;
          assert DnsSan(i.value) == x;
        }
      }
    }
  }

  lemma ServedBy(s: State, account: nat, b: Body)
    requires b.Finalize? && account in s.accounts
    ensures !(ServesNames(s, account, b) && ServesDevice(s, account, b))
    ensures ServesNames(s, account, b) ==>
              var owner := OwnerOf(s, account, b);
              FinalizeOrder(s, account, b) ==
                Serve(s, b, s.orders[b.target], account, owner, s.certs[b.cert := Cert(0, 0, owner, b.ca)])
    ensures ServesDevice(s, account, b) ==> FinalizeOrder(s, account, b) == FinalizeDevice(s, account, b)
    ensures !ServesNames(s, account, b) && !ServesDevice(s, account, b) ==> FinalizeOrder(s, account, b) == s
  {
    hide SansOf, Serve, RevokeAll, EarlierCerts;
    if b.target !in s.orders { return; }
    if b.csr.Some? { SansExactly(s.orders[b.target].idents, b.csr.value.sans); }
    if IsDeviceOrder(s.orders[b.target].idents) { return; }
    assert forall i | i in s.orders[b.target].idents :: i.kind != Device;
  }

  lemma FinalizedRows(s: State, account: nat, b: Body)
    requires b.Finalize? && account in s.accounts
    ensures var n, served := FinalizeOrder(s, account, b), ServesNames(s, account, b) || ServesDevice(s, account, b);
            && n.orders == (if served then s.orders[b.target := s.orders[b.target].(status := Valid, cert := b.cert)]
                            else s.orders)
            && n.issued == s.issued + (if served then {Certificate(s, account, b)} else {})
  {
    hide FinalizeOrder, RevokeAll, EarlierCerts;
    ServedBy(s, account, b);
    if ServesDevice(s, account, b) { DeviceServed(s, account, b); }
  }

  lemma DeviceServed(s: State, account: nat, b: Body)
    requires ServesDevice(s, account, b)
    ensures var n := FinalizeDevice(s, account, b);
            && n.orders == s.orders[b.target := s.orders[b.target].(status := Valid, cert := b.cert)]
            && n.issued == s.issued + {Certificate(s, account, b)}
  {
    hide RevokeAll, EarlierCerts;
  }

  // ---- every order, at every event -------------------------------------------

  ghost predicate SameOrderRow(s: State, n: State, o: nat)
  {
    (o in n.orders <==> o in s.orders) && (o in s.orders ==> n.orders[o] == s.orders[o])
  }

  ghost predicate Places(s: State, e: Event, o: nat)
  {
    Asks(s, e) && e.body.NewOrder? && e.body.id == o && (WantsNames(s, Sender(e), e.body) || WantsDevice(s, e.body))
  }

  ghost predicate ReadiedByDevice(s: State, e: Event, o: nat)
  {
    && Asks(s, e) && DeviceProves(s, Sender(e), e.body)
    && var a := s.challs[e.body.target].authz; s.authzs[a].order == Some(o) && OthersProven(s, o, a)
  }

  ghost predicate ReadiedByVerifier(s: State, e: Event, o: nat)
  {
    && VerifierProves(s, e)
    && var sn := s.running[e.job]; sn.order.Some? && sn.a.order == Some(o) && OthersProven(s, o, sn.authz)
  }

  ghost predicate Served(s: State, e: Event, o: nat)
  {
    Asks(s, e) && e.body.Finalize? && e.body.target == o &&
    (ServesNames(s, Sender(e), e.body) || ServesDevice(s, Sender(e), e.body))
  }

  // Placed pending, or ready when every name was reused; made ready by the last proof; served; and
  // nothing else ever touches it.
  lemma OrderRule(s: State, e: Event, o: nat)
    ensures var n := Step(s, e);
            if Places(s, e, o) then
              var ready := WantsNames(s, Sender(e), e.body) && forall d | d in e.body.draws :: d.reuse.Some?;
              o in n.orders &&
              n.orders[o] == Order(if ready then Ready else Pending, e.body.idents, Sender(e), e.body.ca, "")
            else if ReadiedByDevice(s, e, o) then o in n.orders && n.orders[o] == s.orders[o].(status := Ready)
            else if ReadiedByVerifier(s, e, o) then
              o in n.orders && n.orders[o] == s.running[e.job].order.value.(status := Ready)
            else if Served(s, e, o) then
              o in n.orders && n.orders[o] == s.orders[o].(status := Valid, cert := e.body.cert)
            else SameOrderRow(s, n, o)
  {
    hide Step, WantsNames, WantsDevice, DeviceProves, AnswersDevice, ServesNames, ServesDevice, OthersProven,
         VerifierProves;
    NotOthers(s, e);
    if Asks(s, e) && e.body.NewOrder? {
      OrderEvent(s, e);
    } else if Asks(s, e) && e.body.PostChallenge? {
      ChallengeEvent(s, e);
      if DeviceProves(s, Sender(e), e.body) { ProvesRows(s, e); }
    } else if Asks(s, e) && e.body.Finalize? {
      FinalizeEvent(s, e);
      if Served(s, e, o) { ServedThere(s, e); }
    } else if e.VerifierFinishes? {
      VerifierEvent(s, e);
    } else {
      OthersKeepOrders(s, e);
    }
  }

  lemma ProvesRows(s: State, e: Event)
    requires e.Post? && DeviceProves(s, Sender(e), e.body)
    ensures e.body.PostChallenge? && e.body.target in s.challs && s.challs[e.body.target].authz in s.authzs
    ensures var order := s.authzs[s.challs[e.body.target].authz].order; order.Some? && order.value in s.orders
  {
  }

  // The four ways exclude each other.
  lemma NotOthers(s: State, e: Event)
    ensures !e.VerifierFinishes? ==> !VerifierProves(s, e)
    ensures e.Post? && !e.body.PostChallenge? ==> !DeviceProves(s, Sender(e), e.body)
  {
  }

  lemma OrderEvent(s: State, e: Event)
    requires Asks(s, e) && e.body.NewOrder?
    ensures var b, account := e.body, Sender(e);
            Step(s, e).orders ==
              if WantsNames(s, account, b) then
                s.orders[b.id := Order(if forall d | d in b.draws :: d.reuse.Some? then Ready else Pending, b.idents,
                                       account, b.ca, "")]
              else if WantsDevice(s, b) then s.orders[b.id := Order(Pending, b.idents, account, b.ca, "")]
              else s.orders
  {
    hide Step, PlaceOrder, ValidDnsName;
    AsksOrder(s, e);
    OrdersPlaced(Consumed(s, e.nonce), e.form.account, e.body);
  }

  lemma ChallengeEvent(s: State, e: Event)
    requires Asks(s, e) && e.body.PostChallenge?
    ensures var b := e.body;
            Step(s, e).orders ==
              if DeviceProves(s, Sender(e), b) then
                var a := s.challs[b.target].authz;
                var o := s.authzs[a].order.value;
                if OthersProven(s, o, a) then s.orders[o := s.orders[o].(status := Ready)] else s.orders
              else s.orders
  {
    hide Step, Trigger;
    AsksChallenge(s, e);
    OrdersTriggered(Consumed(s, e.nonce), e.form.account, e.body);
  }

  lemma FinalizeEvent(s: State, e: Event)
    requires Asks(s, e) && e.body.Finalize?
    ensures var n, b := Step(s, e), e.body;
            var served := ServesNames(s, Sender(e), b) || ServesDevice(s, Sender(e), b);
            && n.orders == (if served then s.orders[b.target := s.orders[b.target].(status := Valid, cert := b.cert)]
                            else s.orders)
            && n.issued == s.issued + (if served then {Certificate(s, Sender(e), b)} else {})
  {
    hide Step, FinalizeOrder;
    AsksFinalize(s, e);
    FinalizedRows(Consumed(s, e.nonce), e.form.account, e.body);
  }

  lemma ServedThere(s: State, e: Event)
    requires e.Post? && e.body.Finalize? && Served(s, e, e.body.target)
    ensures e.body.target in s.orders
  {
  }

  lemma VerifierEvent(s: State, e: Event)
    requires e.VerifierFinishes?
    ensures Step(s, e).orders ==
              if VerifierProves(s, e) then
                var sn := s.running[e.job];
                if sn.order.Some? && sn.a.order.Some? && OthersProven(s, sn.a.order.value, sn.authz)
                then s.orders[sn.a.order.value := sn.order.value.(status := Ready)] else s.orders
              else s.orders
  {
    hide FinishVerifier, OthersProven, VerifierProves;
    OrdersVerified(s, e);
  }

  lemma OthersKeepOrders(s: State, e: Event)
    requires !(Asks(s, e) && (e.body.NewOrder? || e.body.PostChallenge? || e.body.Finalize?)) && !e.VerifierFinishes?
    ensures Step(s, e).orders == s.orders
  {
    hide Answer, StartVerifier, RevokeRow, ReleaseRow;
    if e.Post? {
      PostKeepsOrders(s, e);
    } else if e.VerifierStarts? {
      StartFrame(s, e.chall, e.job);
    }
  }

  lemma PostKeepsOrders(s: State, e: Event)
    requires e.Post? && !(Asks(s, e) && (e.body.NewOrder? || e.body.PostChallenge? || e.body.Finalize?))
    ensures Answer(s, e).orders == s.orders && Answer(s, e).issued == s.issued
  {
    hide Handled, Answer;
    AnswerRows(s, e);
    if e.nonce in s.nonces { HandledKeepsOrders(Consumed(s, e.nonce), e.signer, e.form, e.body); }
  }

  lemma HandledKeepsOrders(s: State, signer: string, form: Form, b: Body)
    requires !(form.Kid? && SignedBy(s, signer, form, form.account) &&
               (b.NewOrder? || b.PostChallenge? || b.Finalize?))
    ensures var n := Handled(s, signer, form, b); n.orders == s.orders && n.issued == s.issued
  {
    hide CreateAccount, DeactivateAccount, ChangeKey, PlaceOrder, PreAuthorize, DeactivateAuthz, Trigger,
         FinalizeOrder, RevokeByHolder;
    if form.Kid? && !SignedBy(s, signer, form, form.account) { return; }
    if b.RevokeCert? { RevokeFrame(s, signer, form, b); return; }
    if form.Jwk? {
      if b.NewAccount? { CreateFrame(s, signer, b); }
      return;
    }
    match b
    case NewAccount(_, _, _, _) =>
    case NewAuthz(_, _) => AuthzFrame(s, form.account, b);
    case UpdateAccount(_, _) => DeactivateFrame(s, form.account, b);
    case KeyChange(_, _) => KeyFrame(s, form.account, b);
    case UpdateAuthz(_, _) => AuthzFrame(s, form.account, b);
  }

  // ---- every certificate -----------------------------------------------------

  // A certificate is issued exactly when an order is served, and it is this one.
  lemma IssueRule(s: State, e: Event)
    ensures Step(s, e).issued ==
              s.issued + if e.Post? && e.body.Finalize? && Served(s, e, e.body.target)
                         then {Certificate(s, Sender(e), e.body)} else {}
  {
    hide Step, ServesNames, ServesDevice, Certificate;
    if Asks(s, e) && e.body.Finalize? { FinalizeEvent(s, e); } else { OthersIssueNothing(s, e); }
  }

  lemma OthersIssueNothing(s: State, e: Event)
    requires !(Asks(s, e) && e.body.Finalize?)
    ensures Step(s, e).issued == s.issued
  {
    hide Answer, StartVerifier, FinishVerifier, RevokeRow, ReleaseRow;
    if e.Post? {
      PostIssuesNothing(s, e);
    } else if e.VerifierStarts? {
      StartFrame(s, e.chall, e.job);
    } else if e.VerifierFinishes? {
      FinishFrame(s, e.job, e.ok);
    }
  }

  lemma PostIssuesNothing(s: State, e: Event)
    requires e.Post? && !(Asks(s, e) && e.body.Finalize?)
    ensures Answer(s, e).issued == s.issued
  {
    hide Step, Answer, PlaceOrder, Trigger;
    PostIs(s, e);
    if Asks(s, e) && e.body.NewOrder? {
      AsksOrder(s, e);
      OrderFrame(Consumed(s, e.nonce), e.form.account, e.body);
    } else if Asks(s, e) && e.body.PostChallenge? {
      AsksChallenge(s, e);
      TriggerFrame(Consumed(s, e.nonce), e.form.account, e.body);
    } else {
      PostKeepsOrders(s, e);
    }
  }

  // The certificate was issued at a step of the run that served its order.
  ghost predicate IssuedAlong(s: State, es: seq<Event>, i: Issue)
    requires Possible(s, es)
    decreases |es|
  {
    && es != []
    && ((&& es[0].Post? && es[0].body.Finalize? && Served(s, es[0], es[0].body.target)
         && i == Certificate(s, Sender(es[0]), es[0].body)) ||
        IssuedAlong(Step(s, es[0]), es[1..], i))
  }

  // In every run, exactly the certificates of its finalize requests are issued.
  lemma {:induction false} RunIssues(s: State, es: seq<Event>, i: Issue)
    requires Possible(s, es)
    ensures i in Run(s, es).issued <==> i in s.issued || IssuedAlong(s, es, i)
    decreases |es|
  {
    hide Step, Legal, Served, Certificate;
    if es != [] {
      IssueRule(s, es[0]);
      RunIssues(Step(s, es[0]), es[1..], i);
    }
  }
}
