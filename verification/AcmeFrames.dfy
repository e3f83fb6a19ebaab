/** Which stored rows each part of the ACME server can touch. */
module AcmeFrames {
  import opened Text
  import opened Acme

  // Placing authorizations touches nothing but authorizations and challenges.
  lemma {:induction false} PlacingFrame(s: State, order: nat, account: nat, idents: seq<Ident>, ds: seq<Draw>)
    requires |ds| == |idents|
    ensures var n := PlaceAuthzs(s, order, account, idents, ds); n == s.(authzs := n.authzs, challs := n.challs)
  {
    hide PlaceAuthz;
    if idents != [] {
      var n := |idents| - 1;
      PlacingFrame(s, order, account, idents[..n], ds[..n]);
      PlaceFrame(PlaceAuthzs(s, order, account, idents[..n], ds[..n]), order, account, idents[n], ds[n]);
    }
  }

  lemma PlaceFrame(s: State, order: nat, account: nat, ident: Ident, d: Draw)
    ensures var n := PlaceAuthz(s, order, account, ident, d); n == s.(authzs := n.authzs, challs := n.challs)
  {
  }

  lemma CreateFrame(s: State, signer: string, b: Body)
    requires b.NewAccount?
    ensures var n := CreateAccount(s, signer, b); n == s.(accounts := n.accounts)
  {
    hide KeyInUse, TicketOutstanding;
    if KeyInUse(s.accounts, signer) || b.onlyExisting || b.eab.BadEab? { return; }
    if b.eab.NoEab? && !(TicketOutstanding(s, b.now) || s.registered != map[]) { return; }
  }

  lemma DeactivateFrame(s: State, account: nat, b: Body)
    requires b.UpdateAccount? && account in s.accounts
    ensures var n := DeactivateAccount(s, account, b); n == s.(accounts := n.accounts)
  {
  }

  lemma KeyFrame(s: State, account: nat, b: Body)
    requires b.KeyChange? && account in s.accounts
    ensures var n := ChangeKey(s, account, b); n == s.(accounts := n.accounts)
  {
  }

  lemma OrderFrame(s: State, account: nat, b: Body)
    requires b.NewOrder? && account in s.accounts
    ensures var n := PlaceOrder(s, account, b);
            n == s.(orders := n.orders, authzs := n.authzs, challs := n.challs, tickets := n.tickets)
  {
    hide PlaceAuthzs, MakeAuthz, AllReused, IsDeviceOrder, ClaimableTicket;
    if |b.draws| == |b.idents| {
      PlacingFrame(s.(orders := s.orders[b.id := Order(Pending, b.idents, account, b.ca, "")]), b.id, account,
                   b.idents, b.draws);
      if |b.idents| == 1 { DeviceFrame(s, account, b); }
    }
  }

  lemma DeviceFrame(s: State, account: nat, b: Body)
    requires b.NewOrder? && |b.idents| == |b.draws| == 1
    ensures var n := DeviceOrder(s, account, b);
            && n == s.(orders := n.orders, authzs := n.authzs, challs := n.challs, tickets := n.tickets)
            && (n.orders == s.orders || n.orders == s.orders[b.id := Order(Pending, b.idents, account, b.ca, "")])
  {
  }

  lemma Claimable(s: State, ticket: Name, ca: string, now: int)
    requires ClaimableTicket(s, ticket, ca, now)
    ensures ticket in s.tickets
  {
  }

  lemma MadeFrame(s: State, order: Option<nat>, account: nat, ident: Ident, d: Draw)
    ensures var n := MakeAuthz(s, order, account, ident, d); n == s.(authzs := n.authzs, challs := n.challs)
  {
  }

  lemma AuthzFrame(s: State, account: nat, b: Body)
    ensures b.NewAuthz? ==>
              var n := PreAuthorize(s, account, b); n == s.(authzs := n.authzs, challs := n.challs)
    ensures b.UpdateAuthz? ==> var n := DeactivateAuthz(s, account, b); n == s.(authzs := n.authzs)
  {
  }

  lemma TriggerFrame(s: State, account: nat, b: Body)
    requires b.PostChallenge?
    ensures var n := Trigger(s, account, b);
            n == s.(orders := n.orders, authzs := n.authzs, challs := n.challs, tickets := n.tickets,
                    waiting := n.waiting, attested := n.attested)
  {
    hide OwnsChallenge, Attest;
    if !OwnsChallenge(s, account, b.target) { return; }
    Owned(s, account, b.target);
    if s.challs[b.target].typ == DeviceAttest01 {
      AttestFrame(s, b);
    } else {
      if s.challs[b.target].status != Untried { return; }
    }
  }

  lemma AttestFrame(s: State, b: Body)
    requires b.PostChallenge? && b.target in s.challs && s.challs[b.target].authz in s.authzs
    ensures var n := Attest(s, b);
            n == s.(orders := n.orders, authzs := n.authzs, challs := n.challs, tickets := n.tickets,
                    attested := n.attested)
  {
    hide AcceptAttestation;
    var c := s.challs[b.target];
    var a := s.authzs[c.authz];
    if c.status != Untried || a.order.None? || a.order.value !in s.orders { return; }
    if b.verdict.NoAttestation? || b.held.None? || b.held.value !in s.tickets { return; }
    var t := s.tickets[b.held.value];
    if b.verdict.BadAttestation? || (t.expected != [] && b.verdict.serial != t.expected) { return; }
    AcceptFrame(s, b, c, a, t);
  }

  lemma Owned(s: State, account: nat, chall: nat)
    requires OwnsChallenge(s, account, chall)
    ensures chall in s.challs && s.challs[chall].authz in s.authzs
  {
  }

  lemma ReadyFrame(s: State, order: nat, o: Order)
    ensures var n := MakeReady(s, order, o); n == s.(orders := n.orders)
  {
  }

  lemma AcceptFrame(s: State, b: Body, c: Challenge, a: Authz, t: Ticket)
    requires b.PostChallenge? && b.verdict.Attested? && b.held.Some?
    requires a.order.Some? && a.order.value in s.orders
    ensures var n := AcceptAttestation(s, b, c, a, t);
            n == s.(orders := n.orders, authzs := n.authzs, challs := n.challs, tickets := n.tickets,
                    attested := n.attested)
  {
  }

  lemma FinalizeFrame(s: State, account: nat, b: Body)
    requires b.Finalize? && account in s.accounts
    ensures var n := FinalizeOrder(s, account, b);
            n == s.(orders := n.orders, tickets := n.tickets, certs := n.certs, issued := n.issued)
  {
    hide MayFinalize, CsrFits, RevokeAll, EarlierCerts, IsDeviceOrder, OwnerName;
    if b.target !in s.orders { return; }
    if IsDeviceOrder(s.orders[b.target].idents) {
      if b.backing.None? || b.backing.value !in s.tickets { return; }
      var t := s.tickets[b.backing.value];
      if !MayFinalize(s, account, b, t.owner) { return; }
      GatePassed(s, account, b, t.owner);
      if t.spki == "" || b.csr.value.spki != t.spki { return; }
    } else {
      if !MayFinalize(s, account, b, s.accounts[account].kid) { return; }
      GatePassed(s, account, b, s.accounts[account].kid);
      if !CsrFits(b, s.orders[b.target]) { return; }
    }
  }

  // Only a ready order is served, with one certificate of a new serial.
  lemma FinalizeRows(s: State, account: nat, b: Body) returns (i: Issue)
    requires b.Finalize? && account in s.accounts
    ensures var n := FinalizeOrder(s, account, b);
            || (n.orders == s.orders && n.issued == s.issued)
            || (&& b.target in s.orders && s.orders[b.target].status == Ready
                && n.orders == s.orders[b.target := s.orders[b.target].(status := Valid, cert := b.cert)]
                && n.issued == s.issued + {i} && i.order == b.target && i.cert !in s.certs)
  {
    hide MayFinalize, CsrFits, RevokeAll, EarlierCerts, IsDeviceOrder, OwnerName;
    i := Issue(0, 0, "", "", {}, "", "", None);
    if b.target !in s.orders { return; }
    if IsDeviceOrder(s.orders[b.target].idents) {
      if b.backing.None? || b.backing.value !in s.tickets { return; }
      var t := s.tickets[b.backing.value];
      if !MayFinalize(s, account, b, t.owner) { return; }
      GatePassed(s, account, b, t.owner);
      if t.spki == "" || b.csr.value.spki != t.spki { return; }
      i := Issue(b.target, account, b.ca, b.cert, b.csr.value.sans, b.csr.value.spki, t.owner, b.backing);
    } else {
      var kid := s.accounts[account].kid;
      if !MayFinalize(s, account, b, kid) { return; }
      GatePassed(s, account, b, kid);
      if !CsrFits(b, s.orders[b.target]) { return; }
      i := Issue(b.target, account, b.ca, b.cert, b.csr.value.sans, b.csr.value.spki, OwnerName(account, kid), None);
    }
  }

  lemma GatePassed(s: State, account: nat, b: Body, user: string)
    requires b.Finalize? && MayFinalize(s, account, b, user)
    ensures b.csr.Some? && b.target in s.orders && s.orders[b.target].status == Ready && b.cert !in s.certs
  {
  }

  lemma RevokeFrame(s: State, signer: string, form: Form, b: Body)
    requires b.RevokeCert?
    ensures var n := RevokeByHolder(s, signer, form, b); n == s.(certs := n.certs)
  {
  }

  lemma StartFrame(s: State, chall: nat, job: nat)
    ensures var n := StartVerifier(s, chall, job); n == s.(waiting := n.waiting, running := n.running)
  {
    if chall !in s.waiting { return; }
    var m := s.(waiting := s.waiting - {chall});
    if chall !in s.challs || s.challs[chall].authz !in s.authzs { return; }
    var c := s.challs[chall];
    var a := s.authzs[c.authz];
    var o := if a.order.Some? && a.order.value in s.orders then Some(s.orders[a.order.value]) else None;
    var account := if o.Some? then o.value.account else a.account;
    if account !in s.accounts { return; }
    assert StartVerifier(s, chall, job) == m.(running := s.running[job := Snapshot(chall, c, c.authz, a, o, account)]);
  }

  lemma FinishFrame(s: State, job: nat, ok: bool)
    ensures var n := FinishVerifier(s, job, ok);
            n == s.(running := n.running, challs := n.challs, authzs := n.authzs, orders := n.orders,
                    proofs := n.proofs)
  {
    hide WriteBack;
    if job in s.running { WriteBackFrame(s.(running := s.running - {job}), s.running[job]); }
  }

  lemma WriteBackFrame(s: State, sn: Snapshot)
    ensures var n := WriteBack(s, sn);
            n == s.(challs := n.challs, authzs := n.authzs, orders := n.orders, proofs := n.proofs)
  {
    hide AllProven, OnlyPassed, MakeReady;
    var n := s.(challs := OnlyPassed(s.challs[sn.chall := sn.c.(status := Passed)], sn.authz, sn.chall),
                authzs := s.authzs[sn.authz := sn.a.(status := Proven)],
                proofs := s.proofs + {Proof(sn.account, sn.a.ident.value, sn.c.typ)});
    if sn.order.Some? && sn.a.order.Some? { ReadyFrame(n, sn.a.order.value, sn.order.value); }
  }

  lemma LegalPost(s: State, e: Event)
    requires e.Post? && Legal(s, e)
    ensures LegalBody(Consumed(s, e.nonce), e.form, e.body)
  {
    hide LegalBody;
  }

  // Around its handler a request touches nonces only.
  lemma AnswerRows(s: State, e: Event)
    requires e.Post?
    ensures var n, h := Answer(s, e), Handled(Consumed(s, e.nonce), e.signer, e.form, e.body);
            && (e.nonce !in s.nonces ==> n == s.(nonces := n.nonces))
            && (e.nonce in s.nonces ==> n == h.(nonces := n.nonces))
  {
    hide Handled;
  }

  // A request touches neither nonces nor verifiers at work nor the record of proofs; certificates
  // and tickets' owners are changed by the handlers named here only.
  lemma HandledFrame(s: State, signer: string, form: Form, b: Body)
    ensures var n := Handled(s, signer, form, b);
            && n == s.(accounts := n.accounts, orders := n.orders, authzs := n.authzs, challs := n.challs,
                       tickets := n.tickets, certs := n.certs, waiting := n.waiting, attested := n.attested,
                       issued := n.issued)
            && (!b.NewAccount? && !b.UpdateAccount? && !b.KeyChange? ==> n.accounts == s.accounts)
            && (!b.NewOrder? && !b.PostChallenge? && !b.Finalize? ==> n.orders == s.orders && n.tickets == s.tickets)
  {
    hide CreateAccount, DeactivateAccount, ChangeKey, PlaceOrder, PreAuthorize, DeactivateAuthz, Trigger,
         FinalizeOrder, RevokeByHolder, KeyInUse;
    if form.Kid? && !SignedBy(s, signer, form, form.account) {
    } else if b.RevokeCert? {
      RevokeFrame(s, signer, form, b);
    } else if form.Jwk? {
      if b.NewAccount? { CreateFrame(s, signer, b); }
    } else {
      match b
      case NewAccount(_, _, _, _) =>
      case NewOrder(_, _, _, _, _, _, _) => OrderFrame(s, form.account, b);
      case NewAuthz(_, _) => AuthzFrame(s, form.account, b);
      case UpdateAccount(_, _) => DeactivateFrame(s, form.account, b);
      case KeyChange(_, _) => KeyFrame(s, form.account, b);
      case UpdateAuthz(_, _) => AuthzFrame(s, form.account, b);
      case PostChallenge(_, _, _) => TriggerFrame(s, form.account, b);
      case Finalize(_, _, _, _, _, _, _, _) => FinalizeFrame(s, form.account, b);
    }
  }
}
