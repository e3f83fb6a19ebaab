/** Issuance on names, over every run: whatever the interleaving of requests and verifiers, a
    certificate issued on a DNS order carries exactly the ordered names, and each of them was
    proved for the account that gets it, a wildcard by dns-01. */
module AcmeProofs {
  import opened Text
  import opened Names
  import opened Acme
  import opened AcmeFrames
  import opened AcmeLinks

  // Some validation succeeded for this account and this authorization's name, and for a
  // wildcard it was dns-01.
  ghost predicate Proves(p: Proof, a: Authz)
  {
    p.account == a.account && p.name == a.ident.value && p.typ != DeviceAttest01 && (a.wildcard ==> p.typ == Dns01)
  }

  ghost predicate Proved(proofs: set<Proof>, a: Authz) { exists p | p in proofs :: Proves(p, a) }

  ghost predicate ProvenRows(proofs: set<Proof>, authzs: map<nat, Authz>)
  {
    forall a | a in authzs && authzs[a].status == Proven && authzs[a].ident.kind != Device :: Proved(proofs, authzs[a])
  }

  ghost predicate OrderProved(proofs: set<Proof>, authzs: map<nat, Authz>, order: nat)
  {
    forall a | a in authzs && authzs[a].order == Some(order) :: Proved(proofs, authzs[a])
  }

  ghost predicate Settled(proofs: set<Proof>, orders: map<nat, Order>, authzs: map<nat, Authz>)
  {
    forall o | o in orders && orders[o].status != Pending && !IsDeviceOrder(orders[o].idents) ::
      OrderProved(proofs, authzs, o)
  }

  // What a certificate issued on names rests on.
  ghost predicate NameProved(s: State, i: Issue, ident: Ident)
  {
    exists a | a in s.authzs ::
      Covers(s.authzs[a], i.order, ident) && s.authzs[a].account == i.account && Proved(s.proofs, s.authzs[a])
  }

  ghost predicate Sound(s: State, i: Issue)
  {
    && i.order in s.orders && s.orders[i.order].account == i.account
    && (s.orders[i.order].ca == "" || s.orders[i.order].ca == i.ca)
    && i.sans == SansOf(s.orders[i.order].idents) && !IsDeviceOrder(s.orders[i.order].idents)
    && (forall ident | ident in s.orders[i.order].idents :: NameProved(s, i, ident))
  }

  ghost predicate IssuedSound(s: State)
  {
    forall i | i in s.issued && i.ticket.None? :: Sound(s, i)
  }

  ghost predicate ProofsOk(s: State)
  {
    ProvenRows(s.proofs, s.authzs) && Settled(s.proofs, s.orders, s.authzs) && IssuedSound(s)
  }

  // ---- growth ----------------------------------------------------------------

  lemma ProvedGrows(ps: set<Proof>, qs: set<Proof>, a: Authz, b: Authz)
    requires ps <= qs && SameAuthz(a, b) && Proved(ps, a)
    ensures Proved(qs, b)
  {
  }

  lemma SoundGrows(s: State, n: State)
    requires IssuedSound(s) && Grows(s, n) && n.issued == s.issued
    ensures IssuedSound(n)
  {
  }

  lemma OneSoundGrows(s: State, n: State, i: Issue)
    requires Sound(s, i) && Grows(s, n)
    ensures Sound(n, i)
  {
  }

  // A step that adds no proven row, settles no order and issues nothing.
  lemma QuietKeeps(s: State, n: State)
    requires ProofsOk(s) && Grows(s, n) && n.issued == s.issued
    requires forall a | a in n.authzs && n.authzs[a].status == Proven && n.authzs[a].ident.kind != Device ::
               (a in s.authzs && s.authzs[a].status == Proven) || Proved(n.proofs, n.authzs[a])
    requires forall o | o in n.orders && n.orders[o].status != Pending && !IsDeviceOrder(n.orders[o].idents) ::
               (o in s.orders && s.orders[o].status != Pending) || OrderProved(n.proofs, n.authzs, o)
    requires forall a | a in n.authzs && a !in s.authzs && n.authzs[a].order.Some? ::
               n.authzs[a].order.value !in s.orders || Proved(n.proofs, n.authzs[a])
    ensures ProofsOk(n)
  {
    hide Proved, IsDeviceOrder, Sound;
    SoundGrows(s, n);
    forall a | a in n.authzs && n.authzs[a].status == Proven && n.authzs[a].ident.kind != Device
      ensures Proved(n.proofs, n.authzs[a])
    {
      if a in s.authzs && s.authzs[a].status == Proven { ProvedGrows(s.proofs, n.proofs, s.authzs[a], n.authzs[a]); }
    }
    forall o | o in n.orders && n.orders[o].status != Pending && !IsDeviceOrder(n.orders[o].idents)
      ensures OrderProved(n.proofs, n.authzs, o)
    {
      if o in s.orders && s.orders[o].status != Pending {
        assert OrderProved(s.proofs, s.authzs, o);
        forall a | a in n.authzs && n.authzs[a].order == Some(o) ensures Proved(n.proofs, n.authzs[a]) {
          if a in s.authzs { ProvedGrows(s.proofs, n.proofs, s.authzs[a], n.authzs[a]); }
        }
      }
    }
  }

  lemma UntouchedProofs(s: State, n: State)
    requires ProofsOk(s) && n.orders == s.orders && n.authzs == s.authzs && n.proofs == s.proofs && n.issued == s.issued
    ensures ProofsOk(n)
  {
  }

  // ---- new orders ------------------------------------------------------------

  lemma PlaceProofs(s: State, order: nat, account: nat, ident: Ident, d: Draw)
    requires ProofsOk(s) && Grows(s, PlaceAuthz(s, order, account, ident, d)) && FreshDraw(s, d)
    requires ReuseFound(s, account, ident, d) && order in s.orders && s.orders[order].status == Pending
    requires ident.kind == DnsName
    ensures var n := PlaceAuthz(s, order, account, ident, d);
            && ProofsOk(n) && n.orders == s.orders
            && (d.reuse.Some? && OrderProved(s.proofs, s.authzs, order) ==> OrderProved(n.proofs, n.authzs, order))
  {
    hide IsDeviceOrder, Proved, IsWild, Base, Offer, ProofsOk, OrderProved;
    var n := PlaceAuthz(s, order, account, ident, d);
    if d.reuse.Some? {
      var row := s.authzs[d.reuse.value].(status := Proven, order := Some(order), account := account);
      ReusedIsProved(s, d.reuse.value, row);
      assert n == s.(authzs := s.authzs[d.authz := row]);
      RowAdded(s, n, d.authz, row, order);
    } else {
      RowAdded(s, n, d.authz, n.authzs[d.authz], order);
    }
  }

  lemma ReusedIsProved(s: State, a: nat, row: Authz)
    requires ProofsOk(s) && a in s.authzs && s.authzs[a].status == Proven && s.authzs[a].ident.kind != Device
    requires row.ident == s.authzs[a].ident && row.wildcard == s.authzs[a].wildcard
    requires row.account == s.authzs[a].account
    ensures Proved(s.proofs, row)
  {
  }

  lemma RowAdded(s: State, n: State, a: nat, row: Authz, order: nat)
    requires ProofsOk(s) && Grows(s, n) && a !in s.authzs && n.authzs == s.authzs[a := row]
    requires n.orders == s.orders && n.proofs == s.proofs && n.issued == s.issued
    requires row.order == Some(order) ==> order in s.orders && s.orders[order].status == Pending
    requires row.order.Some? ==> row.order == Some(order)
    requires row.status == Open || Proved(s.proofs, row)
    ensures ProofsOk(n)
    ensures Proved(s.proofs, row) && OrderProved(s.proofs, s.authzs, order) ==>
              OrderProved(n.proofs, n.authzs, order)
  {
  }

  lemma {:induction false} PlacingProofs(s: State, order: nat, account: nat, idents: seq<Ident>, ds: seq<Draw>)
    requires ProofsOk(s) && Linked(s) && LegalDraws(s, order, account, idents, ds)
    requires order in s.orders && s.orders[order].status == Pending && s.orders[order].account == account
    requires forall i | i in idents :: i.kind == DnsName
    requires !IsDeviceOrder(s.orders[order].idents) && OrderProved(s.proofs, s.authzs, order)
    ensures var n := PlaceAuthzs(s, order, account, idents, ds);
            && ProofsOk(n) && n.orders == s.orders
            && (AllReused(ds) ==> OrderProved(n.proofs, n.authzs, order))
  {
    hide Linked, ProofsOk, IsDeviceOrder, PlaceAuthz, FreshDraw, ReuseFound, OrderProved, Covers, Grows;
    if idents != [] {
      var k := |idents| - 1;
      var before := PlaceAuthzs(s, order, account, idents[..k], ds[..k]);
      PlacingProofs(s, order, account, idents[..k], ds[..k]);
      PlacingKeeps(s, order, account, idents[..k], ds[..k]);
      PlaceKeeps(before, order, account, idents[k], ds[k]);
      PlaceProofs(before, order, account, idents[k], ds[k]);
      assert ds == ds[..k] + [ds[k]];
      assert AllReused(ds) ==> AllReused(ds[..k]) && ds[k].reuse.Some?;
    }
  }

  lemma DnsOrderProofs(s: State, account: nat, b: Body)
    requires ProofsOk(s) && Linked(s) && b.NewOrder? && LegalBody(s, Kid(account), b)
    requires forall i | i in b.idents :: i.kind == DnsName
    ensures ProofsOk(PlaceDnsOrder(s, account, b))
  {
    hide ProofsOk, Linked, PlaceAuthzs, LegalDraws, AllReused, FreshDraw, OrderProved;
    var o := Order(Pending, b.idents, account, b.ca, "");
    var begun := s.(orders := s.orders[b.id := o]);
    OrderAdded(s, begun, b.id, o);
    PendingAdded(s, begun, b.id, o);
    assert !IsDeviceOrder(b.idents);
    PlacingProofs(begun, b.id, account, b.idents, b.draws);
    PlacingFrame(begun, b.id, account, b.idents, b.draws);
    PlacingKeeps(begun, b.id, account, b.idents, b.draws);
    if AllReused(b.draws) {
      var placed := PlaceAuthzs(begun, b.id, account, b.idents, b.draws);
      OrderRewritten(placed, MakeReady(placed, b.id, o), b.id, o.(status := Ready));
      ReadyProofs(placed, b.id, o);
    }
  }

  // Nothing refers to an order before it exists.
  lemma PendingAdded(s: State, n: State, id: nat, o: Order)
    requires ProofsOk(s) && Linked(s) && id !in s.orders && o.status == Pending && n.orders == s.orders[id := o]
    requires n.authzs == s.authzs && n.proofs == s.proofs && n.issued == s.issued && Grows(s, n)
    ensures ProofsOk(n) && OrderProved(n.proofs, n.authzs, id)
  {
  }

  // Making ready an order all of whose authorizations were proved.
  lemma ReadyProofs(s: State, order: nat, o: Order)
    requires ProofsOk(s) && order in s.orders && SameOrder(s.orders[order], o) && Grows(s, MakeReady(s, order, o))
    requires IsDeviceOrder(o.idents) || OrderProved(s.proofs, s.authzs, order)
    ensures ProofsOk(MakeReady(s, order, o))
  {
  }

  lemma DeviceOrderProofs(s: State, account: nat, b: Body)
    requires ProofsOk(s) && Linked(s) && Covered(s) && b.NewOrder? && LegalBody(s, Kid(account), b)
    requires IsDeviceOrder(b.idents)
    ensures ProofsOk(DeviceOrder(s, account, b))
  {
    hide Linked, Covered, ProofsOk, IsDeviceOrder, ClaimableTicket, LegalDraws, FreshDraw, PlaceDeviceOrder;
    if |b.idents| != 1 { return; }
    var v := b.idents[0].value;
    if ClaimableTicket(s, v, b.ca, b.now) {
      assert v in s.tickets by { Claimable(s, v, b.ca, b.now); }
      if !b.may(s.tickets[v].owner) { return; }
      DevicePlacedProofs(s, account, b, s.tickets[v := s.tickets[v].(order := Some(b.id))]);
    } else if (v, b.ca) in s.registered {
      var owner := s.registered[(v, b.ca)];
      if !b.may(owner) { return; }
      DevicePlacedProofs(s, account, b, s.tickets[b.ticket := SerialTicket(b, owner)]);
    }
  }

  lemma DevicePlacedProofs(s: State, account: nat, b: Body, tickets: map<Name, Ticket>)
    requires ProofsOk(s) && Linked(s) && Covered(s) && b.NewOrder? && b.id !in s.orders
    requires |b.idents| == |b.draws| == 1 && FreshDraw(s, b.draws[0]) && IsDeviceOrder(b.idents)
    ensures ProofsOk(PlaceDeviceOrder(s, account, b, tickets))
  {
    hide Linked, ProofsOk, Offer, IsWild, Base, OrderProved;
    var o, ident, d := Order(Pending, b.idents, account, b.ca, ""), b.idents[0], b.draws[0];
    var begun := s.(tickets := tickets, orders := s.orders[b.id := o]);
    OrderAdded(s, begun, b.id, o);
    PendingAdded(s, begun, b.id, o);
    BareIsFlagged(ident);
    MakeKeeps(begun, Some(b.id), account, ident, d);
    var n := MakeAuthz(begun, Some(b.id), account, ident, d);
    RowAdded(begun, n, d.authz, n.authzs[d.authz], b.id);
  }

  lemma OrderProofs(s: State, account: nat, b: Body)
    requires ProofsOk(s) && Linked(s) && Covered(s)
    requires b.NewOrder? && account in s.accounts && LegalBody(s, Kid(account), b)
    ensures ProofsOk(PlaceOrder(s, account, b))
  {
    hide ProofsOk, Linked, Covered, DeviceOrder, PlaceDnsOrder, LegalBody, ValidDnsName;
    if |b.draws| != |b.idents| { return; }
    if IsDeviceOrder(b.idents) {
      DeviceOrderProofs(s, account, b);
    } else {
      if s.accounts[account].kid == "" || !b.may(s.accounts[account].kid) || b.idents == [] { return; }
      if exists i | i in b.idents :: i.kind != DnsName || !ValidDnsName(i.value) { return; }
      DnsOrderProofs(s, account, b);
    }
  }

  // ---- authorizations and challenges -----------------------------------------

  lemma AuthzProofs(s: State, account: nat, b: Body)
    requires ProofsOk(s) && Linked(s) && LegalBody(s, Kid(account), b)
    ensures b.NewAuthz? ==> ProofsOk(PreAuthorize(s, account, b))
    ensures b.UpdateAuthz? ==> ProofsOk(DeactivateAuthz(s, account, b))
  {
    hide Linked, ProofsOk, IsDeviceOrder, Offer, IsWild, Base, OrderProved, Proved;
    if b.NewAuthz? && b.ident.kind == DnsName && b.ident.value != [] {
      BareIsFlagged(b.ident);
      MakeKeeps(s, None, account, b.ident, b.draw);
      var n := PreAuthorize(s, account, b);
      RowAdded(s, n, b.draw.authz, n.authzs[b.draw.authz], 0);
    }
    if b.UpdateAuthz? && b.target in s.authzs && s.authzs[b.target].account == account && b.deactivate {
      RowRestated(s, DeactivateAuthz(s, account, b), b.target, Deactivated);
    }
  }

  // Setting a status other than Proven, or Proven on a device, or Proven with the proof there.
  lemma RowRestated(s: State, n: State, a: nat, status: AuthzStatus)
    requires ProofsOk(s) && a in s.authzs && n.authzs == s.authzs[a := s.authzs[a].(status := status)]
    requires n.orders == s.orders && s.proofs <= n.proofs && n.issued == s.issued
    requires status != Proven || s.authzs[a].ident.kind == Device || Proved(n.proofs, n.authzs[a])
    ensures ProofsOk(n)
  {
    hide Proved, IsDeviceOrder, Sound, ProofsOk, OrderProved;
    assert Grows(s, n);
    QuietKeeps(s, n);
  }

  lemma TriggerProofs(s: State, account: nat, b: Body)
    requires ProofsOk(s) && Linked(s) && b.PostChallenge?
    ensures ProofsOk(Trigger(s, account, b))
  {
    hide ProofsOk, Linked, Attest, OwnsChallenge;
    if !OwnsChallenge(s, account, b.target) { return; }
    Owned(s, account, b.target);
    if s.challs[b.target].typ == DeviceAttest01 {
      AttestProofs(s, b);
    } else {
      if s.challs[b.target].status != Untried { return; }
      UntouchedProofs(s, Trigger(s, account, b));
    }
  }

  lemma AttestProofs(s: State, b: Body)
    requires ProofsOk(s) && Linked(s)
    requires b.PostChallenge? && b.target in s.challs && s.challs[b.target].authz in s.authzs
    requires s.challs[b.target].typ == DeviceAttest01
    ensures ProofsOk(Attest(s, b))
  {
    hide ProofsOk, Linked, AcceptAttestation;
    var c := s.challs[b.target];
    var a := s.authzs[c.authz];
    if c.status != Untried || a.order.None? || a.order.value !in s.orders { return; }
    if b.verdict.NoAttestation? || b.held.None? || b.held.value !in s.tickets { return; }
    var t := s.tickets[b.held.value];
    if b.verdict.BadAttestation? || (t.expected != [] && b.verdict.serial != t.expected) {
      UntouchedProofs(s, SetChallenge(s, b.target, c.(status := Failed)));
      return;
    }
    AcceptProofs(s, b, c, a, t);
  }

  lemma AcceptProofs(s: State, b: Body, c: Challenge, a: Authz, t: Ticket)
    requires ProofsOk(s) && Linked(s) && b.PostChallenge? && b.verdict.Attested? && b.held.Some?
    requires b.target in s.challs && c == s.challs[b.target] && c.typ == DeviceAttest01
    requires c.authz in s.authzs && a == s.authzs[c.authz] && a.order.Some? && a.order.value in s.orders
    ensures ProofsOk(AcceptAttestation(s, b, c, a, t))
  {
    hide ProofsOk, AllProven, IsDeviceOrder, IsWild, ChallsOk, AuthzsOk;
    var order := a.order.value;
    assert a.ident.kind == Device && IsDeviceOrder(s.orders[order].idents) by {
      DeviceChallenge(s, b.target);
    }
    var two := s.(tickets := s.tickets[b.held.value := t.(serial := b.verdict.serial, spki := b.verdict.spki)],
                  attested := s.attested + {Attestation(order, b.held.value, b.verdict.serial, b.verdict.spki)},
                  challs := s.challs[b.target := c.(status := Passed)],
                  authzs := s.authzs[c.authz := a.(status := Proven)]);
    RowRestated(s, two, c.authz, Proven);
    if AllProven(two.authzs, order) {
      assert Grows(two, MakeReady(two, order, s.orders[order]));
      ReadyProofs(two, order, s.orders[order]);
    }
  }

  lemma DeviceChallenge(s: State, c: nat)
    requires Linked(s) && c in s.challs && s.challs[c].typ == DeviceAttest01
    ensures s.challs[c].authz in s.authzs
    ensures var a := s.authzs[s.challs[c].authz];
            && a.ident.kind == Device && a.order.Some? && a.order.value in s.orders
            && IsDeviceOrder(s.orders[a.order.value].idents)
  {
  }

  lemma FinishProofs(s: State, job: nat, ok: bool)
    requires ProofsOk(s) && Linked(s) && Covered(s)
    ensures ProofsOk(FinishVerifier(s, job, ok))
  {
    hide ProofsOk, Linked, Covered, WriteBack;
    if job !in s.running { return; }
    var sn, one := s.running[job], s.(running := s.running - {job});
    UntouchedProofs(s, one);
    JobDone(s, job);
    if (sn.a.wildcard && sn.c.typ != Dns01) || sn.c.typ == DeviceAttest01 || !ok {
      UntouchedProofs(one, SetChallenge(one, sn.chall, sn.c.(status := Failed)));
      return;
    }
    WriteBackProofs(one, sn);
  }

  lemma WriteBackProofs(s: State, sn: Snapshot)
    requires ProofsOk(s) && Linked(s) && SnapOk(s.orders, s.authzs, sn) && (sn.a.wildcard ==> sn.c.typ == Dns01)
    ensures ProofsOk(WriteBack(s, sn))
  {
    hide ProofsOk, AllProven, IsDeviceOrder, OnlyPassed, IsWild, Linked;
    var p := Proof(sn.account, sn.a.ident.value, sn.c.typ);
    var three := s.(challs := OnlyPassed(s.challs[sn.chall := sn.c.(status := Passed)], sn.authz, sn.chall),
                    authzs := s.authzs[sn.authz := sn.a.(status := Proven)], proofs := s.proofs + {p});
    assert three.authzs == s.authzs[sn.authz := s.authzs[sn.authz].(status := Proven)];
    assert Proves(p, three.authzs[sn.authz]) && p in three.proofs;
    RowRestated(s, three, sn.authz, Proven);
    if sn.order.Some? && sn.a.order.Some? && AllProven(three.authzs, sn.a.order.value) {
      var order := sn.a.order.value;
      NoDeviceAmong(s, three, sn);
      AllProvenProved(three, order);
      assert Grows(three, MakeReady(three, order, sn.order.value));
      ReadyProofs(three, order, sn.order.value);
    }
  }

  // The other authorizations of the order are on names too.
  lemma NoDeviceAmong(s: State, n: State, sn: Snapshot)
    requires Linked(s) && SnapOk(s.orders, s.authzs, sn) && sn.a.order.Some?
    requires n.authzs == s.authzs[sn.authz := s.authzs[sn.authz].(status := Proven)]
    ensures forall a | a in n.authzs && n.authzs[a].order == sn.a.order :: n.authzs[a].ident.kind != Device
  {
  }

  lemma AllProvenProved(s: State, order: nat)
    requires ProofsOk(s) && AllProven(s.authzs, order)
    requires forall a | a in s.authzs && s.authzs[a].order == Some(order) :: s.authzs[a].ident.kind != Device
    ensures OrderProved(s.proofs, s.authzs, order)
  {
  }

  // ---- finalize --------------------------------------------------------------

  lemma FinalizeProofs(s: State, account: nat, b: Body)
    requires ProofsOk(s) && Linked(s) && Covered(s)
    requires b.Finalize? && account in s.accounts && LegalBody(s, Kid(account), b)
    ensures ProofsOk(FinalizeOrder(s, account, b))
  {
    hide ProofsOk, Linked, Covered, FinalizeDevice, FinalizeDns, LegalDraws;
    if b.target !in s.orders { return; }
    if IsDeviceOrder(s.orders[b.target].idents) {
      FinalizeDeviceProofs(s, account, b);
    } else {
      FinalizeDnsProofs(s, account, b);
    }
  }

  lemma FinalizeDeviceProofs(s: State, account: nat, b: Body)
    requires ProofsOk(s) && b.Finalize? && b.target in s.orders && IsDeviceOrder(s.orders[b.target].idents)
    ensures ProofsOk(FinalizeDevice(s, account, b))
  {
    hide ProofsOk, MayFinalize, RevokeAll, EarlierCerts, IsDeviceOrder, OrderProved;
    if b.backing.None? || b.backing.value !in s.tickets { return; }
    var t := s.tickets[b.backing.value];
    if !MayFinalize(s, account, b, t.owner) { return; }
    HasCsr(s, account, b, t.owner);
    if t.spki == "" || b.csr.value.spki != t.spki { return; }
    var n := FinalizeDevice(s, account, b);
    var quiet := n.(issued := s.issued);
    assert Grows(s, quiet);
    QuietKeeps(s, quiet);
    IssueAdded(quiet, n);
  }

  lemma HasCsr(s: State, account: nat, b: Body, user: string)
    requires b.Finalize? && MayFinalize(s, account, b, user)
    ensures b.csr.Some?
  {
  }

  // The record of issues grows by entries that are sound or on a ticket.
  lemma IssueAdded(s: State, n: State)
    requires ProofsOk(s) && n == s.(issued := n.issued)
    requires forall i | i in n.issued && i.ticket.None? :: i in s.issued || Sound(n, i)
    ensures ProofsOk(n)
  {
  }

  lemma FinalizeDnsProofs(s: State, account: nat, b: Body)
    requires ProofsOk(s) && Linked(s) && Covered(s) && b.Finalize? && b.target in s.orders && account in s.accounts
    requires !IsDeviceOrder(s.orders[b.target].idents)
    ensures ProofsOk(FinalizeDns(s, account, b))
  {
    hide ProofsOk, Linked, Covered, CsrFits, IsDeviceOrder, OrderProved, OwnerName, Sound;
    if !MayFinalize(s, account, b, s.accounts[account].kid) || !CsrFits(b, s.orders[b.target]) { return; }
    var n := FinalizeDns(s, account, b);
    var quiet := n.(issued := s.issued);
    assert Grows(s, quiet);
    QuietKeeps(s, quiet);
    var i := Issue(b.target, account, b.ca, b.cert, b.csr.value.sans, b.csr.value.spki,
                   OwnerName(account, s.accounts[account].kid), None);
    assert n.issued == s.issued + {i};
    IssueSound(s, n, b, i);
    IssueAdded(quiet, n);
  }

  lemma IssueSound(s: State, n: State, b: Body, i: Issue)
    requires ProofsOk(s) && Linked(s) && Covered(s) && b.Finalize? && b.csr.Some? && b.target in s.orders
    requires i.account in s.accounts && MayFinalize(s, i.account, b, s.accounts[i.account].kid)
    requires !IsDeviceOrder(s.orders[b.target].idents) && CsrFits(b, s.orders[b.target]) && Grows(s, n)
    requires i.order == b.target && i.ca == b.ca && i.sans == b.csr.value.sans
    ensures Sound(n, i)
  {
    hide IsDeviceOrder, SansOf, Covers, Proved, ChallsOk, WaitingOk, SnapsOk;
    var o := s.orders[b.target];
    assert OrderProved(s.proofs, s.authzs, b.target);
    assert CoveredOrder(s.authzs, b.target, o.idents);
    forall ident | ident in o.idents ensures NameProved(s, i, ident) {
      assert CoveredBy(s.authzs, b.target, ident);
      var a :| a in s.authzs && Covers(s.authzs[a], b.target, ident);
      CoversOrder(s.authzs[a], b.target, ident);
      assert AuthzOk(s.orders, s.authzs[a]);
    }
    assert Sound(s, i);
    OneSoundGrows(s, n, i);
  }

  lemma CoversOrder(a: Authz, order: nat, ident: Ident)
    requires Covers(a, order, ident)
    ensures a.order == Some(order)
  {
  }

  // ---- every run -------------------------------------------------------------

  lemma HandledProofs(s: State, signer: string, form: Form, b: Body)
    requires ProofsOk(s) && Linked(s) && Covered(s) && LegalBody(s, form, b)
    ensures ProofsOk(Handled(s, signer, form, b))
  {
    hide ProofsOk, Linked, Covered, CreateAccount, DeactivateAccount, ChangeKey, PlaceOrder, PreAuthorize,
         DeactivateAuthz, Trigger, FinalizeOrder, RevokeByHolder, LegalBody;
    if form.Kid? && !SignedBy(s, signer, form, form.account) {
    } else if b.RevokeCert? {
      RevokeFrame(s, signer, form, b);
      UntouchedProofs(s, Handled(s, signer, form, b));
    } else if form.Jwk? {
      if b.NewAccount? { CreateFrame(s, signer, b); }
      UntouchedProofs(s, Handled(s, signer, form, b));
    } else {
      match b
      case NewAccount(_, _, _, _) =>
      case NewOrder(_, _, _, _, _, _, _) => OrderProofs(s, form.account, b);
      case NewAuthz(_, _) => AuthzProofs(s, form.account, b);
      case UpdateAccount(_, _) => DeactivateFrame(s, form.account, b); UntouchedProofs(s, Handled(s, signer, form, b));
      case KeyChange(_, _) => KeyFrame(s, form.account, b); UntouchedProofs(s, Handled(s, signer, form, b));
      case UpdateAuthz(_, _) => AuthzProofs(s, form.account, b);
      case PostChallenge(_, _, _) => TriggerProofs(s, form.account, b);
      case Finalize(_, _, _, _, _, _, _, _) => FinalizeProofs(s, form.account, b);
    }
  }

  lemma StepProofs(s: State, e: Event)
    requires ProofsOk(s) && Linked(s) && Covered(s) && Legal(s, e)
    ensures ProofsOk(Step(s, e))
  {
    hide ProofsOk, Linked, Covered, Handled, StartVerifier, FinishVerifier, RevokeRow, ReleaseRow, LegalBody;
    match e
    case Post(nonce, _, signer, form, body) =>
      if nonce !in s.nonces {
        UntouchedProofs(s, Step(s, e));
      } else {
        var m := Consumed(s, nonce);
        OutsideKeeps(s, m);
        UntouchedProofs(s, m);
        HandledProofs(m, signer, form, body);
        UntouchedProofs(Handled(m, signer, form, body), Step(s, e));
      }
    case VerifierStarts(chall, job) => StartFrame(s, chall, job); UntouchedProofs(s, Step(s, e));
    case VerifierFinishes(job, ok) => FinishProofs(s, job, ok);
    case _ => UntouchedProofs(s, Step(s, e));
  }

  ghost predicate Proper(s: State) { Linked(s) && Covered(s) && ProofsOk(s) }

  lemma {:induction false} RunProofs(s: State, es: seq<Event>)
    requires Proper(s) && Possible(s, es)
    ensures Proper(Run(s, es))
    decreases |es|
  {
    hide Step, Legal, Linked, Covered, ProofsOk;
    if es != [] {
      StepKeeps(s, es[0]);
      StepProofs(s, es[0]);
      RunProofs(Step(s, es[0]), es[1..]);
    }
  }

  lemma FreshProper(s: State)
    requires Fresh(s)
    ensures Proper(s)
  {
  }

  // Every certificate issued on names, in every run from an empty store: the account owns the
  // order, the CA is the one the order records, the SANs are exactly the ordered names, and for
  // each name an authorization of the order was proved for that account.
  lemma NamesIssuedSoundly(s: State, es: seq<Event>, i: Issue)
    requires Fresh(s) && Possible(s, es) && i in Run(s, es).issued && i.ticket.None?
    ensures Sound(Run(s, es), i)
  {
    hide Run, Possible, Sound, Linked, Covered, ProvenRows, Settled;
    FreshProper(s);
    RunProofs(s, es);
  }

  // A wildcard in a certificate was proved by dns-01, also when the proof was reused.
  lemma WildcardsByDns01(s: State, es: seq<Event>, i: Issue, name: Name)
    requires Fresh(s) && Possible(s, es) && i in Run(s, es).issued && i.ticket.None?
    requires DnsSan(name) in i.sans && IsWild(name)
    ensures exists a, p :: && a in Run(s, es).authzs && p in Run(s, es).proofs
                           && Run(s, es).authzs[a].order == Some(i.order) && Run(s, es).authzs[a].wildcard
                           && p.account == i.account && p.typ == Dns01 && p.name == Run(s, es).authzs[a].ident.value
                           && (p.name == Base(name) || p.name == name)
  {
    hide Run, Possible, IsWild, Base;
    var e := Run(s, es);
    NamesIssuedSoundly(s, es, i);
    var ident :| ident in e.orders[i.order].idents && ident.value == name;
    assert NameProved(e, i, ident);
    var a :| a in e.authzs && Covers(e.authzs[a], i.order, ident) && e.authzs[a].account == i.account &&
             Proved(e.proofs, e.authzs[a]);
    var p :| p in e.proofs && Proves(p, e.authzs[a]);
  }
}
