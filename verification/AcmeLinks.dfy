/** How the stored rows of the ACME server hang together in every run: authorizations belong to
    their order's account, challenges fit their authorization, what a verifier holds still agrees
    with the rows it will write back, and every ordered name has an authorization of its order. */
module AcmeLinks {
  import opened Text
  import opened Names
  import opened Acme
  import opened AcmeFrames

  // The parts of a row that never change.
  ghost predicate SameOrder(o: Order, p: Order) { o.idents == p.idents && o.account == p.account && o.ca == p.ca }

  ghost predicate SameAuthz(a: Authz, b: Authz)
  {
    a.ident == b.ident && a.wildcard == b.wildcard && a.order == b.order && a.account == b.account &&
    a.expires == b.expires
  }

  ghost predicate OrdersGrow(os: map<nat, Order>, ps: map<nat, Order>)
  {
    forall o | o in os :: o in ps && SameOrder(os[o], ps[o])
  }

  ghost predicate AuthzsGrow(xs: map<nat, Authz>, ys: map<nat, Authz>)
  {
    forall a | a in xs :: a in ys && SameAuthz(xs[a], ys[a])
  }

  ghost predicate AuthzOk(orders: map<nat, Order>, a: Authz)
  {
    && (IsWild(a.ident.value) ==> a.wildcard)
    && match a.order
       case None => a.ident.kind == DnsName
       case Some(o) =>
         && o in orders && orders[o].account == a.account
         && (a.ident.kind == Device <==> IsDeviceOrder(orders[o].idents))
  }

  ghost predicate AuthzsOk(orders: map<nat, Order>, authzs: map<nat, Authz>)
  {
    forall a | a in authzs :: AuthzOk(orders, authzs[a])
  }

  ghost predicate ChallOk(authzs: map<nat, Authz>, c: Challenge)
  {
    c.authz in authzs && (c.typ == DeviceAttest01 <==> authzs[c.authz].ident.kind == Device)
  }

  ghost predicate ChallsOk(authzs: map<nat, Authz>, challs: map<nat, Challenge>)
  {
    forall c | c in challs :: ChallOk(authzs, challs[c])
  }

  ghost predicate WaitingOk(challs: map<nat, Challenge>, waiting: set<nat>)
  {
    forall c | c in waiting && c in challs :: challs[c].typ != DeviceAttest01
  }

  ghost predicate SnapOk(orders: map<nat, Order>, authzs: map<nat, Authz>, sn: Snapshot)
  {
    && sn.authz in authzs && SameAuthz(sn.a, authzs[sn.authz])
    && sn.c.authz == sn.authz && sn.c.typ != DeviceAttest01 && sn.a.ident.kind != Device
    && sn.account == sn.a.account
    && match sn.a.order
       case None => sn.order.None?
       case Some(o) => o in orders && sn.order.Some? && SameOrder(sn.order.value, orders[o])
  }

  ghost predicate SnapsOk(orders: map<nat, Order>, authzs: map<nat, Authz>, running: map<nat, Snapshot>)
  {
    forall j | j in running :: SnapOk(orders, authzs, running[j])
  }

  ghost predicate Linked(s: State)
  {
    && AuthzsOk(s.orders, s.authzs) && ChallsOk(s.authzs, s.challs) && WaitingOk(s.challs, s.waiting)
    && SnapsOk(s.orders, s.authzs, s.running)
  }

  ghost predicate Grows(s: State, n: State)
  {
    OrdersGrow(s.orders, n.orders) && AuthzsGrow(s.authzs, n.authzs) && s.proofs <= n.proofs
  }

  // ---- growth ----------------------------------------------------------------

  lemma GrowthKeeps(s: State, n: State)
    requires Linked(s) && OrdersGrow(s.orders, n.orders) && AuthzsGrow(s.authzs, n.authzs)
    ensures AuthzsOk(n.orders, s.authzs) && ChallsOk(n.authzs, s.challs) && SnapsOk(n.orders, n.authzs, s.running)
  {
  }

  lemma AuthzPut(orders: map<nat, Order>, authzs: map<nat, Authz>, a: nat, row: Authz)
    requires AuthzsOk(orders, authzs) && AuthzOk(orders, row)
    ensures AuthzsOk(orders, authzs[a := row])
    ensures a !in authzs || SameAuthz(authzs[a], row) ==> AuthzsGrow(authzs, authzs[a := row])
  {
  }

  lemma NothingGrew(s: State, n: State)
    requires n.orders == s.orders && n.authzs == s.authzs && n.proofs == s.proofs
    ensures Grows(s, n)
  {
  }

  lemma UntouchedKeeps(s: State, n: State)
    requires Linked(s) && n.orders == s.orders && n.authzs == s.authzs && n.proofs == s.proofs
    requires n.challs == s.challs && n.waiting == s.waiting && n.running == s.running
    ensures Linked(n) && Grows(s, n)
  {
  }

  // ---- one authorization -----------------------------------------------------

  lemma MakeKeeps(s: State, order: Option<nat>, account: nat, ident: Ident, d: Draw)
    requires Linked(s) && FreshDraw(s, d)
    requires AuthzOk(s.orders, Authz(Open, BareIdent(ident), IsWild(ident.value), order, account, d.expires))
    ensures var n := MakeAuthz(s, order, account, ident, d); Linked(n) && Grows(s, n)
  {
    hide AuthzOk, AuthzsOk, ChallsOk, WaitingOk, SnapsOk, IsWild, Base, Offer;
    var n := MakeAuthz(s, order, account, ident, d);
    AuthzPut(s.orders, s.authzs, d.authz,
             Authz(Open, BareIdent(ident), IsWild(ident.value), order, account, d.expires));
    GrowthKeeps(s, n);
    OfferKeeps(n.authzs, s.challs, s.waiting, ident, d);
  }

  lemma OfferKeeps(authzs: map<nat, Authz>, challs: map<nat, Challenge>, waiting: set<nat>, ident: Ident, d: Draw)
    requires ChallsOk(authzs, challs) && WaitingOk(challs, waiting)
    requires d.authz in authzs && authzs[d.authz].ident.kind == ident.kind && d.attest !in waiting
    ensures ChallsOk(authzs, Offer(challs, ident, d)) && WaitingOk(Offer(challs, ident, d), waiting)
  {
  }

  // The authorization's identifier never starts with "*." unless it is flagged.
  lemma BareIsFlagged(ident: Ident)
    ensures IsWild(BareIdent(ident).value) ==> IsWild(ident.value)
  {
  }

  // ---- a new order -----------------------------------------------------------

  // The authorization answers for the ordered identifier, and for a wildcard only when flagged.
  ghost predicate Covers(a: Authz, order: nat, ident: Ident)
  {
    && a.order == Some(order)
    && (a.ident.value == Base(ident.value) || a.ident.value == ident.value)
    && (IsWild(ident.value) ==> a.wildcard)
  }

  ghost predicate CoveredBy(authzs: map<nat, Authz>, order: nat, ident: Ident)
  {
    exists a | a in authzs :: Covers(authzs[a], order, ident)
  }

  ghost predicate CoveredOrder(authzs: map<nat, Authz>, order: nat, idents: seq<Ident>)
  {
    forall i | i in idents :: CoveredBy(authzs, order, i)
  }

  ghost predicate Covered(s: State)
  {
    forall o | o in s.orders :: CoveredOrder(s.authzs, o, s.orders[o].idents)
  }

  lemma CoverGrows(xs: map<nat, Authz>, ys: map<nat, Authz>, order: nat, idents: seq<Ident>)
    requires AuthzsGrow(xs, ys) && CoveredOrder(xs, order, idents)
    ensures CoveredOrder(ys, order, idents)
  {
  }

  lemma PlaceKeeps(s: State, order: nat, account: nat, ident: Ident, d: Draw)
    requires Linked(s) && FreshDraw(s, d) && ReuseFound(s, account, ident, d)
    requires order in s.orders && s.orders[order].account == account
    requires ident.kind == Device <==> IsDeviceOrder(s.orders[order].idents)
    ensures var n := PlaceAuthz(s, order, account, ident, d);
            Linked(n) && Grows(s, n) && d.authz in n.authzs && Covers(n.authzs[d.authz], order, ident)
  {
    hide IsDeviceOrder, ChallsOk, WaitingOk, SnapsOk, AuthzsOk, Base, IsWild, Offer;
    var n := PlaceAuthz(s, order, account, ident, d);
    if d.reuse.Some? {
      var row := s.authzs[d.reuse.value].(status := Proven, order := Some(order), account := account);
      assert AuthzOk(s.orders, s.authzs[d.reuse.value]) by { RowOk(s, d.reuse.value); }
      AuthzPut(s.orders, s.authzs, d.authz, row);
      GrowthKeeps(s, n);
    } else {
      BareIsFlagged(ident);
      MakeKeeps(s, Some(order), account, ident, d);
    }
  }

  lemma RowOk(s: State, a: nat)
    requires Linked(s) && a in s.authzs
    ensures AuthzOk(s.orders, s.authzs[a])
  {
  }

  lemma {:induction false} PlacingKeeps(s: State, order: nat, account: nat, idents: seq<Ident>, ds: seq<Draw>)
    requires Linked(s) && LegalDraws(s, order, account, idents, ds)
    requires order in s.orders && s.orders[order].account == account
    requires forall i | i in idents :: i.kind == Device <==> IsDeviceOrder(s.orders[order].idents)
    ensures var n := PlaceAuthzs(s, order, account, idents, ds);
            Linked(n) && Grows(s, n) && CoveredOrder(n.authzs, order, idents)
  {
    hide Linked, IsDeviceOrder, PlaceAuthz, Covers, FreshDraw, ReuseFound;
    if idents == [] {
      NothingGrew(s, s);
    } else {
      var k := |idents| - 1;
      var before := PlaceAuthzs(s, order, account, idents[..k], ds[..k]);
      PlacingKeeps(s, order, account, idents[..k], ds[..k]);
      PlacingFrame(s, order, account, idents[..k], ds[..k]);
      PlaceKeeps(before, order, account, idents[k], ds[k]);
      var n := PlaceAuthz(before, order, account, idents[k], ds[k]);
      GrowTwice(s, before, n);
      CoverGrows(before.authzs, n.authzs, order, idents[..k]);
      forall i | i in idents ensures CoveredBy(n.authzs, order, i) {
        if i in idents[..k] { assert CoveredBy(n.authzs, order, i); } else { assert i == idents[k]; }
      }
    }
  }

  lemma GrowTwice(s: State, m: State, n: State)
    requires Grows(s, m) && Grows(m, n)
    ensures Grows(s, n)
  {
  }

  // A state that adds an order nobody refers to yet.
  lemma OrderAdded(s: State, n: State, id: nat, o: Order)
    requires Linked(s) && id !in s.orders && n.orders == s.orders[id := o] && n.authzs == s.authzs
    requires n.challs == s.challs && n.waiting == s.waiting && n.running == s.running && n.proofs == s.proofs
    ensures Linked(n) && Grows(s, n)
  {
  }

  // Rewriting an order row without touching its fixed part.
  lemma OrderRewritten(s: State, n: State, id: nat, o: Order)
    requires Linked(s) && id in s.orders && SameOrder(s.orders[id], o) && n.orders == s.orders[id := o]
    requires n.authzs == s.authzs && s.proofs <= n.proofs
    requires n.challs == s.challs && n.waiting == s.waiting && n.running == s.running
    ensures Linked(n) && Grows(s, n)
  {
  }

  lemma StillCovered(s: State, n: State)
    requires Covered(s) && Grows(s, n) && n.orders.Keys <= s.orders.Keys
    ensures Covered(n)
  {
  }

  lemma CoveredWithNew(s: State, n: State, id: nat)
    requires Covered(s) && Grows(s, n) && n.orders.Keys <= s.orders.Keys + {id}
    requires id in n.orders ==> CoveredOrder(n.authzs, id, n.orders[id].idents)
    ensures Covered(n)
  {
  }

  // ---- every step ------------------------------------------------------------

  lemma DnsOrderKeeps(s: State, account: nat, b: Body)
    requires Linked(s) && Covered(s) && b.NewOrder? && LegalBody(s, Kid(account), b)
    requires forall i | i in b.idents :: i.kind == DnsName
    ensures var n := PlaceDnsOrder(s, account, b); Linked(n) && Grows(s, n) && Covered(n)
  {
    hide Linked, Covered, CoveredOrder, PlaceAuthzs, LegalDraws, AllReused, FreshDraw;
    var o := Order(Pending, b.idents, account, b.ca, "");
    var begun := s.(orders := s.orders[b.id := o]);
    OrderAdded(s, begun, b.id, o);
    assert !IsDeviceOrder(b.idents);
    PlacingKeeps(begun, b.id, account, b.idents, b.draws);
    PlacingFrame(begun, b.id, account, b.idents, b.draws);
    var placed := PlaceAuthzs(begun, b.id, account, b.idents, b.draws);
    GrowTwice(s, begun, placed);
    CoveredWithNew(s, placed, b.id);
    if AllReused(b.draws) {
      var n := MakeReady(placed, b.id, o);
      OrderRewritten(placed, n, b.id, o.(status := Ready));
      GrowTwice(s, placed, n);
      StillCovered(placed, n);
    }
  }

  lemma DeviceOrderKeeps(s: State, account: nat, b: Body)
    requires Linked(s) && Covered(s) && b.NewOrder? && LegalBody(s, Kid(account), b) && IsDeviceOrder(b.idents)
    ensures var n := DeviceOrder(s, account, b); Linked(n) && Grows(s, n) && Covered(n)
  {
    hide Linked, Covered, ClaimableTicket, PlaceDeviceOrder, LegalDraws, FreshDraw, IsDeviceOrder;
    if |b.idents| != 1 { NothingGrew(s, s); return; }
    var v := b.idents[0].value;
    if ClaimableTicket(s, v, b.ca, b.now) {
      assert v in s.tickets by { Claimable(s, v, b.ca, b.now); }
      if !b.may(s.tickets[v].owner) { NothingGrew(s, s); return; }
      DevicePlaced(s, account, b, s.tickets[v := s.tickets[v].(order := Some(b.id))]);
    } else if (v, b.ca) in s.registered {
      var owner := s.registered[(v, b.ca)];
      if !b.may(owner) { NothingGrew(s, s); return; }
      DevicePlaced(s, account, b, s.tickets[b.ticket := SerialTicket(b, owner)]);
    } else {
      NothingGrew(s, s);
    }
  }

  lemma DevicePlaced(s: State, account: nat, b: Body, tickets: map<Name, Ticket>)
    requires Linked(s) && Covered(s) && b.NewOrder? && b.id !in s.orders && |b.idents| == |b.draws| == 1
    requires FreshDraw(s, b.draws[0]) && IsDeviceOrder(b.idents)
    ensures var n := PlaceDeviceOrder(s, account, b, tickets); Linked(n) && Grows(s, n) && Covered(n)
  {
    hide Linked, Covered, MakeAuthz, IsWild, Base;
    var o, ident, d := Order(Pending, b.idents, account, b.ca, ""), b.idents[0], b.draws[0];
    var begun := s.(tickets := tickets, orders := s.orders[b.id := o]);
    OrderAdded(s, begun, b.id, o);
    BareIsFlagged(ident);
    MakeKeeps(begun, Some(b.id), account, ident, d);
    var n := MakeAuthz(begun, Some(b.id), account, ident, d);
    MadeFrame(begun, Some(b.id), account, ident, d);
    GrowTwice(s, begun, n);
    MadeCovers(begun, b.id, account, ident, d);
    assert forall i | i in b.idents :: i == ident;
    CoveredWithNew(s, n, b.id);
  }

  lemma MadeCovers(s: State, order: nat, account: nat, ident: Ident, d: Draw)
    ensures CoveredBy(MakeAuthz(s, Some(order), account, ident, d).authzs, order, ident)
  {
    hide IsWild, Base, Offer;
    var n := MakeAuthz(s, Some(order), account, ident, d);
    assert Covers(n.authzs[d.authz], order, ident);
  }

  lemma OrderKeeps(s: State, account: nat, b: Body)
    requires Linked(s) && Covered(s) && b.NewOrder? && account in s.accounts && LegalBody(s, Kid(account), b)
    ensures var n := PlaceOrder(s, account, b); Linked(n) && Grows(s, n) && Covered(n)
  {
    hide Linked, Covered, DeviceOrder, PlaceDnsOrder, LegalBody, ValidDnsName;
    NothingGrew(s, s);
    if |b.draws| != |b.idents| { return; }
    if IsDeviceOrder(b.idents) {
      DeviceOrderKeeps(s, account, b);
    } else {
      if s.accounts[account].kid == "" || !b.may(s.accounts[account].kid) || b.idents == [] { return; }
      if exists i | i in b.idents :: i.kind != DnsName || !ValidDnsName(i.value) { return; }
      DnsOrderKeeps(s, account, b);
    }
  }

  lemma AuthzKeeps(s: State, account: nat, b: Body)
    requires Linked(s) && Covered(s) && LegalBody(s, Kid(account), b)
    ensures b.NewAuthz? ==> var n := PreAuthorize(s, account, b); Linked(n) && Grows(s, n) && Covered(n)
    ensures b.UpdateAuthz? ==> var n := DeactivateAuthz(s, account, b); Linked(n) && Grows(s, n) && Covered(n)
  {
    hide Linked, Covered, MakeAuthz, IsWild, Base, FreshDraw, AuthzsGrow, LegalDraws;
    NothingGrew(s, s);
    if b.NewAuthz? && b.ident.kind == DnsName && b.ident.value != [] {
      BareIsFlagged(b.ident);
      MakeKeeps(s, None, account, b.ident, b.draw);
      MadeFrame(s, None, account, b.ident, b.draw);
      StillCovered(s, PreAuthorize(s, account, b));
    }
    if b.UpdateAuthz? && b.target in s.authzs && s.authzs[b.target].account == account && b.deactivate {
      StatusSet(s, DeactivateAuthz(s, account, b), b.target, Deactivated);
    }
  }

  // Setting the status of one authorization.
  lemma StatusSet(s: State, n: State, a: nat, status: AuthzStatus)
    requires Linked(s) && Covered(s) && a in s.authzs && n.authzs == s.authzs[a := s.authzs[a].(status := status)]
    requires n.orders == s.orders && s.proofs <= n.proofs
    requires n.challs == s.challs && n.waiting == s.waiting && n.running == s.running
    ensures Linked(n) && Grows(s, n) && Covered(n)
  {
    hide Covered, ChallsOk, WaitingOk, SnapsOk, AuthzsOk;
    RowOk(s, a);
    AuthzPut(s.orders, s.authzs, a, s.authzs[a].(status := status));
    GrowthKeeps(s, n);
    StillCovered(s, n);
  }

  // Setting one challenge row.
  lemma ChallengeSet(s: State, n: State, c: nat, row: Challenge)
    requires Linked(s) && Covered(s) && ChallOk(s.authzs, row) && n.challs == s.challs[c := row]
    requires n.waiting <= s.waiting + {c} && (c in n.waiting ==> row.typ != DeviceAttest01)
    requires n.orders == s.orders && n.authzs == s.authzs && n.proofs == s.proofs && n.running == s.running
    ensures Linked(n) && Grows(s, n) && Covered(n)
  {
  }

  lemma TriggerKeeps(s: State, account: nat, b: Body)
    requires Linked(s) && Covered(s) && b.PostChallenge?
    ensures var n := Trigger(s, account, b); Linked(n) && Grows(s, n) && Covered(n)
  {
    hide Linked, Covered, Attest, OwnsChallenge;
    NothingGrew(s, s);
    if !OwnsChallenge(s, account, b.target) { return; }
    Owned(s, account, b.target);
    if s.challs[b.target].typ == DeviceAttest01 {
      AttestKeeps(s, b);
    } else {
      if s.challs[b.target].status != Untried { return; }
      var row := s.challs[b.target].(status := Processing);
      RowFits(s, b.target, row);
      ChallengeSet(s, Trigger(s, account, b), b.target, row);
    }
  }

  lemma RowFits(s: State, c: nat, row: Challenge)
    requires Linked(s) && c in s.challs && row.typ == s.challs[c].typ && row.authz == s.challs[c].authz
    ensures ChallOk(s.authzs, row)
    ensures c in s.waiting ==> row.typ != DeviceAttest01
  {
  }

  lemma AttestKeeps(s: State, b: Body)
    requires Linked(s) && Covered(s)
    requires b.PostChallenge? && b.target in s.challs && s.challs[b.target].authz in s.authzs
    ensures var n := Attest(s, b); Linked(n) && Grows(s, n) && Covered(n)
  {
    hide Linked, Covered, AcceptAttestation, ChallOk;
    NothingGrew(s, s);
    var c := s.challs[b.target];
    var a := s.authzs[c.authz];
    if c.status != Untried || a.order.None? || a.order.value !in s.orders { return; }
    if b.verdict.NoAttestation? || b.held.None? || b.held.value !in s.tickets { return; }
    var t := s.tickets[b.held.value];
    RowFits(s, b.target, c.(status := Failed));
    RowFits(s, b.target, c.(status := Passed));
    if b.verdict.BadAttestation? || (t.expected != [] && b.verdict.serial != t.expected) {
      ChallengeSet(s, SetChallenge(s, b.target, c.(status := Failed)), b.target, c.(status := Failed));
      return;
    }
    AcceptKeeps(s, b, c, a, t);
  }

  lemma AcceptKeeps(s: State, b: Body, c: Challenge, a: Authz, t: Ticket)
    requires Linked(s) && Covered(s) && b.PostChallenge? && b.verdict.Attested? && b.held.Some?
    requires c.authz in s.authzs && a == s.authzs[c.authz] && a.order.Some? && a.order.value in s.orders
    requires ChallOk(s.authzs, c.(status := Passed)) && (b.target in s.waiting ==> c.typ != DeviceAttest01)
    ensures var n := AcceptAttestation(s, b, c, a, t); Linked(n) && Grows(s, n) && Covered(n)
  {
    hide Linked, Covered, AllProven, ChallOk;
    var order := a.order.value;
    var one := s.(tickets := s.tickets[b.held.value := t.(serial := b.verdict.serial, spki := b.verdict.spki)],
                  attested := s.attested + {Attestation(order, b.held.value, b.verdict.serial, b.verdict.spki)},
                  challs := s.challs[b.target := c.(status := Passed)]);
    ChallengeSet(s, one, b.target, c.(status := Passed));
    var two := one.(authzs := s.authzs[c.authz := a.(status := Proven)]);
    StatusSet(one, two, c.authz, Proven);
    GrowTwice(s, one, two);
    if AllProven(two.authzs, order) {
      var n := MakeReady(two, order, s.orders[order]);
      OrderRewritten(two, n, order, s.orders[order].(status := Ready));
      GrowTwice(s, two, n);
      StillCovered(two, n);
    }
  }

  lemma StartKeeps(s: State, chall: nat, job: nat)
    requires Linked(s) && Covered(s) && job !in s.running
    ensures var n := StartVerifier(s, chall, job); Linked(n) && Grows(s, n) && Covered(n)
  {
    hide Linked, Covered;
    var n := StartVerifier(s, chall, job);
    StartFrame(s, chall, job);
    NothingGrew(s, n);
    StillCovered(s, n);
    if job in n.running {
      assert chall in s.waiting && chall in s.challs && s.challs[chall].authz in s.authzs;
      SnapTaken(s, chall, n.running[job]);
      RunningPut(s, n, job);
    } else {
      assert n.running == s.running;
      RunningPut(s, n, job);
    }
  }

  // The snapshot agrees with the rows it was taken from.
  lemma SnapTaken(s: State, chall: nat, sn: Snapshot)
    requires Linked(s) && chall in s.waiting && chall in s.challs && s.challs[chall].authz in s.authzs
    requires var c := s.challs[chall];
             var a := s.authzs[c.authz];
             var o := if a.order.Some? && a.order.value in s.orders then Some(s.orders[a.order.value]) else None;
             sn == Snapshot(chall, c, c.authz, a, o, if o.Some? then o.value.account else a.account)
    ensures SnapOk(s.orders, s.authzs, sn)
  {
  }

  lemma RunningPut(s: State, n: State, job: nat)
    requires Linked(s) && n == s.(waiting := n.waiting, running := n.running) && n.waiting <= s.waiting
    requires forall j | j in n.running && j != job :: j in s.running && n.running[j] == s.running[j]
    requires job in n.running ==> SnapOk(s.orders, s.authzs, n.running[job])
    ensures Linked(n)
  {
  }

  lemma FinishKeeps(s: State, job: nat, ok: bool)
    requires Linked(s) && Covered(s)
    ensures var n := FinishVerifier(s, job, ok); Linked(n) && Grows(s, n) && Covered(n)
  {
    hide Linked, Covered, WriteBack, SnapOk;
    NothingGrew(s, s);
    if job !in s.running { return; }
    var sn, one := s.running[job], s.(running := s.running - {job});
    JobDone(s, job);
    assert sn.c.authz in s.authzs && ChallOk(s.authzs, sn.c.(status := Failed)) by { SnapFits(s.orders, s.authzs, sn); }
    if (sn.a.wildcard && sn.c.typ != Dns01) || sn.c.typ == DeviceAttest01 || !ok {
      var row := sn.c.(status := Failed);
      SnapFits(s.orders, s.authzs, sn);
      ChallengeSet(one, SetChallenge(one, sn.chall, row), sn.chall, row);
      GrowTwice(s, one, SetChallenge(one, sn.chall, row));
      return;
    }
    WriteBackKeeps(one, sn);
    GrowTwice(s, one, WriteBack(one, sn));
  }

  lemma JobDone(s: State, job: nat)
    requires Linked(s) && Covered(s) && job in s.running
    ensures var n := s.(running := s.running - {job}); Linked(n) && Grows(s, n) && Covered(n)
    ensures SnapOk(s.orders, s.authzs, s.running[job])
  {
  }

  lemma SnapFits(orders: map<nat, Order>, authzs: map<nat, Authz>, sn: Snapshot)
    requires SnapOk(orders, authzs, sn)
    ensures forall st :: ChallOk(authzs, sn.c.(status := st))
    ensures sn.c.authz == sn.authz && sn.authz in authzs && sn.c.typ != DeviceAttest01
  {
  }

  lemma WriteBackKeeps(s: State, sn: Snapshot)
    requires Linked(s) && Covered(s) && SnapOk(s.orders, s.authzs, sn)
    ensures var n := WriteBack(s, sn); Linked(n) && Grows(s, n) && Covered(n)
  {
    hide Linked, Covered, AllProven, OnlyPassed, ChallOk;
    var row := sn.c.(status := Passed);
    SnapFits(s.orders, s.authzs, sn);
    var one := s.(challs := s.challs[sn.chall := row]);
    ChallengeSet(s, one, sn.chall, row);
    var two := s.(challs := OnlyPassed(one.challs, sn.authz, sn.chall));
    SiblingsDropped(one, two, sn.authz, sn.chall);
    GrowTwice(s, one, two);
    var three := two.(authzs := s.authzs[sn.authz := sn.a.(status := Proven)],
                      proofs := s.proofs + {Proof(sn.account, sn.a.ident.value, sn.c.typ)});
    assert three.authzs == s.authzs[sn.authz := s.authzs[sn.authz].(status := Proven)];
    StatusSet(two, three, sn.authz, Proven);
    GrowTwice(s, two, three);
    if sn.order.Some? && sn.a.order.Some? && AllProven(three.authzs, sn.a.order.value) {
      var n := MakeReady(three, sn.a.order.value, sn.order.value);
      OrderRewritten(three, n, sn.a.order.value, sn.order.value.(status := Ready));
      GrowTwice(s, three, n);
      StillCovered(three, n);
    }
  }

  lemma SiblingsDropped(s: State, n: State, authz: nat, chall: nat)
    requires Linked(s) && Covered(s) && n == s.(challs := OnlyPassed(s.challs, authz, chall))
    ensures Linked(n) && Grows(s, n) && Covered(n)
  {
  }

  lemma FinalizeKeeps(s: State, account: nat, b: Body)
    requires Linked(s) && Covered(s) && b.Finalize? && account in s.accounts
    ensures var n := FinalizeOrder(s, account, b); Linked(n) && Grows(s, n) && Covered(n)
  {
    hide Linked, Covered, MayFinalize, CsrFits, RevokeAll, EarlierCerts, IsDeviceOrder, OwnerName;
    var n := FinalizeOrder(s, account, b);
    FinalizeFrame(s, account, b);
    if n.orders == s.orders {
      UntouchedKeeps(s, n);
    } else {
      OrderRewritten(s, n, b.target, s.orders[b.target].(status := Valid, cert := b.cert));
    }
    StillCovered(s, n);
  }

  lemma HandledKeeps(s: State, signer: string, form: Form, b: Body)
    requires Linked(s) && Covered(s) && LegalBody(s, form, b)
    ensures var n := Handled(s, signer, form, b); Linked(n) && Grows(s, n) && Covered(n)
  {
    hide Linked, Covered, CreateAccount, DeactivateAccount, ChangeKey, PlaceOrder, PreAuthorize, DeactivateAuthz,
         Trigger, FinalizeOrder, RevokeByHolder, LegalBody;
    if form.Kid? && !SignedBy(s, signer, form, form.account) {
      UntouchedKeeps(s, s);
    } else if b.RevokeCert? {
      RevokeFrame(s, signer, form, b);
      OutsideKeeps(s, Handled(s, signer, form, b));
    } else if form.Jwk? {
      if b.NewAccount? { CreateFrame(s, signer, b); }
      OutsideKeeps(s, Handled(s, signer, form, b));
    } else {
      match b
      case NewAccount(_, _, _, _) => OutsideKeeps(s, s);
      case NewOrder(_, _, _, _, _, _, _) => OrderKeeps(s, form.account, b);
      case NewAuthz(_, _) => AuthzKeeps(s, form.account, b);
      case UpdateAccount(_, _) => DeactivateFrame(s, form.account, b); OutsideKeeps(s, Handled(s, signer, form, b));
      case KeyChange(_, _) => KeyFrame(s, form.account, b); OutsideKeeps(s, Handled(s, signer, form, b));
      case UpdateAuthz(_, _) => AuthzKeeps(s, form.account, b);
      case PostChallenge(_, _, _) => TriggerKeeps(s, form.account, b);
      case Finalize(_, _, _, _, _, _, _, _) => FinalizeKeeps(s, form.account, b);
    }
  }

  lemma OutsideKeeps(s: State, n: State)
    requires Linked(s) && Covered(s) && n.orders == s.orders && n.authzs == s.authzs && n.proofs == s.proofs
    requires n.challs == s.challs && n.waiting == s.waiting && n.running == s.running
    ensures Linked(n) && Grows(s, n) && Covered(n)
  {
  }

  lemma StepKeeps(s: State, e: Event)
    requires Linked(s) && Covered(s) && Legal(s, e)
    ensures var n := Step(s, e); Linked(n) && Grows(s, n) && Covered(n)
  {
    hide Linked, Covered, Handled, StartVerifier, FinishVerifier, RevokeRow, ReleaseRow, LegalBody;
    match e
    case Post(nonce, _, signer, form, body) =>
      if nonce !in s.nonces {
        OutsideKeeps(s, Step(s, e));
      } else {
        var m := Consumed(s, nonce);
        OutsideKeeps(s, m);
        HandledKeeps(m, signer, form, body);
        var h := Handled(m, signer, form, body);
        OutsideKeeps(h, Step(s, e));
        GrowTwice(s, m, h);
        GrowTwice(s, h, Step(s, e));
      }
    case VerifierStarts(chall, job) => StartKeeps(s, chall, job);
    case VerifierFinishes(job, ok) => FinishKeeps(s, job, ok);
    case _ => OutsideKeeps(s, Step(s, e));
  }
}
