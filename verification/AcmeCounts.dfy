/** How many certificates an order yields. It is ready once for each of them; an order that was
    served is served again only after a verifier that was still under way made it ready again,
    which is exactly when; a device order is served once. */
module AcmeCounts {
  import opened Text
  import opened Names
  import opened Acme
  import opened AcmeFrames
  import opened AcmeLinks
  import opened AcmeKeys
  import opened AcmeDevices
  import opened AcmeRows

  ghost function CertsOf(s: State, o: nat): set<Issue> { set i | i in s.issued && i.order == o }

  ghost predicate Has(orders: map<nat, Order>, o: nat, status: OrderStatus)
  {
    o in orders && orders[o].status == status
  }

  ghost function One(b: bool): nat { if b then 1 else 0 }

  // ---- what one step does to orders and certificates -------------------------

  // Nothing issued, no order made valid, no ready order taken back.
  ghost predicate Quiet(s: State, n: State)
  {
    && n.issued == s.issued
    && (forall o | Has(n.orders, o, Valid) :: Has(s.orders, o, Valid))
    && (forall o | Has(s.orders, o, Ready) :: Has(n.orders, o, Ready))
  }

  // A ready order becomes valid with one certificate of a new serial.
  ghost predicate Serves(s: State, n: State, o: nat, i: Issue)
  {
    && Has(s.orders, o, Ready) && Has(n.orders, o, Valid) && n.orders == s.orders[o := n.orders[o]]
    && i.order == o && i.cert !in s.certs && n.issued == s.issued + {i}
  }

  lemma SameQuiet(s: State, n: State)
    requires n.orders == s.orders && n.issued == s.issued
    ensures Quiet(s, n)
  {
  }

  lemma PutQuiet(s: State, n: State, o: nat, row: Order)
    requires n.orders == s.orders[o := row] && n.issued == s.issued
    requires row.status == Ready || (o !in s.orders && row.status == Pending)
    ensures Quiet(s, n)
  {
  }

  lemma OrderQuiet(s: State, account: nat, b: Body)
    requires b.NewOrder? && account in s.accounts && b.id !in s.orders
    ensures Quiet(s, PlaceOrder(s, account, b))
  {
    hide Quiet, PlaceAuthzs, DeviceOrder, AllReused, IsDeviceOrder, ValidDnsName;
    SameQuiet(s, s);
    if |b.draws| != |b.idents| { return; }
    if IsDeviceOrder(b.idents) { DeviceQuiet(s, account, b); return; }
    var o, kid := Order(Pending, b.idents, account, b.ca, ""), s.accounts[account].kid;
    if kid == "" || !b.may(kid) || b.idents == [] { return; }
    if exists i | i in b.idents :: i.kind != DnsName || !ValidDnsName(i.value) { return; }
    var begun := s.(orders := s.orders[b.id := o]);
    PlacingFrame(begun, b.id, account, b.idents, b.draws);
    var n := PlaceDnsOrder(s, account, b);
    if AllReused(b.draws) {
      assert n.orders == s.orders[b.id := o.(status := Ready)];
      PutQuiet(s, n, b.id, o.(status := Ready));
    } else {
      PutQuiet(s, n, b.id, o);
    }
  }

  lemma DeviceQuiet(s: State, account: nat, b: Body)
    requires b.NewOrder? && |b.draws| == |b.idents| && b.id !in s.orders
    ensures Quiet(s, DeviceOrder(s, account, b))
  {
    hide Quiet, MakeAuthz;
    if |b.idents| != 1 { SameQuiet(s, s); return; }
    DeviceFrame(s, account, b);
    var n := DeviceOrder(s, account, b);
    if n.orders == s.orders {
      SameQuiet(s, n);
    } else {
      PutQuiet(s, n, b.id, Order(Pending, b.idents, account, b.ca, ""));
    }
  }

  lemma TriggerQuiet(s: State, account: nat, b: Body)
    requires b.PostChallenge?
    ensures Quiet(s, Trigger(s, account, b))
  {
    hide Quiet, OwnsChallenge, Attest;
    SameQuiet(s, s);
    if !OwnsChallenge(s, account, b.target) { return; }
    Owned(s, account, b.target);
    if s.challs[b.target].typ == DeviceAttest01 { AttestQuiet(s, b); return; }
    if s.challs[b.target].status != Untried { return; }
    SameQuiet(s, Trigger(s, account, b));
  }

  lemma AttestQuiet(s: State, b: Body)
    requires b.PostChallenge? && b.target in s.challs && s.challs[b.target].authz in s.authzs
    ensures Quiet(s, Attest(s, b))
  {
    hide Quiet, AcceptAttestation;
    SameQuiet(s, s);
    var c := s.challs[b.target];
    var a := s.authzs[c.authz];
    if c.status != Untried || a.order.None? || a.order.value !in s.orders { return; }
    if b.verdict.NoAttestation? || b.held.None? || b.held.value !in s.tickets { return; }
    var t := s.tickets[b.held.value];
    if b.verdict.BadAttestation? || (t.expected != [] && b.verdict.serial != t.expected) {
      SameQuiet(s, SetChallenge(s, b.target, c.(status := Failed)));
      return;
    }
    AcceptRows(s, b, c, a, t);
    var n, order := AcceptAttestation(s, b, c, a, t), a.order.value;
    if n.orders == s.orders { SameQuiet(s, n); } else { PutQuiet(s, n, order, s.orders[order].(status := Ready)); }
  }

  lemma FinishQuiet(s: State, job: nat, ok: bool)
    ensures Quiet(s, FinishVerifier(s, job, ok))
  {
    hide Quiet, WriteBack;
    SameQuiet(s, s);
    if job !in s.running { return; }
    var one, sn := s.(running := s.running - {job}), s.running[job];
    if (sn.a.wildcard && sn.c.typ != Dns01) || sn.c.typ == DeviceAttest01 || !ok {
      SameQuiet(s, SetChallenge(one, sn.chall, sn.c.(status := Failed)));
      return;
    }
    WrittenOrders(one, sn);
    var n := WriteBack(one, sn);
    if n.orders == s.orders {
      SameQuiet(s, n);
    } else {
      PutQuiet(s, n, sn.a.order.value, sn.order.value.(status := Ready));
    }
  }

  lemma WrittenOrders(s: State, sn: Snapshot)
    ensures var n := WriteBack(s, sn);
            && n.issued == s.issued
            && (n.orders == s.orders ||
                (&& sn.a.order.Some? && sn.order.Some?
                 && n.orders == s.orders[sn.a.order.value := sn.order.value.(status := Ready)]))
  {
    hide AllProven, OnlyPassed, MakeReady;
    var n := s.(challs := OnlyPassed(s.challs[sn.chall := sn.c.(status := Passed)], sn.authz, sn.chall),
                authzs := s.authzs[sn.authz := sn.a.(status := Proven)],
                proofs := s.proofs + {Proof(sn.account, sn.a.ident.value, sn.c.typ)});
    if sn.order.None? || sn.a.order.None? || !AllProven(n.authzs, sn.a.order.value) { return; }
    MadeReady(n, sn.a.order.value, sn.order.value);
  }

  lemma MadeReady(s: State, order: nat, o: Order)
    ensures var n := MakeReady(s, order, o);
            n.issued == s.issued && n.orders == s.orders[order := o.(status := Ready)]
  {
  }

  lemma FinalizeServes(s: State, account: nat, b: Body) returns (i: Issue)
    requires b.Finalize? && account in s.accounts
    ensures var n := FinalizeOrder(s, account, b); Quiet(s, n) || Serves(s, n, b.target, i)
  {
    hide Quiet, FinalizeOrder;
    i := FinalizeRows(s, account, b);
    var n := FinalizeOrder(s, account, b);
    if n.orders == s.orders && n.issued == s.issued { SameQuiet(s, n); }
  }

  lemma HandledServes(s: State, signer: string, form: Form, b: Body) returns (o: nat, i: Issue)
    requires LegalBody(s, form, b)
    ensures var n := Handled(s, signer, form, b); Quiet(s, n) || Serves(s, n, o, i)
  {
    hide Quiet, Serves, CreateAccount, DeactivateAccount, ChangeKey, PlaceOrder, PreAuthorize, DeactivateAuthz, Trigger,
         FinalizeOrder, RevokeByHolder, LegalDraws, FreshDraw, TicketFound;
    o, i := 0, Issue(0, 0, "", "", {}, "", "", None);
    if form.Kid? && !SignedBy(s, signer, form, form.account) {
      SameQuiet(s, s);
    } else if b.NewOrder? && form.Kid? {
      OrderQuiet(s, form.account, b);
    } else if b.PostChallenge? && form.Kid? {
      TriggerQuiet(s, form.account, b);
    } else if b.Finalize? && form.Kid? {
      o := b.target;
      i := FinalizeServes(s, form.account, b);
    } else {
      OthersQuiet(s, signer, form, b);
    }
  }

  lemma OthersQuiet(s: State, signer: string, form: Form, b: Body)
    requires form.Jwk? || (!b.NewOrder? && !b.PostChallenge? && !b.Finalize?)
    requires form.Kid? ==> SignedBy(s, signer, form, form.account)
    ensures Quiet(s, Handled(s, signer, form, b))
  {
    hide Quiet, CreateAccount, DeactivateAccount, ChangeKey, PlaceOrder, PreAuthorize, DeactivateAuthz, Trigger,
         FinalizeOrder, RevokeByHolder;
    if b.RevokeCert? {
      RevokeFrame(s, signer, form, b);
    } else if form.Jwk? {
      if b.NewAccount? { CreateFrame(s, signer, b); }
    } else {
      match b
      case NewAccount(_, _, _, _) =>
      case NewAuthz(_, _) => AuthzFrame(s, form.account, b);
      case UpdateAccount(_, _) => DeactivateFrame(s, form.account, b);
      case KeyChange(_, _) => KeyFrame(s, form.account, b);
      case UpdateAuthz(_, _) => AuthzFrame(s, form.account, b);
    }
    SameQuiet(s, Handled(s, signer, form, b));
  }

  lemma StepServes(s: State, e: Event) returns (o: nat, i: Issue)
    requires Legal(s, e)
    ensures Quiet(s, Step(s, e)) || Serves(s, Step(s, e), o, i)
  {
    hide Quiet, Handled, StartVerifier, FinishVerifier, RevokeRow, ReleaseRow, LegalBody;
    o, i := 0, Issue(0, 0, "", "", {}, "", "", None);
    var n := Step(s, e);
    match e
    case Post(nonce, _, signer, form, body) =>
      if nonce !in s.nonces { SameQuiet(s, n); return; }
      var m := Consumed(s, nonce);
      o, i := HandledServes(m, signer, form, body);
      if Quiet(m, Handled(m, signer, form, body)) { SameRecord(s, m, Handled(m, signer, form, body), n); }
    case VerifierStarts(chall, job) => StartFrame(s, chall, job); SameQuiet(s, n);
    case VerifierFinishes(job, ok) => FinishQuiet(s, job, ok);
    case _ => SameQuiet(s, n);
  }

  lemma SameRecord(s: State, m: State, h: State, n: State)
    requires Quiet(m, h) && s.orders == m.orders && s.issued == m.issued && n.orders == h.orders && n.issued == h.issued
    ensures Quiet(s, n)
  {
  }

  // ---- the law ---------------------------------------------------------------

  // The number of steps of the run at which the order was valid and was made ready again.
  ghost function Reopenings(s: State, es: seq<Event>, o: nat): nat
    requires Possible(s, es)
    decreases |es|
  {
    if es == [] then 0
    else One(Has(s.orders, o, Valid) && Reopens(s, es[0], o)) + Reopenings(Step(s, es[0]), es[1..], o)
  }

  // The number of steps of the run at which the order became ready.
  ghost function Readied(s: State, es: seq<Event>, o: nat): nat
    requires Possible(s, es)
    decreases |es|
  {
    if es == [] then 0
    else One(!Has(s.orders, o, Ready) && Has(Step(s, es[0]).orders, o, Ready)) + Readied(Step(s, es[0]), es[1..], o)
  }

  lemma OneMoreCert(s: State, n: State, o: nat, i: Issue, p: nat)
    requires RowsMatch(s) && Serves(s, n, o, i)
    ensures |CertsOf(n, p)| == |CertsOf(s, p)| + One(p == o)
  {
    assert i !in s.issued;
    if p == o {
      assert CertsOf(n, p) == CertsOf(s, p) + {i};
    } else {
      assert CertsOf(n, p) == CertsOf(s, p);
    }
  }

  lemma StepCounts(s: State, e: Event, o: nat)
    requires DeviceProper(s) && RowsMatch(s) && Legal(s, e)
    ensures var n := Step(s, e);
            && |CertsOf(n, o)| + One(Has(s.orders, o, Valid)) ==
                 |CertsOf(s, o)| + One(Has(n.orders, o, Valid)) + One(Has(s.orders, o, Valid) && Reopens(s, e, o))
            && |CertsOf(n, o)| + One(Has(n.orders, o, Ready)) ==
                 |CertsOf(s, o)| + One(Has(s.orders, o, Ready)) +
                 One(!Has(s.orders, o, Ready) && Has(n.orders, o, Ready))
  {
    hide DeviceProper, RowsMatch, Legal, Step, Reopens, CertsOf;
    var p, i := StepServes(s, e);
    var n := Step(s, e);
    if Has(s.orders, o, Valid) { ReopenedExactly(s, e, o); }
    if Quiet(s, n) { NoNewCerts(s, n, o); } else { OneMoreCert(s, n, p, i, o); }
  }

  lemma NoNewCerts(s: State, n: State, o: nat)
    requires n.issued == s.issued
    ensures CertsOf(n, o) == CertsOf(s, o)
  {
  }

  ghost predicate Countable(s: State) { DeviceProper(s) && RowsMatch(s) && DistinctKeys(s.accounts) }

  lemma StepCountable(s: State, e: Event)
    requires Countable(s) && Legal(s, e)
    ensures Countable(Step(s, e))
  {
    hide Devices, Linked, Covered, RowsMatch, DistinctKeys, Legal, Step, Persists, Grows, ClaimsKept;
    StepDevices(s, e);
    StepKeeps(s, e);
    StepMatches(s, e);
    StepKeepsKeys(s, e);
  }

  lemma {:induction false} RunCounts(s: State, es: seq<Event>, o: nat)
    requires Countable(s) && Possible(s, es)
    ensures var n := Run(s, es);
            && |CertsOf(n, o)| + One(Has(s.orders, o, Valid)) ==
                 |CertsOf(s, o)| + One(Has(n.orders, o, Valid)) + Reopenings(s, es, o)
            && |CertsOf(n, o)| + One(Has(n.orders, o, Ready)) ==
                 |CertsOf(s, o)| + One(Has(s.orders, o, Ready)) + Readied(s, es, o)
    decreases |es|
  {
    hide Step, Legal, DeviceProper, RowsMatch, DistinctKeys, Reopens, CertsOf, Has;
    if es != [] {
      StepCountable(s, es[0]);
      StepCounts(s, es[0], o);
      RunCounts(Step(s, es[0]), es[1..], o);
    }
  }

  // In every run from an empty store: the certificates of an order, and the one it is ready for,
  // are as many as the times it became ready; they are one for being valid now, and one for every
  // time it was reopened.
  lemma ServedExactly(s: State, es: seq<Event>, o: nat)
    requires Fresh(s) && Possible(s, es)
    ensures var n := Run(s, es);
            && |CertsOf(n, o)| + One(Has(n.orders, o, Ready)) == Readied(s, es, o)
            && |CertsOf(n, o)| == One(Has(n.orders, o, Valid)) + Reopenings(s, es, o)
            && |CertsOf(n, o)| + One(Has(n.orders, o, Ready)) ==
                 One(o in n.orders && n.orders[o].status != Pending) + Reopenings(s, es, o)
  {
    hide Run, Possible, DeviceProper, Readied, Reopenings;
    FreshDevices(s);
    assert RowsMatch(s) && DistinctKeys(s.accounts) && CertsOf(s, o) == {};
    RunCounts(s, es, o);
  }

  // An order has two certificates if and only if it was reopened and served again.
  lemma ServedOnceExactly(s: State, es: seq<Event>, o: nat)
    requires Fresh(s) && Possible(s, es)
    ensures (forall i, j | i in Run(s, es).issued && j in Run(s, es).issued && i.order == j.order == o :: i == j) <==>
              Reopenings(s, es, o) + One(Has(Run(s, es).orders, o, Valid)) <= 1
  {
    hide Run, Possible, Has, Reopenings, Readied;
    ServedExactly(s, es, o);
    var all := CertsOf(Run(s, es), o);
    if |all| <= 1 {
      forall i, j | i in Run(s, es).issued && j in Run(s, es).issued && i.order == j.order == o ensures i == j {
        AtMostOne(all, i, j);
      }
    } else {
      var i :| i in all;
      assert |all - {i}| == |all| - 1;
      var j :| j in all - {i};
    }
  }

  lemma AtMostOne(all: set<Issue>, i: Issue, j: Issue)
    requires |all| <= 1 && i in all && j in all
    ensures i == j
  {
    assert |all - {i}| == |all| - 1;
    assert all - {i} == {};
  }

  // A device order yields one certificate at most.
  lemma DeviceOrderServedOnce(s: State, es: seq<Event>, i: Issue, j: Issue)
    requires Fresh(s) && Possible(s, es) && i in Run(s, es).issued && j in Run(s, es).issued
    requires i.ticket.Some? && j.ticket.Some? && i.order == j.order
    ensures i == j
  {
    hide Run, Possible, Linked, Covered, TicketsOk, OrdersDecided, OneChallenge, OneLive, DeviceIssues, RowMatches;
    IssuedRowsMatch(s, es, i);
    FreshDevices(s);
    RunDevices(s, es);
    DevicesIssuedSoundly(s, es, i);
    DevicesIssuedSoundly(s, es, j);
    assert OneBacking(Run(s, es).tickets);
  }

  // ---- when an issued order becomes ready again ------------------------------

  // A verifier comes back with success for an authorization of the order, it may prove that
  // authorization, and all the order's other authorizations are proven at that moment.
  ghost predicate Reopens(s: State, e: Event, o: nat)
  {
    && e.VerifierFinishes? && e.ok && e.job in s.running
    && var sn := s.running[e.job];
       && sn.a.order == Some(o) && (sn.a.wildcard ==> sn.c.typ == Dns01)
       && AllProven(s.authzs[sn.authz := sn.a.(status := Proven)], o)
  }

  lemma ReopenedExactly(s: State, e: Event, o: nat)
    requires DeviceProper(s) && Legal(s, e) && o in s.orders && s.orders[o].status == Valid
    ensures o in Step(s, e).orders
    ensures Step(s, e).orders[o].status == if Reopens(s, e, o) then Ready else Valid
  {
    hide DeviceProper, Handled, StartVerifier, FinishVerifier, RevokeRow, ReleaseRow, LegalBody;
    match e
    case Post(nonce, _, signer, form, body) =>
      if nonce in s.nonces {
        ConsumedProper(s, nonce);
        HandledStaysValid(Consumed(s, nonce), signer, form, body, o);
      }
    case VerifierStarts(chall, job) => StartFrame(s, chall, job);
    case VerifierFinishes(job, ok) => FinishReopens(s, e, o);
    case _ =>
  }

  lemma ConsumedProper(s: State, nonce: string)
    requires DeviceProper(s)
    ensures DeviceProper(Consumed(s, nonce))
  {
    hide Devices, Linked, Covered;
    OutsideKeeps(s, Consumed(s, nonce));
    AccountsDevices(s, Consumed(s, nonce));
  }

  lemma FinishReopens(s: State, e: Event, o: nat)
    requires DeviceProper(s) && e.VerifierFinishes? && o in s.orders && s.orders[o].status == Valid
    ensures var n := FinishVerifier(s, e.job, e.ok);
            o in n.orders && n.orders[o].status == if Reopens(s, e, o) then Ready else Valid
  {
    hide AllProven, OnlyPassed, Devices, Linked, Covered;
    if e.job !in s.running { return; }
    JobDone(s, e.job);
    var sn := s.running[e.job];
    SnapOnName(s, sn);
    if sn.a.order.None? { return; }
  }

  // No request makes an issued order ready again; attestation in particular cannot.
  lemma HandledStaysValid(s: State, signer: string, form: Form, b: Body, o: nat)
    requires DeviceProper(s) && LegalBody(s, form, b) && o in s.orders && s.orders[o].status == Valid
    ensures var n := Handled(s, signer, form, b); o in n.orders && n.orders[o].status == Valid
  {
    hide DeviceProper, CreateAccount, DeactivateAccount, ChangeKey, PlaceOrder, PreAuthorize, DeactivateAuthz, Trigger,
         FinalizeOrder, RevokeByHolder, KeyInUse, LegalDraws, FreshDraw, TicketFound;
    HandledFrame(s, signer, form, b);
    if form.Kid? && SignedBy(s, signer, form, form.account) {
      if b.NewOrder? { OrderStaysValid(s, form.account, b, o); }
      if b.PostChallenge? { TriggerStaysValid(s, form.account, b, o); }
      if b.Finalize? { FinalizeStaysValid(s, form.account, b, o); }
    }
  }

  lemma OrderStaysValid(s: State, account: nat, b: Body, o: nat)
    requires b.NewOrder? && account in s.accounts && b.id !in s.orders && o in s.orders
    ensures var n := PlaceOrder(s, account, b); o in n.orders && n.orders[o] == s.orders[o]
  {
    hide PlaceAuthzs, MakeAuthz, AllReused, IsDeviceOrder, ClaimableTicket, ValidDnsName;
    if |b.draws| != |b.idents| { return; }
    var row := Order(Pending, b.idents, account, b.ca, "");
    PlacingFrame(s.(orders := s.orders[b.id := row]), b.id, account, b.idents, b.draws);
    if |b.idents| == 1 { DeviceFrame(s, account, b); }
  }

  lemma TriggerStaysValid(s: State, account: nat, b: Body, o: nat)
    requires DeviceProper(s) && b.PostChallenge? && o in s.orders && s.orders[o].status == Valid
    ensures var n := Trigger(s, account, b); o in n.orders && n.orders[o].status == Valid
  {
    hide DeviceProper, OwnsChallenge, Attest;
    if !OwnsChallenge(s, account, b.target) { return; }
    Owned(s, account, b.target);
    if s.challs[b.target].typ == DeviceAttest01 { AttestStaysValid(s, b, o); }
    else if s.challs[b.target].status != Untried { return; }
  }

  lemma AttestStaysValid(s: State, b: Body, o: nat)
    requires DeviceProper(s) && b.PostChallenge? && b.target in s.challs && s.challs[b.target].authz in s.authzs
    requires s.challs[b.target].typ == DeviceAttest01 && o in s.orders && s.orders[o].status == Valid
    ensures var n := Attest(s, b); o in n.orders && n.orders[o].status == Valid
  {
    hide DeviceProper, AcceptAttestation;
    var c := s.challs[b.target];
    var a := s.authzs[c.authz];
    if c.status != Untried || a.order.None? || a.order.value !in s.orders { return; }
    if b.verdict.NoAttestation? || b.held.None? || b.held.value !in s.tickets { return; }
    var t := s.tickets[b.held.value];
    if b.verdict.BadAttestation? || (t.expected != [] && b.verdict.serial != t.expected) { return; }
    AcceptRows(s, b, c, a, t);
    UntriedIsPending(s, b.target, a.order.value);
  }

  lemma UntriedIsPending(s: State, c: nat, o: nat)
    requires DeviceProper(s) && AsksDevice(s, c, o) && s.challs[c].status == Untried && o in s.orders
    ensures s.orders[o].status == Pending
  {
  }

  lemma FinalizeStaysValid(s: State, account: nat, b: Body, o: nat)
    requires b.Finalize? && account in s.accounts && o in s.orders && s.orders[o].status == Valid
    ensures var n := FinalizeOrder(s, account, b); o in n.orders && n.orders[o].status == Valid
  {
    hide FinalizeOrder;
    var i := FinalizeRows(s, account, b);
  }
}
