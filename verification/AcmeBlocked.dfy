/** What deactivating an authorization does to its order: nothing once the order is ready, and
    before that it blocks the order for as long as the authorization stays deactivated. */
module AcmeBlocked {
  import opened Text
  import opened Acme
  import opened AcmeFrames
  import opened AcmeLinks
  import opened AcmeAuthzs
  import opened AcmeCounts

  // Finalize reads no authorization: whatever became of them, a ready order is served alike.
  lemma FinalizeIgnoresAuthzs(s: State, authzs: map<nat, Authz>, account: nat, b: Body)
    requires b.Finalize? && account in s.accounts
    ensures FinalizeOrder(s.(authzs := authzs), account, b) == FinalizeOrder(s, account, b).(authzs := authzs)
  {
    hide CsrFits, RevokeAll, EarlierCerts, IsDeviceOrder, OwnerName, MayFinalize;
    var n := s.(authzs := authzs);
    if b.target !in s.orders { return; }
    if IsDeviceOrder(s.orders[b.target].idents) {
      if b.backing.None? || b.backing.value !in s.tickets { return; }
      SameGate(s, authzs, account, b, s.tickets[b.backing.value].owner);
    } else {
      SameGate(s, authzs, account, b, s.accounts[account].kid);
    }
  }

  lemma SameGate(s: State, authzs: map<nat, Authz>, account: nat, b: Body, user: string)
    requires b.Finalize?
    ensures MayFinalize(s.(authzs := authzs), account, b, user) == MayFinalize(s, account, b, user)
    ensures MayFinalize(s, account, b, user) ==> b.csr.Some?
  {
  }

  // The order waits for an authorization that was deactivated.
  ghost predicate Blocked(s: State, a: nat, o: nat)
  {
    && a in s.authzs && s.authzs[a].status == Deactivated && s.authzs[a].order == Some(o)
    && Has(s.orders, o, Pending)
  }

  // All the order's authorizations are not proven while this one is not.
  lemma NotAllProven(authzs: map<nat, Authz>, a: nat, o: nat)
    requires a in authzs && authzs[a].status == Deactivated && authzs[a].order == Some(o)
    ensures !AllProven(authzs, o)
  {
  }

  lemma FinishBlocked(s: State, e: Event, a: nat, o: nat)
    requires Linked(s) && Covered(s) && Blocked(s, a, o) && e.VerifierFinishes? && !ProvedLate(s, e, a)
    ensures Has(FinishVerifier(s, e.job, e.ok).orders, o, Pending)
  {
    hide Linked, Covered, AllProven, WriteBack;
    if e.job !in s.running { return; }
    var one, sn := s.(running := s.running - {e.job}), s.running[e.job];
    JobDone(s, e.job);
    SnapFits(s.orders, s.authzs, sn);
    if (sn.a.wildcard && sn.c.typ != Dns01) || !e.ok { return; }
    NotAllProven(s.authzs[sn.authz := sn.a.(status := Proven)], a, o);
    ReadiedOrder(one, sn, o);
  }

  lemma ReadiedOrder(s: State, sn: Snapshot, o: nat)
    requires Has(s.orders, o, Pending) && !AllProven(s.authzs[sn.authz := sn.a.(status := Proven)], o)
    ensures Has(WriteBack(s, sn).orders, o, Pending)
  {
    hide AllProven, OnlyPassed;
    if sn.order.None? || sn.a.order.None? { return; }
    if !AllProven(s.authzs[sn.authz := sn.a.(status := Proven)], sn.a.order.value) { return; }
  }

  lemma AttestBlocked(s: State, b: Body, a: nat, o: nat)
    requires Blocked(s, a, o) && b.PostChallenge? && b.target in s.challs && s.challs[b.target].authz in s.authzs
    requires s.challs[b.target].authz == a ==> !Accepted(s, b, a)
    ensures Has(Attest(s, b).orders, o, Pending)
  {
    hide AllProven, AcceptAttestation;
    var c := s.challs[b.target];
    var row := s.authzs[c.authz];
    if c.status != Untried || row.order.None? || row.order.value !in s.orders { return; }
    if b.verdict.NoAttestation? || b.held.None? || b.held.value !in s.tickets { return; }
    var t := s.tickets[b.held.value];
    if b.verdict.BadAttestation? || (t.expected != [] && b.verdict.serial != t.expected) { return; }
    NotAllProven(s.authzs[c.authz := row.(status := Proven)], a, o);
    AcceptedOrder(s, b, c, row, t, o);
  }

  lemma AcceptedOrder(s: State, b: Body, c: Challenge, a: Authz, t: Ticket, o: nat)
    requires b.PostChallenge? && b.verdict.Attested? && b.held.Some? && a.order.Some? && a.order.value in s.orders
    requires Has(s.orders, o, Pending) && !AllProven(s.authzs[c.authz := a.(status := Proven)], o)
    ensures Has(AcceptAttestation(s, b, c, a, t).orders, o, Pending)
  {
    hide AllProven;
    if !AllProven(s.authzs[c.authz := a.(status := Proven)], a.order.value) { return; }
  }

  lemma HandledBlocked(s: State, signer: string, form: Form, b: Body, a: nat, o: nat)
    requires Blocked(s, a, o) && LegalBody(s, form, b) && !Attests(s, signer, form, b, a)
    ensures Has(Handled(s, signer, form, b).orders, o, Pending)
  {
    hide Handled, PlaceOrder, Trigger, FinalizeOrder, LegalDraws, FreshDraw, TicketFound, OwnsChallenge, Accepted;
    HandledFrame(s, signer, form, b);
    if !(form.Kid? && SignedBy(s, signer, form, form.account)) {
      NotSigned(s, signer, form, b);
    } else if b.NewOrder? {
      HandledBy(s, signer, form, b);
      OrderStaysValid(s, form.account, b, o);
    } else if b.PostChallenge? {
      HandledBy(s, signer, form, b);
      TriggerBlocked(s, form.account, b, a, o);
    } else if b.Finalize? {
      HandledBy(s, signer, form, b);
      var i := FinalizeRows(s, form.account, b);
    }
  }

  lemma NotSigned(s: State, signer: string, form: Form, b: Body)
    requires !(form.Kid? && SignedBy(s, signer, form, form.account))
    ensures Handled(s, signer, form, b).orders == s.orders
  {
    hide RevokeByHolder, CreateAccount;
    if form.Kid? { return; }
    if b.RevokeCert? { RevokeFrame(s, signer, form, b); return; }
    if b.NewAccount? { CreateFrame(s, signer, b); }
  }

  lemma TriggerBlocked(s: State, account: nat, b: Body, a: nat, o: nat)
    requires Blocked(s, a, o) && b.PostChallenge?
    requires !(&& OwnsChallenge(s, account, b.target) && s.challs[b.target].authz == a
               && s.challs[b.target].typ == DeviceAttest01 && Accepted(s, b, a))
    ensures Has(Trigger(s, account, b).orders, o, Pending)
  {
    hide OwnsChallenge, Attest, Accepted;
    if !OwnsChallenge(s, account, b.target) { return; }
    Owned(s, account, b.target);
    if s.challs[b.target].typ == DeviceAttest01 { AttestBlocked(s, b, a, o); }
    else if s.challs[b.target].status != Untried { return; }
  }

  lemma StepBlocked(s: State, e: Event, a: nat, o: nat)
    requires Linked(s) && Covered(s) && Legal(s, e) && Blocked(s, a, o) && !Revives(s, e, a)
    ensures Blocked(Step(s, e), a, o) && CertsOf(Step(s, e), o) == CertsOf(s, o)
  {
    hide Linked, Covered, Legal, Step, Revives;
    RevivedExactly(s, e, a);
    StepKeeps(s, e);
    OrderBlocked(s, e, a, o);
    var p, i := StepServes(s, e);
  }

  lemma OrderBlocked(s: State, e: Event, a: nat, o: nat)
    requires Linked(s) && Covered(s) && Legal(s, e) && Blocked(s, a, o) && !Revives(s, e, a)
    ensures Has(Step(s, e).orders, o, Pending)
  {
    hide Linked, Covered, Answer, Handled, StartVerifier, FinishVerifier, RevokeRow, ReleaseRow, Legal, LegalBody,
         Attests, ProvedLate;
    if e.Post? {
      LegalPost(s, e);
      AnswerRows(s, e);
      if e.nonce in s.nonces { HandledBlocked(Consumed(s, e.nonce), e.signer, e.form, e.body, a, o); }
    } else if e.VerifierStarts? {
      StartFrame(s, e.chall, e.job);
    } else if e.VerifierFinishes? {
      FinishBlocked(s, e, a, o);
    }
  }

  // An order that was not ready when one of its authorizations was deactivated yields nothing
  // for as long as that authorization is not revived.
  lemma {:induction false} BlockedStaysPending(s: State, es: seq<Event>, a: nat, o: nat)
    requires Linked(s) && Covered(s) && Possible(s, es) && Blocked(s, a, o) && NeverRevived(s, es, a)
    ensures Blocked(Run(s, es), a, o) && CertsOf(Run(s, es), o) == CertsOf(s, o)
    decreases |es|
  {
    hide Step, Legal, Linked, Covered, Revives, Blocked, CertsOf;
    if es != [] {
      StepBlocked(s, es[0], a, o);
      StepKeeps(s, es[0]);
      BlockedStaysPending(Step(s, es[0]), es[1..], a, o);
    }
  }
}
