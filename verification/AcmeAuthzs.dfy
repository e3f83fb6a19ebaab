/** What becomes of authorizations: when a deactivated one is valid again, and when a wildcard in
    a certificate rests on a proof of its base name. */
module AcmeAuthzs {
  import opened Text
  import opened Names
  import opened Acme
  import opened AcmeFrames
  import opened AcmeLinks
  import opened AcmeProofs

  // No authorization on names holds a name that is itself a wildcard.
  ghost predicate Plain(authzs: map<nat, Authz>)
  {
    forall a | a in authzs && authzs[a].ident.kind != Device :: !IsWild(authzs[a].ident.value)
  }

  // Rows are added, none is changed, and none of the new ones holds a wildcard of its own making.
  ghost predicate Adds(xs: map<nat, Authz>, ys: map<nat, Authz>)
  {
    (forall a | a in xs :: a in ys && ys[a] == xs[a]) && (Plain(xs) ==> Plain(ys))
  }

  // ---- new orders ------------------------------------------------------------

  lemma RowAdds(xs: map<nat, Authz>, a: nat, row: Authz)
    requires a !in xs && (Plain(xs) && row.ident.kind != Device ==> !IsWild(row.ident.value))
    ensures Adds(xs, xs[a := row])
  {
  }

  lemma PlaceAdds(s: State, order: nat, account: nat, ident: Ident, d: Draw)
    requires FreshDraw(s, d) && ReuseFound(s, account, ident, d) && (ident.kind == Device || !IsWild(Base(ident.value)))
    ensures Adds(s.authzs, PlaceAuthz(s, order, account, ident, d).authzs)
  {
    hide IsWild, Base, Adds, Offer;
    if d.reuse.Some? {
      RowAdds(s.authzs, d.authz, s.authzs[d.reuse.value].(status := Proven, order := Some(order), account := account));
    } else {
      RowAdds(s.authzs, d.authz, Authz(Open, BareIdent(ident), IsWild(ident.value), Some(order), account, d.expires));
    }
  }

  lemma {:induction false} PlacingAdds(s: State, order: nat, account: nat, idents: seq<Ident>, ds: seq<Draw>)
    requires LegalDraws(s, order, account, idents, ds)
    requires forall i | i in idents :: i.kind == Device || !IsWild(Base(i.value))
    ensures Adds(s.authzs, PlaceAuthzs(s, order, account, idents, ds).authzs)
  {
    hide PlaceAuthz, FreshDraw, ReuseFound, IsWild, Base, Plain;
    if idents != [] {
      var k := |idents| - 1;
      PlacingAdds(s, order, account, idents[..k], ds[..k]);
      PlaceAdds(PlaceAuthzs(s, order, account, idents[..k], ds[..k]), order, account, idents[k], ds[k]);
    }
  }

  lemma NoneAdded(xs: map<nat, Authz>)
    ensures Adds(xs, xs)
  {
  }

  lemma OrderAdds(s: State, account: nat, b: Body)
    requires b.NewOrder? && account in s.accounts && LegalBody(s, Kid(account), b)
    ensures Adds(s.authzs, PlaceOrder(s, account, b).authzs)
  {
    hide Adds, DeviceOrder, PlaceDnsOrder, ValidDnsName, LegalBody, IsWild, Base;
    NoneAdded(s.authzs);
    if |b.draws| != |b.idents| { return; }
    if IsDeviceOrder(b.idents) { DeviceAdds(s, account, b); return; }
    if s.accounts[account].kid == "" || !b.may(s.accounts[account].kid) || b.idents == [] { return; }
    if exists i | i in b.idents :: i.kind != DnsName || !ValidDnsName(i.value) { return; }
    forall i | i in b.idents ensures !IsWild(Base(i.value)) { ValidIsPlain(i.value); }
    DnsOrderAdds(s, account, b);
  }

  lemma DnsOrderAdds(s: State, account: nat, b: Body)
    requires b.NewOrder? && LegalBody(s, Kid(account), b)
    requires forall i | i in b.idents :: !IsWild(Base(i.value))
    ensures Adds(s.authzs, PlaceDnsOrder(s, account, b).authzs)
  {
    hide Adds, LegalDraws, PlaceAuthzs, AllReused, FreshDraw, IsWild, Base;
    var o := Order(Pending, b.idents, account, b.ca, "");
    PlacingAdds(s.(orders := s.orders[b.id := o]), b.id, account, b.idents, b.draws);
  }

  lemma DeviceAdds(s: State, account: nat, b: Body)
    requires b.NewOrder? && |b.draws| == |b.idents| && IsDeviceOrder(b.idents) && LegalBody(s, Kid(account), b)
    ensures Adds(s.authzs, DeviceOrder(s, account, b).authzs)
  {
    hide Adds, LegalDraws, ClaimableTicket, IsWild, Base, Offer;
    NoneAdded(s.authzs);
    if |b.idents| != 1 { return; }
    var ident, d := b.idents[0], b.draws[0];
    assert ident.kind == Device && d in b.draws;
    RowAdds(s.authzs, d.authz, Authz(Open, BareIdent(ident), IsWild(ident.value), Some(b.id), account, d.expires));
  }

  // Everything that leaves the authorizations alone.
  lemma OthersKeep(s: State, signer: string, form: Form, b: Body)
    requires (form.Kid? && SignedBy(s, signer, form, form.account)) ==>
               !b.NewOrder? && !b.NewAuthz? && !b.UpdateAuthz? && !b.PostChallenge?
    ensures Handled(s, signer, form, b).authzs == s.authzs
  {
    hide CreateAccount, DeactivateAccount, ChangeKey, PlaceOrder, PreAuthorize, DeactivateAuthz, Trigger,
         FinalizeOrder, RevokeByHolder;
    if form.Kid? && !SignedBy(s, signer, form, form.account) {
    } else if b.RevokeCert? {
      RevokeFrame(s, signer, form, b);
    } else if form.Jwk? {
      if b.NewAccount? { CreateFrame(s, signer, b); }
    } else {
      match b
      case NewAccount(_, _, _, _) =>
      case UpdateAccount(_, _) => DeactivateFrame(s, form.account, b);
      case KeyChange(_, _) => KeyFrame(s, form.account, b);
      case Finalize(_, _, _, _, _, _, _, _) => FinalizeFrame(s, form.account, b);
    }
  }

  // ---- a deactivated authorization -------------------------------------------

  // The device attests for the authorization and the attestation is accepted.
  ghost predicate Attests(s: State, signer: string, form: Form, b: Body, a: nat)
  {
    && form.Kid? && SignedBy(s, signer, form, form.account) && b.PostChallenge?
    && OwnsChallenge(s, form.account, b.target) && s.challs[b.target].authz == a
    && s.challs[b.target].typ == DeviceAttest01 && Accepted(s, b, a)
  }

  ghost predicate Accepted(s: State, b: Body, a: nat)
    requires b.PostChallenge? && b.target in s.challs && a in s.authzs
  {
    && s.challs[b.target].status == Untried && s.authzs[a].order.Some? && s.authzs[a].order.value in s.orders
    && b.verdict.Attested? && b.held.Some? && b.held.value in s.tickets
    && var expected := s.tickets[b.held.value].expected; expected != [] ==> b.verdict.serial == expected
  }

  // A verifier that took its snapshot of the authorization earlier comes back with success.
  ghost predicate ProvedLate(s: State, e: Event, a: nat)
  {
    && e.VerifierFinishes? && e.ok && e.job in s.running && s.running[e.job].authz == a
    && (s.running[e.job].a.wildcard ==> s.running[e.job].c.typ == Dns01)
  }

  ghost predicate Revives(s: State, e: Event, a: nat)
  {
    || ProvedLate(s, e, a)
    || (e.Post? && e.nonce in s.nonces && Attests(Consumed(s, e.nonce), e.signer, e.form, e.body, a))
  }

  // Deactivation is not for good: exactly these two make the authorization valid again.
  lemma RevivedExactly(s: State, e: Event, a: nat)
    requires Linked(s) && Covered(s) && Legal(s, e) && a in s.authzs && s.authzs[a].status == Deactivated
    ensures a in Step(s, e).authzs
    ensures Step(s, e).authzs[a].status == if Revives(s, e, a) then Proven else Deactivated
  {
    hide Linked, Covered, Answer, StartVerifier, FinishVerifier, RevokeRow, ReleaseRow, LegalBody, Attests;
    if e.Post? {
      AnswerRevives(s, e, a);
    } else if e.VerifierStarts? {
      StartFrame(s, e.chall, e.job);
    } else if e.VerifierFinishes? {
      FinishRevives(s, e, a);
    }
  }

  lemma AnswerRevives(s: State, e: Event, a: nat)
    requires e.Post? && Legal(s, e) && a in s.authzs && s.authzs[a].status == Deactivated
    ensures var n := Answer(s, e);
            a in n.authzs && n.authzs[a].status == if Revives(s, e, a) then Proven else Deactivated
  {
    hide Handled, LegalBody, Attests, Legal, Answer;
    LegalPost(s, e);
    AnswerRows(s, e);
    if e.nonce in s.nonces { HandledRevives(Consumed(s, e.nonce), e.signer, e.form, e.body, a); }
  }

  lemma FinishRevives(s: State, e: Event, a: nat)
    requires Linked(s) && Covered(s) && e.VerifierFinishes? && a in s.authzs && s.authzs[a].status == Deactivated
    ensures var n := FinishVerifier(s, e.job, e.ok);
            a in n.authzs && n.authzs[a].status == if ProvedLate(s, e, a) then Proven else Deactivated
  {
    hide Linked, Covered, AllProven, OnlyPassed, MakeReady;
    if e.job !in s.running { return; }
    var sn := s.running[e.job];
    JobDone(s, e.job);
    SnapFits(s.orders, s.authzs, sn);
    var one := s.(running := s.running - {e.job});
    if (sn.a.wildcard && sn.c.typ != Dns01) || !e.ok { return; }
    WrittenAuthzs(one, sn);
  }

  lemma WrittenAuthzs(s: State, sn: Snapshot)
    ensures WriteBack(s, sn).authzs == s.authzs[sn.authz := sn.a.(status := Proven)]
  {
    hide AllProven, OnlyPassed, MakeReady;
    var n := s.(challs := OnlyPassed(s.challs[sn.chall := sn.c.(status := Passed)], sn.authz, sn.chall),
                authzs := s.authzs[sn.authz := sn.a.(status := Proven)],
                proofs := s.proofs + {Proof(sn.account, sn.a.ident.value, sn.c.typ)});
    if sn.order.Some? && sn.a.order.Some? { ReadyFrame(n, sn.a.order.value, sn.order.value); }
  }

  lemma HandledRevives(s: State, signer: string, form: Form, b: Body, a: nat)
    requires LegalBody(s, form, b) && a in s.authzs && s.authzs[a].status == Deactivated
    ensures var n := Handled(s, signer, form, b);
            a in n.authzs && n.authzs[a].status == if Attests(s, signer, form, b, a) then Proven else Deactivated
  {
    hide PlaceOrder, PreAuthorize, DeactivateAuthz, Trigger, LegalBody, OwnsChallenge, Accepted, Handled;
    if !(form.Kid? && SignedBy(s, signer, form, form.account)) || (!b.NewOrder? && !b.NewAuthz? && !b.UpdateAuthz? &&
       !b.PostChallenge?) {
      OthersKeep(s, signer, form, b);
      return;
    }
    HandledBy(s, signer, form, b);
    if b.NewOrder? {
      OrderAdds(s, form.account, b);
    } else if b.PostChallenge? {
      TriggerRevives(s, form.account, b, a);
    } else {
      AuthzRevives(s, form.account, b, a);
    }
  }

  lemma HandledBy(s: State, signer: string, form: Form, b: Body)
    requires form.Kid? && SignedBy(s, signer, form, form.account)
    ensures b.NewOrder? ==> Handled(s, signer, form, b) == PlaceOrder(s, form.account, b)
    ensures b.NewAuthz? ==> Handled(s, signer, form, b) == PreAuthorize(s, form.account, b)
    ensures b.UpdateAuthz? ==> Handled(s, signer, form, b) == DeactivateAuthz(s, form.account, b)
    ensures b.PostChallenge? ==> Handled(s, signer, form, b) == Trigger(s, form.account, b)
    ensures b.Finalize? ==> Handled(s, signer, form, b) == FinalizeOrder(s, form.account, b)
  {
    hide PlaceOrder, PreAuthorize, DeactivateAuthz, Trigger, FinalizeOrder;
  }

  lemma AuthzRevives(s: State, account: nat, b: Body, a: nat)
    requires LegalBody(s, Kid(account), b) && a in s.authzs && s.authzs[a].status == Deactivated
    ensures b.NewAuthz? ==> var n := PreAuthorize(s, account, b); a in n.authzs && n.authzs[a] == s.authzs[a]
    ensures b.UpdateAuthz? ==> var n := DeactivateAuthz(s, account, b); a in n.authzs && n.authzs[a] == s.authzs[a]
  {
    hide Offer, IsWild, Base;
  }

  lemma TriggerRevives(s: State, account: nat, b: Body, a: nat)
    requires b.PostChallenge? && a in s.authzs && s.authzs[a].status == Deactivated
    ensures var n := Trigger(s, account, b);
            && a in n.authzs
            && n.authzs[a].status ==
                 if OwnsChallenge(s, account, b.target) && s.challs[b.target].authz == a &&
                    s.challs[b.target].typ == DeviceAttest01 && Accepted(s, b, a) then Proven else Deactivated
  {
    hide OwnsChallenge, Attest, Accepted;
    if !OwnsChallenge(s, account, b.target) { return; }
    Owned(s, account, b.target);
    if s.challs[b.target].typ == DeviceAttest01 { AttestRevives(s, b, a); }
    else if s.challs[b.target].status != Untried { return; }
  }

  lemma AttestRevives(s: State, b: Body, a: nat)
    requires b.PostChallenge? && b.target in s.challs && s.challs[b.target].authz in s.authzs
    requires a in s.authzs && s.authzs[a].status == Deactivated
    ensures var n := Attest(s, b);
            && a in n.authzs
            && n.authzs[a].status ==
                 if s.challs[b.target].authz == a && Accepted(s, b, a) then Proven else Deactivated
  {
    hide AcceptAttestation;
    var c := s.challs[b.target];
    var row := s.authzs[c.authz];
    if c.status != Untried || row.order.None? || row.order.value !in s.orders { return; }
    if b.verdict.NoAttestation? || b.held.None? || b.held.value !in s.tickets { return; }
    var t := s.tickets[b.held.value];
    if b.verdict.BadAttestation? || (t.expected != [] && b.verdict.serial != t.expected) { return; }
    AcceptedAuthzs(s, b, c, row, t);
  }

  lemma AcceptedAuthzs(s: State, b: Body, c: Challenge, a: Authz, t: Ticket)
    requires b.PostChallenge? && b.verdict.Attested? && b.held.Some? && a.order.Some? && a.order.value in s.orders
    ensures AcceptAttestation(s, b, c, a, t).authzs == s.authzs[c.authz := a.(status := Proven)]
  {
    hide AllProven;
    if AllProven(s.authzs[c.authz := a.(status := Proven)], a.order.value) { return; }
  }

  ghost predicate NeverRevived(s: State, es: seq<Event>, a: nat)
    requires Possible(s, es)
    decreases |es|
  {
    es == [] || (!Revives(s, es[0], a) && NeverRevived(Step(s, es[0]), es[1..], a))
  }

  // Without those, it stays deactivated for the rest of the run.
  lemma {:induction false} StaysDeactivated(s: State, es: seq<Event>, a: nat)
    requires Linked(s) && Covered(s) && Possible(s, es) && a in s.authzs && s.authzs[a].status == Deactivated
    requires NeverRevived(s, es, a)
    ensures a in Run(s, es).authzs && Run(s, es).authzs[a].status == Deactivated
    decreases |es|
  {
    hide Step, Legal, Linked, Covered, Revives;
    if es != [] {
      RevivedExactly(s, es[0], a);
      StepKeeps(s, es[0]);
      StaysDeactivated(Step(s, es[0]), es[1..], a);
    }
  }

  // ---- wildcards -------------------------------------------------------------

  // A pre-authorization for a wildcard of a wildcard.
  ghost predicate Doubles(s: State, signer: string, form: Form, b: Body)
  {
    && form.Kid? && SignedBy(s, signer, form, form.account)
    && b.NewAuthz? && b.ident.kind == DnsName && IsWild(Base(b.ident.value))
  }

  ghost predicate AsksDouble(s: State, e: Event)
  {
    e.Post? && e.nonce in s.nonces && Doubles(Consumed(s, e.nonce), e.signer, e.form, e.body)
  }

  lemma GrowthPlain(xs: map<nat, Authz>, ys: map<nat, Authz>)
    requires AuthzsGrow(xs, ys) && Plain(ys)
    ensures Plain(xs)
  {
  }

  // Rows keep their identifiers, so nothing but a new row can spoil it.
  lemma SameIdents(xs: map<nat, Authz>, ys: map<nat, Authz>)
    requires AuthzsGrow(xs, ys) && ys.Keys <= xs.Keys
    ensures Plain(ys) <==> Plain(xs)
  {
  }

  lemma PlainExactly(s: State, e: Event)
    requires Linked(s) && Covered(s) && Legal(s, e)
    ensures Plain(Step(s, e).authzs) <==> Plain(s.authzs) && !AsksDouble(s, e)
  {
    hide Linked, Covered, Answer, StartVerifier, FinishVerifier, RevokeRow, ReleaseRow, LegalBody, Plain, Doubles,
         AuthzsGrow, OrdersGrow;
    if e.Post? {
      AnswerPlain(s, e);
    } else if e.VerifierStarts? {
      StartFrame(s, e.chall, e.job);
    } else if e.VerifierFinishes? {
      FinishKeeps(s, e.job, e.ok);
      FinishedKeys(s, e.job, e.ok);
      SameIdents(s.authzs, Step(s, e).authzs);
    }
  }

  lemma AnswerPlain(s: State, e: Event)
    requires Linked(s) && Covered(s) && e.Post? && Legal(s, e)
    ensures Plain(Answer(s, e).authzs) <==> Plain(s.authzs) && !AsksDouble(s, e)
  {
    hide Linked, Covered, Handled, LegalBody, Plain, Doubles, Grows, Legal, Answer;
    LegalPost(s, e);
    AnswerRows(s, e);
    if e.nonce in s.nonces {
      OutsideKeeps(s, Consumed(s, e.nonce));
      HandledPlain(Consumed(s, e.nonce), e.signer, e.form, e.body);
    }
  }

  lemma FinishedKeys(s: State, job: nat, ok: bool)
    requires Linked(s) && Covered(s)
    ensures FinishVerifier(s, job, ok).authzs.Keys <= s.authzs.Keys
  {
    hide Linked, Covered, WriteBack;
    if job !in s.running { return; }
    var sn := s.running[job];
    JobDone(s, job);
    SnapFits(s.orders, s.authzs, sn);
    if (sn.a.wildcard && sn.c.typ != Dns01) || !ok { return; }
    WrittenAuthzs(s.(running := s.running - {job}), sn);
  }

  lemma HandledPlain(s: State, signer: string, form: Form, b: Body)
    requires Linked(s) && Covered(s) && LegalBody(s, form, b)
    ensures Plain(Handled(s, signer, form, b).authzs) <==> Plain(s.authzs) && !Doubles(s, signer, form, b)
  {
    hide Linked, Covered, PlaceOrder, PreAuthorize, DeactivateAuthz, Trigger, LegalBody, Handled, Plain, AuthzsGrow,
         OrdersGrow;
    if !(form.Kid? && SignedBy(s, signer, form, form.account)) || (!b.NewOrder? && !b.NewAuthz? && !b.UpdateAuthz? &&
       !b.PostChallenge?) {
      OthersKeep(s, signer, form, b);
      return;
    }
    var n := Handled(s, signer, form, b);
    HandledBy(s, signer, form, b);
    HandledKeeps(s, signer, form, b);
    if b.NewOrder? {
      OrderAdds(s, form.account, b);
      if Plain(n.authzs) { GrowthPlain(s.authzs, n.authzs); }
    } else if b.PostChallenge? {
      TriggeredKeys(s, form.account, b);
      SameIdents(s.authzs, n.authzs);
    } else if b.UpdateAuthz? {
      DeactivatedKeys(s, form.account, b);
      SameIdents(s.authzs, n.authzs);
    } else {
      PreAuthorizedPlain(s, form.account, b);
    }
  }

  lemma DeactivatedKeys(s: State, account: nat, b: Body)
    requires b.UpdateAuthz?
    ensures DeactivateAuthz(s, account, b).authzs.Keys <= s.authzs.Keys
  {
  }

  lemma TriggeredKeys(s: State, account: nat, b: Body)
    requires b.PostChallenge?
    ensures Trigger(s, account, b).authzs.Keys <= s.authzs.Keys
  {
    hide OwnsChallenge, AcceptAttestation;
    if !OwnsChallenge(s, account, b.target) { return; }
    Owned(s, account, b.target);
    var c := s.challs[b.target];
    if c.status != Untried { return; }
    if c.typ != DeviceAttest01 { return; }
    var row := s.authzs[c.authz];
    if row.order.None? || row.order.value !in s.orders { return; }
    if !b.verdict.Attested? || b.held.None? || b.held.value !in s.tickets { return; }
    AcceptedAuthzs(s, b, c, row, s.tickets[b.held.value]);
  }

  lemma PreAuthorizedPlain(s: State, account: nat, b: Body)
    requires b.NewAuthz? && LegalBody(s, Kid(account), b)
    ensures Plain(PreAuthorize(s, account, b).authzs) <==>
              Plain(s.authzs) && !(b.ident.kind == DnsName && IsWild(Base(b.ident.value)))
  {
    hide IsWild, Base, Offer;
    EmptyPlain();
    if b.ident.kind != DnsName || b.ident.value == [] { return; }
    var n := PreAuthorize(s, account, b).authzs;
    assert n == s.authzs[b.draw.authz := n[b.draw.authz]] && n[b.draw.authz].ident == BareIdent(b.ident);
    assert forall a | a in s.authzs :: n[a] == s.authzs[a];
  }

  lemma EmptyPlain()
    ensures !IsWild(Base([]))
  {
  }

  ghost predicate NeverDouble(s: State, es: seq<Event>)
    requires Possible(s, es)
    decreases |es|
  {
    es == [] || (!AsksDouble(s, es[0]) && NeverDouble(Step(s, es[0]), es[1..]))
  }

  lemma {:induction false} RunPlainExactly(s: State, es: seq<Event>)
    requires Linked(s) && Covered(s) && Possible(s, es)
    ensures Plain(Run(s, es).authzs) <==> Plain(s.authzs) && NeverDouble(s, es)
    decreases |es|
  {
    hide Step, Legal, Linked, Covered, Plain, AsksDouble;
    if es != [] {
      PlainExactly(s, es[0]);
      StepKeeps(s, es[0]);
      RunPlainExactly(Step(s, es[0]), es[1..]);
    }
  }

  // Names that pass the check every ordered name passes never do that.
  lemma {:induction false} ValidNeverDouble(s: State, es: seq<Event>)
    requires Possible(s, es)
    requires forall e | e in es && e.Post? && e.body.NewAuthz? :: ValidDnsName(e.body.ident.value)
    ensures NeverDouble(s, es)
    decreases |es|
  {
    hide Step, Legal, ValidDnsName, IsWild, Base;
    if es != [] {
      if es[0].Post? && es[0].body.NewAuthz? { ValidIsPlain(es[0].body.ident.value); }
      ValidNeverDouble(Step(s, es[0]), es[1..]);
    }
  }

  // Then a wildcard in a certificate was proved by dns-01 on its base name.
  lemma WildcardsByBase(s: State, es: seq<Event>, i: Issue, name: Name)
    requires Fresh(s) && Possible(s, es) && i in Run(s, es).issued && i.ticket.None?
    requires DnsSan(name) in i.sans && IsWild(name) && NeverDouble(s, es)
    ensures Proof(i.account, Base(name), Dns01) in Run(s, es).proofs
  {
    hide Run, Possible, IsWild, Base, NeverDouble;
    FreshProper(s);
    assert Plain(s.authzs);
    RunPlainExactly(s, es);
    BaseProved(s, es, i, name);
  }

  lemma BaseProved(s: State, es: seq<Event>, i: Issue, name: Name)
    requires Fresh(s) && Possible(s, es) && i in Run(s, es).issued && i.ticket.None?
    requires DnsSan(name) in i.sans && IsWild(name) && Plain(Run(s, es).authzs)
    ensures Proof(i.account, Base(name), Dns01) in Run(s, es).proofs
  {
    hide Run, Possible, IsWild, Base, Linked, Covered, ProofsOk, IsDeviceOrder;
    var e := Run(s, es);
    NamesIssuedSoundly(s, es, i);
    FreshProper(s);
    RunProofs(s, es);
    var ident :| ident in e.orders[i.order].idents && ident.value == name;
    assert NameProved(e, i, ident);
    var a :| a in e.authzs && Covers(e.authzs[a], i.order, ident) && e.authzs[a].account == i.account &&
             Proved(e.proofs, e.authzs[a]);
    var p :| p in e.proofs && Proves(p, e.authzs[a]);
    RowOk(e, a);
    assert p == Proof(i.account, p.name, Dns01);
  }
}
