/** A run in which a wildcard certificate rests on no proof of its base name: a pre-authorization
    for "*.*.a" is stored, and proved, under the name "*.a", and an order for "*.a" reuses it. */
module AcmeWild {
  import opened Text
  import opened Certs
  import opened Names
  import opened Acme
  import opened AcmeReissue

  const DOUBLE: Name := [42, 46, 42, 46, 97]
  const SINGLE: Name := [42, 46, 97]

  ghost function Wanted(): Ident { Ident(DnsName, SINGLE, "") }

  ghost function Flagged(st: AuthzStatus): Authz { Authz(st, Wanted(), true, None, 1, 1) }

  ghost function Dns(st: ChallengeStatus): Challenge { Challenge(Dns01, st, 1) }

  ghost function Ordering(): Body
  {
    NewOrder(1, "ca", [Wanted()], u => true, 0, [Draw(2, 5, 6, 7, 8, 1, 0, Some(1))], [])
  }

  ghost function Finalizing(): Body
  {
    Finalize(1, "ca", u => true, Some(Csr({DnsSan(SINGLE)}, None, "key")), n => true, true, "x", None)
  }

  ghost function Certified(): Issue { Issue(1, 1, "ca", "x", {DnsSan(SINGLE)}, "key", "user", None) }

  // ---- the states passed through ---------------------------------------------

  ghost function Asked(): State
  {
    WithAccount().(nonces := {"2"}, spent := {"0", "1"}, authzs := map[1 := Flagged(Open)],
                   challs := map[3 := Dns(Untried)])
  }

  ghost function Triggered(): State
  {
    Asked().(nonces := {"3"}, spent := {"0", "1", "2"}, challs := map[3 := Dns(Processing)], waiting := {3})
  }

  ghost function Verifying(): State
  {
    Triggered().(waiting := {}, running := map[1 := Snapshot(3, Dns(Processing), 1, Flagged(Open), None, 1)])
  }

  ghost function ProvedOnce(): State
  {
    Verifying().(running := map[], challs := map[3 := Dns(Passed)], authzs := map[1 := Flagged(Proven)],
                 proofs := {Proof(1, SINGLE, Dns01)})
  }

  ghost function Reused(): State
  {
    ProvedOnce().(nonces := {"4"}, spent := {"0", "1", "2", "3"},
                  orders := map[1 := Order(Ready, [Wanted()], 1, "ca", "")],
                  authzs := map[1 := Flagged(Proven), 2 := Flagged(Proven).(order := Some(1))])
  }

  ghost function WildIssued(): State
  {
    Reused().(nonces := {"5"}, spent := {"0", "1", "2", "3", "4"},
              orders := map[1 := Order(Valid, [Wanted()], 1, "ca", "x")],
              certs := map["x" := Cert(0, 0, "user", "ca")], issued := {Certified()})
  }

  // ---- the steps -------------------------------------------------------------

  lemma Wildcards()
    ensures IsWild(DOUBLE) && Base(DOUBLE) == SINGLE && IsWild(SINGLE) && Base(SINGLE) == [97] && ValidDnsName(SINGLE)
  {
    ShortNameValid();
    assert DOUBLE[2..] == SINGLE && SINGLE[2..] == [97];
    assert Base([97]) == [97];
  }

  lemma Asks()
    ensures Goes(WithAccount(), Post("1", "2", "k", Kid(1),
                               NewAuthz(Ident(DnsName, DOUBLE, ""), Draw(1, 1, 2, 3, 4, 1, 0, None))), Asked())
  {
    hide IsWild, Base, PlaceOrder, DeactivateAccount, ChangeKey, DeactivateAuthz, FinalizeOrder, KeyInUse, Trigger;
    Wildcards();
    var m, d := Consumed(WithAccount(), "1"), Draw(1, 1, 2, 3, 4, 1, 0, None);
    var b := NewAuthz(Ident(DnsName, DOUBLE, ""), d);
    assert PreAuthorize(m, 1, b) == Asked().(nonces := m.nonces);
  }

  lemma Triggers()
    ensures Goes(Asked(), Post("2", "3", "k", Kid(1), PostChallenge(3, NoAttestation, None)), Triggered())
  {
    hide Goes, Handled, Attest, Wanted, LegalBody;
    var m, b := Consumed(Asked(), "2"), PostChallenge(3, NoAttestation, None);
    assert OwnsChallenge(m, 1, 3);
    assert Trigger(m, 1, b) == Triggered().(nonces := {});
    assert LegalBody(m, Kid(1), b) by { NoTickets(m, 3); }
    AccountActs(m, b);
    Answers(Asked(), "2", "3", b, Triggered().(nonces := {}), Triggered());
  }

  lemma Verifies()
    ensures Goes(Triggered(), VerifierStarts(3, 1), Verifying())
    ensures Goes(Verifying(), VerifierFinishes(1, true), ProvedOnce())
  {
    assert {3} - {3} == {};
    var s := Verifying();
    assert s.running - {1} == map[];
    assert OnlyPassed(s.challs[3 := Dns(Passed)], 1, 3) == map[3 := Dns(Passed)];
  }

  ghost function Begun(): State
  {
    Consumed(ProvedOnce(), "3").(orders := map[1 := Order(Pending, [Wanted()], 1, "ca", "")])
  }

  ghost function Copied(): State
  {
    Begun().(authzs := map[1 := Flagged(Proven), 2 := Flagged(Proven).(order := Some(1))])
  }

  lemma Copies()
    ensures var b := Ordering(); PlaceAuthzs(Begun(), 1, 1, b.idents, b.draws) == Copied()
  {
    hide Begun, MakeAuthz;
    var b := Ordering();
    var d := b.draws[0];
    assert b.idents[..0] == [] && b.draws[..0] == [];
    assert PlaceAuthzs(Begun(), 1, 1, b.idents[..0], b.draws[..0]) == Begun();
    assert 1 in Begun().authzs && Begun().authzs == map[1 := Flagged(Proven)] by { BegunRows(); }
    assert PlaceAuthz(Begun(), 1, 1, Wanted(), d) == Copied();
  }

  lemma BegunRows()
    ensures Begun().authzs == map[1 := Flagged(Proven)] && Begun().challs == map[3 := Dns(Passed)]
    ensures Begun().waiting == {}
  {
  }

  lemma Places()
    ensures var m := Consumed(ProvedOnce(), "3"); PlaceOrder(m, 1, Ordering()) == Reused().(nonces := {})
  {
    hide PlaceAuthzs, ValidDnsName;
    Wildcards();
    Copies();
    var m, b := Consumed(ProvedOnce(), "3"), Ordering();
    var o := Order(Pending, [Wanted()], 1, "ca", "");
    assert m.(orders := m.orders[1 := o]) == Begun();
    assert !IsDeviceOrder(b.idents);
    assert PlaceDnsOrder(m, 1, b) == MakeReady(Copied(), 1, o);
  }

  lemma MayPlace()
    ensures LegalBody(Consumed(ProvedOnce(), "3"), Kid(1), Ordering())
  {
    hide PlaceAuthzs, Begun, MakeAuthz;
    var m, b := Consumed(ProvedOnce(), "3"), Ordering();
    var d := b.draws[0];
    assert m.(orders := m.orders[1 := Order(Pending, b.idents, 1, b.ca, "")]) == Begun() by { BegunIs(); }
    BegunRows();
    assert b.idents[..0] == [] && b.draws[..0] == [];
    assert PlaceAuthzs(Begun(), 1, 1, b.idents[..0], b.draws[..0]) == Begun() by { NonePlaced(b); }
    assert FreshDraw(Begun(), d) && ReuseFound(Begun(), 1, Wanted(), d);
    assert LegalDraws(Begun(), 1, 1, b.idents[..0], b.draws[..0]);
    assert LegalDraws(Begun(), 1, 1, b.idents, b.draws);
  }

  lemma BegunIs()
    ensures var m := Consumed(ProvedOnce(), "3");
            Begun() == m.(orders := m.orders[1 := Order(Pending, [Wanted()], 1, "ca", "")])
  {
  }

  lemma NonePlaced(b: Body)
    requires b.NewOrder? && b.idents[..0] == [] && |b.draws| == |b.idents|
    ensures PlaceAuthzs(Begun(), 1, 1, b.idents[..0], b.draws[..0]) == Begun()
  {
  }

  lemma Reuses()
    ensures Goes(ProvedOnce(), Post("3", "4", "k", Kid(1), Ordering()), Reused())
  {
    hide Goes, PlaceOrder, LegalBody, Handled, Ordering;
    var m := Consumed(ProvedOnce(), "3");
    Places();
    MayPlace();
    assert Ordering().NewOrder? by { OrderingIs(); }
    AccountActs(m, Ordering());
    Answers(ProvedOnce(), "3", "4", Ordering(), Reused().(nonces := {}), Reused());
  }

  lemma OrderingIs()
    ensures Ordering().NewOrder? && Finalizing().Finalize?
  {
  }

  lemma Finalizes()
    ensures var m := Consumed(Reused(), "4"); FinalizeOrder(m, 1, Finalizing()) == WildIssued().(nonces := {})
  {
    hide FinalizeDevice, SansOf, IsDeviceOrder;
    var m, b := Consumed(Reused(), "4"), Finalizing();
    WantedSan();
    assert MayFinalize(m, 1, b, "user") && CsrFits(b, m.orders[1]);
    assert FinalizeDns(m, 1, b) == WildIssued().(nonces := {});
  }

  lemma WantedSan()
    ensures SansOf([Wanted()]) == {DnsSan(SINGLE)} && !IsDeviceOrder([Wanted()])
  {
  }

  lemma MayFinalizeNow()
    ensures LegalBody(Consumed(Reused(), "4"), Kid(1), Finalizing())
  {
  }

  lemma Certifies()
    ensures Goes(Reused(), Post("4", "5", "k", Kid(1), Finalizing()), WildIssued())
  {
    hide Goes, FinalizeOrder, LegalBody, Handled, Finalizing;
    OrderingIs();
    Finalizes();
    MayFinalizeNow();
    AccountActs(Consumed(Reused(), "4"), Finalizing());
    Answers(Reused(), "4", "5", Finalizing(), WildIssued().(nonces := {}), WildIssued());
  }

  ghost function WildEvents(): seq<Event>
  {
    [GetNonce("0"), Post("0", "1", "k", Jwk, NewAccount(1, false, Bound("user"), 0)),
     Post("1", "2", "k", Kid(1), NewAuthz(Ident(DnsName, DOUBLE, ""), Draw(1, 1, 2, 3, 4, 1, 0, None))),
     Post("2", "3", "k", Kid(1), PostChallenge(3, NoAttestation, None)), VerifierStarts(3, 1),
     VerifierFinishes(1, true), Post("3", "4", "k", Kid(1), Ordering()), Post("4", "5", "k", Kid(1), Finalizing())]
  }

  // The wildcard is in a certificate, and nothing was ever proved about its base.
  lemma WildcardNotByBase()
    ensures Fresh(Empty()) && Possible(Empty(), WildEvents()) && Run(Empty(), WildEvents()) == WildIssued()
    ensures Certified() in WildIssued().issued && DnsSan(SINGLE) in Certified().sans && IsWild(SINGLE)
    ensures forall p | p in WildIssued().proofs :: p.name != Base(SINGLE)
  {
    hide Possible, Run, Goes, Asked, Triggered, Verifying, ProvedOnce, Reused, Ordering, Finalizing;
    Reaches();
    Wildcards();
    assert WildIssued().proofs == {Proof(1, SINGLE, Dns01)} by { OneProof(); }
  }

  lemma OneProof()
    ensures WildIssued().proofs == {Proof(1, SINGLE, Dns01)}
  {
  }

  lemma Reaches()
    ensures Possible(Empty(), WildEvents()) && Run(Empty(), WildEvents()) == WildIssued()
  {
    hide Possible, Run, Goes, Asked, Triggered, Verifying, ProvedOnce, Reused, WildIssued, Ordering, Finalizing;
    var es, end := WildEvents(), WildIssued();
    CreatesAccount();
    Asks();
    Triggers();
    Verifies();
    Reuses();
    Certifies();
    Finished(end, es[8..]);
    Onward(Reused(), es[7..], end, end);
    Onward(ProvedOnce(), es[6..], Reused(), end);
    Onward(Verifying(), es[5..], ProvedOnce(), end);
    Onward(Triggered(), es[4..], Verifying(), end);
    Onward(Asked(), es[3..], Triggered(), end);
    Onward(WithAccount(), es[2..], Asked(), end);
    Onward(Empty().(nonces := {"0"}), es[1..], WithAccount(), end);
    Onward(Empty(), es, Empty().(nonces := {"0"}), end);
  }
}
