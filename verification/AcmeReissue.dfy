/** Runs in which an order on one name is tried by http-01 and dns-01 at once. Both verifiers are
    under way when the first one makes the order ready, so it is served twice; and deactivating
    the authorization meanwhile neither lasts nor stops the order. */
module AcmeReissue {
  import opened Text
  import opened Certs
  import opened Names
  import opened Acme

  ghost function Idents(): seq<Ident> { [Ident(DnsName, [97], "")] }

  ghost function Row(st: AuthzStatus): Authz { Authz(st, Idents()[0], false, Some(1), 1, 0) }

  ghost function Placed(st: OrderStatus, cert: string): Order { Order(st, Idents(), 1, "ca", cert) }

  ghost function Chall(typ: ChallengeType, st: ChallengeStatus): Challenge { Challenge(typ, st, 1) }

  ghost function Order1(): Body
  {
    NewOrder(1, "ca", Idents(), u => true, 0, [Draw(1, 1, 2, 3, 4, 0, 0, None)], [])
  }

  ghost function Ask(cert: string): Body
  {
    Finalize(1, "ca", u => true, Some(Csr({DnsSan([97])}, None, "key")), n => true, true, cert, None)
  }

  ghost function Cert1(cert: string): Issue { Issue(1, 1, "ca", cert, {DnsSan([97])}, "key", "user", None) }

  ghost function Snap(id: nat, typ: ChallengeType): Snapshot
  {
    Snapshot(id, Chall(typ, Processing), 1, Row(Open), Some(Placed(Pending, "")), 1)
  }

  // ---- the states passed through ---------------------------------------------

  ghost function Empty(): State
  {
    State({}, map[], map[], map[], map[], map[], map[], map[], {}, map[], {}, {}, {}, {})
  }

  ghost function Ordered(): State
  {
    Empty().(nonces := {"2"}, spent := {"0", "1"}, accounts := map[1 := Account(false, "k", "user")],
             orders := map[1 := Placed(Pending, "")], authzs := map[1 := Row(Open)],
             challs := map[1 := Chall(Http01, Untried), 2 := Chall(TlsAlpn01, Untried), 3 := Chall(Dns01, Untried)])
  }

  ghost function BothTried(): State
  {
    Ordered().(nonces := {"4"}, spent := {"0", "1", "2", "3"}, waiting := {1, 3},
               challs := map[1 := Chall(Http01, Processing), 2 := Chall(TlsAlpn01, Untried),
                             3 := Chall(Dns01, Processing)])
  }

  ghost function BothRunning(): State
  {
    BothTried().(waiting := {}, running := map[1 := Snap(1, Http01), 2 := Snap(3, Dns01)])
  }

  // A verifier comes back with success.
  ghost function Back(s: State, job: nat, id: nat, typ: ChallengeType): State
  {
    s.(running := s.running - {job}, challs := OnlyPassed(s.challs[id := Chall(typ, Passed)], 1, id),
       authzs := s.authzs[1 := Row(Proven)], proofs := s.proofs + {Proof(1, [97], typ)},
       orders := s.orders[1 := Placed(Ready, "")])
  }

  // The order is served.
  ghost function Paid(s: State, nonce: string, reply: string, cert: string): State
  {
    s.(nonces := s.nonces - {nonce} + {reply}, spent := s.spent + {nonce},
       orders := s.orders[1 := Placed(Valid, cert)], certs := s.certs[cert := Cert(0, 0, "user", "ca")],
       issued := s.issued + {Cert1(cert)})
  }

  ghost function FirstBack(): State { Back(BothRunning(), 1, 1, Http01) }

  ghost function Served(): State { Paid(FirstBack(), "4", "5", "x") }

  ghost function SecondBack(): State { Back(Served(), 2, 3, Dns01) }

  ghost function ServedTwice(): State { Paid(SecondBack(), "5", "6", "y") }

  lemma ShortNameValid()
    ensures ValidDnsName([97]) && !IsWild([97]) && Base([97]) == [97]
  {
  }

  ghost predicate Goes(s: State, e: Event, n: State) { Legal(s, e) && Step(s, e) == n }

  // A request of the account, once what it does is known.
  lemma Answers(s: State, nonce: string, reply: string, b: Body, h: State, n: State)
    requires nonce in s.nonces && reply !in s.nonces && reply !in s.spent
    requires LegalBody(Consumed(s, nonce), Kid(1), b) && Handled(Consumed(s, nonce), "k", Kid(1), b) == h
    requires n == h.(nonces := h.nonces + {reply})
    ensures Goes(s, Post(nonce, reply, "k", Kid(1), b), n)
  {
    hide Handled, LegalBody;
  }

  lemma AccountActs(s: State, b: Body)
    requires 1 in s.accounts && s.accounts[1] == Account(false, "k", "user")
    ensures b.NewOrder? ==> Handled(s, "k", Kid(1), b) == PlaceOrder(s, 1, b)
    ensures b.PostChallenge? ==> Handled(s, "k", Kid(1), b) == Trigger(s, 1, b)
    ensures b.Finalize? ==> Handled(s, "k", Kid(1), b) == FinalizeOrder(s, 1, b)
    ensures b.UpdateAuthz? ==> Handled(s, "k", Kid(1), b) == DeactivateAuthz(s, 1, b)
  {
    hide PlaceOrder, Trigger, FinalizeOrder, DeactivateAuthz;
  }

  lemma NoTickets(s: State, chall: nat)
    requires s.tickets == map[]
    ensures LegalBody(s, Kid(1), PostChallenge(chall, NoAttestation, None))
  {
  }

  ghost function WithAccount(): State
  {
    Empty().(nonces := {"1"}, spent := {"0"}, accounts := map[1 := Account(false, "k", "user")])
  }

  ghost function Begins(): State { Consumed(WithAccount(), "1").(orders := map[1 := Placed(Pending, "")]) }

  lemma PlacesOne()
    ensures var b := Order1();
            && PlaceAuthzs(Begins(), 1, 1, b.idents, b.draws) == Ordered().(nonces := {})
            && LegalDraws(Begins(), 1, 1, b.idents, b.draws)
  {
    hide ValidDnsName, Base, IsWild;
    ShortNameValid();
    var b := Order1();
    assert b.idents[..0] == [] && b.draws[..0] == [];
    assert PlaceAuthzs(Begins(), 1, 1, b.idents[..0], b.draws[..0]) == Begins();
    assert PlaceAuthz(Begins(), 1, 1, b.idents[0], b.draws[0]) == Ordered().(nonces := {});
  }

  lemma PlacesDns()
    ensures PlaceOrder(Consumed(WithAccount(), "1"), 1, Order1()) == Ordered().(nonces := {})
    ensures LegalBody(Consumed(WithAccount(), "1"), Kid(1), Order1())
  {
    hide ValidDnsName, Base, IsWild, PlaceAuthzs, LegalDraws;
    ShortNameValid();
    PlacesOne();
    var m, b := Consumed(WithAccount(), "1"), Order1();
    assert !IsDeviceOrder(b.idents);
    assert m.(orders := m.orders[1 := Placed(Pending, "")]) == Begins();
    assert b.draws[0] in b.draws;
    assert PlaceDnsOrder(m, 1, b) == Ordered().(nonces := {});
  }

  lemma PlacesOrder()
    ensures Goes(WithAccount(), Post("1", "2", "k", Kid(1), Order1()), Ordered())
  {
    hide Goes, Handled, PlaceOrder, LegalBody;
    PlacesDns();
    AccountActs(Consumed(WithAccount(), "1"), Order1());
    Answers(WithAccount(), "1", "2", Order1(), Ordered().(nonces := {}), Ordered());
  }

  lemma CreatesAccount()
    ensures Goes(Empty(), GetNonce("0"), Empty().(nonces := {"0"}))
    ensures Goes(Empty().(nonces := {"0"}), Post("0", "1", "k", Jwk, NewAccount(1, false, Bound("user"), 0)),
                 WithAccount())
  {
  }

  ghost function HttpTried(): State
  {
    Ordered().(nonces := {"3"}, spent := {"0", "1", "2"}, waiting := {1},
               challs := map[1 := Chall(Http01, Processing), 2 := Chall(TlsAlpn01, Untried),
                             3 := Chall(Dns01, Untried)])
  }

  // A challenge of the only authorization is tried.
  lemma Tries(s: State, nonce: string, reply: string, id: nat, typ: ChallengeType, n: State)
    requires nonce in s.nonces && reply !in s.nonces && reply !in s.spent && typ != DeviceAttest01
    requires s.accounts == map[1 := Account(false, "k", "user")] && s.tickets == map[]
    requires 1 in s.orders && s.orders[1].account == 1 && 1 in s.authzs && s.authzs[1].order == Some(1)
    requires id in s.challs && s.challs[id] == Chall(typ, Untried)
    requires n == s.(nonces := s.nonces - {nonce} + {reply}, spent := s.spent + {nonce}, waiting := s.waiting + {id},
                     challs := s.challs[id := Chall(typ, Processing)])
    ensures Goes(s, Post(nonce, reply, "k", Kid(1), PostChallenge(id, NoAttestation, None)), n)
  {
    hide Goes, Handled, Attest, LegalBody;
    var m, b := Consumed(s, nonce), PostChallenge(id, NoAttestation, None);
    assert OwnsChallenge(m, 1, id);
    var h := Trigger(m, 1, b);
    assert h == n.(nonces := m.nonces);
    NoTickets(m, id);
    AccountActs(m, b);
    Answers(s, nonce, reply, b, h, n);
  }

  lemma TriesHttp()
    ensures Goes(Ordered(), Post("2", "3", "k", Kid(1), PostChallenge(1, NoAttestation, None)), HttpTried())
  {
    hide Goes, Idents;
    Tries(Ordered(), "2", "3", 1, Http01, HttpTried());
  }

  lemma TriesDns()
    ensures Goes(HttpTried(), Post("3", "4", "k", Kid(1), PostChallenge(3, NoAttestation, None)), BothTried())
  {
    hide Goes, Idents;
    Tries(HttpTried(), "3", "4", 3, Dns01, BothTried());
  }

  ghost function HttpRunning(): State { BothTried().(waiting := {3}, running := map[1 := Snap(1, Http01)]) }

  lemma StartsBoth()
    ensures Goes(BothTried(), VerifierStarts(1, 1), HttpRunning())
    ensures Goes(HttpRunning(), VerifierStarts(3, 2), BothRunning())
  {
    assert {1, 3} - {1} == {3};
    assert {3} - {3} == {};
  }

  lemma Returns(s: State, job: nat, id: nat, typ: ChallengeType)
    requires job in s.running && s.running[job] == Snap(id, typ) && typ != DeviceAttest01 && s.authzs.Keys == {1}
    ensures Goes(s, VerifierFinishes(job, true), Back(s, job, id, typ))
  {
    hide OnlyPassed;
    assert AllProven(s.authzs[1 := Row(Proven)], 1);
  }

  lemma Pays(s: State, nonce: string, reply: string, cert: string)
    requires nonce in s.nonces && reply !in s.nonces && reply !in s.spent && cert !in s.certs && cert != ""
    requires s.accounts == map[1 := Account(false, "k", "user")] && s.tickets == map[]
    requires 1 in s.orders && s.orders[1] == Placed(Ready, "")
    ensures Goes(s, Post(nonce, reply, "k", Kid(1), Ask(cert)), Paid(s, nonce, reply, cert))
  {
    hide Goes, Handled, SansOf, IsDeviceOrder, FinalizeDevice, Idents, LegalBody;
    var m, b := Consumed(s, nonce), Ask(cert);
    OneSan();
    var h := Paid(s, nonce, reply, cert).(nonces := m.nonces);
    assert MayFinalize(m, 1, b, "user") && CsrFits(b, m.orders[1]);
    assert FinalizeDns(m, 1, b) == h;
    assert LegalBody(m, Kid(1), b) by { NoneHeld(m, cert); }
    AccountActs(m, b);
    Answers(s, nonce, reply, b, h, Paid(s, nonce, reply, cert));
  }

  lemma NoneHeld(s: State, cert: string)
    requires s.tickets == map[] && cert != ""
    ensures LegalBody(s, Kid(1), Ask(cert))
  {
  }

  lemma OneSan()
    ensures SansOf(Idents()) == {DnsSan([97])} && !IsDeviceOrder(Idents())
  {
  }

  // Up to where both verifiers are on the network, and from there on.
  ghost function Early(): seq<Event>
  {
    [GetNonce("0"), Post("0", "1", "k", Jwk, NewAccount(1, false, Bound("user"), 0)),
     Post("1", "2", "k", Kid(1), Order1()), Post("2", "3", "k", Kid(1), PostChallenge(1, NoAttestation, None)),
     Post("3", "4", "k", Kid(1), PostChallenge(3, NoAttestation, None)), VerifierStarts(1, 1), VerifierStarts(3, 2)]
  }

  ghost function Late(): seq<Event>
  {
    [VerifierFinishes(1, true), Post("4", "5", "k", Kid(1), Ask("x")), VerifierFinishes(2, true),
     Post("5", "6", "k", Kid(1), Ask("y"))]
  }

  lemma Onward(s: State, es: seq<Event>, n: State, end: State)
    requires es != [] && Goes(s, es[0], n) && Possible(n, es[1..]) && Run(n, es[1..]) == end
    ensures Possible(s, es) && Run(s, es) == end
  {
  }

  lemma {:induction false} RunOn(s: State, es: seq<Event>, fs: seq<Event>)
    requires Possible(s, es) && Possible(Run(s, es), fs)
    ensures Possible(s, es + fs) && Run(s, es + fs) == Run(Run(s, es), fs)
    decreases |es|
  {
    hide Legal, Step;
    if es == [] {
      assert es + fs == fs;
    } else {
      RunOn(Step(s, es[0]), es[1..], fs);
      assert (es + fs)[1..] == es[1..] + fs;
    }
  }

  // An order on names can yield two certificates.
  lemma NamesServedTwice()
    ensures var es := Early() + Late(); Fresh(Empty()) && Possible(Empty(), es) && Run(Empty(), es) == ServedTwice()
    ensures Cert1("x") in ServedTwice().issued && Cert1("y") in ServedTwice().issued
    ensures Cert1("x").order == Cert1("y").order && Cert1("x").cert != Cert1("y").cert
  {
    hide Possible, Run, Goes, Early, Late, BothRunning, Idents, OnlyPassed;
    ReachesBoth();
    Serving();
    RunOn(Empty(), Early(), Late());
  }

  lemma ReachesBoth()
    ensures Possible(Empty(), Early()) && Run(Empty(), Early()) == BothRunning()
  {
    hide Possible, Run, Goes, Ordered, HttpTried, BothTried, HttpRunning, BothRunning, Order1;
    var es, end := Early(), BothRunning();
    CreatesAccount();
    PlacesOrder();
    TriesHttp();
    TriesDns();
    StartsBoth();
    Finished(end, es[7..]);
    Onward(HttpRunning(), es[6..], end, end);
    Onward(BothTried(), es[5..], HttpRunning(), end);
    Onward(HttpTried(), es[4..], BothTried(), end);
    Onward(Ordered(), es[3..], HttpTried(), end);
    Onward(WithAccount(), es[2..], Ordered(), end);
    Onward(Empty().(nonces := {"0"}), es[1..], WithAccount(), end);
    Onward(Empty(), es, Empty().(nonces := {"0"}), end);
  }

  lemma Serving()
    ensures Possible(BothRunning(), Late()) && Run(BothRunning(), Late()) == ServedTwice()
  {
    hide Possible, Run, Goes, BothRunning, FirstBack, Served, SecondBack, ServedTwice, Ask;
    var es, end := Late(), ServedTwice();
    ServesTwice();
    Finished(end, es[4..]);
    Onward(SecondBack(), es[3..], end, end);
    Onward(Served(), es[2..], SecondBack(), end);
    Onward(FirstBack(), es[1..], Served(), end);
    Onward(BothRunning(), es, FirstBack(), end);
  }

  lemma ServesTwice()
    ensures Goes(BothRunning(), VerifierFinishes(1, true), FirstBack())
    ensures Goes(FirstBack(), Post("4", "5", "k", Kid(1), Ask("x")), Served())
    ensures Goes(Served(), VerifierFinishes(2, true), SecondBack())
    ensures Goes(SecondBack(), Post("5", "6", "k", Kid(1), Ask("y")), ServedTwice())
  {
    hide Goes, OnlyPassed, Idents;
    Returns(BothRunning(), 1, 1, Http01);
    Pays(FirstBack(), "4", "5", "x");
    Returns(Served(), 2, 3, Dns01);
    Pays(SecondBack(), "5", "6", "y");
  }

  lemma Finished(s: State, es: seq<Event>)
    requires es == []
    ensures Possible(s, es) && Run(s, es) == s
  {
  }

  // ---- deactivation in the meantime ------------------------------------------

  // The account deactivates its authorization.
  ghost function Off(s: State): State
  {
    s.(nonces := {"5"}, spent := s.spent + {"4"}, authzs := s.authzs[1 := Row(Deactivated)])
  }

  lemma Deactivates(s: State)
    requires s.nonces == {"4"} && "5" !in s.spent && s.accounts == map[1 := Account(false, "k", "user")]
    requires 1 in s.authzs && s.authzs[1].(status := Deactivated) == Row(Deactivated)
    ensures Goes(s, Post("4", "5", "k", Kid(1), UpdateAuthz(1, true)), Off(s))
  {
    hide Goes, Handled;
    var m, b := Consumed(s, "4"), UpdateAuthz(1, true);
    AccountActs(m, b);
    var h := Off(s).(nonces := {});
    assert m.nonces == {};
    assert DeactivateAuthz(m, 1, b) == h;
    Answers(s, "4", "5", b, h, Off(s));
  }

  ghost function OffEvents(): seq<Event>
  {
    [Post("4", "5", "k", Kid(1), UpdateAuthz(1, true))]
  }

  // A deactivated authorization can become valid again.
  lemma DeactivatedReturns()
    ensures var es, fs := Early() + OffEvents(), Early() + OffEvents() + [VerifierFinishes(1, true)];
            && Possible(Empty(), es) && Run(Empty(), es).authzs == map[1 := Row(Deactivated)]
            && Possible(Empty(), fs) && Run(Empty(), fs).authzs == map[1 := Row(Proven)]
  {
    hide Possible, Run, Goes, Early, BothRunning, Idents, OnlyPassed;
    ReachesBoth();
    RunningRows();
    var s, es := BothRunning(), OffEvents();
    Deactivates(s);
    var off, e := Off(s), VerifierFinishes(1, true);
    Finished(off, es[1..]);
    Onward(s, es, off, off);
    RunOn(Empty(), Early(), es);
    assert off.running == s.running && off.authzs == map[1 := Row(Deactivated)];
    Returns(off, 1, 1, Http01);
    Finished(Back(off, 1, 1, Http01), [e][1..]);
    Onward(off, [e], Back(off, 1, 1, Http01), Back(off, 1, 1, Http01));
    RunOn(Empty(), Early() + es, [e]);
  }

  lemma RunningRows()
    ensures var s := BothRunning();
            && s.nonces == {"4"} && s.spent == {"0", "1", "2", "3"}
            && s.accounts == map[1 := Account(false, "k", "user")] && s.authzs == map[1 := Row(Open)]
            && s.tickets == map[] && s.certs == map[] && 1 in s.running && s.running[1] == Snap(1, Http01)
  {
  }

  // A ready order is served although its authorization was deactivated.
  lemma DeactivatedServed()
    ensures var es := Early() + ([VerifierFinishes(1, true)] + OffEvents() + [Post("5", "6", "k", Kid(1), Ask("x"))]);
            && Possible(Empty(), es) && Cert1("x") in Run(Empty(), es).issued
            && Run(Empty(), es).authzs == map[1 := Row(Deactivated)]
  {
    hide Possible, Run, Goes, Early, BothRunning, Idents, OnlyPassed, Ask;
    ReachesBoth();
    RunningRows();
    var s, fs := BothRunning(), [VerifierFinishes(1, true)] + OffEvents() + [Post("5", "6", "k", Kid(1), Ask("x"))];
    var back := Back(s, 1, 1, Http01);
    var off := Off(back);
    var end := Paid(off, "5", "6", "x");
    Returns(s, 1, 1, Http01);
    Deactivates(back);
    Pays(off, "5", "6", "x");
    Finished(end, fs[3..]);
    Onward(off, fs[2..], end, end);
    Onward(back, fs[1..], off, end);
    Onward(s, fs, back, end);
    RunOn(Empty(), Early(), fs);
  }
}
