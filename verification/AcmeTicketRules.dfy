/** What one ACME event does to device tickets, registered serials and the record of verified
    attestations. */
module AcmeTicketRules {
  import opened Text
  import opened Acme
  import opened AcmeFrames
  import opened AcmeRules
  import opened AcmeOrderRules

  // ---- tickets ---------------------------------------------------------------

  // A device order takes hold of the ticket it names, or of one made for it.
  ghost predicate Claims(s: State, e: Event, t: Name)
  {
    && Asks(s, e) && WantsDevice(s, e.body)
    && t == if OpenTicket(s, e.body) then e.body.idents[0].value else e.body.ticket
  }

  ghost function ClaimedRow(s: State, e: Event): Ticket
    requires Asks(s, e) && WantsDevice(s, e.body)
  {
    var b := e.body;
    var v := b.idents[0].value;
    if OpenTicket(s, b) then s.tickets[v].(order := Some(b.id))
    else Ticket(b.ca, s.registered[(v, b.ca)], b.draws[0].expires, Some(b.id), [], "", "", v)
  }

  ghost predicate AttestsOn(s: State, e: Event, t: Name)
  {
    Asks(s, e) && DeviceProves(s, Sender(e), e.body) && e.body.held == Some(t)
  }

  ghost predicate IssuesOn(s: State, e: Event, t: Name)
  {
    Asks(s, e) && ServesDevice(s, Sender(e), e.body) && e.body.backing == Some(t)
  }

  ghost predicate SameTicket(s: State, n: State, t: Name)
  {
    (t in n.tickets <==> t in s.tickets) && (t in s.tickets ==> n.tickets[t] == s.tickets[t])
  }

  // Made unclaimed, cancelled only while unclaimed, claimed once, given the attested serial and
  // key, given its certificate; nothing else ever touches it.
  lemma TicketRule(s: State, e: Event, t: Name)
    ensures var n := Step(s, e);
            if e.IssueTicket? && e.ticket == t then
              t in n.tickets && n.tickets[t] == Ticket(e.ca, e.owner, e.expires, None, [], "", "", [])
            else if e.CancelTicket? && e.ticket == t && t in s.tickets && s.tickets[t].order.None? then t !in n.tickets
            else if Claims(s, e, t) then t in n.tickets && n.tickets[t] == ClaimedRow(s, e)
            else if AttestsOn(s, e, t) then
              t in n.tickets &&
              n.tickets[t] == s.tickets[t].(serial := e.body.verdict.serial, spki := e.body.verdict.spki)
            else if IssuesOn(s, e, t) then t in n.tickets && n.tickets[t] == s.tickets[t].(cert := e.body.cert)
            else SameTicket(s, n, t)
  {
    hide Step, WantsDevice, OpenTicket, DeviceProves, ServesDevice, ClaimedRow;
    if Asks(s, e) && e.body.NewOrder? {
      TicketsOrdered(s, e);
      if WantsDevice(s, e.body) { DeviceMatched(s, e.body); }
    } else if Asks(s, e) && e.body.PostChallenge? {
      TicketsAttested(s, e);
    } else if Asks(s, e) && e.body.Finalize? {
      TicketsServed(s, e);
    } else if e.IssueTicket? || e.CancelTicket? {
      AdminTickets(s, e);
    } else {
      OthersKeepTickets(s, e);
    }
    Kinds(s, e);
  }

  lemma Kinds(s: State, e: Event)
    ensures e.Post? && !e.body.NewOrder? ==> !WantsDevice(s, e.body)
    ensures e.Post? && !e.body.PostChallenge? ==> !DeviceProves(s, Sender(e), e.body)
    ensures e.Post? && !e.body.Finalize? ==> !ServesDevice(s, Sender(e), e.body)
  {
  }

  lemma TicketsOrdered(s: State, e: Event)
    requires Asks(s, e) && e.body.NewOrder?
    ensures Step(s, e).tickets == if WantsDevice(s, e.body) then Claimed(s, e.body) else s.tickets
    ensures WantsDevice(s, e.body) ==>
              && |e.body.idents| == 1 && OneDevice(e.body)
              && Claimed(s, e.body) ==
                   var t := if OpenTicket(s, e.body) then e.body.idents[0].value else e.body.ticket;
                   s.tickets[t := ClaimedRow(s, e)]
  {
    hide Step, PlaceOrder, PlaceDnsOrder, PlaceDeviceOrder;
    var m, a, b := Consumed(s, e.nonce), e.form.account, e.body;
    AsksOrder(s, e);
    PlacedBy(m, a, b);
    if WantsNames(m, a, b) { DnsTickets(m, a, b); }
    else if WantsDevice(m, b) { DeviceTickets(m, a, b, Claimed(m, b)); }
  }

  lemma DnsTickets(s: State, account: nat, b: Body)
    requires b.NewOrder? && |b.draws| == |b.idents|
    ensures PlaceDnsOrder(s, account, b).tickets == s.tickets
  {
    hide PlaceAuthzs;
    var o := Order(Pending, b.idents, account, b.ca, "");
    PlacingFrame(s.(orders := s.orders[b.id := o]), b.id, account, b.idents, b.draws);
    if AllReused(b.draws) { return; }
  }

  lemma DeviceTickets(s: State, account: nat, b: Body, tickets: map<Name, Ticket>)
    requires b.NewOrder? && |b.idents| == 1 && |b.draws| == 1
    ensures PlaceDeviceOrder(s, account, b, tickets).tickets == tickets
  {
  }

  lemma TicketsAttested(s: State, e: Event)
    requires Asks(s, e) && e.body.PostChallenge?
    ensures var n, b := Step(s, e), e.body;
            if DeviceProves(s, Sender(e), b) then
              && b.held.Some? && b.held.value in s.tickets && b.verdict.Attested?
              && n.tickets == s.tickets[b.held.value := s.tickets[b.held.value].(serial := b.verdict.serial,
                                                                                spki := b.verdict.spki)]
              && var order := s.authzs[s.challs[b.target].authz].order;
                 order.Some? &&
                 n.attested == s.attested +
                               {Attestation(order.value, b.held.value, b.verdict.serial, b.verdict.spki)}
            else n.tickets == s.tickets && n.attested == s.attested
  {
    hide Step, Trigger;
    var m, a, b := Consumed(s, e.nonce), e.form.account, e.body;
    AsksChallenge(s, e);
    AttestedBy(m, a, b);
    if b.target in m.challs && m.challs[b.target].typ != DeviceAttest01 { NamesTriggered(m, a, b); }
    if DeviceProves(m, a, b) {
      var c := m.challs[b.target];
      AcceptedTickets(m, b, c, m.authzs[c.authz], m.tickets[b.held.value]);
    }
  }

  lemma AcceptedTickets(s: State, b: Body, c: Challenge, a: Authz, t: Ticket)
    requires b.PostChallenge? && b.verdict.Attested? && b.held.Some? && a.order.Some? && a.order.value in s.orders
    ensures var n := AcceptAttestation(s, b, c, a, t);
            && n.tickets == s.tickets[b.held.value := t.(serial := b.verdict.serial, spki := b.verdict.spki)]
            && n.attested == s.attested +
                             {Attestation(a.order.value, b.held.value, b.verdict.serial, b.verdict.spki)}
  {
    hide AllProven;
    if AllProven(s.authzs[c.authz := a.(status := Proven)], a.order.value) { return; }
  }

  lemma TicketsServed(s: State, e: Event)
    requires Asks(s, e) && e.body.Finalize?
    ensures var n, b := Step(s, e), e.body;
            if ServesDevice(s, Sender(e), b) then
              && b.backing.Some? && b.backing.value in s.tickets
              && n.tickets == s.tickets[b.backing.value := s.tickets[b.backing.value].(cert := b.cert)]
            else n.tickets == s.tickets
  {
    hide Step, FinalizeOrder, EarlierCerts, RevokeAll;
    var m, a, b := Consumed(s, e.nonce), e.form.account, e.body;
    AsksFinalize(s, e);
    ServedBy(m, a, b);
    if ServesDevice(m, a, b) { ServedTickets(m, a, b); }
  }

  lemma ServedTickets(s: State, account: nat, b: Body)
    requires ServesDevice(s, account, b)
    ensures FinalizeDevice(s, account, b).tickets ==
              s.tickets[b.backing.value := s.tickets[b.backing.value].(cert := b.cert)]
  {
    hide EarlierCerts, RevokeAll;
  }

  lemma AdminTickets(s: State, e: Event)
    requires e.IssueTicket? || e.CancelTicket?
    ensures Step(s, e).tickets ==
              if e.IssueTicket? then s.tickets[e.ticket := Ticket(e.ca, e.owner, e.expires, None, [], "", "", [])]
              else if e.ticket in s.tickets && s.tickets[e.ticket].order.None? then s.tickets - {e.ticket}
              else s.tickets
  {
  }

  lemma OthersKeepTickets(s: State, e: Event)
    requires !(Asks(s, e) && (e.body.NewOrder? || e.body.PostChallenge? || e.body.Finalize?))
    requires !e.IssueTicket? && !e.CancelTicket?
    ensures Step(s, e).tickets == s.tickets
  {
    hide Answer, StartVerifier, FinishVerifier, RevokeRow, ReleaseRow;
    if e.Post? {
      PostKeepsTickets(s, e);
    } else if e.VerifierStarts? {
      StartFrame(s, e.chall, e.job);
    } else if e.VerifierFinishes? {
      FinishFrame(s, e.job, e.ok);
    }
  }

  lemma PostKeepsTickets(s: State, e: Event)
    requires e.Post? && !(Asks(s, e) && (e.body.NewOrder? || e.body.PostChallenge? || e.body.Finalize?))
    ensures Answer(s, e).tickets == s.tickets && Answer(s, e).attested == s.attested
  {
    hide Handled, Answer;
    AnswerRows(s, e);
    if e.nonce in s.nonces { HandledKeepsTickets(Consumed(s, e.nonce), e.signer, e.form, e.body); }
  }

  lemma HandledKeepsTickets(s: State, signer: string, form: Form, b: Body)
    requires !(form.Kid? && SignedBy(s, signer, form, form.account) &&
               (b.NewOrder? || b.PostChallenge? || b.Finalize?))
    ensures var n := Handled(s, signer, form, b); n.tickets == s.tickets && n.attested == s.attested
  {
    hide CreateAccount, DeactivateAccount, ChangeKey, PlaceOrder, PreAuthorize, DeactivateAuthz, Trigger,
         FinalizeOrder, RevokeByHolder;
    if form.Kid? && !SignedBy(s, signer, form, form.account) { return; }
    if b.RevokeCert? { RevokeFrame(s, signer, form, b); return; }
    if form.Jwk? {
      if b.NewAccount? { CreateFrame(s, signer, b); }
      return;
    }
    match b
    case NewAccount(_, _, _, _) =>
    case NewAuthz(_, _) => AuthzFrame(s, form.account, b);
    case UpdateAccount(_, _) => DeactivateFrame(s, form.account, b);
    case KeyChange(_, _) => KeyFrame(s, form.account, b);
    case UpdateAuthz(_, _) => AuthzFrame(s, form.account, b);
  }

  // ---- attestations and serials ----------------------------------------------

  // What an attestation verified is recorded exactly when it is accepted.
  lemma AttestationRule(s: State, e: Event)
    ensures Step(s, e).attested ==
              s.attested +
              if Asks(s, e) && DeviceProves(s, Sender(e), e.body)
              then {Attestation(s.authzs[s.challs[e.body.target].authz].order.value, e.body.held.value,
                                e.body.verdict.serial, e.body.verdict.spki)}
              else {}
  {
    hide Step, DeviceProves, AnswersDevice;
    Kinds(s, e);
    if Asks(s, e) && e.body.PostChallenge? { TicketsAttested(s, e); } else { OthersAttestNothing(s, e); }
  }

  lemma OthersAttestNothing(s: State, e: Event)
    requires !(Asks(s, e) && e.body.PostChallenge?)
    ensures Step(s, e).attested == s.attested
  {
    hide Answer, StartVerifier, FinishVerifier, RevokeRow, ReleaseRow;
    if e.Post? {
      PostAttestsNothing(s, e);
    } else if e.VerifierStarts? {
      StartFrame(s, e.chall, e.job);
    } else if e.VerifierFinishes? {
      FinishFrame(s, e.job, e.ok);
    }
  }

  lemma PostAttestsNothing(s: State, e: Event)
    requires e.Post? && !(Asks(s, e) && e.body.PostChallenge?)
    ensures Answer(s, e).attested == s.attested
  {
    hide Step, Answer, PlaceOrder, FinalizeOrder;
    PostIs(s, e);
    if Asks(s, e) && e.body.NewOrder? {
      AsksOrder(s, e);
      OrderFrame(Consumed(s, e.nonce), e.form.account, e.body);
    } else if Asks(s, e) && e.body.Finalize? {
      AsksFinalize(s, e);
      FinalizeFrame(Consumed(s, e.nonce), e.form.account, e.body);
    } else {
      PostKeepsTickets(s, e);
    }
  }

  // Serials are registered and removed by the administrator alone.
  lemma SerialRule(s: State, e: Event)
    ensures Step(s, e).registered ==
              if e.Register? then s.registered[(e.serial, e.ca) := e.owner]
              else if e.Unregister? then s.registered - {(e.serial, e.ca)} else s.registered
  {
    hide Handled, StartVerifier, FinishVerifier, RevokeRow, ReleaseRow;
    match e
    case Post(nonce, _, signer, form, body) => HandledFrame(Consumed(s, nonce), signer, form, body);
    case VerifierStarts(chall, job) => StartFrame(s, chall, job);
    case VerifierFinishes(job, ok) => FinishFrame(s, job, ok);
    case _ =>
  }

  // ---- device orders ---------------------------------------------------------

  // A device order is placed if and only if it names one device, by an open ticket of that CA or
  // a serial registered for it, and the owner may enrol.
  lemma DeviceOrderedExactly(s: State, e: Event)
    requires Asks(s, e) && e.body.NewOrder? && e.body.id !in s.orders
    requires exists i | i in e.body.idents :: i.kind == Device
    ensures e.body.id in Step(s, e).orders <==> WantsDevice(s, e.body)
    ensures !WantsDevice(s, e.body) ==> Step(s, e).tickets == s.tickets
  {
    hide Step, WantsDevice;
    assert !WantsNames(s, Sender(e), e.body);
    OrderEvent(s, e);
    TicketsOrdered(s, e);
  }
}
