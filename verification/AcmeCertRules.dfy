/** What one ACME event does to a certificate row: issued, superseded, revoked by its holder or by
    an administrator, released from a hold, and nothing else. */
module AcmeCertRules {
  import opened Text
  import opened Certs
  import opened Acme
  import opened AcmeFrames
  import opened AcmeRules
  import opened AcmeOrderRules

  // Not revoked, or only on hold and now revoked for another reason.
  ghost predicate Revocable(c: Cert, reason: int) { c.status != -1 || (c.reason == 6 && reason != 6) }

  ghost function RevokedRow(c: Cert, reason: int): Cert
  {
    if Revocable(c, reason) then c.(status := -1, reason := reason) else c
  }

  ghost predicate OnHold(s: State, c: string) { c in s.certs && s.certs[c].status == -1 && s.certs[c].reason == 6 }

  // ---- by the holder ---------------------------------------------------------

  // The request is signed by the account the row belongs to, through the user it is bound to or
  // else its own number; or by the certificate's own key.
  ghost predicate Holds(s: State, e: Event, c: Cert)
    requires e.Post? && e.body.RevokeCert?
  {
    if e.form.Kid? then
      && c.owner != "" && e.form.account in s.accounts
      && var kid := s.accounts[e.form.account].kid; c.owner == if kid != "" then kid else Decimal(e.form.account)
    else e.body.keyMatches
  }

  // The row may be revoked by its holder at all.
  ghost predicate Open(row: Cert, reason: int)
  {
    reason in {0, 1, 2, 3, 4, 5, 6, 9} && (row.status == 0 || (row.status == -1 && row.reason == 6 && reason != 6))
  }

  ghost predicate HolderRevokes(s: State, e: Event, c: string)
  {
    && (Asks(s, e) || Introduces(s, e)) && e.body.RevokeCert? && e.body.cert == c && c in s.certs
    && Open(s.certs[c], e.body.reason) && Holds(s, e, s.certs[c])
  }

  // A revocation request takes effect if and only if the row exists, the reason is allowed, the
  // row is valid or held, and the caller holds it; then exactly that row is revoked.
  lemma RevokedByHolderExactly(s: State, e: Event)
    requires e.Post? && e.body.RevokeCert?
    ensures var n, c := Step(s, e), e.body.cert;
            && (n.certs != s.certs <==> HolderRevokes(s, e, c))
            && n.certs == if HolderRevokes(s, e, c)
                          then s.certs[c := s.certs[c].(status := -1, reason := e.body.reason)] else s.certs
  {
    hide Step, Open, Holds;
    var c := e.body.cert;
    if Asks(s, e) || Introduces(s, e) {
      RevocationRow(s, e);
      if HolderRevokes(s, e, c) { RowChanged(s.certs, c, e.body.reason); }
    } else {
      TurnedAway(s, e);
    }
  }

  lemma RowChanged(certs: map<string, Cert>, c: string, reason: int)
    requires c in certs && Open(certs[c], reason)
    ensures certs[c := certs[c].(status := -1, reason := reason)] != certs
  {
    var n := certs[c := certs[c].(status := -1, reason := reason)];
    assert n[c] != certs[c];
  }

  lemma RevocationRow(s: State, e: Event)
    requires (Asks(s, e) || Introduces(s, e)) && e.body.RevokeCert?
    ensures var c := e.body.cert;
            Step(s, e).certs == if c in s.certs && Open(s.certs[c], e.body.reason) && Holds(s, e, s.certs[c])
                                then s.certs[c := s.certs[c].(status := -1, reason := e.body.reason)] else s.certs
  {
    hide Step, Open, Holds, RevokeByHolder;
    AsksRevocation(s, e);
    HolderRow(Consumed(s, e.nonce), e);
    SameHolder(s, e);
  }

  lemma SameHolder(s: State, e: Event)
    requires e.Post? && e.body.RevokeCert?
    ensures forall c :: Holds(Consumed(s, e.nonce), e, c) == Holds(s, e, c)
  {
  }

  lemma HolderRow(s: State, e: Event)
    requires e.Post? && e.body.RevokeCert? && (e.form.Kid? ==> e.form.account in s.accounts)
    ensures var c := e.body.cert;
            RevokeByHolder(s, e.signer, e.form, e.body).certs ==
              if c in s.certs && Open(s.certs[c], e.body.reason) && Holds(s, e, s.certs[c])
              then s.certs[c := s.certs[c].(status := -1, reason := e.body.reason)] else s.certs
  {
    hide RevokeRow, ReasonAllowed, Open, Decimal;
    var b := e.body;
    if b.cert !in s.certs { return; }
    var row := s.certs[b.cert];
    OpenMeans(s.certs, b.cert, b.reason);
    if !Open(row, b.reason) { return; }
    if !Holds(s, e, row) { return; }
  }

  lemma OpenMeans(certs: map<string, Cert>, c: string, reason: int)
    requires c in certs
    ensures Open(certs[c], reason) <==>
              && ReasonAllowed(reason)
              && (certs[c].status == 0 || (certs[c].status == -1 && certs[c].reason == HOLD && reason != HOLD))
    ensures Open(certs[c], reason) ==>
              RevokeRow(certs, c, reason) == certs[c := certs[c].(status := -1, reason := reason)]
  {
  }

  // ---- by a newer certificate ------------------------------------------------

  // A new certificate goes to the device this one was issued to, through another ticket.
  ghost predicate Supersedes(s: State, account: nat, b: Body, c: string)
  {
    && ServesDevice(s, account, b) && c != ""
    && exists t | t in s.tickets :: && t != b.backing.value && s.tickets[t].cert == c
                                    && s.tickets[t].serial == s.tickets[b.backing.value].serial
  }

  ghost predicate Issues(s: State, account: nat, b: Body, c: string)
  {
    (ServesNames(s, account, b) || ServesDevice(s, account, b)) && b.cert == c
  }

  // The row before anything is superseded.
  ghost predicate RowWith(s: State, account: nat, b: Body, c: string)
  {
    Issues(s, account, b, c) || c in s.certs
  }

  ghost function RowOf(s: State, account: nat, b: Body, c: string): Cert
    requires RowWith(s, account, b, c)
  {
    if Issues(s, account, b, c) then Cert(0, 0, OwnerOf(s, account, b), b.ca) else s.certs[c]
  }

  ghost function Finalized(s: State, account: nat, b: Body, c: string): Cert
    requires RowWith(s, account, b, c)
  {
    if Supersedes(s, account, b, c) then RevokedRow(RowOf(s, account, b, c), 4) else RowOf(s, account, b, c)
  }

  lemma FinalizedRow(s: State, account: nat, b: Body, c: string)
    requires b.Finalize? && account in s.accounts
    ensures var n := FinalizeOrder(s, account, b);
            && (c in n.certs <==> RowWith(s, account, b, c))
            && (c in n.certs ==>
                  n.certs[c] == Finalized(s, account, b, c))
  {
    hide FinalizeOrder, ServesNames, ServesDevice, OwnerOf;
    ServedBy(s, account, b);
    if ServesDevice(s, account, b) {
      DeviceRow(s, account, b, c);
    } else if ServesNames(s, account, b) {
      NamesRow(s, account, b);
    }
  }

  lemma NamesRow(s: State, account: nat, b: Body)
    requires ServesNames(s, account, b)
    ensures b.Finalize? && b.csr.Some? && b.target in s.orders
    ensures forall o, owner, certs :: Serve(s, b, o, account, owner, certs).certs == certs
  {
  }

  lemma DeviceRow(s: State, account: nat, b: Body, c: string)
    requires ServesDevice(s, account, b)
    ensures var n := FinalizeDevice(s, account, b);
            && (c in n.certs <==> RowWith(s, account, b, c))
            && (c in n.certs ==>
                  n.certs[c] == Finalized(s, account, b, c))
  {
    hide EarlierCerts, RevokeAll, ServesNames;
    var t := s.tickets[b.backing.value];
    var olds := EarlierCerts(s.tickets, t.serial, b.backing.value);
    var issued := s.certs[b.cert := Cert(0, 0, t.owner, b.ca)];
    assert FinalizeDevice(s, account, b).certs == RevokeAll(issued, olds, SUPERSEDED);
    assert c in olds <==> Supersedes(s, account, b, c) by { EarlierMeans(s, t.serial, b.backing.value, c); }
    SupersededRow(issued, olds, c);
  }

  lemma EarlierMeans(s: State, serial: Name, except: Name, c: string)
    ensures c in EarlierCerts(s.tickets, serial, except) <==>
              && c != ""
              && exists t | t in s.tickets ::
                   t != except && s.tickets[t].cert == c && s.tickets[t].serial == serial
  {
  }

  lemma SupersededRow(certs: map<string, Cert>, olds: set<string>, c: string)
    ensures c in RevokeAll(certs, olds, SUPERSEDED) <==> c in certs
    ensures c in certs ==>
              RevokeAll(certs, olds, SUPERSEDED)[c] == if c in olds then RevokedRow(certs[c], 4) else certs[c]
  {
  }

  // ---- every row, at every event ---------------------------------------------

  ghost predicate SameRow(s: State, n: State, c: string)
  {
    (c in n.certs <==> c in s.certs) && (c in s.certs ==> n.certs[c] == s.certs[c])
  }

  lemma CertRule(s: State, e: Event, c: string)
    ensures var n := Step(s, e);
            if Asks(s, e) && e.body.Finalize? then
              && (c in n.certs <==> RowWith(s, Sender(e), e.body, c))
              && (c in n.certs ==>
                    n.certs[c] == Finalized(s, Sender(e), e.body, c))
            else if HolderRevokes(s, e, c) then
              c in n.certs && n.certs[c] == s.certs[c].(status := -1, reason := e.body.reason)
            else if e.Revoke? && e.cert == c && c in s.certs then
              c in n.certs && n.certs[c] == RevokedRow(s.certs[c], e.reason)
            else if e.ReleaseHold? && e.cert == c && OnHold(s, c) then
              c in n.certs && n.certs[c] == s.certs[c].(status := if e.expired then 1 else 0, reason := 8)
            else SameRow(s, n, c)
  {
    hide Step, HolderRevokes, Supersedes, RowWith, RowOf;
    if Asks(s, e) && e.body.Finalize? {
      FinalizeCert(s, e, c);
    } else if e.Post? && e.body.RevokeCert? {
      RevokedByHolderExactly(s, e);
      HolderNamed(s, e, c);
    } else if e.Revoke? || e.ReleaseHold? {
      AdminRow(s, e, c);
      HolderNamed(s, e, c);
    } else {
      OthersKeepCerts(s, e);
      HolderNamed(s, e, c);
    }
  }

  lemma HolderNamed(s: State, e: Event, c: string)
    ensures HolderRevokes(s, e, c) ==> e.Post? && e.body.RevokeCert? && e.body.cert == c && c in s.certs
  {
  }

  lemma FinalizeCert(s: State, e: Event, c: string)
    requires Asks(s, e) && e.body.Finalize?
    ensures var n := Step(s, e);
            && (c in n.certs <==> RowWith(s, Sender(e), e.body, c))
            && (c in n.certs ==>
                  n.certs[c] == Finalized(s, Sender(e), e.body, c))
  {
    hide Step, FinalizeOrder;
    AsksFinalize(s, e);
    FinalizedRow(Consumed(s, e.nonce), e.form.account, e.body, c);
  }

  lemma AdminRow(s: State, e: Event, c: string)
    requires e.Revoke? || e.ReleaseHold?
    ensures var n := Step(s, e);
            if e.Revoke? && e.cert == c && c in s.certs then
              c in n.certs && n.certs[c] == RevokedRow(s.certs[c], e.reason)
            else if e.ReleaseHold? && e.cert == c && OnHold(s, c) then
              c in n.certs && n.certs[c] == s.certs[c].(status := if e.expired then 1 else 0, reason := 8)
            else SameRow(s, n, c)
  {
  }

  lemma OthersKeepCerts(s: State, e: Event)
    requires !(Asks(s, e) && e.body.Finalize?) && !(e.Post? && e.body.RevokeCert?) && !e.Revoke? && !e.ReleaseHold?
    ensures Step(s, e).certs == s.certs
  {
    hide Answer, StartVerifier, FinishVerifier;
    if e.Post? {
      PostKeepsCerts(s, e);
    } else if e.VerifierStarts? {
      StartFrame(s, e.chall, e.job);
    } else if e.VerifierFinishes? {
      FinishFrame(s, e.job, e.ok);
    }
  }

  lemma PostKeepsCerts(s: State, e: Event)
    requires e.Post? && !(Asks(s, e) && e.body.Finalize?) && !e.body.RevokeCert?
    ensures Answer(s, e).certs == s.certs
  {
    hide Handled, Answer;
    AnswerRows(s, e);
    if e.nonce in s.nonces { HandledKeepsCerts(Consumed(s, e.nonce), e.signer, e.form, e.body); }
  }

  lemma HandledKeepsCerts(s: State, signer: string, form: Form, b: Body)
    requires !(form.Kid? && SignedBy(s, signer, form, form.account) && b.Finalize?) && !b.RevokeCert?
    ensures Handled(s, signer, form, b).certs == s.certs
  {
    hide CreateAccount, DeactivateAccount, ChangeKey, PlaceOrder, PreAuthorize, DeactivateAuthz, Trigger,
         FinalizeOrder, RevokeByHolder;
    if form.Kid? && !SignedBy(s, signer, form, form.account) { return; }
    if form.Jwk? {
      if b.NewAccount? { CreateFrame(s, signer, b); }
      return;
    }
    match b
    case NewAccount(_, _, _, _) =>
    case NewOrder(_, _, _, _, _, _, _) => OrderFrame(s, form.account, b);
    case NewAuthz(_, _) => AuthzFrame(s, form.account, b);
    case UpdateAccount(_, _) => DeactivateFrame(s, form.account, b);
    case KeyChange(_, _) => KeyFrame(s, form.account, b);
    case UpdateAuthz(_, _) => AuthzFrame(s, form.account, b);
    case PostChallenge(_, _, _) => TriggerFrame(s, form.account, b);
  }

  // ---- over runs -------------------------------------------------------------

  // The five causes of a change to a row.
  ghost predicate Cause(s: State, e: Event, c: string)
  {
    || (Asks(s, e) && e.body.Finalize? && (Issues(s, Sender(e), e.body, c) || Supersedes(s, Sender(e), e.body, c)))
    || HolderRevokes(s, e, c)
    || (e.Revoke? && e.cert == c)
    || (e.ReleaseHold? && e.cert == c && OnHold(s, c))
  }

  ghost predicate NoCause(s: State, es: seq<Event>, c: string)
    requires Possible(s, es)
    decreases |es|
  {
    es == [] || (!Cause(s, es[0], c) && NoCause(Step(s, es[0]), es[1..], c))
  }

  lemma Untouched(s: State, e: Event, c: string)
    requires !Cause(s, e, c)
    ensures SameRow(s, Step(s, e), c)
  {
    hide Step, HolderRevokes, Supersedes, Issues;
    CertRule(s, e, c);
  }

  // However long the run, a row nothing of that happened to is as it was.
  lemma {:induction false} RowKept(s: State, es: seq<Event>, c: string)
    requires Possible(s, es) && NoCause(s, es, c)
    ensures SameRow(s, Run(s, es), c)
    decreases |es|
  {
    hide Step, Legal, Cause;
    if es != [] {
      Untouched(s, es[0], c);
      RowKept(Step(s, es[0]), es[1..], c);
    }
  }
}
