/** What one ACME event does to nonces and accounts, row by row: every way a row can change, with
    the conditions written out over the request and the stored rows. */
module AcmeRules {
  import opened Acme
  import opened AcmeFrames

  // ---- who is asking ---------------------------------------------------------

  ghost function Sender(e: Event): nat { if e.Post? && e.form.Kid? then e.form.account else 0 }

  // A request with an outstanding nonce, signed by the key of an account that is not deactivated.
  ghost predicate Asks(s: State, e: Event)
  {
    && e.Post? && e.nonce in s.nonces && e.form.Kid? && e.form.account in s.accounts
    && s.accounts[e.form.account].key == e.signer && !s.accounts[e.form.account].deactivated
  }

  // The same without an account, under the key the request carries.
  ghost predicate Introduces(s: State, e: Event) { e.Post? && e.nonce in s.nonces && e.form.Jwk? }

  // Nothing but the nonces changes.
  ghost predicate OnlyNonces(s: State, n: State)
  {
    && n.accounts == s.accounts && n.orders == s.orders && n.authzs == s.authzs && n.challs == s.challs
    && n.tickets == s.tickets && n.registered == s.registered && n.certs == s.certs && n.waiting == s.waiting
    && n.running == s.running && n.proofs == s.proofs && n.attested == s.attested && n.issued == s.issued
  }

  // An authenticated request does what its handler does.
  lemma AsksOrder(s: State, e: Event)
    requires Asks(s, e) && e.body.NewOrder?
    ensures var m, a, b := Consumed(s, e.nonce), e.form.account, e.body; OnlyNonces(PlaceOrder(m, a, b), Step(s, e))
  {
    hide PlaceOrder, PreAuthorize, DeactivateAccount, ChangeKey, DeactivateAuthz, Trigger, FinalizeOrder,
         RevokeByHolder,
         KeyInUse;
  }

  lemma AsksAuthz(s: State, e: Event)
    requires Asks(s, e) && e.body.NewAuthz?
    ensures var m, a, b := Consumed(s, e.nonce), e.form.account, e.body; OnlyNonces(PreAuthorize(m, a, b), Step(s, e))
  {
    hide PlaceOrder, PreAuthorize, DeactivateAccount, ChangeKey, DeactivateAuthz, Trigger, FinalizeOrder,
         RevokeByHolder,
         KeyInUse;
  }

  lemma AsksUpdate(s: State, e: Event)
    requires Asks(s, e) && e.body.UpdateAccount?
    ensures var m, a, b := Consumed(s, e.nonce), e.form.account, e.body;
            OnlyNonces(DeactivateAccount(m, a, b), Step(s, e))
  {
    hide PlaceOrder, PreAuthorize, DeactivateAccount, ChangeKey, DeactivateAuthz, Trigger, FinalizeOrder,
         RevokeByHolder,
         KeyInUse;
  }

  lemma AsksKey(s: State, e: Event)
    requires Asks(s, e) && e.body.KeyChange?
    ensures var m, a, b := Consumed(s, e.nonce), e.form.account, e.body; OnlyNonces(ChangeKey(m, a, b), Step(s, e))
  {
    hide PlaceOrder, PreAuthorize, DeactivateAccount, ChangeKey, DeactivateAuthz, Trigger, FinalizeOrder,
         RevokeByHolder,
         KeyInUse;
  }

  lemma AsksAuthzUpdate(s: State, e: Event)
    requires Asks(s, e) && e.body.UpdateAuthz?
    ensures var m, a, b := Consumed(s, e.nonce), e.form.account, e.body;
            OnlyNonces(DeactivateAuthz(m, a, b), Step(s, e))
  {
    hide PlaceOrder, PreAuthorize, DeactivateAccount, ChangeKey, DeactivateAuthz, Trigger, FinalizeOrder,
         RevokeByHolder,
         KeyInUse;
  }

  lemma AsksChallenge(s: State, e: Event)
    requires Asks(s, e) && e.body.PostChallenge?
    ensures var m, a, b := Consumed(s, e.nonce), e.form.account, e.body; OnlyNonces(Trigger(m, a, b), Step(s, e))
  {
    hide PlaceOrder, PreAuthorize, DeactivateAccount, ChangeKey, DeactivateAuthz, Trigger, FinalizeOrder,
         RevokeByHolder,
         KeyInUse;
  }

  lemma AsksFinalize(s: State, e: Event)
    requires Asks(s, e) && e.body.Finalize?
    ensures var m, a, b := Consumed(s, e.nonce), e.form.account, e.body; OnlyNonces(FinalizeOrder(m, a, b), Step(s, e))
  {
    hide PlaceOrder, PreAuthorize, DeactivateAccount, ChangeKey, DeactivateAuthz, Trigger, FinalizeOrder,
         RevokeByHolder,
         KeyInUse;
  }

  lemma AsksRevocation(s: State, e: Event)
    requires (Asks(s, e) || Introduces(s, e)) && e.body.RevokeCert?
    ensures OnlyNonces(RevokeByHolder(Consumed(s, e.nonce), e.signer, e.form, e.body), Step(s, e))
  {
    hide RevokeByHolder;
  }

  // A request under its own key may create an account or revoke; any other is turned away.
  lemma AsksAccount(s: State, e: Event)
    requires Introduces(s, e) && e.body.NewAccount?
    ensures OnlyNonces(CreateAccount(Consumed(s, e.nonce), e.signer, e.body), Step(s, e))
  {
    hide CreateAccount;
  }

  // Anything else a client sends leaves every row alone.
  lemma TurnedAway(s: State, e: Event)
    requires e.Post? && !(Asks(s, e) && !e.body.NewAccount?)
    requires !(Introduces(s, e) && (e.body.NewAccount? || e.body.RevokeCert?))
    ensures OnlyNonces(s, Step(s, e))
  {
    hide Handled, Answer, Step;
    PostIs(s, e);
    AnswerRows(s, e);
    if e.nonce in s.nonces { Unhandled(Consumed(s, e.nonce), e.signer, e.form, e.body); }
  }

  lemma PostIs(s: State, e: Event)
    requires e.Post?
    ensures Step(s, e) == Answer(s, e)
  {
  }

  lemma Unhandled(s: State, signer: string, form: Form, b: Body)
    requires !(form.Kid? && SignedBy(s, signer, form, form.account) && !b.NewAccount?)
    requires !(form.Jwk? && (b.NewAccount? || b.RevokeCert?))
    ensures Handled(s, signer, form, b) == s
  {
  }

  // ---- nonces ----------------------------------------------------------------

  // A request uses up its nonce if there was one, and every answer brings a new one.
  lemma NonceRule(s: State, e: Event)
    ensures var n := Step(s, e);
            if e.GetNonce? then n.nonces == s.nonces + {e.nonce} && n.spent == s.spent
            else if e.Post? then
              && n.nonces == s.nonces - {e.nonce} + {e.reply}
              && n.spent == s.spent + if e.nonce in s.nonces then {e.nonce} else {}
            else n.nonces == s.nonces && n.spent == s.spent
  {
    hide Handled, StartVerifier, FinishVerifier, RevokeRow, ReleaseRow;
    match e
    case Post(nonce, _, signer, form, body) => HandledFrame(Consumed(s, nonce), signer, form, body);
    case VerifierStarts(chall, job) => StartFrame(s, chall, job);
    case VerifierFinishes(job, ok) => FinishFrame(s, job, ok);
    case _ =>
  }

  // ---- accounts --------------------------------------------------------------

  // A new key, bound to a known user or while some device may still enrol.
  ghost predicate Registers(s: State, e: Event, a: nat)
  {
    && Introduces(s, e) && e.body.NewAccount? && e.body.id == a && !e.body.onlyExisting
    && (forall x | x in s.accounts :: s.accounts[x].key != e.signer)
    && (e.body.eab.Bound? ||
        (e.body.eab.NoEab? &&
         (s.registered != map[] ||
          exists t | t in s.tickets :: s.tickets[t].order.None? && s.tickets[t].expires > e.body.now)))
  }

  ghost predicate Retires(s: State, e: Event, a: nat)
  {
    Asks(s, e) && Sender(e) == a && e.body.UpdateAccount? && e.body.target == a && e.body.deactivate
  }

  // The new key vouches for the change, and no other account has it.
  ghost predicate Rekeys(s: State, e: Event, a: nat)
  {
    && Asks(s, e) && Sender(e) == a && e.body.KeyChange? && e.body.inner
    && forall x | x in s.accounts && x != a :: s.accounts[x].key != e.body.key
  }

  ghost predicate SameAccount(s: State, n: State, a: nat)
  {
    (a in n.accounts <==> a in s.accounts) && (a in s.accounts ==> n.accounts[a] == s.accounts[a])
  }

  lemma AccountRule(s: State, e: Event, a: nat)
    ensures var n := Step(s, e);
            if Registers(s, e, a) then
              a in n.accounts &&
              n.accounts[a] == Account(false, e.signer, if e.body.eab.Bound? then e.body.eab.kid else "")
            else if Retires(s, e, a) then
              a in n.accounts && n.accounts[a] == s.accounts[a].(deactivated := true)
            else if Rekeys(s, e, a) then a in n.accounts && n.accounts[a] == s.accounts[a].(key := e.body.key)
            else SameAccount(s, n, a)
  {
    hide Step, CreateAccount, DeactivateAccount, ChangeKey, OnlyNonces;
    if Asks(s, e) && e.body.UpdateAccount? {
      AccountUpdated(s, e);
    } else if Asks(s, e) && e.body.KeyChange? {
      AccountRekeyed(s, e);
    } else if Introduces(s, e) && e.body.NewAccount? {
      AccountCreated(s, e);
    } else {
      OthersKeepAccounts(s, e);
    }
  }

  lemma OthersKeepAccounts(s: State, e: Event)
    requires !(Asks(s, e) && (e.body.UpdateAccount? || e.body.KeyChange?)) && !(Introduces(s, e) && e.body.NewAccount?)
    ensures Step(s, e).accounts == s.accounts
  {
    hide Handled, StartVerifier, FinishVerifier, RevokeRow, ReleaseRow;
    if e.Post? {
      PostKeeps(s, e);
    } else if e.VerifierStarts? {
      StartFrame(s, e.chall, e.job);
    } else if e.VerifierFinishes? {
      FinishFrame(s, e.job, e.ok);
    }
  }

  lemma PostKeeps(s: State, e: Event)
    requires !(Asks(s, e) && (e.body.UpdateAccount? || e.body.KeyChange?)) && !(Introduces(s, e) && e.body.NewAccount?)
    requires e.Post?
    ensures Answer(s, e).accounts == s.accounts
  {
    hide Handled, Answer;
    AnswerRows(s, e);
    if e.nonce in s.nonces { PostKeepsAccounts(Consumed(s, e.nonce), e.signer, e.form, e.body); }
  }

  lemma PostKeepsAccounts(s: State, signer: string, form: Form, b: Body)
    requires !(form.Kid? && SignedBy(s, signer, form, form.account) && (b.UpdateAccount? || b.KeyChange?))
    requires !(form.Jwk? && b.NewAccount?)
    ensures Handled(s, signer, form, b).accounts == s.accounts
  {
    hide CreateAccount, DeactivateAccount, ChangeKey, PlaceOrder, PreAuthorize, DeactivateAuthz, Trigger,
         FinalizeOrder, RevokeByHolder;
    HandledFrame(s, signer, form, b);
  }

  lemma AccountUpdated(s: State, e: Event)
    requires Asks(s, e) && e.body.UpdateAccount?
    ensures var a, b := e.form.account, e.body;
            Step(s, e).accounts ==
              if b.target == a && b.deactivate then s.accounts[a := s.accounts[a].(deactivated := true)]
              else s.accounts
  {
    hide Step;
    AsksUpdate(s, e);
  }

  lemma AccountRekeyed(s: State, e: Event)
    requires Asks(s, e) && e.body.KeyChange?
    ensures var a, b := e.form.account, e.body;
            Step(s, e).accounts ==
              if b.inner && forall x | x in s.accounts && x != a :: s.accounts[x].key != b.key
              then s.accounts[a := s.accounts[a].(key := b.key)] else s.accounts
  {
    hide Step, KeyInUse;
    AsksKey(s, e);
    OtherHolders(s.accounts, e.form.account, e.body.key);
  }

  lemma OtherHolders(accounts: map<nat, Account>, a: nat, key: string)
    ensures KeyInUse(accounts - {a}, key) <==> exists x | x in accounts && x != a :: accounts[x].key == key
  {
    if x :| x in accounts && x != a && accounts[x].key == key { assert x in accounts - {a}; }
  }

  lemma AccountCreated(s: State, e: Event)
    requires Introduces(s, e) && e.body.NewAccount?
    ensures Step(s, e).accounts ==
              if Registers(s, e, e.body.id)
              then s.accounts[e.body.id := Account(false, e.signer, if e.body.eab.Bound? then e.body.eab.kid else "")]
              else s.accounts
  {
    hide Step;
    AsksAccount(s, e);
    if KeyInUse(s.accounts, e.signer) || e.body.onlyExisting || e.body.eab.BadEab? { return; }
  }
}
