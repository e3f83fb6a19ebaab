/** Accounts, keys and nonces over every run of the ACME server: no two accounts share a key, a
    binding never changes, a deactivated account's key is inert, and a nonce is good once. */
module AcmeKeys {
  import opened Acme
  import opened AcmeFrames

  ghost predicate DistinctKeys(accounts: map<nat, Account>)
  {
    forall a, b | a in accounts && b in accounts && accounts[a].key == accounts[b].key :: a == b
  }

  // Accounts persist, keep their binding, and stay deactivated.
  ghost predicate Persists(before: map<nat, Account>, after: map<nat, Account>)
  {
    forall a | a in before ::
      && a in after && after[a].kid == before[a].kid
      && (before[a].deactivated ==> after[a] == before[a])
  }

  lemma HandledKeepsKeys(s: State, signer: string, form: Form, b: Body)
    requires LegalBody(s, form, b) && DistinctKeys(s.accounts)
    ensures var n := Handled(s, signer, form, b); DistinctKeys(n.accounts) && Persists(s.accounts, n.accounts)
  {
    hide CreateAccount, DeactivateAccount, ChangeKey, PlaceOrder, PreAuthorize, DeactivateAuthz, Trigger,
         FinalizeOrder, RevokeByHolder, KeyInUse;
    HandledFrame(s, signer, form, b);
    if b.NewAccount? && form.Jwk? {
      CreateKeepsKeys(s, signer, b);
    } else if form.Kid? && SignedBy(s, signer, form, form.account) {
      if b.UpdateAccount? { DeactivateKeepsKeys(s, form.account, b); }
      if b.KeyChange? { ChangeKeepsKeys(s, form.account, b); }
    }
  }

  lemma PutKeeps(accounts: map<nat, Account>, id: nat, row: Account)
    requires DistinctKeys(accounts) && forall a | a in accounts && a != id :: accounts[a].key != row.key
    requires id in accounts ==> row.kid == accounts[id].kid && !accounts[id].deactivated
    ensures DistinctKeys(accounts[id := row]) && Persists(accounts, accounts[id := row])
  {
  }

  lemma CreateKeepsKeys(s: State, signer: string, b: Body)
    requires b.NewAccount? && b.id !in s.accounts && DistinctKeys(s.accounts)
    ensures var n := CreateAccount(s, signer, b); DistinctKeys(n.accounts) && Persists(s.accounts, n.accounts)
  {
    hide TicketOutstanding, DistinctKeys;
    if KeyInUse(s.accounts, signer) || b.onlyExisting || b.eab.BadEab? { return; }
    PutKeeps(s.accounts, b.id, Account(false, signer, if b.eab.Bound? then b.eab.kid else ""));
  }

  lemma DeactivateKeepsKeys(s: State, account: nat, b: Body)
    requires b.UpdateAccount? && account in s.accounts && DistinctKeys(s.accounts)
    requires !s.accounts[account].deactivated
    ensures var n := DeactivateAccount(s, account, b); DistinctKeys(n.accounts) && Persists(s.accounts, n.accounts)
  {
    hide DistinctKeys;
    if account != b.target || !b.deactivate { return; }
    OthersDiffer(s.accounts, account);
    PutKeeps(s.accounts, account, s.accounts[account].(deactivated := true));
  }

  lemma OthersDiffer(accounts: map<nat, Account>, id: nat)
    requires DistinctKeys(accounts) && id in accounts
    ensures forall a | a in accounts && a != id :: accounts[a].key != accounts[id].key
  {
  }

  lemma ChangeKeepsKeys(s: State, account: nat, b: Body)
    requires b.KeyChange? && account in s.accounts && DistinctKeys(s.accounts)
    requires !s.accounts[account].deactivated
    ensures var n := ChangeKey(s, account, b); DistinctKeys(n.accounts) && Persists(s.accounts, n.accounts)
  {
    hide DistinctKeys;
    if !b.inner || KeyInUse(s.accounts - {account}, b.key) { return; }
    forall a | a in s.accounts && a != account ensures s.accounts[a].key != b.key {
      assert a in s.accounts - {account};
    }
    PutKeeps(s.accounts, account, s.accounts[account].(key := b.key));
  }

  lemma StepKeepsKeys(s: State, e: Event)
    requires Legal(s, e) && DistinctKeys(s.accounts)
    ensures var n := Step(s, e); DistinctKeys(n.accounts) && Persists(s.accounts, n.accounts)
  {
    hide Answer, Handled, StartVerifier, FinishVerifier, RevokeRow, ReleaseRow, LegalBody, Legal, DistinctKeys;
    match e
    case GetNonce(_) =>
    case Post(nonce, _, signer, form, body) =>
      LegalPost(s, e);
      AnswerRows(s, e);
      if nonce in s.nonces { HandledKeepsKeys(Consumed(s, nonce), signer, form, body); }
    case VerifierStarts(chall, job) => StartFrame(s, chall, job);
    case VerifierFinishes(job, ok) => FinishFrame(s, job, ok);
    case _ =>
  }

  // In every run: distinct keys, constant bindings, deactivation for good.
  lemma {:induction false} KeysDistinct(s: State, es: seq<Event>)
    requires Possible(s, es) && DistinctKeys(s.accounts)
    ensures DistinctKeys(Run(s, es).accounts) && Persists(s.accounts, Run(s, es).accounts)
    decreases |es|
  {
    hide Step, Legal, DistinctKeys;
    if es != [] {
      StepKeepsKeys(s, es[0]);
      KeysDistinct(Step(s, es[0]), es[1..]);
    }
  }

  // However long after the deactivation: a request signed by the dead key changes no account
  // and no order and issues nothing. The key itself stays with the dead account.
  lemma DeadKeyInert(s: State, es: seq<Event>, account: nat, e: Event)
    requires Possible(s, es) && DistinctKeys(s.accounts)
    requires account in s.accounts && s.accounts[account].deactivated
    requires Legal(Run(s, es), e) && e.Post? && e.signer == s.accounts[account].key
    ensures var t := Run(s, es);
            && account in t.accounts && t.accounts[account] == s.accounts[account]
            && Step(t, e).accounts == t.accounts && Step(t, e).orders == t.orders && Step(t, e).issued == t.issued
  {
    hide Handled, Run, Possible, LegalBody, DistinctKeys, Persists;
    var t := Run(s, es);
    KeysDistinct(s, es);
    PersistsDead(s.accounts, t.accounts, account);
    if e.nonce in t.nonces { DeadKeyHandled(Consumed(t, e.nonce), e.signer, e.form, e.body, account); }
  }

  lemma PersistsDead(before: map<nat, Account>, after: map<nat, Account>, account: nat)
    requires Persists(before, after) && account in before && before[account].deactivated
    ensures account in after && after[account] == before[account]
  {
  }

  lemma DeadKeyHandled(s: State, signer: string, form: Form, b: Body, account: nat)
    requires LegalBody(s, form, b) && DistinctKeys(s.accounts)
    requires account in s.accounts && s.accounts[account].deactivated && s.accounts[account].key == signer
    ensures var n := Handled(s, signer, form, b);
            n.accounts == s.accounts && n.orders == s.orders && n.issued == s.issued
  {
  }

  // And no other account can take the dead key over.
  lemma DeadKeyNotTaken(s: State, es: seq<Event>, account: nat, other: nat)
    requires Possible(s, es) && DistinctKeys(s.accounts)
    requires account in s.accounts && s.accounts[account].deactivated && other != account
    ensures var t := Run(s, es); other in t.accounts ==> t.accounts[other].key != s.accounts[account].key
  {
    hide Run, Possible, Persists;
    KeysDistinct(s, es);
    PersistsDead(s.accounts, Run(s, es).accounts, account);
  }

  // ---- nonces ----------------------------------------------------------------

  ghost predicate NoncesApart(s: State) { s.nonces !! s.spent }

  lemma StepKeepsNonces(s: State, e: Event)
    requires Legal(s, e) && NoncesApart(s)
    ensures NoncesApart(Step(s, e)) && s.spent <= Step(s, e).spent
    ensures e.Post? && e.nonce in s.nonces ==> e.nonce in Step(s, e).spent
  {
    hide Handled, StartVerifier, FinishVerifier, RevokeRow, ReleaseRow, LegalBody;
    match e
    case GetNonce(_) =>
    case Post(nonce, _, signer, form, body) =>
      if nonce in s.nonces { HandledFrame(Consumed(s, nonce), signer, form, body); }
    case VerifierStarts(chall, job) => StartFrame(s, chall, job);
    case VerifierFinishes(job, ok) => FinishFrame(s, job, ok);
    case _ =>
  }

  // A nonce that was accepted once is refused ever after, whatever happens in between.
  lemma NonceOnce(s: State, first: Event, es: seq<Event>, again: Event)
    requires NoncesApart(s) && Possible(s, [first] + es) && first.Post? && first.nonce in s.nonces
    requires again.Post? && again.nonce == first.nonce && Legal(Run(s, [first] + es), again)
    ensures var t := Run(s, [first] + es); Step(t, again) == t.(nonces := t.nonces + {again.reply})
  {
    hide Step, Legal;
    assert ([first] + es)[1..] == es;
    StepKeepsNonces(s, first);
    SpentStays(Step(s, first), es);
    RefusedIfSpent(Run(s, [first] + es), again);
  }

  lemma {:induction false} SpentStays(s: State, es: seq<Event>)
    requires NoncesApart(s) && Possible(s, es)
    ensures NoncesApart(Run(s, es)) && s.spent <= Run(s, es).spent
    decreases |es|
  {
    hide Step, Legal;
    if es != [] {
      StepKeepsNonces(s, es[0]);
      SpentStays(Step(s, es[0]), es[1..]);
    }
  }

  lemma RefusedIfSpent(s: State, e: Event)
    requires NoncesApart(s) && Legal(s, e) && e.Post? && e.nonce in s.spent
    ensures Step(s, e) == s.(nonces := s.nonces + {e.reply})
  {
  }
}
