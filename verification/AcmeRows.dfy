/** The certificate rows behind what the ACME server issued, over every run: each issue has its
    own serial, and the stored row names the owner and the CA it was issued to. */
module AcmeRows {
  import opened Certs
  import opened Acme
  import opened AcmeFrames
  import opened AcmeKeys

  // The row of the certificate, and on names the account's bound user, or its own id without one.
  ghost predicate RowMatches(s: State, i: Issue)
  {
    && i.cert in s.certs && s.certs[i.cert].owner == i.owner && s.certs[i.cert].ca == i.ca
    && (i.ticket.None? ==>
          i.account in s.accounts && i.owner == OwnerName(i.account, s.accounts[i.account].kid))
  }

  ghost predicate RowsMatch(s: State)
  {
    && (forall i | i in s.issued :: RowMatches(s, i))
    && (forall i, j | i in s.issued && j in s.issued && i.cert == j.cert :: i == j)
  }

  ghost predicate IdentitiesKept(cs: map<string, Cert>, ds: map<string, Cert>)
  {
    forall c | c in cs :: c in ds && ds[c].owner == cs[c].owner && ds[c].ca == cs[c].ca
  }

  lemma MatchStays(s: State, n: State)
    requires RowsMatch(s) && Persists(s.accounts, n.accounts) && IdentitiesKept(s.certs, n.certs)
    requires n.issued == s.issued
    ensures RowsMatch(n)
  {
  }

  lemma SameRows(cs: map<string, Cert>)
    ensures IdentitiesKept(cs, cs)
  {
  }

  lemma UpdatesKeep(cs: map<string, Cert>, c: string, reason: int, expired: bool)
    ensures IdentitiesKept(cs, RevokeRow(cs, c, reason)) && IdentitiesKept(cs, ReleaseRow(cs, c, expired))
  {
  }

  lemma IssueKeeps(cs: map<string, Cert>, c: string, row: Cert, olds: set<string>)
    requires c !in cs
    ensures IdentitiesKept(cs, cs[c := row])
    ensures var ds := RevokeAll(cs[c := row], olds, SUPERSEDED);
            IdentitiesKept(cs, ds) && c in ds && ds[c].owner == row.owner && ds[c].ca == row.ca
  {
  }

  // One more issue, with a serial no row had.
  lemma MatchGrows(s: State, n: State, i: Issue)
    requires RowsMatch(s) && n.accounts == s.accounts && IdentitiesKept(s.certs, n.certs)
    requires n.issued == s.issued + {i} && i.cert !in s.certs && RowMatches(n, i)
    ensures RowsMatch(n)
  {
  }

  lemma FinalizeMatches(s: State, account: nat, b: Body)
    requires RowsMatch(s) && b.Finalize? && account in s.accounts
    ensures RowsMatch(FinalizeOrder(s, account, b))
  {
    hide RowsMatch, FinalizeDevice, FinalizeDns, IsDeviceOrder;
    if b.target !in s.orders { return; }
    if IsDeviceOrder(s.orders[b.target].idents) { DeviceMatches(s, account, b); } else { NamesMatch(s, account, b); }
  }

  lemma DeviceMatches(s: State, account: nat, b: Body)
    requires RowsMatch(s) && b.Finalize? && b.target in s.orders && IsDeviceOrder(s.orders[b.target].idents)
    ensures RowsMatch(FinalizeDevice(s, account, b))
  {
    hide RowsMatch, MayFinalize, RevokeAll, EarlierCerts, IsDeviceOrder;
    if b.backing.None? || b.backing.value !in s.tickets { return; }
    var t := s.tickets[b.backing.value];
    if !MayFinalize(s, account, b, t.owner) { return; }
    NewSerial(s, account, b, t.owner);
    if t.spki == "" || b.csr.value.spki != t.spki { return; }
    IssueKeeps(s.certs, b.cert, Cert(0, 0, t.owner, b.ca), EarlierCerts(s.tickets, t.serial, b.backing.value));
    MatchGrows(s, FinalizeDevice(s, account, b),
               Issue(b.target, account, b.ca, b.cert, b.csr.value.sans, b.csr.value.spki, t.owner, b.backing));
  }

  lemma NewSerial(s: State, account: nat, b: Body, user: string)
    requires b.Finalize? && MayFinalize(s, account, b, user)
    ensures b.csr.Some? && b.cert !in s.certs
  {
  }

  lemma NamesMatch(s: State, account: nat, b: Body)
    requires RowsMatch(s) && b.Finalize? && b.target in s.orders && account in s.accounts
    requires !IsDeviceOrder(s.orders[b.target].idents)
    ensures RowsMatch(FinalizeDns(s, account, b))
  {
  }

  lemma HandledMatches(s: State, signer: string, form: Form, b: Body)
    requires RowsMatch(s) && LegalBody(s, form, b) && DistinctKeys(s.accounts)
    ensures RowsMatch(Handled(s, signer, form, b))
  {
    hide RowsMatch, CreateAccount, DeactivateAccount, ChangeKey, PlaceOrder, PreAuthorize, DeactivateAuthz, Trigger,
         FinalizeOrder, RevokeByHolder, KeyInUse, LegalBody, Persists, DistinctKeys;
    var n := Handled(s, signer, form, b);
    HandledKeepsKeys(s, signer, form, b);
    if b.Finalize? {
      if form.Kid? && SignedBy(s, signer, form, form.account) { FinalizeMatches(s, form.account, b); }
    } else if b.RevokeCert? {
      RevokeMatches(s, signer, form, b);
      MatchStays(s, n);
    } else {
      KeepsCerts(s, signer, form, b);
      SameRows(s.certs);
      MatchStays(s, n);
    }
  }

  lemma RevokeMatches(s: State, signer: string, form: Form, b: Body)
    requires b.RevokeCert?
    ensures var n := Handled(s, signer, form, b); IdentitiesKept(s.certs, n.certs) && n.issued == s.issued
  {
    hide RevokeRow, OwnerName, KeyInUse, IdentitiesKept;
    SameRows(s.certs);
    UpdatesKeep(s.certs, b.cert, b.reason, false);
  }

  lemma KeepsCerts(s: State, signer: string, form: Form, b: Body)
    requires !b.RevokeCert? && !b.Finalize?
    ensures var n := Handled(s, signer, form, b); n.certs == s.certs && n.issued == s.issued
  {
    hide CreateAccount, DeactivateAccount, ChangeKey, PlaceOrder, PreAuthorize, DeactivateAuthz, Trigger, KeyInUse;
    if form.Kid? && !SignedBy(s, signer, form, form.account) {
    } else if form.Jwk? {
      if b.NewAccount? { CreateFrame(s, signer, b); }
    } else {
      match b
      case NewAccount(_, _, _, _) =>
      case NewOrder(_, _, _, _, _, _, _) => OrderFrame(s, form.account, b);
      case NewAuthz(_, _) => AuthzFrame(s, form.account, b);
      case UpdateAccount(_, _) => DeactivateFrame(s, form.account, b);
      case KeyChange(_, _) => KeyFrame(s, form.account, b);
      case UpdateAuthz(_, _) => AuthzFrame(s, form.account, b);
      case PostChallenge(_, _, _) => TriggerFrame(s, form.account, b);
    }
  }

  lemma AnswerMatches(s: State, e: Event)
    requires RowsMatch(s) && DistinctKeys(s.accounts) && e.Post? && Legal(s, e)
    ensures RowsMatch(Answer(s, e))
  {
    hide RowsMatch, Answer, Handled, LegalBody, DistinctKeys, Legal;
    SameRows(s.certs);
    LegalPost(s, e);
    AnswerRows(s, e);
    if e.nonce in s.nonces {
      var m := Consumed(s, e.nonce);
      MatchStays(s, m);
      var h := Handled(m, e.signer, e.form, e.body);
      HandledMatches(m, e.signer, e.form, e.body);
      SameRows(h.certs);
      MatchStays(h, Answer(s, e));
    } else {
      MatchStays(s, Answer(s, e));
    }
  }

  lemma StepMatches(s: State, e: Event)
    requires RowsMatch(s) && DistinctKeys(s.accounts) && Legal(s, e)
    ensures RowsMatch(Step(s, e))
  {
    hide RowsMatch, Answer, StartVerifier, FinishVerifier, RevokeRow, ReleaseRow, DistinctKeys, Legal;
    SameRows(s.certs);
    match e
    case Post(_, _, _, _, _) => AnswerMatches(s, e);
    case VerifierStarts(chall, job) => StartFrame(s, chall, job); MatchStays(s, Step(s, e));
    case VerifierFinishes(job, ok) => FinishFrame(s, job, ok); MatchStays(s, Step(s, e));
    case Revoke(cert, reason) => UpdatesKeep(s.certs, cert, reason, false); MatchStays(s, Step(s, e));
    case ReleaseHold(cert, expired) => UpdatesKeep(s.certs, cert, 0, expired); MatchStays(s, Step(s, e));
    case _ => MatchStays(s, Step(s, e));
  }

  lemma {:induction false} RunMatches(s: State, es: seq<Event>)
    requires RowsMatch(s) && DistinctKeys(s.accounts) && Possible(s, es)
    ensures RowsMatch(Run(s, es))
    decreases |es|
  {
    hide Step, Legal, RowsMatch, DistinctKeys, Persists;
    if es != [] {
      StepMatches(s, es[0]);
      StepKeepsKeys(s, es[0]);
      RunMatches(Step(s, es[0]), es[1..]);
    }
  }

  // In every run from an empty store.
  lemma IssuedRowsMatch(s: State, es: seq<Event>, i: Issue)
    requires Fresh(s) && Possible(s, es) && i in Run(s, es).issued
    ensures RowMatches(Run(s, es), i)
    ensures forall j | j in Run(s, es).issued && j.cert == i.cert :: j == i
  {
    hide Run, Possible, RowMatches;
    RunMatches(s, es);
  }
}
