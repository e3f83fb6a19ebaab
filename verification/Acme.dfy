/** The ACME server (RFC 8555): stored rows and what each request, verifier step and
    administrative act does to them. The verifier is split where it leaves the store: it takes a
    snapshot, goes to the network, and writes the snapshot back. Drawn ids, the store's choice
    among equally good rows, and every outside verdict travel in the event. */
module Acme {
  import opened Text
  import opened Certs
  import opened Names
  import Dns

  type Name = Dns.Bytes

  datatype Kind = DnsName | Device | OtherKind

  // `extra` stands for any further members of the JSON object.
  datatype Ident = Ident(kind: Kind, value: Name, extra: string)

  // A key is named by its thumbprint, `kid` is the externally bound user ("" for none).
  datatype Account = Account(deactivated: bool, key: string, kid: string)

  datatype OrderStatus = Pending | Ready | Valid

  datatype Order = Order(status: OrderStatus, idents: seq<Ident>, account: nat, ca: string, cert: string)

  datatype AuthzStatus = Open | Proven | Deactivated

  // `order` is None for a pre-authorization.
  datatype Authz = Authz(status: AuthzStatus, ident: Ident, wildcard: bool, order: Option<nat>, account: nat,
                         expires: int)

  datatype ChallengeType = Http01 | TlsAlpn01 | Dns01 | DeviceAttest01

  datatype ChallengeStatus = Untried | Processing | Passed | Failed

  datatype Challenge = Challenge(typ: ChallengeType, status: ChallengeStatus, authz: nat)

  // Empty `spki`, `cert` and `expected` mean absent.
  datatype Ticket = Ticket(ca: string, owner: string, expires: int, order: Option<nat>, serial: Name, spki: string,
                           cert: string, expected: Name)

  // What a verifier holds while it is on the network.
  datatype Snapshot = Snapshot(chall: nat, c: Challenge, authz: nat, a: Authz, order: Option<Order>, account: nat)

  // ---- history ---------------------------------------------------------------

  datatype Proof = Proof(account: nat, name: Name, typ: ChallengeType)

  datatype Attestation = Attestation(order: nat, ticket: Name, serial: Name, spki: string)

  datatype San = DnsSan(name: Name) | OtherSan(text: string)

  datatype Issue = Issue(order: nat, account: nat, ca: string, cert: string, sans: set<San>, spki: string,
                         owner: string, ticket: Option<Name>)

  // The last four fields record what has happened: nonces accepted, validations that succeeded,
  // attestations verified and certificates issued.
  datatype State = State(
    nonces: set<string>, accounts: map<nat, Account>, orders: map<nat, Order>, authzs: map<nat, Authz>,
    challs: map<nat, Challenge>, tickets: map<Name, Ticket>, registered: map<(Name, string), string>,
    certs: map<string, Cert>, waiting: set<nat>, running: map<nat, Snapshot>,
    spent: set<string>, proofs: set<Proof>, attested: set<Attestation>, issued: set<Issue>)

  // ---- events ----------------------------------------------------------------

  datatype Form = Jwk | Kid(account: nat)

  datatype Eab = NoEab | BadEab | Bound(kid: string)

  // Ids drawn for one authorization, its expiry, the time at which the store is asked for a
  // proven authorization to reuse, and its answer.
  datatype Draw = Draw(authz: nat, http: nat, tls: nat, dns: nat, attest: nat, expires: int, now: int,
                       reuse: Option<nat>)

  datatype Verdict = NoAttestation | BadAttestation | Attested(serial: Name, spki: string)

  datatype Csr = Csr(sans: set<San>, cn: Option<Name>, spki: string)

  datatype Body =
    | NewAccount(id: nat, onlyExisting: bool, eab: Eab, now: int)
    // `may(user)`: acme:enrol on the CA and the role limits.
    | NewOrder(id: nat, ca: string, idents: seq<Ident>, may: string -> bool, now: int, draws: seq<Draw>,
               ticket: Name)
    | NewAuthz(ident: Ident, draw: Draw)
    | UpdateAccount(target: nat, deactivate: bool)
    // `inner`: the inner JWS verifies under the new key and names this account and its old key.
    | KeyChange(key: string, inner: bool)
    | UpdateAuthz(target: nat, deactivate: bool)
    // `held`: the ticket the store finds for the order.
    | PostChallenge(target: nat, verdict: Verdict, held: Option<Name>)
    // `caa(name)`: the CAA check allows the name, or is off; `issues`: the CA signs; `backing`: as `held`.
    | Finalize(target: nat, ca: string, may: string -> bool, csr: Option<Csr>, caa: Name -> bool, issues: bool,
               cert: string, backing: Option<Name>)
    // `keyMatches`: the request is signed by the certificate's own key.
    | RevokeCert(cert: string, reason: int, keyMatches: bool)

  datatype Event =
    | GetNonce(nonce: string)
    | Post(nonce: string, reply: string, signer: string, form: Form, body: Body)
    | VerifierStarts(chall: nat, job: nat)
    | VerifierFinishes(job: nat, ok: bool)
    | IssueTicket(ticket: Name, ca: string, owner: string, expires: int)
    | CancelTicket(ticket: Name)
    | Register(serial: Name, ca: string, owner: string)
    | Unregister(serial: Name, ca: string)
    | Revoke(cert: string, reason: int)
    | ReleaseHold(cert: string, expired: bool)

  // ---- accounts --------------------------------------------------------------

  predicate KeyInUse(accounts: map<nat, Account>, key: string) { exists a | a in accounts :: accounts[a].key == key }

  // parse_acme_post after the nonce: a kid request must verify under the account's key, and the
  // account must not be deactivated.
  predicate SignedBy(s: State, signer: string, form: Form, account: nat)
  {
    form == Kid(account) && account in s.accounts && s.accounts[account].key == signer &&
    !s.accounts[account].deactivated
  }

  predicate TicketOutstanding(s: State, now: int)
  {
    exists t | t in s.tickets :: s.tickets[t].order.None? && s.tickets[t].expires > now
  }

  function CreateAccount(s: State, signer: string, b: Body): State
    requires b.NewAccount?
  {
    if KeyInUse(s.accounts, signer) || b.onlyExisting then s
    else
      match b.eab
      case BadEab => s
      case Bound(kid) => s.(accounts := s.accounts[b.id := Account(false, signer, kid)])
      case NoEab =>
        if TicketOutstanding(s, b.now) || s.registered != map[]
        then s.(accounts := s.accounts[b.id := Account(false, signer, "")]) else s
  }

  function DeactivateAccount(s: State, account: nat, b: Body): State
    requires b.UpdateAccount? && account in s.accounts
  {
    if account != b.target || !b.deactivate then s
    else s.(accounts := s.accounts[account := s.accounts[account].(deactivated := true)])
  }

  function ChangeKey(s: State, account: nat, b: Body): State
    requires b.KeyChange? && account in s.accounts
  {
    if !b.inner || KeyInUse(s.accounts - {account}, b.key) then s
    else s.(accounts := s.accounts[account := s.accounts[account].(key := b.key)])
  }

  // ---- orders and authorizations ---------------------------------------------

  predicate IsDeviceOrder(idents: seq<Ident>) { exists i | i in idents :: i.kind == Device }

  function Offer(challs: map<nat, Challenge>, ident: Ident, d: Draw): map<nat, Challenge>
  {
    if ident.kind == Device then challs[d.attest := Challenge(DeviceAttest01, Untried, d.authz)]
    else if IsWild(ident.value) then challs[d.dns := Challenge(Dns01, Untried, d.authz)]
    else
      challs[d.http := Challenge(Http01, Untried, d.authz)][d.tls := Challenge(TlsAlpn01, Untried, d.authz)]
            [d.dns := Challenge(Dns01, Untried, d.authz)]
  }

  function BareIdent(ident: Ident): Ident { ident.(value := Base(ident.value)) }

  // make_authz.
  function MakeAuthz(s: State, order: Option<nat>, account: nat, ident: Ident, d: Draw): State
  {
    s.(authzs := s.authzs[d.authz := Authz(Open, BareIdent(ident), IsWild(ident.value), order, account,
                                                 d.expires)],
       challs := Offer(s.challs, ident, d))
  }

  // One identifier of a new order: a copy of a proven authorization, or a new one.
  function PlaceAuthz(s: State, order: nat, account: nat, ident: Ident, d: Draw): State
  {
    if d.reuse.Some? && d.reuse.value in s.authzs
    then s.(authzs := s.authzs[d.authz := s.authzs[d.reuse.value].(status := Proven, order := Some(order),
                                                                  account := account)])
    else MakeAuthz(s, Some(order), account, ident, d)
  }

  function PlaceAuthzs(s: State, order: nat, account: nat, idents: seq<Ident>, ds: seq<Draw>): State
    requires |ds| == |idents|
  {
    if idents == [] then s
    else
      var n := |idents| - 1;
      PlaceAuthz(PlaceAuthzs(s, order, account, idents[..n], ds[..n]), order, account, idents[n], ds[n])
  }

  predicate AllReused(ds: seq<Draw>) { forall d | d in ds :: d.reuse.Some? }

  function MakeReady(s: State, order: nat, o: Order): State
  {
    s.(orders := s.orders[order := o.(status := Ready)])
  }

  function PlaceDnsOrder(s: State, account: nat, b: Body): State
    requires b.NewOrder? && |b.draws| == |b.idents|
  {
    var o := Order(Pending, b.idents, account, b.ca, "");
    var placed := PlaceAuthzs(s.(orders := s.orders[b.id := o]), b.id, account, b.idents, b.draws);
    if AllReused(b.draws) then MakeReady(placed, b.id, o) else placed
  }

  predicate ClaimableTicket(s: State, ticket: Name, ca: string, now: int)
  {
    ticket in s.tickets && s.tickets[ticket].ca == ca && s.tickets[ticket].expires > now &&
    s.tickets[ticket].order.None?
  }

  function PlaceDeviceOrder(s: State, account: nat, b: Body, tickets: map<Name, Ticket>): State
    requires b.NewOrder? && |b.idents| == 1 && |b.draws| == 1
  {
    MakeAuthz(s.(tickets := tickets, orders := s.orders[b.id := Order(Pending, b.idents, account, b.ca, "")]),
              Some(b.id), account, b.idents[0], b.draws[0])
  }

  // The ticket of an order for a registered serial.
  function SerialTicket(b: Body, owner: string): Ticket
    requires b.NewOrder? && |b.idents| == |b.draws| == 1
  {
    Ticket(b.ca, owner, b.draws[0].expires, Some(b.id), [], "", "", b.idents[0].value)
  }

  // handle_device_order.
  function DeviceOrder(s: State, account: nat, b: Body): State
    requires b.NewOrder? && |b.draws| == |b.idents|
  {
    if |b.idents| != 1 then s
    else
      var v := b.idents[0].value;
      if ClaimableTicket(s, v, b.ca, b.now) then
        if !b.may(s.tickets[v].owner) then s
        else PlaceDeviceOrder(s, account, b, s.tickets[v := s.tickets[v].(order := Some(b.id))])
      else if (v, b.ca) in s.registered then
        var owner := s.registered[(v, b.ca)];
        if !b.may(owner) then s
        else
          PlaceDeviceOrder(s, account, b, s.tickets[b.ticket := SerialTicket(b, owner)])
      else s
  }

  // handle_new_order.
  function PlaceOrder(s: State, account: nat, b: Body): State
    requires b.NewOrder? && account in s.accounts
  {
    var kid := s.accounts[account].kid;
    if |b.draws| != |b.idents| then s
    else if IsDeviceOrder(b.idents) then DeviceOrder(s, account, b)
    else if kid == "" || !b.may(kid) || b.idents == [] then s
    else if exists i | i in b.idents :: i.kind != DnsName || !ValidDnsName(i.value) then s
    else PlaceDnsOrder(s, account, b)
  }

  // handle_new_authz.
  function PreAuthorize(s: State, account: nat, b: Body): State
    requires b.NewAuthz?
  {
    if b.ident.kind != DnsName || b.ident.value == [] then s
    else MakeAuthz(s, None, account, b.ident, b.draw)
  }

  // handle_authz_post.
  function DeactivateAuthz(s: State, account: nat, b: Body): State
    requires b.UpdateAuthz?
  {
    if b.target !in s.authzs || s.authzs[b.target].account != account || !b.deactivate then s
    else s.(authzs := s.authzs[b.target := s.authzs[b.target].(status := Deactivated)])
  }

  // ---- challenges ------------------------------------------------------------

  predicate AllProven(authzs: map<nat, Authz>, order: nat)
  {
    forall a | a in authzs && authzs[a].order == Some(order) :: authzs[a].status == Proven
  }

  function SetChallenge(s: State, c: nat, row: Challenge): State { s.(challs := s.challs[c := row]) }

  predicate OwnsChallenge(s: State, account: nat, chall: nat)
  {
    && chall in s.challs && s.challs[chall].authz in s.authzs
    && var a := s.authzs[s.challs[chall].authz];
       if a.order.Some? then a.order.value in s.orders && s.orders[a.order.value].account == account
       else a.account == account
  }

  // handle_device_attest, for the ticket `held` of the challenge's order.
  function Attest(s: State, b: Body): State
    requires b.PostChallenge? && b.target in s.challs && s.challs[b.target].authz in s.authzs
  {
    var c := s.challs[b.target];
    var a := s.authzs[c.authz];
    if c.status != Untried || a.order.None? || a.order.value !in s.orders then s
    else if b.verdict.NoAttestation? || b.held.None? || b.held.value !in s.tickets then s
    else
      var t := s.tickets[b.held.value];
      if b.verdict.BadAttestation? || (t.expected != [] && b.verdict.serial != t.expected)
      then SetChallenge(s, b.target, c.(status := Failed))
      else AcceptAttestation(s, b, c, a, t)
  }

  function AcceptAttestation(s: State, b: Body, c: Challenge, a: Authz, t: Ticket): State
    requires b.PostChallenge? && b.verdict.Attested? && b.held.Some?
    requires a.order.Some? && a.order.value in s.orders
  {
    var order := a.order.value;
    var n := s.(tickets := s.tickets[b.held.value := t.(serial := b.verdict.serial, spki := b.verdict.spki)],
                attested := s.attested + {Attestation(order, b.held.value, b.verdict.serial, b.verdict.spki)},
                challs := s.challs[b.target := c.(status := Passed)],
                authzs := s.authzs[c.authz := a.(status := Proven)]);
    if AllProven(n.authzs, order) then MakeReady(n, order, s.orders[order]) else n
  }

  // handle_chall_post.
  function Trigger(s: State, account: nat, b: Body): State
    requires b.PostChallenge?
  {
    if !OwnsChallenge(s, account, b.target) then s
    else if s.challs[b.target].typ == DeviceAttest01 then Attest(s, b)
    else if s.challs[b.target].status != Untried then s
    else SetChallenge(s, b.target, s.challs[b.target].(status := Processing)).(waiting := s.waiting + {b.target})
  }

  // verifier::run up to the network.
  function StartVerifier(s: State, chall: nat, job: nat): State
  {
    if chall !in s.waiting then s
    else
      var n := s.(waiting := s.waiting - {chall});
      if chall !in s.challs || s.challs[chall].authz !in s.authzs then n
      else
        var c := s.challs[chall];
        var a := s.authzs[c.authz];
        var o := if a.order.Some? && a.order.value in s.orders then Some(s.orders[a.order.value]) else None;
        var account := if o.Some? then o.value.account else a.account;
        if account !in s.accounts then n
        else n.(running := s.running[job := Snapshot(chall, c, c.authz, a, o, account)])
  }

  // What is left of an authorization's challenges once one of them has passed.
  function OnlyPassed(challs: map<nat, Challenge>, authz: nat, chall: nat): map<nat, Challenge>
  {
    map c | c in challs && (c == chall || challs[c].authz != authz) :: challs[c]
  }

  // verifier::run from the network's answer on.
  function FinishVerifier(s: State, job: nat, ok: bool): State
  {
    if job !in s.running then s
    else
      var n := s.(running := s.running - {job});
      var sn := s.running[job];
      if (sn.a.wildcard && sn.c.typ != Dns01) || sn.c.typ == DeviceAttest01 || !ok
      then SetChallenge(n, sn.chall, sn.c.(status := Failed))
      else WriteBack(n, sn)
  }

  function WriteBack(s: State, sn: Snapshot): State
  {
    var n := s.(challs := OnlyPassed(s.challs[sn.chall := sn.c.(status := Passed)], sn.authz, sn.chall),
                authzs := s.authzs[sn.authz := sn.a.(status := Proven)],
                proofs := s.proofs + {Proof(sn.account, sn.a.ident.value, sn.c.typ)});
    if sn.order.Some? && sn.a.order.Some? && AllProven(n.authzs, sn.a.order.value)
    then MakeReady(n, sn.a.order.value, sn.order.value) else n
  }

  // ---- issuance --------------------------------------------------------------

  function SansOf(idents: seq<Ident>): set<San> { set i | i in idents :: DnsSan(i.value) }

  // Earlier certificates of a device, issued through other tickets.
  function EarlierCerts(tickets: map<Name, Ticket>, serial: Name, except: Name): set<string>
  {
    set t | t in tickets && t != except && tickets[t].serial == serial && tickets[t].cert != "" :: tickets[t].cert
  }

  function RevokeRow(certs: map<string, Cert>, cert: string, reason: int): map<string, Cert>
  {
    if cert in certs && Revoked(certs[cert], reason).Some?
    then certs[cert := Revoked(certs[cert], reason).value] else certs
  }

  function ReleaseRow(certs: map<string, Cert>, cert: string, expired: bool): map<string, Cert>
  {
    if cert in certs && Released(certs[cert], expired).Some?
    then certs[cert := Released(certs[cert], expired).value] else certs
  }

  function RevokeAll(certs: map<string, Cert>, olds: set<string>, reason: int): map<string, Cert>
  {
    map c | c in certs ::
      if c in olds && Revoked(certs[c], reason).Some? then Revoked(certs[c], reason).value else certs[c]
  }

  predicate CsrFits(b: Body, o: Order)
    requires b.Finalize? && b.csr.Some?
  {
    && b.csr.value.sans == SansOf(o.idents)
    && (b.csr.value.cn.Some? ==> exists i | i in o.idents :: i.value == b.csr.value.cn.value)
    && (forall i | i in o.idents :: b.caa(i.value))
  }

  function Serve(s: State, b: Body, o: Order, account: nat, owner: string, certs: map<string, Cert>): State
    requires b.Finalize? && b.csr.Some?
  {
    s.(certs := certs, orders := s.orders[b.target := o.(status := Valid, cert := b.cert)],
       issued := s.issued + {Issue(b.target, account, b.ca, b.cert, b.csr.value.sans, b.csr.value.spki, owner,
                                   if IsDeviceOrder(o.idents) then b.backing else None)})
  }

  // The gates of handle_finalize that both kinds of order share; `user` is asked about.
  predicate MayFinalize(s: State, account: nat, b: Body, user: string)
    requires b.Finalize?
  {
    && b.target in s.orders && s.orders[b.target].account == account
    && (s.orders[b.target].ca == "" || s.orders[b.target].ca == b.ca)
    && b.may(user) && s.orders[b.target].status == Ready && b.csr.Some?
    && b.ca != "" && b.issues && b.cert !in s.certs
  }

  function FinalizeDevice(s: State, account: nat, b: Body): State
    requires b.Finalize? && b.target in s.orders
  {
    var o := s.orders[b.target];
    if b.backing.None? || b.backing.value !in s.tickets then s
    else
      var t := s.tickets[b.backing.value];
      if !MayFinalize(s, account, b, t.owner) || t.spki == "" || b.csr.value.spki != t.spki then s
      else
        var certs := RevokeAll(s.certs[b.cert := Cert(0, 0, t.owner, b.ca)],
                               EarlierCerts(s.tickets, t.serial, b.backing.value), SUPERSEDED);
        Serve(s.(tickets := s.tickets[b.backing.value := t.(cert := b.cert)]), b, o, account, t.owner, certs)
  }

  function OwnerName(account: nat, kid: string): string { if kid == "" then Decimal(account) else kid }

  function FinalizeDns(s: State, account: nat, b: Body): State
    requires b.Finalize? && b.target in s.orders && account in s.accounts
  {
    var o, kid := s.orders[b.target], s.accounts[account].kid;
    if !MayFinalize(s, account, b, kid) || !CsrFits(b, o) then s
    else Serve(s, b, o, account, OwnerName(account, kid), s.certs[b.cert := Cert(0, 0, OwnerName(account, kid), b.ca)])
  }

  // handle_finalize.
  function FinalizeOrder(s: State, account: nat, b: Body): State
    requires b.Finalize? && account in s.accounts
  {
    if b.target !in s.orders then s
    else if IsDeviceOrder(s.orders[b.target].idents) then FinalizeDevice(s, account, b)
    else FinalizeDns(s, account, b)
  }

  // handle_revoke_cert.
  function RevokeByHolder(s: State, signer: string, form: Form, b: Body): State
    requires b.RevokeCert?
  {
    if b.cert !in s.certs || !ReasonAllowed(b.reason) then s
    else
      var c := s.certs[b.cert];
      if c.status != 0 && !(c.status == -1 && c.reason == HOLD && b.reason != HOLD) then s
      else if !(form.Kid? && form.account in s.accounts && c.owner != "" &&
                c.owner == OwnerName(form.account, s.accounts[form.account].kid)) && !(form.Jwk? && b.keyMatches) then s
      else s.(certs := RevokeRow(s.certs, b.cert, b.reason))
  }

  // ---- one step --------------------------------------------------------------

  // A request behind its nonce: jwk requests may create accounts and revoke by key, everything
  // else needs an account.
  function Handled(s: State, signer: string, form: Form, b: Body): State
  {
    if form.Kid? && !SignedBy(s, signer, form, form.account) then s
    else if b.RevokeCert? then RevokeByHolder(s, signer, form, b)
    else if b.NewAccount? then if form.Jwk? then CreateAccount(s, signer, b) else s
    else if form.Jwk? then s
    else
      match b
      case NewOrder(_, _, _, _, _, _, _) => PlaceOrder(s, form.account, b)
      case NewAuthz(_, _) => PreAuthorize(s, form.account, b)
      case UpdateAccount(_, _) => DeactivateAccount(s, form.account, b)
      case KeyChange(_, _) => ChangeKey(s, form.account, b)
      case UpdateAuthz(_, _) => DeactivateAuthz(s, form.account, b)
      case PostChallenge(_, _, _) => Trigger(s, form.account, b)
      case Finalize(_, _, _, _, _, _, _, _) => FinalizeOrder(s, form.account, b)
  }

  function Consumed(s: State, nonce: string): State
  {
    s.(nonces := s.nonces - {nonce}, spent := s.spent + {nonce})
  }

  function Answer(s: State, e: Event): State
    requires e.Post?
  {
    if e.nonce !in s.nonces then s.(nonces := s.nonces + {e.reply})
    else
      var n := Handled(Consumed(s, e.nonce), e.signer, e.form, e.body);
      n.(nonces := n.nonces + {e.reply})
  }

  function Step(s: State, e: Event): State
  {
    match e
    case GetNonce(nonce) => s.(nonces := s.nonces + {nonce})
    case Post(_, _, _, _, _) => Answer(s, e)
    case VerifierStarts(chall, job) => StartVerifier(s, chall, job)
    case VerifierFinishes(job, ok) => FinishVerifier(s, job, ok)
    case IssueTicket(ticket, ca, owner, expires) =>
      s.(tickets := s.tickets[ticket := Ticket(ca, owner, expires, None, [], "", "", [])])
    case CancelTicket(ticket) =>
      if ticket in s.tickets && s.tickets[ticket].order.None? then s.(tickets := s.tickets - {ticket}) else s
    case Register(serial, ca, owner) => s.(registered := s.registered[(serial, ca) := owner])
    case Unregister(serial, ca) => s.(registered := s.registered - {(serial, ca)})
    case Revoke(cert, reason) => s.(certs := RevokeRow(s.certs, cert, reason))
    case ReleaseHold(cert, expired) => s.(certs := ReleaseRow(s.certs, cert, expired))
  }

  // ---- which events can happen -----------------------------------------------

  // Drawn ids are new, and distinct where several are drawn together.
  ghost predicate FreshDraw(s: State, d: Draw)
  {
    && d.authz !in s.authzs
    && (forall c | c in {d.http, d.tls, d.dns, d.attest} :: c !in s.challs && c !in s.waiting)
    && d.http != d.tls && d.http != d.dns && d.tls != d.dns
  }

  predicate Reusable(a: Authz, account: nat, ident: Ident, now: int)
  {
    a.account == account && a.ident == ident && a.status == Proven && a.expires > now
  }

  // find_valid_authz answers with such an authorization, or with none.
  ghost predicate ReuseFound(s: State, account: nat, ident: Ident, d: Draw)
  {
    d.reuse.Some? ==> d.reuse.value in s.authzs && Reusable(s.authzs[d.reuse.value], account, ident, d.now)
  }

  // Each draw and each answer is judged in the state its turn comes in.
  ghost predicate LegalDraws(s: State, order: nat, account: nat, idents: seq<Ident>, ds: seq<Draw>)
  {
    |ds| == |idents| &&
    (idents == [] ||
     var n := |idents| - 1;
     && LegalDraws(s, order, account, idents[..n], ds[..n])
     && var before := PlaceAuthzs(s, order, account, idents[..n], ds[..n]);
        FreshDraw(before, ds[n]) && ReuseFound(before, account, idents[n], ds[n]))
  }

  // get_device_ticket_by_order.
  ghost predicate TicketFound(s: State, order: nat, held: Option<Name>)
  {
    if held.Some? then held.value in s.tickets && s.tickets[held.value].order == Some(order)
    else forall t | t in s.tickets :: s.tickets[t].order != Some(order)
  }

  ghost predicate LegalBody(s: State, form: Form, b: Body)
  {
    match b
    case NewAccount(id, _, _, _) => id !in s.accounts
    case NewOrder(id, _, idents, _, _, draws, ticket) =>
      && |draws| == |idents| && id !in s.orders && ticket !in s.tickets
      && (forall d | d in draws :: FreshDraw(s, d))
      && (form.Kid? ==>
          LegalDraws(s.(orders := s.orders[id := Order(Pending, idents, form.account, b.ca, "")]), id, form.account,
                     idents, draws))
    case NewAuthz(_, draw) => FreshDraw(s, draw)
    case PostChallenge(target, _, held) =>
      target in s.challs && s.challs[target].authz in s.authzs && s.authzs[s.challs[target].authz].order.Some? ==>
        TicketFound(s, s.authzs[s.challs[target].authz].order.value, held)
    case Finalize(target, _, _, _, _, _, cert, held) => TicketFound(s, target, held) && cert != ""
    case _ => true
  }

  ghost predicate Legal(s: State, e: Event)
  {
    match e
    case GetNonce(nonce) => nonce !in s.nonces && nonce !in s.spent
    case Post(nonce, reply, _, form, body) =>
      reply !in s.nonces && reply !in s.spent && reply != nonce && LegalBody(Consumed(s, nonce), form, body)
    case VerifierStarts(_, job) => job !in s.running
    case IssueTicket(ticket, ca, owner, _) => ticket !in s.tickets && ca != "" && owner != ""
    case Register(serial, ca, owner) => serial != [] && ca != "" && owner != ""
    case _ => true
  }

  ghost predicate Possible(s: State, es: seq<Event>)
    decreases |es|
  {
    es == [] || (Legal(s, es[0]) && Possible(Step(s, es[0]), es[1..]))
  }

  ghost function Run(s: State, es: seq<Event>): State
    requires Possible(s, es)
    decreases |es|
  {
    if es == [] then s else Run(Step(s, es[0]), es[1..])
  }

  // An empty store. Certificates of other protocols may be there already.
  predicate Fresh(s: State)
  {
    && s.accounts == map[] && s.orders == map[] && s.authzs == map[] && s.challs == map[] && s.tickets == map[]
    && s.registered == map[] && s.waiting == {} && s.running == map[] && s.nonces == {} && s.spent == {}
    && s.proofs == {} && s.attested == {} && s.issued == {}
  }
}
