/** The CMP server's state and what one request does to it (RFC 4210): the transaction table,
    the map of certificates awaiting certConf, and the certificate rows. What OpenSSL, the RBAC
    tables and the issuing code decide travels in the message. */
module Cmp {
  import opened Text
  import opened Certs

  // ---- messages --------------------------------------------------------------

  // The fields recovered from the raw request.
  datatype Info = Info(senderCn: string, senderKid: string, pbm: bool, bound: bool, senderSerial: string,
                       revReason: Option<int>, implicitConfirm: bool, recipientCn: string)

  // The CA a transaction is bound to, and the names its recipient may have.
  datatype Authority = Authority(id: string, raCn: string, caCn: string)

  datatype Body =
    // `mayEnrol(user)`: enrolment permission, limits and issuance all succeed for that user.
    | CertRequest(certReqId: int, serial: string, cn: string, mayEnrol: string -> bool)
    // `holds(user)`: the user holds cert:revoke on the endpoint's CA.
    | Revocation(target: Option<string>, holds: string -> bool)
    | CertConf(certReqId: int, rejected: bool)
    | Other

  // `authority` is None when the CA or its RA certificate cannot be bound; `info` when the raw
  // request does not parse; `dispatched` when OpenSSL accepts the message and calls back;
  // `lookup` and `update` when the store answers the identity lookup and the status change.
  datatype Message = Message(txid: Option<seq<byte>>, now: int, authority: Option<Authority>, info: Option<Info>,
                             dispatched: bool, lookup: bool, update: bool, body: Body)

  const MAX_TXID_OCTETS := 64

  function TxidHex(txid: Option<seq<byte>>): string
  {
    if txid.None? || |txid.value| > MAX_TXID_OCTETS then "" else Hex(txid.value)
  }

  function ConfirmKey(txid: string, certReqId: int): string { txid + "/" + Signed(certReqId) }

  // What the HTTP handler leaves for the callbacks.
  datatype Pending = Pending(txid: string, revReason: int, implicitConfirm: bool, senderCn: string, senderRef: string,
                             pbm: bool, bound: bool, senderSerial: string, recipientRefused: bool, ca: string)

  predicate RecipientRefused(got: string, a: Authority) { got == "" || (got != a.raCn && got != a.caCn) }

  function PendingOf(m: Message, a: Authority): Pending
  {
    var txid := TxidHex(m.txid);
    match m.info
    case None => Pending(txid, 0, false, "", "", false, false, "", false, a.id)
    case Some(i) =>
      Pending(txid, if i.revReason.Some? then i.revReason.value else 0, i.implicitConfirm, i.senderCn, i.senderKid,
              i.pbm, i.bound, i.senderSerial, RecipientRefused(i.recipientCn, a), a.id)
  }

  // ---- state and one request -------------------------------------------------

  datatype State = State(certs: map<string, Cert>, confirm: map<string, string>, txns: map<string, int>)

  datatype Reply = Busy | NoAuthority | NotDispatched | WrongAuthority | BadRequest | CertRevoked | Accepted | Done

  const IDLE: int := 600_000_000_000   // ten minutes in nanoseconds
  const MAX_TXNS := 512

  function Live(txns: map<string, int>, now: int): map<string, int>
  {
    map t | t in txns && !(now - txns[t] > IDLE) :: txns[t]
  }

  // cmp_identity; "" is no identity.
  function Identity(p: Pending, certs: map<string, Cert>, lookup: bool): string
  {
    if p.pbm then p.senderRef
    else if !p.bound then ""
    else if p.senderSerial == "" then p.senderCn
    else if !lookup then ""
    else if p.senderSerial !in certs then p.senderCn
    else if certs[p.senderSerial].status != 0 then ""
    else if certs[p.senderSerial].owner != "" then certs[p.senderSerial].owner
    else p.senderCn
  }

  function Request(s: State, p: Pending, m: Message): (State, Reply)
    requires m.body.CertRequest?
  {
    var b, user := m.body, Identity(p, s.certs, m.lookup);
    if p.recipientRefused then (s, WrongAuthority)
    else if !b.mayEnrol(user) || b.serial in s.certs then (s, BadRequest)
    else
      var cert := Cert(if p.implicitConfirm then 0 else 2, 0, if user == "" then b.cn else user, p.ca);
      (s.(certs := s.certs[b.serial := cert], confirm := s.confirm[ConfirmKey(p.txid, b.certReqId) := b.serial]),
       Accepted)
  }

  function Revoke(s: State, p: Pending, m: Message): (State, Reply)
    requires m.body.Revocation?
  {
    var b, user := m.body, Identity(p, s.certs, m.lookup);
    if p.recipientRefused then (s, WrongAuthority)
    else if b.target.None? || p.pbm || user == "" then (s, BadRequest)
    else if b.target.value !in s.certs then (s, BadRequest)
    else
      var c := s.certs[b.target.value];
      if c.ca != p.ca || !(b.holds(user) || c.owner == user) then (s, BadRequest)
      else if !ReasonAllowed(p.revReason) || !m.update then (s, BadRequest)
      else
        match Revoked(c, p.revReason)
        case None => (s, CertRevoked)
        case Some(r) => (s.(certs := s.certs[b.target.value := r]), Accepted)
  }

  // What certConf does to the row it confirms; a serial without a row stays without one.
  function Confirmed(certs: map<string, Cert>, serial: string, rejected: bool): map<string, Cert>
  {
    if serial !in certs then certs
    else if !rejected then certs[serial := certs[serial].(status := 0)]
    else
      match Revoked(certs[serial], 0)
      case None => certs
      case Some(r) => certs[serial := r]
  }

  function Confirm(s: State, p: Pending, m: Message): (State, Reply)
    requires m.body.CertConf?
  {
    var key := ConfirmKey(p.txid, m.body.certReqId);
    if key !in s.confirm then (s, Done)
    else
      (s.(certs := if m.update then Confirmed(s.certs, s.confirm[key], m.body.rejected) else s.certs,
          confirm := s.confirm - {key}),
       Done)
  }

  function Dispatch(s: State, p: Pending, m: Message): (State, Reply)
  {
    match m.body
    case CertRequest(_, _, _, _) => Request(s, p, m)
    case Revocation(_, _) => Revoke(s, p, m)
    case CertConf(_, _) => Confirm(s, p, m)
    case Other => (s, Done)
  }

  predicate Full(s: State, m: Message)
  {
    TxidHex(m.txid) !in Live(s.txns, m.now) && |Live(s.txns, m.now)| >= MAX_TXNS
  }

  function Touched(s: State, m: Message): State { s.(txns := Live(s.txns, m.now)[TxidHex(m.txid) := m.now]) }

  // handle_cmp.
  function Handle(s: State, m: Message): (State, Reply)
  {
    if Full(s, m) then (s.(txns := Live(s.txns, m.now)), Busy)
    else if m.authority.None? then (Touched(s, m), NoAuthority)
    else if !m.dispatched then (Touched(s, m), NotDispatched)
    else Dispatch(Touched(s, m), PendingOf(m, m.authority.value), m)
  }
}
