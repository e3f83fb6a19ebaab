/** The CMP server object: the maps it updates in place and the per-request fields the HTTP
    handler leaves for the callbacks. Every request refines `Cmp.Handle`, whose result depends
    on the message and the stored state only: nothing of an earlier request leaks in through
    the per-request fields. */
module CmpServer {
  import opened Text
  import opened Certs
  import opened Cmp

  class Server {
    var certs: map<string, Cert>
    var pendingConfirm: map<string, string>
    var txns: map<string, int>
    var pendingTxid: string
    var pendingRevReason: int
    var pendingImplicitConfirm: bool
    var pendingSenderCn: string
    var pendingSenderRef: string
    var pendingPbm: bool
    var pendingBound: bool
    var pendingSenderSerial: string
    var pendingRecipientRefused: bool
    var activeCa: string

    ghost function View(): State
      reads this
    {
      State(certs, pendingConfirm, txns)
    }

    ghost function Left(): Pending
      reads this
    {
      Pending(pendingTxid, pendingRevReason, pendingImplicitConfirm, pendingSenderCn, pendingSenderRef, pendingPbm,
              pendingBound, pendingSenderSerial, pendingRecipientRefused, activeCa)
    }

    constructor (stored: map<string, Cert>)
      ensures View() == State(stored, map[], map[])
    {
      certs, pendingConfirm, txns := stored, map[], map[];
      pendingTxid, pendingRevReason, pendingImplicitConfirm, pendingSenderCn, pendingSenderRef := "", 0, false, "", "";
      pendingPbm, pendingBound, pendingSenderSerial, pendingRecipientRefused := false, false, "", false;
      activeCa := "";
    }

    // reap_txns.
    method ReapTxns(now: int)
      modifies `txns
      ensures txns == Live(old(txns), now)
    {
      var keys := txns.Keys;
      while keys != {}
        invariant keys <= old(txns).Keys
        invariant forall t :: t in txns <==> t in old(txns) && (t in keys || !(now - old(txns)[t] > IDLE))
        invariant forall t | t in txns :: txns[t] == old(txns)[t]
        decreases |keys|
      {
        var t :| t in keys;
        if now - txns[t] > IDLE { txns := txns - {t}; }
        keys := keys - {t};
      }
    }

    // handle_cmp, from the decoded message on.
    method HandleCmp(m: Message) returns (reply: Reply)
      modifies this
      ensures (View(), reply) == Handle(old(View()), m)
    {
      hide PendingOf, Dispatch, TxidHex;
      var txid := TransactionId(m.txid);
      ReapTxns(m.now);
      if txid !in txns {
        if |txns| >= MAX_TXNS { return Busy; }
        txns := txns[txid := m.now];
      } else {
        txns := txns[txid := m.now];
      }
      activeCa := "";
      if m.authority.None? { return NoAuthority; }
      activeCa := m.authority.value.id;
      Recover(m, m.authority.value, txid);
      reply := NotDispatched;
      if m.dispatched { reply := Callback(m); }
      activeCa := "";
    }

    // The reset of the per-request fields, then the ones a parsed request fills in.
    method Recover(m: Message, a: Authority, txid: string)
      requires txid == TxidHex(m.txid) && a.id == activeCa
      modifies `pendingTxid, `pendingRevReason, `pendingImplicitConfirm, `pendingSenderCn, `pendingSenderRef,
               `pendingPbm, `pendingBound, `pendingSenderSerial, `pendingRecipientRefused
      ensures Left() == PendingOf(m, a)
    {
      hide TxidHex;
      Reset(txid);
      if m.info.Some? {
        var ri := m.info.value;
        pendingRevReason := if ri.revReason.Some? then ri.revReason.value else 0;
        pendingImplicitConfirm := ri.implicitConfirm;
        pendingSenderCn := ri.senderCn;
        pendingSenderRef := ri.senderKid;
        pendingPbm := ri.pbm;
        pendingBound := ri.bound;
        pendingSenderSerial := ri.senderSerial;
        if ri.recipientCn == "" {
          pendingRecipientRefused := true;
        } else if ri.recipientCn != a.raCn && ri.recipientCn != a.caCn {
          pendingRecipientRefused := true;
        }
      }
    }

    method Reset(txid: string)
      modifies `pendingTxid, `pendingRevReason, `pendingImplicitConfirm, `pendingSenderCn, `pendingSenderRef,
               `pendingPbm, `pendingBound, `pendingSenderSerial, `pendingRecipientRefused
      ensures Left() == Pending(txid, 0, false, "", "", false, false, "", false, activeCa)
    {
      pendingTxid := txid;
      pendingRevReason := 0;
      pendingImplicitConfirm := false;
      pendingSenderCn := "";
      pendingSenderRef := "";
      pendingPbm := false;
      pendingBound := false;
      pendingSenderSerial := "";
      pendingRecipientRefused := false;
    }

    method Callback(m: Message) returns (reply: Reply)
      modifies `certs, `pendingConfirm
      ensures (View(), reply) == Dispatch(old(View()), Left(), m)
    {
      hide Request, Revoke, Confirm;
      match m.body {
        case CertRequest(_, _, _, _) => reply := CertRequestCb(m);
        case Revocation(_, _) => reply := RrCb(m);
        case CertConf(_, _) => CertConfCb(m); reply := Done;
        case Other => reply := Done;
      }
    }

    // cmp_identity.
    method CmpIdentity(lookup: bool) returns (user: string)
      ensures user == Identity(Left(), certs, lookup)
    {
      if pendingPbm { return pendingSenderRef; }
      if !pendingBound { return ""; }
      if pendingSenderSerial != "" {
        if !lookup { return ""; }
        if pendingSenderSerial in certs {
          var row := certs[pendingSenderSerial];
          if row.status != 0 { return ""; }
          if row.owner != "" { return row.owner; }
        }
      }
      user := pendingSenderCn;
    }

    // cert_request_cb.
    method CertRequestCb(m: Message) returns (reply: Reply)
      requires m.body.CertRequest?
      modifies `certs, `pendingConfirm
      ensures (View(), reply) == Request(old(View()), Left(), m)
    {
      hide Identity, ConfirmKey;
      if pendingRecipientRefused { return WrongAuthority; }
      var user := CmpIdentity(m.lookup);
      if !m.body.mayEnrol(user) { return BadRequest; }
      if m.body.serial in certs { return BadRequest; }
      var initialStatus := if pendingImplicitConfirm then 0 else 2;
      certs := certs[m.body.serial := Cert(initialStatus, 0, if user == "" then m.body.cn else user, activeCa)];
      pendingConfirm := pendingConfirm[ConfirmKey(pendingTxid, m.body.certReqId) := m.body.serial];
      reply := Accepted;
    }

    // revoke_cert.
    method RevokeCert(serial: string, reason: int) returns (changed: bool)
      modifies `certs
      ensures changed <==> serial in old(certs) && Revoked(old(certs)[serial], reason).Some?
      ensures certs == if changed then old(certs)[serial := Revoked(old(certs)[serial], reason).value] else old(certs)
    {
      if serial !in certs { return false; }
      var r := Revoked(certs[serial], reason);
      if r.None? { return false; }
      certs := certs[serial := r.value];
      changed := true;
    }

    // rr_cb.
    method RrCb(m: Message) returns (reply: Reply)
      requires m.body.Revocation?
      modifies `certs
      ensures (View(), reply) == Revoke(old(View()), Left(), m)
    {
      hide Identity, ReasonAllowed, Revoked;
      if pendingRecipientRefused { return WrongAuthority; }
      if m.body.target.None? { return BadRequest; }
      var s := m.body.target.value;
      var caller := CmpIdentity(m.lookup);
      if pendingPbm { return BadRequest; }
      if caller == "" { return BadRequest; }
      if s !in certs || certs[s].ca != activeCa { return BadRequest; }
      if !m.body.holds(caller) {
        if certs[s].owner != caller { return BadRequest; }
      }
      if !ReasonAllowed(pendingRevReason) { return BadRequest; }
      if !m.update { return BadRequest; }
      var changed := RevokeCert(s, pendingRevReason);
      if !changed { return CertRevoked; }
      reply := Accepted;
    }

    // certconf_cb.
    method CertConfCb(m: Message)
      requires m.body.CertConf?
      modifies `certs, `pendingConfirm
      ensures (View(), Done) == Confirm(old(View()), Left(), m)
    {
      hide ConfirmKey, Revoked;
      var key := ConfirmKey(pendingTxid, m.body.certReqId);
      if key !in pendingConfirm { return; }
      var serial := pendingConfirm[key];
      if m.update {
        if m.body.rejected {
          var _ := RevokeCert(serial, 0);
        } else if serial in certs {
          certs := certs[serial := certs[serial].(status := 0)];
        }
      }
      pendingConfirm := pendingConfirm - {key};
    }
  }

  // cmp_txid_hex.
  method TransactionId(txid: Option<seq<byte>>) returns (s: string)
    ensures s == TxidHex(txid)
  {
    if txid.None? { return ""; }
    var d := txid.value;
    if |d| > MAX_TXID_OCTETS { return ""; }
    s := "";
    for i := 0 to |d|
      invariant s + Hex(d[i..]) == Hex(d)
    {
      HexFirst(d[i..]);
      assert d[i..][1..] == d[i + 1..];
      assert s + ([HexDigit(d[i] / 16), HexDigit(d[i] % 16)] + Hex(d[i + 1..])) ==
             s + [HexDigit(d[i] / 16)] + [HexDigit(d[i] % 16)] + Hex(d[i + 1..]);
      s := s + [HexDigit(d[i] / 16)];
      s := s + [HexDigit(d[i] % 16)];
    }
    assert d[|d|..] == [];
    assert s + "" == s;
  }

  lemma HexFirst(d: seq<byte>)
    requires d != []
    ensures Hex(d) == [HexDigit(d[0] / 16), HexDigit(d[0] % 16)] + Hex(d[1..])
  {
  }
}
