/** What every CMP message does, in the words of the protocol: when a request, a revocation or a
    confirmation is granted, to whom, what it changes, and what it is answered. The conditions
    are written out over the message and the store, apart from the handlers. */
module CmpRules {
  import opened Text
  import opened Certs
  import opened Cmp
  import opened CmpRuns

  // ---- the gates every message passes ----------------------------------------

  // Transactions heard from within the last ten minutes.
  ghost function Active(s: State, now: int): set<string>
  {
    set t | t in s.txns && now - s.txns[t] <= 600_000_000_000
  }

  ghost predicate HasRoom(s: State, m: Message)
  {
    TxidHex(m.txid) in Active(s, m.now) || |Active(s, m.now)| < 512
  }

  ghost predicate Reaches(s: State, m: Message) { HasRoom(s, m) && m.authority.Some? && m.dispatched }

  // A recipient that can be read must be one of the endpoint's two names.
  ghost predicate Addressed(m: Message)
    requires m.authority.Some?
  {
    m.info.Some? ==>
      m.info.value.recipientCn != "" && m.info.value.recipientCn in {m.authority.value.raCn, m.authority.value.caCn}
  }

  // Who is asking: the reference of a shared secret, or whoever the bound signing certificate
  // belongs to, unless the store holds that certificate as not valid or cannot tell.
  ghost function Caller(s: State, m: Message): string
  {
    if m.info.None? then ""
    else
      var i := m.info.value;
      var row := i.senderSerial != "" && i.senderSerial in s.certs;
      if i.pbm then i.senderKid
      else if !i.bound || (i.senderSerial != "" && !m.lookup) || (row && s.certs[i.senderSerial].status != 0) then ""
      else if row && s.certs[i.senderSerial].owner != "" then s.certs[i.senderSerial].owner
      else i.senderCn
  }

  lemma RoomMeans(s: State, m: Message)
    ensures Full(s, m) <==> !HasRoom(s, m)
  {
    hide TxidHex;
    var live := Live(s.txns, m.now);
    assert live.Keys == Active(s, m.now);
    assert |live.Keys| == |live|;
  }

  lemma CallerMeans(s: State, m: Message)
    requires m.authority.Some?
    ensures Identity(PendingOf(m, m.authority.value), s.certs, m.lookup) == Caller(s, m)
    ensures PendingOf(m, m.authority.value).recipientRefused <==> !Addressed(m)
  {
    hide TxidHex;
  }

  // The answer to a message that does not get as far as its own rules.
  ghost function Turned(s: State, m: Message): Reply
  {
    if !HasRoom(s, m) then Busy else if m.authority.None? then NoAuthority else NotDispatched
  }

  ghost predicate SameStore(s: State, n: State) { n.certs == s.certs && n.confirm == s.confirm }

  lemma TurnedAway(s: State, m: Message)
    requires !Reaches(s, m)
    ensures Handle(s, m).1 == Turned(s, m) && SameStore(s, Handle(s, m).0)
  {
    hide TxidHex, HasRoom, Live;
    RoomMeans(s, m);
  }

  lemma Arrives(s: State, m: Message)
    requires Reaches(s, m)
    ensures m.authority.Some? && Handle(s, m) == Dispatch(Touched(s, m), PendingOf(m, m.authority.value), m)
    ensures SameStore(s, Touched(s, m)) && Caller(Touched(s, m), m) == Caller(s, m)
  {
    hide TxidHex, HasRoom, Live, Dispatch, PendingOf;
    RoomMeans(s, m);
  }

  // The transaction table: the active entries, and the message's own when it is let in.
  lemma TableExactly(s: State, m: Message)
    ensures var n, t := Handle(s, m).0.txns, TxidHex(m.txid);
            && (forall u :: u in n <==> u in Active(s, m.now) || (u == t && HasRoom(s, m)))
            && (forall u | u in n :: n[u] == if u == t && HasRoom(s, m) then m.now else s.txns[u])
  {
    hide TxidHex, Handle, HasRoom, Full;
    RoomMeans(s, m);
    HandledTable(s, m);
  }

  // A transactionID of up to 64 octets is written in hexadecimal; any other counts as none.
  lemma TxidRule(txid: Option<seq<byte>>)
    ensures TxidHex(txid) == if txid.Some? && |txid.value| <= 64 then Hex(txid.value) else ""
  {
  }

  // ---- requests --------------------------------------------------------------

  ghost predicate Grantable(s: State, m: Message)
    requires m.body.CertRequest? && m.authority.Some?
  {
    Addressed(m) && m.body.mayEnrol(Caller(s, m)) && m.body.serial !in s.certs
  }

  // A certificate is issued exactly when the caller may enrol at this endpoint and the serial is
  // new. It is valid at once only with implicit confirmation, and its confirmation is awaited.
  lemma RequestedExactly(s: State, m: Message)
    requires m.body.CertRequest?
    ensures var n, reply := Handle(s, m).0, Handle(s, m).1;
            var granted := Reaches(s, m) && Grantable(s, m);
            && reply == (if !Reaches(s, m) then Turned(s, m)
                         else if !Addressed(m) then WrongAuthority
                         else if !granted then BadRequest else Accepted)
            && (!granted ==> SameStore(s, n))
            && (granted ==>
                  && n.certs == s.certs[m.body.serial := NewRow(s, m)]
                  && n.confirm == s.confirm[ConfirmKey(TxidHex(m.txid), m.body.certReqId) := m.body.serial])
  {
    hide TxidHex, ConfirmKey, HasRoom, Handle, Identity, PendingOf, Touched;
    if !Reaches(s, m) { TurnedAway(s, m); return; }
    Arrives(s, m);
    CallerMeans(Touched(s, m), m);
    PendingFields(m);
  }

  ghost function NewRow(s: State, m: Message): Cert
    requires m.body.CertRequest? && m.authority.Some?
  {
    Cert(if m.info.Some? && m.info.value.implicitConfirm then 0 else 2, 0,
         if Caller(s, m) == "" then m.body.cn else Caller(s, m), m.authority.value.id)
  }

  lemma PendingFields(m: Message)
    requires m.authority.Some?
    ensures var p := PendingOf(m, m.authority.value);
            && p.txid == TxidHex(m.txid) && p.ca == m.authority.value.id
            && p.implicitConfirm == (m.info.Some? && m.info.value.implicitConfirm)
            && p.pbm == (m.info.Some? && m.info.value.pbm) && p.revReason == Reason(m)
  {
  }

  // ---- revocations -----------------------------------------------------------

  ghost function Reason(m: Message): int
  {
    if m.info.Some? && m.info.value.revReason.Some? then m.info.value.revReason.value else 0
  }

  ghost predicate Entitled(s: State, m: Message)
    requires m.body.Revocation? && m.authority.Some?
  {
    && Addressed(m) && m.info.Some? && !m.info.value.pbm && Caller(s, m) != ""
    && m.body.target.Some? && m.body.target.value in s.certs
    && var c := s.certs[m.body.target.value];
       && c.ca == m.authority.value.id && (m.body.holds(Caller(s, m)) || c.owner == Caller(s, m))
       && Reason(m) in {0, 1, 2, 3, 4, 5, 6, 9} && m.update
  }

  // Still valid, pending or expired; or on hold and now revoked for another reason.
  ghost predicate Revocable(c: Cert, reason: int) { c.status != -1 || (c.reason == 6 && reason != 6) }

  lemma RevokedExactly(s: State, m: Message)
    requires m.body.Revocation?
    ensures var n, reply := Handle(s, m).0, Handle(s, m).1;
            var entitled := Reaches(s, m) && Entitled(s, m);
            var granted := entitled && Revocable(s.certs[m.body.target.value], Reason(m));
            && reply == (if !Reaches(s, m) then Turned(s, m)
                         else if !Addressed(m) then WrongAuthority
                         else if !entitled then BadRequest
                         else if !granted then CertRevoked else Accepted)
            && (!granted ==> SameStore(s, n))
            && (granted ==>
                  && n.confirm == s.confirm
                  && var t := m.body.target.value;
                     n.certs == s.certs[t := s.certs[t].(status := -1, reason := Reason(m))])
  {
    hide TxidHex, HasRoom, Handle, Identity, PendingOf, Touched;
    if !Reaches(s, m) { TurnedAway(s, m); return; }
    Arrives(s, m);
    CallerMeans(Touched(s, m), m);
    PendingFields(m);
  }

  // ---- confirmations ---------------------------------------------------------

  // Accepting makes the awaited certificate valid, rejecting revokes it unless it was finally
  // revoked before; either way the entry is gone, and nothing else is touched.
  lemma ConfirmedExactly(s: State, m: Message)
    requires m.body.CertConf?
    ensures var n, key := Handle(s, m).0, ConfirmKey(TxidHex(m.txid), m.body.certReqId);
            && Handle(s, m).1 == (if Reaches(s, m) then Done else Turned(s, m))
            && if !Reaches(s, m) || key !in s.confirm then SameStore(s, n)
               else
                 && n.confirm == s.confirm - {key}
                 && var serial := s.confirm[key];
                    n.certs == if m.update && serial in s.certs
                               then s.certs[serial := Answered(s.certs[serial], m.body.rejected)] else s.certs
  {
    hide TxidHex, ConfirmKey, HasRoom, Handle, PendingOf, Touched;
    if !Reaches(s, m) { TurnedAway(s, m); return; }
    Arrives(s, m);
    PendingFields(m);
    var key := ConfirmKey(TxidHex(m.txid), m.body.certReqId);
    if key in s.confirm && s.confirm[key] in s.certs {
      assert s.certs[s.confirm[key] := s.certs[s.confirm[key]]] == s.certs;
    }
  }

  ghost function Answered(c: Cert, rejected: bool): Cert
  {
    if !rejected then c.(status := 0) else if c.status == -1 && c.reason != 6 then c
    else c.(status := -1, reason := 0)
  }

  lemma OtherExactly(s: State, m: Message)
    requires m.body.Other?
    ensures SameStore(s, Handle(s, m).0) && Handle(s, m).1 == if Reaches(s, m) then Done else Turned(s, m)
  {
    hide TxidHex, HasRoom, Handle, PendingOf, Touched;
    if !Reaches(s, m) { TurnedAway(s, m); return; }
    Arrives(s, m);
  }

  // ---- over runs -------------------------------------------------------------

  lemma {:induction false} ReplyAt(s: State, ms: seq<Message>, i: nat)
    requires i < |ms|
    ensures Replies(s, ms)[i] == Handle(Run(s, ms[..i]), ms[i]).1
    decreases i
  {
    hide Handle;
    if i > 0 {
      ReplyAt(Handle(s, ms[0]).0, ms[1..], i - 1);
      assert ms[..i][0] == ms[0] && ms[..i][1..] == ms[1..][..i - 1];
    } else {
      assert ms[..0] == [];
    }
  }

  // In every run, a request is accepted if and only if it was let in, at its own endpoint, from
  // a caller who may enrol in the state it met, for a new serial.
  lemma EnrolmentsAuthorized(s: State, ms: seq<Message>, i: nat)
    requires i < |ms| && ms[i].body.CertRequest?
    ensures var before := Run(s, ms[..i]);
            Replies(s, ms)[i] == Accepted <==> Reaches(before, ms[i]) && Grantable(before, ms[i])
  {
    hide Handle, Run, Replies, Reaches;
    ReplyAt(s, ms, i);
    RequestedExactly(Run(s, ms[..i]), ms[i]);
  }
}
