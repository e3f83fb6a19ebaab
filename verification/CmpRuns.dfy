/** What holds over every run of the CMP server: transactions do not interfere, the table stays
    bounded without evicting anybody, every change of a certificate row has one of three causes,
    and every revocation was authorized. */
module CmpRuns {
  import opened Text
  import opened Certs
  import opened Cmp

  ghost function Run(s: State, ms: seq<Message>): State
    decreases |ms|
  {
    if ms == [] then s else Run(Handle(s, ms[0]).0, ms[1..])
  }

  ghost function Replies(s: State, ms: seq<Message>): (rs: seq<Reply>)
    ensures |rs| == |ms|
    decreases |ms|
  {
    if ms == [] then [] else [Handle(s, ms[0]).1] + Replies(Handle(s, ms[0]).0, ms[1..])
  }

  // ---- keys ------------------------------------------------------------------

  // Distinct usable transaction ids stay distinct as hex.
  lemma TxidInjective(a: Option<seq<byte>>, b: Option<seq<byte>>)
    requires TxidHex(a) == TxidHex(b) != ""
    ensures a == b
  {
    hide Hex;
    HexInjective(a.value, b.value);
  }

  // Two confirm keys agree only for the same transaction id and the same certReqId.
  lemma ConfirmKeyInjective(t: Option<seq<byte>>, i: int, u: Option<seq<byte>>, j: int)
    requires ConfirmKey(TxidHex(t), i) == ConfirmKey(TxidHex(u), j)
    ensures TxidHex(t) == TxidHex(u) && i == j
  {
    hide Hex, Signed;
    NoSlash(t);
    NoSlash(u);
    SplitUnique(TxidHex(t), TxidHex(u), '/', Signed(i), Signed(j));
    SignedInjective(i, j);
  }

  lemma NoSlash(t: Option<seq<byte>>)
    ensures '/' !in TxidHex(t)
  {
    hide Hex;
    if t.Some? { HexHasNo(t.value, '/'); }
  }

  // ---- non-interference ------------------------------------------------------

  // Serials a message draws or names for revocation, and the one it is signed with.
  ghost function Names(m: Message): set<string>
  {
    match m.body
    case CertRequest(_, serial, _, _) => {serial}
    case Revocation(Some(serial), _) => {serial}
    case _ => {}
  }

  ghost function SignsWith(m: Message): set<string>
  {
    if m.info.Some? then {m.info.value.senderSerial} else {}
  }

  // The serials transaction t is about.
  ghost function Mine(ms: seq<Message>, t: Option<seq<byte>>): set<string>
  {
    if ms == [] then {}
    else (if ms[0].txid == t then Names(ms[0]) + SignsWith(ms[0]) else {}) + Mine(ms[1..], t)
  }

  // No message of another transaction draws or names one of those serials.
  ghost predicate Separate(ms: seq<Message>, t: Option<seq<byte>>, mine: set<string>)
  {
    && (forall m | m in ms && m.txid == t :: Names(m) + SignsWith(m) <= mine)
    && (forall m | m in ms && m.txid != t :: Names(m) !! mine)
  }

  // t's messages that were let into the transaction table.
  ghost function Admitted(s: State, ms: seq<Message>, t: Option<seq<byte>>): seq<Message>
    decreases |ms|
  {
    if ms == [] then []
    else
      (if ms[0].txid == t && !Full(s, ms[0]) then [ms[0]] else []) + Admitted(Handle(s, ms[0]).0, ms[1..], t)
  }

  ghost function AdmittedReplies(s: State, ms: seq<Message>, t: Option<seq<byte>>): seq<Reply>
    decreases |ms|
  {
    if ms == [] then []
    else
      (if ms[0].txid == t && !Full(s, ms[0]) then [Handle(s, ms[0]).1] else []) +
      AdmittedReplies(Handle(s, ms[0]).0, ms[1..], t)
  }

  ghost predicate SameRow(a: State, b: State, serial: string)
  {
    (serial in a.certs <==> serial in b.certs) && (serial in a.certs ==> a.certs[serial] == b.certs[serial])
  }

  ghost predicate SameEntry(a: State, b: State, key: string)
  {
    (key in a.confirm <==> key in b.confirm) && (key in a.confirm ==> a.confirm[key] == b.confirm[key])
  }

  // The two runs agree on everything that is t's; entries of other transactions are not.
  ghost predicate Agree(full: State, alone: State, t: Option<seq<byte>>, mine: set<string>)
  {
    && (forall serial | serial in mine :: SameRow(full, alone, serial))
    && (forall i :: SameEntry(full, alone, ConfirmKey(TxidHex(t), i)))
    && Owned(full, t, mine)
    && alone.txns.Keys <= {TxidHex(t)}
  }

  ghost predicate IsKeyOf(key: string, t: Option<seq<byte>>) { exists i :: key == ConfirmKey(TxidHex(t), i) }

  // t's entries await t's certificates, and the others' entries do not.
  ghost predicate Owned(s: State, t: Option<seq<byte>>, mine: set<string>)
  {
    forall key | key in s.confirm :: s.confirm[key] in mine <==> IsKeyOf(key, t)
  }

  // For every interleaving, what happens to the certificates of a transaction with a usable
  // id, and every answer it gets, is what its own admitted messages do when run alone.
  lemma NonInterference(stored: map<string, Cert>, ms: seq<Message>, id: seq<byte>)
    requires 0 < |id| <= MAX_TXID_OCTETS
    requires Separate(ms, Some(id), Mine(ms, Some(id)))
    ensures var s, t := State(stored, map[], map[]), Some(id);
            && (forall serial | serial in Mine(ms, t) :: SameRow(Run(s, ms), Run(s, Admitted(s, ms, t)), serial))
            && AdmittedReplies(s, ms, t) == Replies(s, Admitted(s, ms, t))
  {
    hide Handle, Full, ConfirmKey;
    var s := State(stored, map[], map[]);
    HexHasNo(id, '/');
    Simulate(s, s, ms, Some(id), Mine(ms, Some(id)));
  }

  lemma {:induction false} Simulate(full: State, alone: State, ms: seq<Message>, t: Option<seq<byte>>,
                                    mine: set<string>)
    requires TxidHex(t) != "" && Separate(ms, t, mine) && Agree(full, alone, t, mine)
    ensures Agree(Run(full, ms), Run(alone, Admitted(full, ms, t)), t, mine)
    ensures AdmittedReplies(full, ms, t) == Replies(alone, Admitted(full, ms, t))
    decreases |ms|
  {
    hide Handle, Agree, Full;
    if ms != [] {
      var m, rest := ms[0], ms[1..];
      var next := Handle(full, m).0;
      assert forall r | r in rest :: r in ms;
      if m.txid == t && !Full(full, m) {
        OwnStep(full, alone, m, t, mine);
        Simulate(next, Handle(alone, m).0, rest, t, mine);
        assert Admitted(full, ms, t) == [m] + Admitted(next, rest, t);
        assert ([m] + Admitted(next, rest, t))[1..] == Admitted(next, rest, t);
      } else {
        OtherStep(full, alone, m, t, mine);
        Simulate(next, alone, rest, t, mine);
        assert Admitted(full, ms, t) == [] + Admitted(next, rest, t) == Admitted(next, rest, t);
        assert AdmittedReplies(full, ms, t) == [] + AdmittedReplies(next, rest, t) == AdmittedReplies(next, rest, t);
      }
    }
  }

  lemma OwnStep(full: State, alone: State, m: Message, t: Option<seq<byte>>, mine: set<string>)
    requires m.txid == t && !Full(full, m) && Names(m) + SignsWith(m) <= mine && Agree(full, alone, t, mine)
    ensures Agree(Handle(full, m).0, Handle(alone, m).0, t, mine)
    ensures Handle(full, m).1 == Handle(alone, m).1
  {
    hide ConfirmKey, TxidHex, IsKeyOf, Dispatch, Agree, PendingOf;
    var f, a := Touched(full, m), Touched(alone, m);
    AloneAdmits(full, alone, m, t, mine);
    if m.authority.Some? && m.dispatched {
      PendingIs(m, m.authority.value);
      OwnDispatch(f, a, PendingOf(m, m.authority.value), m, t, mine);
    }
  }

  lemma AloneAdmits(full: State, alone: State, m: Message, t: Option<seq<byte>>, mine: set<string>)
    requires m.txid == t && Agree(full, alone, t, mine)
    ensures !Full(alone, m) && Agree(Touched(full, m), Touched(alone, m), t, mine)
  {
  }

  lemma PendingIs(m: Message, a: Authority)
    ensures var p := PendingOf(m, a);
            && p.txid == TxidHex(m.txid) && p.ca == a.id
            && (p.bound ==> m.info.Some? && p.senderSerial == m.info.value.senderSerial)
  {
  }

  lemma OwnDispatch(f: State, a: State, p: Pending, m: Message, t: Option<seq<byte>>, mine: set<string>)
    requires p.txid == TxidHex(t) && Names(m) <= mine && (p.bound ==> p.senderSerial in mine)
    requires Agree(f, a, t, mine)
    ensures Agree(Dispatch(f, p, m).0, Dispatch(a, p, m).0, t, mine)
    ensures Dispatch(f, p, m).1 == Dispatch(a, p, m).1
  {
    hide ConfirmKey, TxidHex, IsKeyOf, Request, Revoke, Confirm, Agree;
    match m.body {
      case CertRequest(_, _, _, _) => OwnRequest(f, a, p, m, t, mine);
      case Revocation(_, _) => OwnRevoke(f, a, p, m, t, mine);
      case CertConf(_, _) => OwnConfirm(f, a, p, m, t, mine);
      case Other =>
    }
  }

  lemma SameIdentity(f: State, a: State, p: Pending, lookup: bool)
    requires p.bound ==> SameRow(f, a, p.senderSerial)
    ensures Identity(p, f.certs, lookup) == Identity(p, a.certs, lookup)
  {
  }

  lemma OwnRequest(f: State, a: State, p: Pending, m: Message, t: Option<seq<byte>>, mine: set<string>)
    requires m.body.CertRequest? && p.txid == TxidHex(t) && m.body.serial in mine
    requires p.bound ==> p.senderSerial in mine
    requires Agree(f, a, t, mine)
    ensures Agree(Request(f, p, m).0, Request(a, p, m).0, t, mine)
    ensures Request(f, p, m).1 == Request(a, p, m).1
  {
    hide ConfirmKey, TxidHex, Identity, Agree;
    assert SameRow(f, a, m.body.serial) && (p.bound ==> SameRow(f, a, p.senderSerial)) by { AgreeRows(f, a, t, mine); }
    SameIdentity(f, a, p, m.lookup);
    var g := Request(f, p, m).0;
    if m.body.serial in g.certs {
      AgreeIssued(f, a, m.body.serial, g.certs[m.body.serial], m.body.certReqId, t, mine);
    }
  }

  lemma AgreeRows(f: State, a: State, t: Option<seq<byte>>, mine: set<string>)
    requires Agree(f, a, t, mine)
    ensures forall s | s in mine :: SameRow(f, a, s)
  {
  }

  ghost function Issued(s: State, serial: string, c: Cert, key: string): State
  {
    s.(certs := s.certs[serial := c], confirm := s.confirm[key := serial])
  }

  lemma AgreeIssued(f: State, a: State, serial: string, c: Cert, i: int, t: Option<seq<byte>>, mine: set<string>)
    requires Agree(f, a, t, mine) && serial in mine
    ensures var key := ConfirmKey(TxidHex(t), i); Agree(Issued(f, serial, c, key), Issued(a, serial, c, key), t, mine)
  {
    hide ConfirmKey, TxidHex, IsKeyOf;
    var key := ConfirmKey(TxidHex(t), i);
    var g, b := Issued(f, serial, c, key), Issued(a, serial, c, key);
    OwnKey(t, i);
    forall k ensures SameEntry(g, b, ConfirmKey(TxidHex(t), k)) {
      assert SameEntry(f, a, ConfirmKey(TxidHex(t), k));
    }
    forall s | s in mine ensures SameRow(g, b, s) { assert SameRow(f, a, s); }
  }

  lemma OwnKey(t: Option<seq<byte>>, i: int)
    ensures IsKeyOf(ConfirmKey(TxidHex(t), i), t)
  {
  }

  lemma OwnRevoke(f: State, a: State, p: Pending, m: Message, t: Option<seq<byte>>, mine: set<string>)
    requires m.body.Revocation? && (m.body.target.Some? ==> m.body.target.value in mine)
    requires p.bound ==> p.senderSerial in mine
    requires Agree(f, a, t, mine)
    ensures Agree(Revoke(f, p, m).0, Revoke(a, p, m).0, t, mine)
    ensures Revoke(f, p, m).1 == Revoke(a, p, m).1
  {
    hide ConfirmKey, TxidHex, IsKeyOf, Identity, Revoked, ReasonAllowed;
    SameIdentity(f, a, p, m.lookup);
    if m.body.target.Some? { assert SameRow(f, a, m.body.target.value); }
    var g, b := Revoke(f, p, m).0, Revoke(a, p, m).0;
    forall i ensures SameEntry(g, b, ConfirmKey(TxidHex(t), i)) {
      assert SameEntry(f, a, ConfirmKey(TxidHex(t), i));
    }
    forall s | s in mine ensures SameRow(g, b, s) { assert SameRow(f, a, s); }
  }

  lemma OwnConfirm(f: State, a: State, p: Pending, m: Message, t: Option<seq<byte>>, mine: set<string>)
    requires m.body.CertConf? && p.txid == TxidHex(t)
    requires Agree(f, a, t, mine)
    ensures Agree(Confirm(f, p, m).0, Confirm(a, p, m).0, t, mine)
    ensures Confirm(f, p, m).1 == Confirm(a, p, m).1
  {
    hide ConfirmKey, TxidHex, Revoked, IsKeyOf;
    var key := ConfirmKey(p.txid, m.body.certReqId);
    assert SameEntry(f, a, key);
    OwnKey(t, m.body.certReqId);
    if key in f.confirm { assert SameRow(f, a, f.confirm[key]); }
    var g, b := Confirm(f, p, m).0, Confirm(a, p, m).0;
    forall i ensures SameEntry(g, b, ConfirmKey(TxidHex(t), i)) {
      assert SameEntry(f, a, ConfirmKey(TxidHex(t), i));
    }
    forall s | s in mine ensures SameRow(g, b, s) { assert SameRow(f, a, s); }
  }

  lemma OtherStep(full: State, alone: State, m: Message, t: Option<seq<byte>>, mine: set<string>)
    requires TxidHex(t) != "" && Agree(full, alone, t, mine)
    requires m.txid == t ==> Full(full, m)
    requires m.txid != t ==> Names(m) !! mine
    ensures Agree(Handle(full, m).0, alone, t, mine)
  {
    hide TxidHex, Dispatch, Full, Agree, PendingOf;
    TableOnly(full, alone, m, t, mine);
    if !Full(full, m) && m.authority.Some? && m.dispatched {
      PendingIs(m, m.authority.value);
      OtherDispatch(Touched(full, m), alone, PendingOf(m, m.authority.value), m, t, mine);
    }
  }

  lemma TableOnly(full: State, alone: State, m: Message, t: Option<seq<byte>>, mine: set<string>)
    requires Agree(full, alone, t, mine)
    ensures Agree(Touched(full, m), alone, t, mine)
    ensures Agree(full.(txns := Live(full.txns, m.now)), alone, t, mine)
  {
  }

  lemma OtherDispatch(f: State, a: State, p: Pending, m: Message, t: Option<seq<byte>>, mine: set<string>)
    requires TxidHex(t) != "" && m.txid != t && p.txid == TxidHex(m.txid) && Names(m) !! mine
    requires Agree(f, a, t, mine)
    ensures Agree(Dispatch(f, p, m).0, a, t, mine)
  {
    hide TxidHex, Identity, Revoked, ReasonAllowed, Agree;
    match m.body {
      case CertRequest(id, _, _, _) =>
        ForeignKey(m.txid, id, t);
        OtherRequest(f, a, p, m, t, mine);
      case Revocation(_, _) => OtherRevoke(f, a, p, m, t, mine);
      case CertConf(id, _) =>
        ForeignKey(m.txid, id, t);
        OtherConfirm(f, a, p, m, t, mine);
      case Other =>
    }
  }

  // Another transaction's key is none of t's: here the injectivity of the composite key counts.
  lemma ForeignKey(u: Option<seq<byte>>, i: int, t: Option<seq<byte>>)
    requires TxidHex(t) != "" && u != t
    ensures !IsKeyOf(ConfirmKey(TxidHex(u), i), t)
  {
    hide ConfirmKey, TxidHex;
    if j :| ConfirmKey(TxidHex(u), i) == ConfirmKey(TxidHex(t), j) {
      ConfirmKeyInjective(u, i, t, j);
      TxidInjective(u, t);
      assert false;
    }
  }

  lemma OtherRequest(f: State, a: State, p: Pending, m: Message, t: Option<seq<byte>>, mine: set<string>)
    requires m.body.CertRequest? && m.body.serial !in mine && !IsKeyOf(ConfirmKey(p.txid, m.body.certReqId), t)
    requires Agree(f, a, t, mine)
    ensures Agree(Request(f, p, m).0, a, t, mine)
  {
  }

  lemma OtherRevoke(f: State, a: State, p: Pending, m: Message, t: Option<seq<byte>>, mine: set<string>)
    requires m.body.Revocation? && (m.body.target.Some? ==> m.body.target.value !in mine)
    requires Agree(f, a, t, mine)
    ensures Agree(Revoke(f, p, m).0, a, t, mine)
  {
  }

  lemma OtherConfirm(f: State, a: State, p: Pending, m: Message, t: Option<seq<byte>>, mine: set<string>)
    requires m.body.CertConf? && !IsKeyOf(ConfirmKey(p.txid, m.body.certReqId), t)
    requires Agree(f, a, t, mine)
    ensures Agree(Confirm(f, p, m).0, a, t, mine)
  {
  }

  // ---- the transaction table -------------------------------------------------

  lemma {:induction false} TableBounded(s: State, ms: seq<Message>)
    requires |s.txns| <= MAX_TXNS
    ensures |Run(s, ms).txns| <= MAX_TXNS
    decreases |ms|
  {
    hide Handle;
    if ms != [] {
      TableStep(s, ms[0]);
      TableBounded(Handle(s, ms[0]).0, ms[1..]);
    }
  }

  // What one request does to the table: idle entries go, nothing else is ever dropped, and at
  // most the message's own transaction is added or refreshed.
  lemma TableStep(s: State, m: Message)
    requires |s.txns| <= MAX_TXNS
    ensures var n, t := Handle(s, m).0.txns, TxidHex(m.txid);
            && |n| <= MAX_TXNS
            && (forall u | u in s.txns && u !in n :: m.now - s.txns[u] > IDLE)
            && (forall u | u in n && u != t :: u in s.txns && n[u] == s.txns[u])
            && (t in n <==> Handle(s, m).1 != Busy)
            && (t in n ==> n[t] == m.now)
  {
    hide TxidHex, Handle;
    HandledTable(s, m);
    var live, t := Live(s.txns, m.now), TxidHex(m.txid);
    assert live.Keys <= s.txns.Keys;
    CardinalityMonotone(live.Keys, s.txns.Keys);
    assert |live| == |live.Keys| && |s.txns| == |s.txns.Keys|;
    var n := live[t := m.now];
    assert n.Keys == live.Keys + {t};
    assert |n| == |n.Keys|;
  }

  lemma HandledTable(s: State, m: Message)
    ensures Handle(s, m).0.txns == if Full(s, m) then Live(s.txns, m.now) else Touched(s, m).txns
    ensures Handle(s, m).1 == Busy <==> Full(s, m)
  {
    hide TxidHex, Identity, ConfirmKey, Revoked, ReasonAllowed, PendingOf, Confirmed, Full, Live;
  }

  lemma {:induction false} CardinalityMonotone<T>(a: set<T>, b: set<T>)
    requires a <= b
    ensures |a| <= |b|
  {
    if a != {} {
      var x :| x in a;
      CardinalityMonotone(a - {x}, b - {x});
    }
  }

  // At every request, t's last message is at most the idle window back.
  ghost predicate KeepsUp(ms: seq<Message>, t: string, last: int)
  {
    ms == [] ||
    (ms[0].now - last <= IDLE && KeepsUp(ms[1..], t, if TxidHex(ms[0].txid) == t then ms[0].now else last))
  }

  // Such a transaction keeps its context through any other requests and is never refused.
  lemma {:induction false} ActiveKept(s: State, ms: seq<Message>, t: string)
    requires |s.txns| <= MAX_TXNS && t in s.txns && KeepsUp(ms, t, s.txns[t])
    ensures t in Run(s, ms).txns
    ensures forall i | 0 <= i < |ms| && TxidHex(ms[i].txid) == t :: Replies(s, ms)[i] != Busy
    decreases |ms|
  {
    hide Handle, TxidHex;
    if ms != [] {
      var next := Handle(s, ms[0]).0;
      TableStep(s, ms[0]);
      if TxidHex(ms[0].txid) == t { NotBusy(s, ms[0], t); }
      ActiveKept(next, ms[1..], t);
    }
  }

  lemma NotBusy(s: State, m: Message, t: string)
    requires t in s.txns && m.now - s.txns[t] <= IDLE && TxidHex(m.txid) == t
    ensures Handle(s, m).1 != Busy
  {
  }

  // ---- certificate rows ------------------------------------------------------

  // Who may revoke: a non-PBM caller with an identity, on the endpoint's CA, who holds
  // cert:revoke there or owns the certificate.
  ghost predicate MayRevoke(s: State, m: Message, serial: string)
  {
    && m.authority.Some? && m.body.Revocation? && m.body.target == Some(serial)
    && m.info.Some? && !m.info.value.pbm && m.info.value.bound
    && serial in s.certs && s.certs[serial].ca == m.authority.value.id
    && var caller := Identity(PendingOf(m, m.authority.value), s.certs, m.lookup);
       caller != "" && (m.body.holds(caller) || s.certs[serial].owner == caller)
  }

  ghost predicate Issues(s: State, m: Message, serial: string)
  {
    m.body.CertRequest? && m.body.serial == serial && serial !in s.certs
  }

  ghost predicate Confirms(s: State, m: Message, serial: string)
  {
    && m.body.CertConf? && m.update
    && var key := ConfirmKey(TxidHex(m.txid), m.body.certReqId); key in s.confirm && s.confirm[key] == serial
  }

  // A row changes in three ways only: it is issued, an authorized revocation names it, or the
  // certConf it awaits arrives.
  lemma RowChanges(s: State, m: Message, serial: string)
    requires !SameRow(s, Handle(s, m).0, serial)
    ensures Issues(s, m, serial) || MayRevoke(s, m, serial) || Confirms(s, m, serial)
    ensures serial in Handle(s, m).0.certs
    ensures m.body.Revocation? ==> Handle(s, m).1 == Accepted && Handle(s, m).0.certs[serial].status == -1
  {
    hide TxidHex, ConfirmKey, ReasonAllowed, Live, Full;
  }

  // In every run, an accepted revocation was authorized in the state it met and names a row
  // that is revoked by it.
  lemma {:induction false} RevocationsAuthorized(s: State, ms: seq<Message>, i: nat)
    requires i < |ms| && ms[i].body.Revocation? && Replies(s, ms)[i] == Accepted
    ensures var before := Run(s, ms[..i]);
            && ms[i].body.target.Some?
            && MayRevoke(before, ms[i], ms[i].body.target.value)
            && Handle(before, ms[i]).0.certs[ms[i].body.target.value].status == -1
    decreases i
  {
    hide Handle, MayRevoke;
    if i == 0 {
      assert ms[..0] == [];
      AcceptedMayRevoke(s, ms[0]);
    } else {
      RevocationsAuthorized(Handle(s, ms[0]).0, ms[1..], i - 1);
      assert ms[..i][0] == ms[0] && ms[..i][1..] == ms[1..][..i - 1];
    }
  }

  lemma AcceptedMayRevoke(s: State, m: Message)
    requires m.body.Revocation? && Handle(s, m).1 == Accepted
    ensures m.body.target.Some? && MayRevoke(s, m, m.body.target.value)
    ensures var c := Handle(s, m).0.certs; m.body.target.value in c && c[m.body.target.value].status == -1
  {
  }

  // An identity is the PBM reference, or comes from a bound signing certificate the store does
  // not hold as anything but valid: its recorded owner, and the subject only when there is none.
  lemma IdentityTrusted(p: Pending, certs: map<string, Cert>, lookup: bool)
    requires Identity(p, certs, lookup) != ""
    ensures var user := Identity(p, certs, lookup);
            if p.pbm then user == p.senderRef
            else
              && p.bound && (p.senderSerial != "" ==> lookup)
              && (p.senderSerial != "" && p.senderSerial in certs ==> certs[p.senderSerial].status == 0)
              && (user == p.senderCn ||
                  (p.senderSerial in certs && user == certs[p.senderSerial].owner && p.senderSerial != ""))
              && (p.senderSerial != "" && p.senderSerial in certs && certs[p.senderSerial].owner != "" ==>
                    user == certs[p.senderSerial].owner)
  {
  }

  // No message of the run is an accepting certConf that the certificate awaits.
  ghost predicate NeverConfirmed(s: State, ms: seq<Message>, serial: string)
    decreases |ms|
  {
    ms == [] ||
    (!(Confirms(s, ms[0], serial) && !ms[0].body.rejected) && NeverConfirmed(Handle(s, ms[0]).0, ms[1..], serial))
  }

  // A certificate requested without implicit confirmation belongs to the requester on the
  // endpoint's CA, and whatever follows, rejections included, it never becomes valid before its
  // own accepting certConf.
  lemma UnconfirmedNeverValid(s: State, m: Message, ms: seq<Message>)
    requires m.body.CertRequest? && Handle(s, m).1 == Accepted
    requires m.info.None? || !m.info.value.implicitConfirm
    requires NeverConfirmed(Handle(s, m).0, ms, m.body.serial)
    ensures var c, n := m.body.serial, Run(Handle(s, m).0, ms);
            && c in n.certs && n.certs[c].status != 0 && m.authority.Some? && n.certs[c].ca == m.authority.value.id
            && var user := Identity(PendingOf(m, m.authority.value), s.certs, m.lookup);
               n.certs[c].owner == if user == "" then m.body.cn else user
  {
    hide Handle, Run, NeverConfirmed, Identity, PendingOf;
    IssuedRow(s, m);
    StaysInvalid(Handle(s, m).0, ms, m.body.serial);
  }

  lemma IssuedRow(s: State, m: Message)
    requires m.body.CertRequest? && Handle(s, m).1 == Accepted
    requires m.info.None? || !m.info.value.implicitConfirm
    ensures m.authority.Some? && m.body.serial in Handle(s, m).0.certs
    ensures var c := Handle(s, m).0.certs[m.body.serial];
            var user := Identity(PendingOf(m, m.authority.value), s.certs, m.lookup);
            c.status == 2 && c.ca == m.authority.value.id && c.owner == if user == "" then m.body.cn else user
  {
  }

  lemma {:induction false} StaysInvalid(s: State, ms: seq<Message>, serial: string)
    requires serial in s.certs && s.certs[serial].status != 0 && NeverConfirmed(s, ms, serial)
    ensures serial in Run(s, ms).certs && Run(s, ms).certs[serial].status != 0
    ensures Run(s, ms).certs[serial].owner == s.certs[serial].owner && Run(s, ms).certs[serial].ca == s.certs[serial].ca
    decreases |ms|
  {
    hide Handle, Confirms;
    if ms != [] {
      StepInvalid(s, ms[0], serial);
      StaysInvalid(Handle(s, ms[0]).0, ms[1..], serial);
    }
  }

  lemma StepInvalid(s: State, m: Message, serial: string)
    requires serial in s.certs && s.certs[serial].status != 0 && !(Confirms(s, m, serial) && !m.body.rejected)
    ensures var n := Handle(s, m).0;
            && serial in n.certs && n.certs[serial].status != 0
            && n.certs[serial].owner == s.certs[serial].owner && n.certs[serial].ca == s.certs[serial].ca
  {
    hide TxidHex, ConfirmKey, ReasonAllowed, Live, Full, Identity, RecipientRefused;
  }

  // Revocation is not permanent: the certConf a revoked certificate still awaits makes it
  // valid again. That is the only way back, and it always is one.
  lemma RevokedReturnsExactly(s: State, m: Message, serial: string)
    requires serial in s.certs && s.certs[serial].status == -1
    ensures serial in Handle(s, m).0.certs
    ensures Handle(s, m).0.certs[serial].status != -1 <==>
              && Confirms(s, m, serial) && !m.body.rejected
              && !Full(s, m) && m.authority.Some? && m.dispatched
  {
    hide TxidHex, ConfirmKey, ReasonAllowed, Live, Full, Identity;
  }

  ghost function Enrols(txid: seq<byte>, user: string, ca: string, serial: string): Message
  {
    Message(Some(txid), 0, Some(Authority(ca, "ra", ca)), Some(Info(user, user, true, false, "", None, false, "ra")),
            true, true, true, CertRequest(0, serial, user, u => true))
  }

  ghost function RevokesOwn(txid: seq<byte>, user: string, ca: string, serial: string, reason: int): Message
  {
    Message(Some(txid), 0, Some(Authority(ca, "ra", ca)),
            Some(Info(user, user, false, true, "", Some(reason), false, "ra")), true, true, true,
            Revocation(Some(serial), u => false))
  }

  ghost function Confirming(txid: seq<byte>, ca: string): Message
  {
    Message(Some(txid), 0, Some(Authority(ca, "ra", ca)), None, true, true, true, CertConf(0, false))
  }

  lemma Enrolled(s: State, txid: seq<byte>, user: string, ca: string, serial: string)
    requires |s.txns| < MAX_TXNS && serial !in s.certs && user != ""
    ensures var n := Handle(s, Enrols(txid, user, ca, serial)).0;
            && n.certs == s.certs[serial := Cert(2, 0, user, ca)] && |n.txns| <= |s.txns| + 1
            && n.confirm == s.confirm[ConfirmKey(TxidHex(Some(txid)), 0) := serial]
  {
    hide TxidHex, ConfirmKey, Live, Full;
    NotFull(s, Enrols(txid, user, ca, serial));
  }

  lemma RevokedOwn(s: State, txid: seq<byte>, user: string, ca: string, serial: string, reason: int)
    requires |s.txns| < MAX_TXNS && user != "" && ReasonAllowed(reason)
    requires serial in s.certs && s.certs[serial] == Cert(2, 0, user, ca)
    ensures var n := Handle(s, RevokesOwn(txid, user, ca, serial, reason)).0;
            && n.certs == s.certs[serial := Cert(-1, reason, user, ca)] && |n.txns| <= |s.txns| + 1
            && n.confirm == s.confirm
  {
    hide TxidHex, Live, Full, ReasonAllowed;
    NotFull(s, RevokesOwn(txid, user, ca, serial, reason));
  }

  lemma ConfirmedLate(s: State, txid: seq<byte>, ca: string, serial: string)
    requires |s.txns| < MAX_TXNS && serial in s.certs
    requires var key := ConfirmKey(TxidHex(Some(txid)), 0); key in s.confirm && s.confirm[key] == serial
    ensures var n := Handle(s, Confirming(txid, ca)).0;
            n.certs == s.certs[serial := s.certs[serial].(status := 0)]
  {
    hide TxidHex, ConfirmKey, Live, Full;
    NotFull(s, Confirming(txid, ca));
  }

  lemma RunOfThree(s: State, a: Message, b: Message, c: Message)
    ensures var n := Handle(Handle(s, a).0, b).0; Run(s, [a, b]) == n && Run(s, [a, b] + [c]) == Handle(n, c).0
  {
    hide Handle;
    var n := Handle(s, a).0;
    assert [a, b] + [c] == [a, b, c] && [a, b, c][1..] == [b, c] && [b, c][1..] == [c] && [c][1..] == [];
    assert [a, b][1..] == [b] && [b][1..] == [];
    assert Run(n, [b]) == Handle(n, b).0;
    assert Run(Handle(n, b).0, [c]) == Handle(Handle(n, b).0, c).0;
    assert Run(n, [b, c]) == Run(Handle(n, b).0, [c]);
  }

  // It happens in a run from the empty server: a user enrols and asks to confirm, revokes the
  // certificate under another transaction for any reason, and then confirms.
  lemma RevokedCanReturn(id: seq<byte>, other: seq<byte>, user: string, ca: string, serial: string, reason: int)
    requires user != "" && ReasonAllowed(reason)
    ensures var s := State(map[], map[], map[]);
            var ms := [Enrols(id, user, ca, serial), RevokesOwn(other, user, ca, serial, reason)];
            && Run(s, ms).certs == map[serial := Cert(-1, reason, user, ca)]
            && Run(s, ms + [Confirming(id, ca)]).certs == map[serial := Cert(0, reason, user, ca)]
  {
    hide TxidHex, ConfirmKey, Handle, Run, ReasonAllowed, Enrols, RevokesOwn, Confirming;
    var s := State(map[], map[], map[]);
    var a, b, c := Enrols(id, user, ca, serial), RevokesOwn(other, user, ca, serial, reason), Confirming(id, ca);
    Enrolled(s, id, user, ca, serial);
    var s1 := Handle(s, a).0;
    RevokedOwn(s1, other, user, ca, serial, reason);
    ConfirmedLate(Handle(s1, b).0, id, ca, serial);
    RunOfThree(s, a, b, c);
  }

  // Few transactions never fill the table.
  lemma NotFull(s: State, m: Message)
    requires |s.txns| < MAX_TXNS
    ensures !Full(s, m) && |Touched(s, m).txns| <= |s.txns| + 1
  {
    var live := Live(s.txns, m.now);
    assert live.Keys <= s.txns.Keys;
    CardinalityMonotone(live.Keys, s.txns.Keys);
    assert |live.Keys| == |live| && |s.txns.Keys| == |s.txns|;
    var n := live[TxidHex(m.txid) := m.now];
    assert n.Keys == live.Keys + {TxidHex(m.txid)};
    assert |n.Keys| == |n|;
  }

  // Every entry of the confirm map was put there by the request it is keyed by, for the
  // certificate that request issued.
  ghost predicate EntryFrom(s: State, ms: seq<Message>, key: string, serial: string)
  {
    exists i :: 0 <= i < |ms| && Wrote(Run(s, ms[..i]), ms[i], key, serial)
  }

  ghost predicate Wrote(s: State, m: Message, key: string, serial: string)
  {
    && m.body.CertRequest? && Handle(s, m).1 == Accepted
    && key == ConfirmKey(TxidHex(m.txid), m.body.certReqId) && serial == m.body.serial
  }

  lemma {:induction false} ConfirmProvenance(s: State, ms: seq<Message>, key: string)
    requires s.confirm == map[] && key in Run(s, ms).confirm
    ensures EntryFrom(s, ms, key, Run(s, ms).confirm[key])
    decreases |ms|
  {
    hide Handle;
    if ms != [] {
      var n := |ms| - 1;
      var before := Run(s, ms[..n]);
      RunLast(s, ms);
      var serial := Run(s, ms).confirm[key];
      EntryWritten(before, ms[n], key);
      if !Wrote(before, ms[n], key, serial) {
        ConfirmProvenance(s, ms[..n], key);
        var i :| 0 <= i < n && Wrote(Run(s, ms[..n][..i]), ms[..n][i], key, serial);
        assert ms[..n][..i] == ms[..i];
      }
    }
  }

  lemma {:induction false} RunLast(s: State, ms: seq<Message>)
    requires ms != []
    ensures Run(s, ms) == Handle(Run(s, ms[..|ms| - 1]), ms[|ms| - 1]).0
    decreases |ms|
  {
    hide Handle;
    if |ms| > 1 {
      RunLast(Handle(s, ms[0]).0, ms[1..]);
      assert ms[..|ms| - 1][1..] == ms[1..][..|ms| - 2];
    }
  }

  lemma EntryWritten(s: State, m: Message, key: string)
    requires key in Handle(s, m).0.confirm
    ensures var serial := Handle(s, m).0.confirm[key];
            Wrote(s, m, key, serial) || (key in s.confirm && s.confirm[key] == serial)
  {
    hide TxidHex, ConfirmKey, ReasonAllowed, Live, Full, Identity, Revoked, Confirmed;
  }
}
