/** The ACME server object. Its handlers and the two halves of the verifier update the stored
    rows in place; each is proved to do what the corresponding function of `Acme` says. The ghost
    fields keep the history those functions record. Where a handler looks a row up, its ghost
    result is the request with that answer filled in, the event of `Acme` that took place. */
module AcmeServer {
  import opened Text
  import opened Certs
  import opened Names
  import opened Acme

  class Server {
    var nonces: set<string>
    var accounts: map<nat, Account>
    var orders: map<nat, Order>
    var authzs: map<nat, Authz>
    var challs: map<nat, Challenge>
    var tickets: map<Name, Ticket>
    var registered: map<(Name, string), string>
    var certs: map<string, Cert>
    var waiting: set<nat>
    var running: map<nat, Snapshot>
    ghost var spent: set<string>
    ghost var proofs: set<Proof>
    ghost var attested: set<Attestation>
    ghost var issued: set<Issue>
    // acme_new_authz: proven authorizations are reused.
    const reuses: bool

    ghost function View(): State
      reads this
    {
      State(nonces, accounts, orders, authzs, challs, tickets, registered, certs, waiting, running,
            spent, proofs, attested, issued)
    }

    constructor (stored: map<string, Cert>, reuses: bool)
      ensures Fresh(View()) && certs == stored && this.reuses == reuses
    {
      this.reuses := reuses;
      nonces, accounts, orders, authzs, challs := {}, map[], map[], map[], map[];
      tickets, registered, certs, waiting, running := map[], map[], stored, {}, map[];
      spent, proofs, attested, issued := {}, {}, {}, {};
    }

    // consume_nonce.
    method ConsumeNonce(nonce: string) returns (ok: bool)
      modifies `nonces, `spent
      ensures ok <==> nonce in old(nonces)
      ensures View() == if ok then Consumed(old(View()), nonce) else old(View())
    {
      ok := nonce in nonces;
      if ok { nonces, spent := nonces - {nonce}, spent + {nonce}; }
    }

    // get_account_by_jwk_hash, except for one account.
    method FindByKey(key: string, except: Option<nat>) returns (found: Option<nat>)
      ensures found.Some? ==> found.value in accounts && Some(found.value) != except && accounts[found.value].key == key
      ensures found.None? ==> forall a | a in accounts && Some(a) != except :: accounts[a].key != key
    {
      var ids := accounts.Keys;
      while ids != {}
        invariant ids <= accounts.Keys
        invariant forall a | a in accounts && a !in ids && Some(a) != except :: accounts[a].key != key
        decreases |ids|
      {
        var a :| a in ids;
        if Some(a) != except && accounts[a].key == key { return Some(a); }
        ids := ids - {a};
      }
      found := None;
    }

    // device_tickets_outstanding.
    method AnyOutstanding(now: int) returns (any: bool)
      ensures any <==> TicketOutstanding(View(), now)
    {
      var names := tickets.Keys;
      while names != {}
        invariant names <= tickets.Keys
        invariant forall t | t in tickets && t !in names :: !(tickets[t].order.None? && tickets[t].expires > now)
        decreases |names|
      {
        var t :| t in names;
        if tickets[t].order.None? && tickets[t].expires > now { return true; }
        names := names - {t};
      }
      any := false;
    }

    // handle_new_account.
    method HandleNewAccount(signer: string, b: Body)
      requires b.NewAccount?
      modifies `accounts
      ensures View() == CreateAccount(old(View()), signer, b)
    {
      var existing := FindByKey(signer, None);
      if b.onlyExisting && existing.None? { return; }
      if existing.Some? { return; }
      var kid := "";
      if b.eab.BadEab? { return; }
      if b.eab.Bound? {
        kid := b.eab.kid;
      } else {
        var any := AnyOutstanding(b.now);
        if !any && registered == map[] { return; }
      }
      accounts := accounts[b.id := Account(false, signer, kid)];
    }

    // handle_key_change.
    method HandleKeyChange(account: nat, b: Body)
      requires b.KeyChange? && account in accounts
      modifies `accounts
      ensures View() == ChangeKey(old(View()), account, b)
    {
      if !b.inner { return; }
      var other := FindByKey(b.key, Some(account));
      assert other.None? ==> !KeyInUse(accounts - {account}, b.key);
      assert other.Some? ==> other.value in accounts - {account};
      if other.Some? { return; }
      accounts := accounts[account := accounts[account].(key := b.key)];
    }

    // handle_account.
    method HandleAccount(account: nat, b: Body)
      requires b.UpdateAccount? && account in accounts
      modifies `accounts
      ensures View() == DeactivateAccount(old(View()), account, b)
    {
      if account != b.target { return; }
      if b.deactivate { accounts := accounts[account := accounts[account].(deactivated := true)]; }
    }

    // make_authz.
    method NewAuthorization(order: Option<nat>, account: nat, ident: Ident, d: Draw)
      modifies `authzs, `challs
      ensures View() == MakeAuthz(old(View()), order, account, ident, d)
    {
      hide IsWild, Base;
      var wildcard := IsWild(ident.value);
      authzs := authzs[d.authz := Authz(Open, BareIdent(ident), wildcard, order, account, d.expires)];
      if ident.kind == Device {
        AddChallenge(d.attest, DeviceAttest01, d.authz);
        return;
      }
      if !wildcard {
        AddChallenge(d.http, Http01, d.authz);
        AddChallenge(d.tls, TlsAlpn01, d.authz);
      }
      AddChallenge(d.dns, Dns01, d.authz);
    }

    method AddChallenge(id: nat, typ: ChallengeType, authz: nat)
      modifies `challs
      ensures challs == old(challs)[id := Challenge(typ, Untried, authz)]
    {
      challs := challs[id := Challenge(typ, Untried, authz)];
    }

    // find_valid_authz.
    method FindValidAuthz(account: nat, ident: Ident, now: int) returns (reuse: Option<nat>)
      ensures reuse.Some? ==> reuse.value in authzs && Reusable(authzs[reuse.value], account, ident, now)
      ensures reuse.None? ==> forall a | a in authzs :: !Reusable(authzs[a], account, ident, now)
    {
      var ids := authzs.Keys;
      while ids != {}
        invariant ids <= authzs.Keys
        invariant forall a | a in authzs && a !in ids :: !Reusable(authzs[a], account, ident, now)
        decreases |ids|
      {
        var a :| a in ids;
        if authzs[a].account == account && authzs[a].ident == ident && authzs[a].status == Proven &&
           authzs[a].expires > now { return Some(a); }
        ids := ids - {a};
      }
      reuse := None;
    }

    // get_device_ticket_by_order.
    method TicketByOrder(order: nat) returns (held: Option<Name>)
      ensures TicketFound(View(), order, held)
    {
      var names := tickets.Keys;
      while names != {}
        invariant names <= tickets.Keys
        invariant forall t | t in tickets && t !in names :: tickets[t].order != Some(order)
        decreases |names|
      {
        var t :| t in names;
        if tickets[t].order == Some(order) { return Some(t); }
        names := names - {t};
      }
      held := None;
    }

    // handle_new_order.
    method HandleNewOrder(account: nat, b: Body) returns (ghost done: Body)
      requires b.NewOrder? && account in accounts
      modifies `orders, `authzs, `challs, `tickets
      ensures Answered(b, done) && View() == PlaceOrder(old(View()), account, done)
      ensures NewIds(old(View()), b) ==> LegalBody(old(View()), Kid(account), done)
    {
      hide DeviceOrder, PlaceDnsOrder, ValidDnsName, NewIds, LegalBody;
      done := Unasked(View(), b);
      UnaskedLegal(View(), Kid(account), b);
      if |b.draws| != |b.idents| { return; }
      var device := NamesDevice(b.idents);
      if device {
        HandleDeviceOrder(account, b);
        SameDeviceOrder(old(View()), account, b, done);
        return;
      }
      var kid := accounts[account].kid;
      if kid == "" { return; }
      if !b.may(kid) { return; }
      if b.idents == [] { return; }
      for i := 0 to |b.idents|
        invariant forall x | x in b.idents[..i] :: x.kind == DnsName && ValidDnsName(x.value)
        invariant View() == old(View())
      {
        assert b.idents[i] in b.idents;
        if b.idents[i].kind != DnsName { return; }
        var valid := DnsNameOk(b.idents[i].value);
        if !valid { return; }
      }
      assert b.idents[..|b.idents|] == b.idents;
      done := PlaceDns(account, b);
    }

    method NamesDevice(idents: seq<Ident>) returns (device: bool)
      ensures device <==> IsDeviceOrder(idents)
    {
      for i := 0 to |idents|
        invariant forall x | x in idents[..i] :: x.kind != Device
      {
        if idents[i].kind == Device { return true; }
      }
      assert idents[..|idents|] == idents;
      device := false;
    }

    method PlaceDns(account: nat, b: Body) returns (ghost done: Body)
      requires b.NewOrder? && |b.draws| == |b.idents|
      modifies `orders, `authzs, `challs
      ensures Answered(b, done) && View() == PlaceDnsOrder(old(View()), account, done)
      ensures NewIds(old(View()), b) ==> LegalBody(old(View()), Kid(account), done)
    {
      hide PlaceAuthzs, NewIds, LegalBody, LegalDraws, NewDraws, AllReused;
      var o := Order(Pending, b.idents, account, b.ca, "");
      orders := orders[b.id := o];
      ghost var start := View();
      ghost var ds;
      var allValid;
      allValid, ds := PlaceEach(b.id, account, b.idents, b.draws);
      if allValid { Promote(b.id, o); }
      done := b.(draws := ds);
      if NewIds(old(View()), b) { PlacedLegal(old(View()), start, account, b, ds); }
    }

    method PlaceEach(order: nat, account: nat, idents: seq<Ident>, draws: seq<Draw>)
      returns (allValid: bool, ghost ds: seq<Draw>)
      requires |draws| == |idents|
      modifies `authzs, `challs
      ensures SameDraws(draws, ds) && View() == PlaceAuthzs(old(View()), order, account, idents, ds)
      ensures allValid <==> AllReused(ds)
      ensures NewDraws(old(View()), draws) ==> LegalDraws(old(View()), order, account, idents, ds)
    {
      hide PlaceAuthz, NewDraws, LegalDraws, SameDraws, AllReused, PlaceAuthzs, ReuseFound;
      allValid, ds := true, [];
      NonePlaced(View(), order, account, idents, draws);
      for i := 0 to |idents|
        invariant |ds| == i && SameDraws(draws[..i], ds)
        invariant View() == PlaceAuthzs(old(View()), order, account, idents[..i], ds)
        invariant allValid <==> AllReused(ds)
        invariant NewDraws(old(View()), draws) ==> LegalDraws(old(View()), order, account, idents[..i], ds)
      {
        var reuse := PlaceOne(order, account, idents[i], draws[i]);
        ghost var d := draws[i].(reuse := reuse);
        OnePlaced(old(View()), order, account, idents, draws, ds, d);
        ds := ds + [d];
        if reuse.None? { allValid := false; }
      }
      assert idents[..|idents|] == idents && draws[..|draws|] == draws;
    }

    method PlaceOne(order: nat, account: nat, ident: Ident, d: Draw) returns (reuse: Option<nat>)
      modifies `authzs, `challs
      ensures View() == PlaceAuthz(old(View()), order, account, ident, d.(reuse := reuse))
      ensures ReuseFound(old(View()), account, ident, d.(reuse := reuse))
      ensures reuse.None? && reuses ==> forall a | a in old(authzs) :: !Reusable(old(authzs)[a], account, ident, d.now)
    {
      hide MakeAuthz;
      reuse := None;
      if reuses { reuse := FindValidAuthz(account, ident, d.now); }
      if reuse.Some? {
        var a := authzs[reuse.value];
        authzs := authzs[d.authz := a.(status := Proven, order := Some(order), account := account)];
      } else {
        SameMade(View(), Some(order), account, ident, d, reuse);
        NewAuthorization(Some(order), account, ident, d);
      }
    }

    method Promote(order: nat, o: Order)
      modifies `orders
      ensures View() == MakeReady(old(View()), order, o)
    {
      orders := orders[order := o.(status := Ready)];
    }

    // handle_device_order.
    method HandleDeviceOrder(account: nat, b: Body)
      requires b.NewOrder? && |b.draws| == |b.idents|
      modifies `orders, `authzs, `challs, `tickets
      ensures View() == DeviceOrder(old(View()), account, b)
    {
      hide MakeAuthz;
      if |b.idents| != 1 { return; }
      var v := b.idents[0].value;
      if v in tickets && tickets[v].ca == b.ca && tickets[v].expires > b.now && tickets[v].order.None? {
        if !b.may(tickets[v].owner) { return; }
        tickets := tickets[v := tickets[v].(order := Some(b.id))];
      } else if (v, b.ca) in registered {
        var owner := registered[(v, b.ca)];
        if !b.may(owner) { return; }
        tickets := tickets[b.ticket := SerialTicket(b, owner)];
      } else {
        return;
      }
      orders := orders[b.id := Order(Pending, b.idents, account, b.ca, "")];
      NewAuthorization(Some(b.id), account, b.idents[0], b.draws[0]);
    }

    // handle_new_authz.
    method HandleNewAuthz(account: nat, b: Body)
      requires b.NewAuthz?
      modifies `authzs, `challs
      ensures View() == PreAuthorize(old(View()), account, b)
    {
      hide MakeAuthz;
      if b.ident.kind != DnsName || b.ident.value == [] { return; }
      NewAuthorization(None, account, b.ident, b.draw);
    }

    // handle_authz_post.
    method HandleAuthz(account: nat, b: Body)
      requires b.UpdateAuthz?
      modifies `authzs
      ensures View() == DeactivateAuthz(old(View()), account, b)
    {
      if b.target !in authzs { return; }
      if authzs[b.target].account != account { return; }
      if b.deactivate { authzs := authzs[b.target := authzs[b.target].(status := Deactivated)]; }
    }

    // The loop over authz_for_order that decides whether an order is ready.
    method EveryProven(order: nat) returns (all: bool)
      ensures all <==> AllProven(authzs, order)
    {
      var ids := authzs.Keys;
      while ids != {}
        invariant ids <= authzs.Keys
        invariant forall a | a in authzs && a !in ids && authzs[a].order == Some(order) :: authzs[a].status == Proven
        decreases |ids|
      {
        var a :| a in ids;
        if authzs[a].order == Some(order) && authzs[a].status != Proven { return false; }
        ids := ids - {a};
      }
      all := true;
    }

    // handle_chall_post.
    method HandleChallenge(account: nat, b: Body) returns (ghost done: Body)
      requires b.PostChallenge?
      modifies `orders, `authzs, `challs, `tickets, `waiting, `attested
      ensures Answered(b, done) && View() == Trigger(old(View()), account, done)
      ensures LegalBody(old(View()), Kid(account), done)
    {
      hide Attest, LegalBody, Unasked, Answered, OwnsChallenge;
      done := Unasked(View(), b);
      UnaskedLegal(View(), Kid(account), b);
      assert done.PostChallenge? && done.target == b.target by { UnaskedChallenge(View(), b); }
      var owns := Owns(account, b.target);
      if !owns { return; }
      OwnedRows(View(), account, b.target);
      var c := challs[b.target];
      if c.typ == DeviceAttest01 {
        done := HandleDeviceAttest(account, b);
        assert done.target == b.target by { SameTarget(b, done); }
        return;
      }
      if c.status == Untried {
        challs := challs[b.target := c.(status := Processing)];
        waiting := waiting + {b.target};
      }
    }

    method Owns(account: nat, chall: nat) returns (owns: bool)
      ensures owns <==> OwnsChallenge(View(), account, chall)
    {
      if chall !in challs { return false; }
      if challs[chall].authz !in authzs { return false; }
      var a := authzs[challs[chall].authz];
      if a.order.Some? { return a.order.value in orders && orders[a.order.value].account == account; }
      owns := a.account == account;
    }

    // handle_device_attest.
    method HandleDeviceAttest(account: nat, b: Body) returns (ghost done: Body)
      requires b.PostChallenge? && b.target in challs && challs[b.target].authz in authzs
      modifies `orders, `authzs, `challs, `tickets, `attested
      ensures Answered(b, done) && done.target in old(challs) && old(challs)[done.target].authz in old(authzs)
      ensures View() == Attest(old(View()), done)
      ensures LegalBody(old(View()), Kid(account), done)
    {
      hide AcceptAttestation, TicketFound, LegalBody, Unasked;
      done := Unasked(View(), b);
      UnaskedLegal(View(), Kid(account), b);
      var c := challs[b.target];
      var a := authzs[c.authz];
      if c.status != Untried { return; }
      if a.order.None? || a.order.value !in orders { return; }
      if b.verdict.NoAttestation? { return; }
      var held := TicketByOrder(a.order.value);
      done := b.(held := held);
      FoundLegal(View(), account, done);
      if held.None? { return; }
      TicketThere(View(), a.order.value, held);
      var t := tickets[held.value];
      if b.verdict.BadAttestation? || (t.expected != [] && b.verdict.serial != t.expected) {
        challs := challs[b.target := c.(status := Failed)];
        return;
      }
      RecordAttestation(b.(held := held), c, a, t);
    }

    method RecordAttestation(b: Body, c: Challenge, a: Authz, t: Ticket)
      requires b.PostChallenge? && b.verdict.Attested? && b.held.Some? && a.order.Some? && a.order.value in orders
      modifies `orders, `authzs, `challs, `tickets, `attested
      ensures View() == AcceptAttestation(old(View()), b, c, a, t)
    {
      hide AllProven, MakeReady;
      var order := a.order.value;
      tickets := tickets[b.held.value := t.(serial := b.verdict.serial, spki := b.verdict.spki)];
      attested := attested + {Attestation(order, b.held.value, b.verdict.serial, b.verdict.spki)};
      challs := challs[b.target := c.(status := Passed)];
      authzs := authzs[c.authz := a.(status := Proven)];
      var all := EveryProven(order);
      if all { Promote(order, orders[order]); }
    }

    // verifier::run, until it goes to the network.
    method VerifierStart(chall: nat, job: nat)
      modifies `waiting, `running
      ensures View() == StartVerifier(old(View()), chall, job)
    {
      if chall !in waiting { return; }
      waiting := waiting - {chall};
      if chall !in challs { return; }
      var c := challs[chall];
      if c.authz !in authzs { return; }
      var a := authzs[c.authz];
      var o := None;
      if a.order.Some? && a.order.value in orders { o := Some(orders[a.order.value]); }
      var account := a.account;
      if o.Some? { account := o.value.account; }
      if account !in accounts { return; }
      running := running[job := Snapshot(chall, c, c.authz, a, o, account)];
    }

    // verifier::run, from the network's answer on.
    method VerifierFinish(job: nat, ok: bool)
      modifies `running, `challs, `authzs, `orders, `proofs
      ensures View() == FinishVerifier(old(View()), job, ok)
    {
      hide WriteBack;
      if job !in running { return; }
      var sn := running[job];
      running := running - {job};
      if sn.a.wildcard && sn.c.typ != Dns01 {
        challs := challs[sn.chall := sn.c.(status := Failed)];
        return;
      }
      if sn.c.typ == DeviceAttest01 || !ok {
        challs := challs[sn.chall := sn.c.(status := Failed)];
        return;
      }
      SaveProven(sn);
    }

    method SaveProven(sn: Snapshot)
      modifies `challs, `authzs, `orders, `proofs
      ensures View() == WriteBack(old(View()), sn)
    {
      hide AllProven, OnlyPassed, MakeReady;
      challs := challs[sn.chall := sn.c.(status := Passed)];
      DropSiblings(sn.authz, sn.chall);
      authzs := authzs[sn.authz := sn.a.(status := Proven)];
      proofs := proofs + {Proof(sn.account, sn.a.ident.value, sn.c.typ)};
      if sn.order.Some? && sn.a.order.Some? {
        var all := EveryProven(sn.a.order.value);
        if all { Promote(sn.a.order.value, sn.order.value); }
      }
    }

    method DropSiblings(authz: nat, chall: nat)
      modifies `challs
      ensures challs == OnlyPassed(old(challs), authz, chall)
    {
      var ids := challs.Keys;
      while ids != {}
        invariant ids <= old(challs).Keys
        invariant forall c :: c in challs <==>
                    c in old(challs) && (c in ids || c == chall || old(challs)[c].authz != authz)
        invariant forall c | c in challs :: challs[c] == old(challs)[c]
        decreases |ids|
      {
        var c :| c in ids;
        if c != chall && challs[c].authz == authz { challs := challs - {c}; }
        ids := ids - {c};
      }
    }

    // handle_finalize.
    method HandleFinalize(account: nat, b: Body) returns (ghost done: Body)
      requires b.Finalize? && account in accounts
      modifies `orders, `tickets, `certs, `issued
      ensures Answered(b, done) && View() == FinalizeOrder(old(View()), account, done)
      ensures NewIds(old(View()), b) ==> LegalBody(old(View()), Kid(account), done)
    {
      hide FinalizeOrder, FinalizeDevice, FinalizeDns, TicketFound, LegalBody, Unasked, NewIds, Answered, IsDeviceOrder;
      done := Unasked(View(), b);
      UnaskedLegal(View(), Kid(account), b);
      UnaskedFinal(View(), account, b);
      if b.target !in orders { return; }
      var device := NamesDevice(orders[b.target].idents);
      if device {
        var held := TicketByOrder(b.target);
        done := b.(backing := held);
        FoundFinal(View(), account, b, held);
        IssueToDevice(account, b.(backing := held));
      } else {
        IssueToNames(account, b);
      }
    }

    // The checks that do not depend on the kind of order.
    method Gate(account: nat, b: Body, user: string) returns (pass: bool)
      requires b.Finalize? && b.target in orders
      ensures pass <==> MayFinalize(View(), account, b, user)
    {
      var o := orders[b.target];
      if o.account != account { return false; }
      if o.ca != "" && o.ca != b.ca { return false; }
      if !b.may(user) { return false; }
      if o.status != Ready { return false; }
      if b.csr.None? { return false; }
      if b.ca == "" { return false; }
      if !b.issues { return false; }
      pass := b.cert !in certs;
    }

    method IssueToDevice(account: nat, b: Body)
      requires b.Finalize? && b.target in orders && IsDeviceOrder(orders[b.target].idents)
      modifies `orders, `tickets, `certs, `issued
      ensures View() == FinalizeDevice(old(View()), account, b)
    {
      hide MayFinalize, EarlierCerts, RevokeAll, IsDeviceOrder;
      if b.backing.None? || b.backing.value !in tickets { return; }
      var t := tickets[b.backing.value];
      var pass := Gate(account, b, t.owner);
      if !pass { return; }
      assert b.csr.Some? by { GateMeansCsr(View(), account, b, t.owner); }
      if t.spki == "" || b.csr.value.spki != t.spki { return; }
      var o := orders[b.target];
      ghost var before := tickets;
      certs := certs[b.cert := Cert(0, 0, t.owner, b.ca)];
      tickets := tickets[b.backing.value := t.(cert := b.cert)];
      var olds := DeviceCerts(t.serial, b.backing.value);
      SameEarlier(before, t.serial, b.backing.value, t.(cert := b.cert));
      Supersede(olds);
      Complete(account, b, o, t.owner);
    }

    // device_cert_serials.
    method DeviceCerts(serial: Name, except: Name) returns (olds: set<string>)
      ensures olds == EarlierCerts(tickets, serial, except)
    {
      olds := set t | t in tickets && t != except && tickets[t].serial == serial && tickets[t].cert != "" ::
                tickets[t].cert;
    }

    // The loop that revokes every earlier certificate of the device as superseded.
    method Supersede(olds: set<string>)
      modifies `certs
      ensures certs == RevokeAll(old(certs), olds, SUPERSEDED)
    {
      var left := olds;
      while left != {}
        invariant left <= olds
        invariant certs == RevokeAll(old(certs), olds - left, SUPERSEDED)
        decreases |left|
      {
        var c :| c in left;
        OneMore(old(certs), olds - left, c, SUPERSEDED);
        certs := RevokeRow(certs, c, SUPERSEDED);
        assert olds - (left - {c}) == (olds - left) + {c};
        left := left - {c};
      }
      assert olds - left == olds;
    }

    method IssueToNames(account: nat, b: Body)
      requires b.Finalize? && b.target in orders && account in accounts && !IsDeviceOrder(orders[b.target].idents)
      modifies `orders, `certs, `issued
      ensures View() == FinalizeDns(old(View()), account, b)
    {
      hide MayFinalize, SansOf, IsDeviceOrder, OwnerName;
      var o, kid := orders[b.target], accounts[account].kid;
      var pass := Gate(account, b, kid);
      if !pass { return; }
      assert b.csr.Some? by { GateMeansCsr(View(), account, b, kid); }
      if b.csr.value.sans != SansOf(o.idents) { return; }
      if b.csr.value.cn.Some? && !(exists i | i in o.idents :: i.value == b.csr.value.cn.value) { return; }
      for i := 0 to |o.idents|
        invariant forall x | x in o.idents[..i] :: b.caa(x.value)
        invariant View() == old(View())
      {
        assert o.idents[i] in o.idents;
        if !b.caa(o.idents[i].value) { return; }
      }
      assert o.idents[..|o.idents|] == o.idents;
      certs := certs[b.cert := Cert(0, 0, OwnerName(account, kid), b.ca)];
      Complete(account, b, o, OwnerName(account, kid));
    }

    method Complete(account: nat, b: Body, o: Order, owner: string)
      requires b.Finalize? && b.csr.Some?
      modifies `orders, `issued
      ensures View() == Serve(old(View()), b, o, account, owner, certs)
    {
      orders := orders[b.target := o.(status := Valid, cert := b.cert)];
      issued := issued + {Issue(b.target, account, b.ca, b.cert, b.csr.value.sans, b.csr.value.spki, owner,
                                if IsDeviceOrder(o.idents) then b.backing else None)};
    }

    // handle_revoke_cert.
    method HandleRevokeCert(signer: string, form: Form, b: Body)
      requires b.RevokeCert?
      modifies `certs
      ensures View() == RevokeByHolder(old(View()), signer, form, b)
    {
      hide RevokeRow, OwnerName;
      if b.cert !in certs { return; }
      var row := certs[b.cert];
      if !ReasonAllowed(b.reason) { return; }
      var held := row.status == -1 && row.reason == HOLD;
      if row.status != 0 && !(held && b.reason != HOLD) { return; }
      var authorized := false;
      if form.Kid? && form.account in accounts {
        var owner := OwnerName(form.account, accounts[form.account].kid);
        if row.owner != "" && row.owner == owner { authorized := true; }
      }
      if !authorized && form.Jwk? { authorized := b.keyMatches; }
      if !authorized { return; }
      certs := RevokeRow(certs, b.cert, b.reason);
    }

    // One POST: nonce, signature, handler, fresh nonce.
    method HandlePost(e: Event) returns (ghost done: Event)
      requires e.Post?
      modifies this
      ensures done.Post? && done == e.(body := done.body) && Answered(e.body, done.body)
      ensures View() == Answer(old(View()), done)
      ensures NewIds(Consumed(old(View()), e.nonce), e.body) ==>
                LegalBody(Consumed(old(View()), e.nonce), e.form, done.body)
    {
      hide Handled, NewIds, LegalBody, Answered, Unasked;
      UnaskedLegal(Consumed(View(), e.nonce), e.form, e.body);
      done := e.(body := Unasked(Consumed(View(), e.nonce), e.body));
      var known := ConsumeNonce(e.nonce);
      if known {
        ghost var body := Handle(e.signer, e.form, e.body);
        done := e.(body := body);
      }
      nonces := nonces + {e.reply};
    }

    method Handle(signer: string, form: Form, b: Body) returns (ghost done: Body)
      modifies `accounts, `orders, `authzs, `challs, `tickets, `certs, `waiting, `attested, `issued
      ensures Answered(b, done) && View() == Handled(old(View()), signer, form, done)
      ensures NewIds(old(View()), b) ==> LegalBody(old(View()), form, done)
    {
      hide RevokeByHolder, CreateAccount, PlaceOrder, PreAuthorize, DeactivateAccount, ChangeKey, DeactivateAuthz,
           Trigger, FinalizeOrder, KeyInUse, NewIds, LegalBody, Unasked, SameDraws;
      done := Unasked(View(), b);
      UnaskedLegal(View(), form, b);
      if form.Kid? {
        if form.account !in accounts { return; }
        if accounts[form.account].key != signer { return; }
        if accounts[form.account].deactivated { return; }
      }
      match b {
        case RevokeCert(_, _, _) => HandleRevokeCert(signer, form, b);
        case NewAccount(_, _, _, _) => if form.Jwk? { HandleNewAccount(signer, b); }
        case NewOrder(_, _, _, _, _, _, _) => if form.Kid? { done := HandleNewOrder(form.account, b); }
        case NewAuthz(_, _) => if form.Kid? { HandleNewAuthz(form.account, b); }
        case UpdateAccount(_, _) => if form.Kid? { HandleAccount(form.account, b); }
        case KeyChange(_, _) => if form.Kid? { HandleKeyChange(form.account, b); }
        case UpdateAuthz(_, _) => if form.Kid? { HandleAuthz(form.account, b); }
        case PostChallenge(_, _, _) => if form.Kid? { done := HandleChallenge(form.account, b); }
        case Finalize(_, _, _, _, _, _, _, _) => if form.Kid? { done := HandleFinalize(form.account, b); }
      }
    }

    // create_device_ticket.
    method CreateTicket(ticket: Name, ca: string, owner: string, expires: int)
      modifies `tickets
      ensures View() == Step(old(View()), IssueTicket(ticket, ca, owner, expires))
    {
      tickets := tickets[ticket := Ticket(ca, owner, expires, None, [], "", "", [])];
    }

    // cancel_device_ticket: only a ticket no order has claimed.
    method CancelUnclaimed(ticket: Name)
      modifies `tickets
      ensures View() == Step(old(View()), CancelTicket(ticket))
    {
      if ticket in tickets && tickets[ticket].order.None? { tickets := tickets - {ticket}; }
    }

    // Whatever the server can be asked to do, one event of `Acme`, and legal when its ids are new.
    method Perform(e: Event) returns (ghost done: Event)
      modifies this
      ensures done == e || (e.Post? && done.Post? && done == e.(body := done.body) && Answered(e.body, done.body))
      ensures View() == Step(old(View()), done)
      ensures NewEvent(old(View()), e) ==> Legal(old(View()), done)
    {
      hide Answer, StartVerifier, FinishVerifier, RevokeRow, ReleaseRow, NewIds, LegalBody, Answered, NewEvent, Legal;
      done := e;
      if e.Post? {
        done := HandlePost(e);
        PostLegal(old(View()), e, done);
        return;
      }
      OtherLegal(View(), e);
      match e {
        case GetNonce(nonce) => nonces := nonces + {nonce};
        case VerifierStarts(chall, job) => VerifierStart(chall, job);
        case VerifierFinishes(job, ok) => VerifierFinish(job, ok);
        case IssueTicket(ticket, ca, owner, expires) => CreateTicket(ticket, ca, owner, expires);
        case CancelTicket(ticket) => CancelUnclaimed(ticket);
        case Register(serial, ca, owner) => registered := registered[(serial, ca) := owner];
        case Unregister(serial, ca) => registered := registered - {(serial, ca)};
        case Revoke(cert, reason) => certs := RevokeRow(certs, cert, reason);
        case ReleaseHold(cert, expired) => certs := ReleaseRow(certs, cert, expired);
      }
    }

    // A sequence of them is a run.
    method PerformAll(es: seq<Event>) returns (ghost done: seq<Event>)
      modifies this
      ensures |done| == |es|
      ensures NewAlong(old(View()), es, done) ==> Possible(old(View()), done) && View() == Run(old(View()), done)
      decreases |es|
    {
      hide Step, Legal, NewEvent, Answered;
      done := [];
      if es == [] { return; }
      ghost var first := Perform(es[0]);
      ghost var rest := PerformAll(es[1..]);
      done := [first] + rest;
      assert done[1..] == rest;
    }
  }

  // ---- the store's answers ---------------------------------------------------

  ghost predicate SameDraws(ds: seq<Draw>, es: seq<Draw>)
  {
    |ds| == |es| && forall i | 0 <= i < |ds| :: es[i] == ds[i].(reuse := es[i].reuse)
  }

  // The same request, its lookups answered anew.
  ghost predicate Answered(b: Body, done: Body)
  {
    match b
    case NewOrder(_, _, _, _, _, draws, _) =>
      done.NewOrder? && done == b.(draws := done.draws) && SameDraws(draws, done.draws)
    case PostChallenge(_, _, _) => done.PostChallenge? && done == b.(held := done.held)
    case Finalize(_, _, _, _, _, _, _, _) => done.Finalize? && done == b.(backing := done.backing)
    case _ => done == b
  }

  ghost function Backing(s: State, order: nat): (held: Option<Name>)
    ensures TicketFound(s, order, held)
  {
    if t :| t in s.tickets && s.tickets[t].order == Some(order) then Some(t) else None
  }

  ghost function NoReuse(ds: seq<Draw>): (r: seq<Draw>)
    ensures SameDraws(ds, r) && forall i | 0 <= i < |r| :: r[i].reuse.None?
  {
    seq(|ds|, i requires 0 <= i < |ds| => ds[i].(reuse := None))
  }

  // What a request that is refused before its lookups may have been answered.
  ghost function Unasked(s: State, b: Body): (done: Body)
    ensures Answered(b, done)
  {
    match b
    case NewOrder(_, _, _, _, _, draws, _) => b.(draws := NoReuse(draws))
    case PostChallenge(target, _, _) =>
      if target in s.challs && s.challs[target].authz in s.authzs && s.authzs[s.challs[target].authz].order.Some?
      then b.(held := Backing(s, s.authzs[s.challs[target].authz].order.value)) else b
    case Finalize(target, _, _, _, _, _, _, _) => b.(backing := Backing(s, target))
    case _ => b
  }

  ghost function DrawnChallenges(d: Draw): set<nat> { {d.http, d.tls, d.dns, d.attest} }

  ghost predicate NewDraws(s: State, ds: seq<Draw>)
  {
    && (forall i | 0 <= i < |ds| :: FreshDraw(s, ds[i]))
    && (forall i, j | 0 <= i < j < |ds| ::
          ds[i].authz != ds[j].authz && DrawnChallenges(ds[i]) !! DrawnChallenges(ds[j]))
  }

  // What `LegalBody` asks of the client and of the random numbers.
  ghost predicate NewIds(s: State, b: Body)
  {
    match b
    case NewAccount(id, _, _, _) => id !in s.accounts
    case NewOrder(id, _, idents, _, _, draws, ticket) =>
      |draws| == |idents| && id !in s.orders && ticket !in s.tickets && NewDraws(s, draws)
    case NewAuthz(_, draw) => FreshDraw(s, draw)
    case Finalize(_, _, _, _, _, _, cert, _) => cert != ""
    case _ => true
  }

  ghost predicate NewEvent(s: State, e: Event)
  {
    match e
    case Post(nonce, reply, _, form, body) =>
      reply !in s.nonces && reply !in s.spent && reply != nonce && NewIds(Consumed(s, nonce), body)
    case _ => Legal(s, e)
  }

  // The ids of every event are new in the state it meets.
  ghost predicate NewAlong(s: State, es: seq<Event>, done: seq<Event>)
    requires |done| == |es|
    decreases |es|
  {
    es == [] || (NewEvent(s, es[0]) && NewAlong(Step(s, done[0]), es[1..], done[1..]))
  }

  lemma PostLegal(s: State, e: Event, done: Event)
    requires e.Post? && done.Post? && done == e.(body := done.body)
    requires NewIds(Consumed(s, e.nonce), e.body) ==> LegalBody(Consumed(s, e.nonce), e.form, done.body)
    ensures NewEvent(s, e) ==> Legal(s, done)
  {
    hide NewIds, LegalBody;
  }

  lemma OtherLegal(s: State, e: Event)
    requires !e.Post?
    ensures NewEvent(s, e) ==> Legal(s, e)
  {
  }

  // The rows placed so far have drawn ids.
  ghost predicate Within(s: State, n: State, ds: seq<Draw>)
  {
    && n.waiting == s.waiting
    && (forall a | a in n.authzs :: a in s.authzs || exists i | 0 <= i < |ds| :: a == ds[i].authz)
    && (forall c | c in n.challs :: c in s.challs || exists i | 0 <= i < |ds| :: c in DrawnChallenges(ds[i]))
  }

  lemma {:induction false} PlacedWithin(s: State, order: nat, account: nat, idents: seq<Ident>, ds: seq<Draw>)
    requires |ds| == |idents|
    ensures Within(s, PlaceAuthzs(s, order, account, idents, ds), ds)
  {
    hide PlaceAuthz;
    if idents != [] {
      var n := |idents| - 1;
      PlacedWithin(s, order, account, idents[..n], ds[..n]);
      var before := PlaceAuthzs(s, order, account, idents[..n], ds[..n]);
      OnePlacedWithin(s, before, order, account, idents[n], ds[..n], ds[n]);
      assert ds[..n] + [ds[n]] == ds;
    }
  }

  lemma OnePlacedWithin(s: State, m: State, order: nat, account: nat, ident: Ident, ds: seq<Draw>, d: Draw)
    requires Within(s, m, ds)
    ensures Within(s, PlaceAuthz(m, order, account, ident, d), ds + [d])
  {
    hide PlaceAuthz, DrawnChallenges;
    var n, es := PlaceAuthz(m, order, account, ident, d), ds + [d];
    assert es[|ds|] == d;
    PlacedKeys(m, order, account, ident, d);
    forall a | a in n.authzs && a !in s.authzs ensures exists i | 0 <= i < |es| :: a == es[i].authz {
      if a in m.authzs {
        var i :| 0 <= i < |ds| && a == ds[i].authz;
        assert es[i] == ds[i];
      }
    }
    forall c | c in n.challs && c !in s.challs ensures exists i | 0 <= i < |es| :: c in DrawnChallenges(es[i]) {
      if c in m.challs {
        var i :| 0 <= i < |ds| && c in DrawnChallenges(ds[i]);
        assert es[i] == ds[i];
      }
    }
  }

  lemma PlacedKeys(s: State, order: nat, account: nat, ident: Ident, d: Draw)
    ensures var n := PlaceAuthz(s, order, account, ident, d);
            && n.authzs.Keys == s.authzs.Keys + {d.authz} && n.challs.Keys <= s.challs.Keys + DrawnChallenges(d)
            && n.waiting == s.waiting
  {
    hide Offer;
    if d.reuse.Some? && d.reuse.value in s.authzs { return; }
    OfferedKeys(s.challs, ident, d);
  }

  lemma OfferedKeys(challs: map<nat, Challenge>, ident: Ident, d: Draw)
    ensures Offer(challs, ident, d).Keys <= challs.Keys + DrawnChallenges(d)
  {
    hide IsWild;
  }

  // New ids stay new while the earlier ones are used.
  lemma StillFresh(s: State, n: State, all: seq<Draw>, ds: seq<Draw>, d: Draw)
    requires NewDraws(s, all) && |ds| < |all| && SameDraws(all[..|ds|], ds) && SameDraws([all[|ds|]], [d])
    requires Within(s, n, ds)
    ensures FreshDraw(n, d)
  {
    var x := all[|ds|];
    assert FreshDraw(s, x);
    assert [x][0] == x && [d][0] == d;
    forall i | 0 <= i < |ds| ensures ds[i].authz != d.authz && DrawnChallenges(ds[i]) !! DrawnChallenges(d) {
      assert all[..|ds|][i] == all[i];
    }
    forall c | c in DrawnChallenges(d) ensures c !in n.challs && c !in n.waiting {
      assert c in {x.http, x.tls, x.dns, x.attest};
    }
  }

  lemma NextLegal(s: State, order: nat, account: nat, idents: seq<Ident>, all: seq<Draw>, ds: seq<Draw>, d: Draw)
    requires |all| == |idents| && |ds| < |all| && NewDraws(s, all)
    requires SameDraws(all[..|ds|], ds) && SameDraws([all[|ds|]], [d])
    requires LegalDraws(s, order, account, idents[..|ds|], ds)
    requires ReuseFound(PlaceAuthzs(s, order, account, idents[..|ds|], ds), account, idents[|ds|], d)
    ensures LegalDraws(s, order, account, idents[..|ds| + 1], ds + [d])
  {
    hide PlaceAuthzs, NewDraws, Within, ReuseFound, FreshDraw;
    var k := |ds|;
    PlacedWithin(s, order, account, idents[..k], ds);
    StillFresh(s, PlaceAuthzs(s, order, account, idents[..k], ds), all, ds, d);
    assert idents[..k + 1][..k] == idents[..k] && (ds + [d])[..k] == ds;
  }

  lemma NonePlaced(s: State, order: nat, account: nat, idents: seq<Ident>, draws: seq<Draw>)
    ensures SameDraws(draws[..0], []) && PlaceAuthzs(s, order, account, idents[..0], []) == s && AllReused([])
    ensures LegalDraws(s, order, account, idents[..0], [])
  {
    assert idents[..0] == [];
  }

  lemma OnePlaced(s: State, order: nat, account: nat, idents: seq<Ident>, draws: seq<Draw>, ds: seq<Draw>, d: Draw)
    requires |draws| == |idents| && |ds| < |idents| && SameDraws(draws[..|ds|], ds)
    requires d == draws[|ds|].(reuse := d.reuse)
    requires ReuseFound(PlaceAuthzs(s, order, account, idents[..|ds|], ds), account, idents[|ds|], d)
    ensures SameDraws(draws[..|ds| + 1], ds + [d])
    ensures PlaceAuthzs(s, order, account, idents[..|ds| + 1], ds + [d]) ==
              PlaceAuthz(PlaceAuthzs(s, order, account, idents[..|ds|], ds), order, account, idents[|ds|], d)
    ensures AllReused(ds + [d]) <==> AllReused(ds) && d.reuse.Some?
    ensures NewDraws(s, draws) && LegalDraws(s, order, account, idents[..|ds|], ds) ==>
              LegalDraws(s, order, account, idents[..|ds| + 1], ds + [d])
  {
    hide PlaceAuthz, NewDraws, LegalDraws, ReuseFound;
    var k := |ds|;
    assert idents[..k + 1][..k] == idents[..k] && (ds + [d])[..k] == ds;
    assert draws[..k + 1] == draws[..k] + [draws[k]];
    assert AllReused(ds + [d]) ==> AllReused(ds) && d in ds + [d];
    if NewDraws(s, draws) && LegalDraws(s, order, account, idents[..k], ds) {
      NextLegal(s, order, account, idents, draws, ds, d);
    }
  }

  lemma PlacedLegal(s: State, start: State, account: nat, b: Body, ds: seq<Draw>)
    requires b.NewOrder? && NewIds(s, b) && SameDraws(b.draws, ds)
    requires start == s.(orders := s.orders[b.id := Order(Pending, b.idents, account, b.ca, "")])
    requires NewDraws(start, b.draws) ==> LegalDraws(start, b.id, account, b.idents, ds)
    ensures LegalBody(s, Kid(account), b.(draws := ds))
  {
    hide LegalDraws, FreshDraw;
    SameFresh(s, start, b.draws);
    SameDrawsFresh(s, b.draws, ds);
  }

  lemma {:induction false} UnreusedLegal(s: State, order: nat, account: nat, idents: seq<Ident>, all: seq<Draw>, k: nat)
    requires |all| == |idents| && k <= |all| && NewDraws(s, all)
    ensures LegalDraws(s, order, account, idents[..k], NoReuse(all)[..k])
  {
    hide NewDraws, PlaceAuthzs, LegalDraws;
    var ds := NoReuse(all);
    if k == 0 {
      NoneLegal(s, order, account, idents[..0], ds[..0]);
    } else {
      UnreusedLegal(s, order, account, idents, all, k - 1);
      NextLegal(s, order, account, idents, all, ds[..k - 1], ds[k - 1]);
      assert ds[..k - 1] + [ds[k - 1]] == ds[..k];
    }
  }

  lemma NoneLegal(s: State, order: nat, account: nat, idents: seq<Ident>, ds: seq<Draw>)
    requires idents == [] && ds == []
    ensures LegalDraws(s, order, account, idents, ds)
  {
  }

  lemma UnaskedLegal(s: State, form: Form, b: Body)
    ensures NewIds(s, b) ==> LegalBody(s, form, Unasked(s, b))
  {
    hide LegalDraws, TicketFound, FreshDraw;
    if b.NewOrder? && form.Kid? && NewIds(s, b) {
      var start := s.(orders := s.orders[b.id := Order(Pending, b.idents, form.account, b.ca, "")]);
      var ds := NoReuse(b.draws);
      assert NewDraws(start, b.draws) by { SameFresh(s, start, b.draws); }
      UnreusedLegal(start, b.id, form.account, b.idents, b.draws, |b.draws|);
      assert b.idents[..|b.draws|] == b.idents && ds[..|b.draws|] == ds;
    }
    if b.NewOrder? && NewIds(s, b) { SameDrawsFresh(s, b.draws, NoReuse(b.draws)); }
  }

  lemma FoundLegal(s: State, account: nat, b: Body)
    requires b.Finalize? ==> TicketFound(s, b.target, b.backing) && b.cert != ""
    requires b.PostChallenge? && b.target in s.challs && s.challs[b.target].authz in s.authzs ==>
               var order := s.authzs[s.challs[b.target].authz].order;
               order.Some? ==> TicketFound(s, order.value, b.held)
    requires b.Finalize? || b.PostChallenge?
    ensures LegalBody(s, Kid(account), b)
  {
  }

  lemma SameFresh(s: State, n: State, ds: seq<Draw>)
    requires NewDraws(s, ds) && n.authzs == s.authzs && n.challs == s.challs && n.waiting == s.waiting
    ensures NewDraws(n, ds)
  {
  }

  lemma SameDrawsFresh(s: State, ds: seq<Draw>, es: seq<Draw>)
    requires NewDraws(s, ds) && SameDraws(ds, es)
    ensures forall d | d in es :: FreshDraw(s, d)
  {
  }

  lemma UnaskedChallenge(s: State, b: Body)
    requires b.PostChallenge?
    ensures Unasked(s, b).PostChallenge? && Unasked(s, b).target == b.target
  {
    hide TicketFound;
  }

  lemma OwnedRows(s: State, account: nat, chall: nat)
    requires OwnsChallenge(s, account, chall)
    ensures chall in s.challs && s.challs[chall].authz in s.authzs
  {
  }

  lemma SameTarget(b: Body, done: Body)
    requires b.PostChallenge? && Answered(b, done)
    ensures done.PostChallenge? && done.target == b.target
  {
  }

  lemma TicketThere(s: State, order: nat, held: Option<Name>)
    requires TicketFound(s, order, held) && held.Some?
    ensures held.value in s.tickets
  {
  }

  // A device order reads neither of the answers to reuse, one on names no ticket.
  lemma SameDeviceOrder(s: State, account: nat, b: Body, done: Body)
    requires b.NewOrder? && |b.draws| == |b.idents| && Answered(b, done)
    ensures DeviceOrder(s, account, done) == DeviceOrder(s, account, b)
  {
    hide MakeAuthz;
    if |b.idents| != 1 { return; }
    assert done.draws[0] == b.draws[0].(reuse := done.draws[0].reuse);
    var v, o := b.idents[0].value, Order(Pending, b.idents, account, b.ca, "");
    var begun := s.(orders := s.orders[b.id := o]);
    if ClaimableTicket(s, v, b.ca, b.now) {
      begun := begun.(tickets := s.tickets[v := s.tickets[v].(order := Some(b.id))]);
    } else if (v, b.ca) in s.registered {
      var t := SerialTicket(b, s.registered[(v, b.ca)]);
      begun := begun.(tickets := s.tickets[b.ticket := t]);
    }
    SameMade(begun, Some(b.id), account, b.idents[0], b.draws[0], done.draws[0].reuse);
  }

  lemma SameMade(s: State, order: Option<nat>, account: nat, ident: Ident, d: Draw, reuse: Option<nat>)
    ensures MakeAuthz(s, order, account, ident, d.(reuse := reuse)) == MakeAuthz(s, order, account, ident, d)
  {
    hide IsWild, Base;
  }

  lemma UnaskedFinal(s: State, account: nat, b: Body)
    requires b.Finalize? && account in s.accounts
    ensures Unasked(s, b).Finalize?
    ensures b.target !in s.orders ==> FinalizeOrder(s, account, Unasked(s, b)) == s
    ensures b.target in s.orders && !IsDeviceOrder(s.orders[b.target].idents) ==>
              FinalizeOrder(s, account, Unasked(s, b)) == FinalizeDns(s, account, b)
  {
    hide OwnerName, SansOf, TicketFound;
  }

  lemma FoundFinal(s: State, account: nat, b: Body, held: Option<Name>)
    requires b.Finalize? && account in s.accounts && b.target in s.orders && IsDeviceOrder(s.orders[b.target].idents)
    requires TicketFound(s, b.target, held)
    ensures var done := b.(backing := held);
            && Answered(b, done) && (NewIds(s, b) ==> LegalBody(s, Kid(account), done))
            && FinalizeOrder(s, account, done) == FinalizeDevice(s, account, done)
  {
    hide FinalizeDevice, FinalizeDns, TicketFound;
  }

  lemma GateMeansCsr(s: State, account: nat, b: Body, user: string)
    requires b.Finalize? && MayFinalize(s, account, b, user)
    ensures b.csr.Some?
  {
  }

  lemma SameEarlier(tickets: map<Name, Ticket>, serial: Name, except: Name, t: Ticket)
    ensures EarlierCerts(tickets[except := t], serial, except) == EarlierCerts(tickets, serial, except)
  {
    var n := tickets[except := t];
    forall c ensures c in EarlierCerts(n, serial, except) <==> c in EarlierCerts(tickets, serial, except) {
      if c in EarlierCerts(tickets, serial, except) {
        var u :| u in tickets && u != except && tickets[u].serial == serial && tickets[u].cert != "" &&
                 tickets[u].cert == c;
        assert u in n && n[u] == tickets[u];
      }
    }
  }

  lemma OneMore(certs: map<string, Cert>, done: set<string>, c: string, reason: int)
    ensures RevokeRow(RevokeAll(certs, done, reason), c, reason) == RevokeAll(certs, done + {c}, reason)
  {
  }
}
