/** Publication of the RA key to the CMP request path: the watcher that brings a late key into
    service, the reload that replaces it, and request threads, interleaved step by step. The
    gate of a request reads the mode without the mutex; everything else touches the key under
    it. A step that would read an absent key sets `faulted`. */
module RaKey {
  import opened Text

  type Key = string
  type Certificate = string

  datatype Holder = Nobody | Watcher | Reload | Request(id: nat)

  datatype Watch = Watching | Found(key: Key) | Storing(key: Key) | Stored | Published | Finished

  datatype Loader = Resting | Fresh(key: Key) | Swapping(key: Key) | Swapped

  datatype Serving =
    | Arrived | Admitted | Locked
    | Checked(cert: Certificate, key: Key)    // bind_ra_cert compared these two
    | KeyBound(cert: Certificate, checked: Key, key: Key)
    | Bound(cert: Certificate, checked: Key, key: Key)
    | Signed | Ended

  datatype State = State(holder: Holder, key: Option<Key>, mode: bool, cert: Option<Certificate>, watch: Watch,
                         loader: Loader, requests: map<nat, Serving>,
                         signed: set<(Certificate, Key)>, faulted: bool)

  datatype Step =
    | WatcherFinds(key: Key) | WatcherLocks | WatcherStores | WatcherPublishes | WatcherUnlocks
    | ReloadFetches(key: Key) | ReloadLocks | ReloadSwaps | ReloadUnlocks
    | Arrives(id: nat) | PassesGate(id: nat) | Locks(id: nat) | BindsCert(id: nat, cert: Certificate)
    | SetsKey(id: nat) | SetsCert(id: nat) | Signs(id: nat) | Unlocks(id: nat)
    | GivesUp(id: nat)                        // any early return of the locked part

  predicate At(s: State, id: nat, r: Serving) { id in s.requests && s.requests[id] == r }

  function Move(s: State, id: nat, r: Serving): State { s.(requests := s.requests[id := r]) }

  // Only control: where each thread is, and that the mutex is free when it is taken.
  predicate Enabled(s: State, step: Step)
  {
    match step
    case WatcherFinds(_) => s.watch.Watching?
    case WatcherLocks => s.watch.Found? && s.holder.Nobody?
    case WatcherStores => s.watch.Storing?
    case WatcherPublishes => s.watch.Stored?
    case WatcherUnlocks => s.watch.Published?
    case ReloadFetches(_) => s.loader.Resting?
    case ReloadLocks => s.loader.Fresh? && s.holder.Nobody?
    case ReloadSwaps => s.loader.Swapping?
    case ReloadUnlocks => s.loader.Swapped?
    case Arrives(id) => id !in s.requests
    case PassesGate(id) => At(s, id, Arrived)
    case Locks(id) => At(s, id, Admitted) && s.holder.Nobody?
    case BindsCert(id, _) => At(s, id, Locked)
    case SetsKey(id) => id in s.requests && s.requests[id].Checked?
    case SetsCert(id) => id in s.requests && s.requests[id].KeyBound?
    case Signs(id) => id in s.requests && s.requests[id].Bound?
    case Unlocks(id) => At(s, id, Signed)
    case GivesUp(id) => id in s.requests && Inside(s.requests[id])
  }

  // `certifies` is pki::cert_certifies_key.
  function Next(certifies: (Certificate, Key) -> bool, s: State, step: Step): State
    requires Enabled(s, step)
  {
    match step
    case WatcherFinds(k) => s.(watch := Found(k))
    case WatcherLocks => s.(holder := Watcher, watch := Storing(s.watch.key))
    case WatcherStores => s.(key := Some(s.watch.key), watch := Stored)
    case WatcherPublishes => s.(mode := true, watch := Published)
    case WatcherUnlocks => s.(holder := Nobody, watch := Finished)
    case ReloadFetches(k) => s.(loader := Fresh(k))
    case ReloadLocks => s.(holder := Reload, loader := Swapping(s.loader.key))
    case ReloadSwaps => s.(key := Some(s.loader.key), loader := Swapped)
    case ReloadUnlocks => s.(holder := Nobody, loader := Resting)
    case Arrives(id) => Move(s, id, Arrived)
    case PassesGate(id) => Move(s, id, if s.mode then Admitted else Ended)
    case Locks(id) => Move(s, id, Locked).(holder := Request(id))
    case BindsCert(id, c) =>
      if s.key.None? then s.(faulted := true)
      else if certifies(c, s.key.value) then Move(s, id, Checked(c, s.key.value)).(cert := Some(c))
      else Move(s, id, Ended).(holder := Nobody)
    case SetsKey(id) =>
      if s.key.None? then s.(faulted := true)
      else Move(s, id, KeyBound(s.requests[id].cert, s.requests[id].key, s.key.value))
    case SetsCert(id) =>
      if s.cert.None? then s.(faulted := true)
      else Move(s, id, Bound(s.cert.value, s.requests[id].checked, s.requests[id].key))
    case Signs(id) =>
      Move(s, id, Signed).(signed := s.signed + {(s.requests[id].cert, s.requests[id].key)})
    case Unlocks(id) => Move(s, id, Ended).(holder := Nobody)
    case GivesUp(id) => Move(s, id, Ended).(holder := Nobody)
  }

  // A process starts with the key already loaded, or without it and with the watcher running.
  predicate Start(s: State)
  {
    && s.holder.Nobody? && s.cert.None? && s.loader.Resting? && s.requests == map[] && s.signed == {} && !s.faulted
    && (if s.mode then s.key.Some? && s.watch.Finished? else s.key.None? && s.watch.Watching?)
  }

  ghost predicate Possible(certifies: (Certificate, Key) -> bool, s: State, steps: seq<Step>)
    decreases |steps|
  {
    steps == [] || (Enabled(s, steps[0]) && Possible(certifies, Next(certifies, s, steps[0]), steps[1..]))
  }

  ghost function After(certifies: (Certificate, Key) -> bool, s: State, steps: seq<Step>): State
    requires Possible(certifies, s, steps)
    decreases |steps|
  {
    if steps == [] then s else After(certifies, Next(certifies, s, steps[0]), steps[1..])
  }

  predicate Inside(r: Serving) { !r.Arrived? && !r.Admitted? && !r.Ended? }

  // What a request inside the mutex may rely on.
  predicate Consistent(certifies: (Certificate, Key) -> bool, s: State, r: Serving)
  {
    match r
    case Checked(c, k) => s.cert == Some(c) && s.key == Some(k) && certifies(c, k)
    case KeyBound(c, was, k) => s.cert == Some(c) && was == k && certifies(c, k)
    case Bound(c, was, k) => was == k && certifies(c, k)
    case _ => true
  }

  ghost predicate Invariant(certifies: (Certificate, Key) -> bool, s: State)
  {
    && (s.mode ==> s.key.Some?)
    && (s.watch.Published? ==> s.key.Some?) && (s.watch.Stored? ==> s.key.Some?)
    && (s.holder.Watcher? <==> s.watch.Storing? || s.watch.Stored? || s.watch.Published?)
    && (s.holder.Reload? <==> s.loader.Swapping? || s.loader.Swapped?)
    && (forall id | id in s.requests :: Inside(s.requests[id]) <==> s.holder == Request(id))
    && (forall id | id in s.requests && !s.requests[id].Arrived? && !s.requests[id].Ended? :: s.mode)
    && (forall id | id in s.requests :: Consistent(certifies, s, s.requests[id]))
    && (s.holder.Request? ==> s.holder.id in s.requests)
    && (forall p | p in s.signed :: certifies(p.0, p.1))
    && !s.faulted
  }

  predicate ByRequest(step: Step)
  {
    !(step.WatcherFinds? || step.WatcherLocks? || step.WatcherStores? || step.WatcherPublishes? ||
      step.WatcherUnlocks? || step.ReloadFetches? || step.ReloadLocks? || step.ReloadSwaps? || step.ReloadUnlocks?)
  }

  lemma InvariantKept(certifies: (Certificate, Key) -> bool, s: State, step: Step)
    requires Invariant(certifies, s) && Enabled(s, step)
    ensures Invariant(certifies, Next(certifies, s, step))
  {
    hide Invariant, Next, Enabled;
    if !ByRequest(step) { BackgroundKeeps(certifies, s, step); }
    else if step.BindsCert? || step.SetsKey? || step.SetsCert? || step.Signs? { TransactionKeeps(certifies, s, step); }
    else { PassageKeeps(certifies, s, step); }
  }

  lemma BackgroundKeeps(certifies: (Certificate, Key) -> bool, s: State, step: Step)
    requires Invariant(certifies, s) && Enabled(s, step) && !ByRequest(step)
    ensures Invariant(certifies, Next(certifies, s, step))
  {
    var n := Next(certifies, s, step);
    forall id | id in n.requests ensures Consistent(certifies, n, n.requests[id]) {
      assert Consistent(certifies, s, s.requests[id]);
    }
  }

  lemma PassageKeeps(certifies: (Certificate, Key) -> bool, s: State, step: Step)
    requires Invariant(certifies, s) && Enabled(s, step)
    requires step.Arrives? || step.PassesGate? || step.Locks? || step.Unlocks? || step.GivesUp?
    ensures Invariant(certifies, Next(certifies, s, step))
  {
    var n := Next(certifies, s, step);
    forall id | id in n.requests ensures Consistent(certifies, n, n.requests[id]) {
      if id in s.requests { assert Consistent(certifies, s, s.requests[id]); }
    }
  }

  lemma TransactionKeeps(certifies: (Certificate, Key) -> bool, s: State, step: Step)
    requires Invariant(certifies, s) && Enabled(s, step)
    requires step.BindsCert? || step.SetsKey? || step.SetsCert? || step.Signs?
    ensures Invariant(certifies, Next(certifies, s, step))
  {
    var n := Next(certifies, s, step);
    forall id | id in n.requests ensures Consistent(certifies, n, n.requests[id]) {
      assert Consistent(certifies, s, s.requests[id]);
    }
  }

  // In every interleaving: the mode is on only with a key present, no thread reads an absent
  // key or certificate, the key a request checks against its certificate is the key it binds,
  // and every response is signed with a key its certificate certifies.
  lemma {:induction false} EveryRun(certifies: (Certificate, Key) -> bool, s: State, steps: seq<Step>)
    requires Invariant(certifies, s) && Possible(certifies, s, steps)
    ensures Invariant(certifies, After(certifies, s, steps))
    decreases |steps|
  {
    hide Invariant, Next, Enabled;
    if steps != [] {
      InvariantKept(certifies, s, steps[0]);
      EveryRun(certifies, Next(certifies, s, steps[0]), steps[1..]);
    }
  }

  lemma Safety(certifies: (Certificate, Key) -> bool, s: State, steps: seq<Step>)
    requires Start(s) && Possible(certifies, s, steps)
    ensures var e := After(certifies, s, steps);
            && (e.mode ==> e.key.Some?) && !e.faulted
            && (forall id | id in e.requests :: e.requests[id].KeyBound? || e.requests[id].Bound? ==>
                  e.requests[id].checked == e.requests[id].key)
            && (forall p | p in e.signed :: certifies(p.0, p.1))
            && (forall i, j | i in e.requests && j in e.requests && Inside(e.requests[i]) && Inside(e.requests[j]) ::
                  i == j)
  {
    EveryRun(certifies, s, steps);
  }

  // Reading what is not there is recorded, and for good.
  lemma FaultRecorded(certifies: (Certificate, Key) -> bool, s: State, step: Step)
    requires Enabled(s, step)
    ensures Next(certifies, s, step).faulted <==>
              || s.faulted
              || ((step.BindsCert? || step.SetsKey?) && s.key.None?)
              || (step.SetsCert? && s.cert.None?)
  {
  }

  // The protocol does serve. A process without its key starts serving once the key is found,
  lemma LateKeyPublished(certifies: (Certificate, Key) -> bool, s: State, k: Key)
    requires Start(s) && !s.mode
    ensures var steps := [WatcherFinds(k), WatcherLocks, WatcherStores, WatcherPublishes, WatcherUnlocks];
            && Possible(certifies, s, steps)
            && After(certifies, s, steps) == s.(key := Some(k), mode := true, watch := Finished)
  {
    hide Possible, After;
    var steps := [WatcherFinds(k), WatcherLocks, WatcherStores, WatcherPublishes, WatcherUnlocks];
    var s1 := Next(certifies, s, steps[0]);
    var s2 := Next(certifies, s1, steps[1]);
    var s3 := Next(certifies, s2, steps[2]);
    var s4 := Next(certifies, s3, steps[3]);
    var end := Next(certifies, s4, steps[4]);
    Stop(certifies, end, steps[5..]);
    Onward(certifies, s4, steps[4..], end);
    Onward(certifies, s3, steps[3..], end);
    Onward(certifies, s2, steps[2..], end);
    Onward(certifies, s1, steps[1..], end);
    Onward(certifies, s, steps, end);
  }

  // and a request that finds the mode on and a certificate for the key is signed with that pair.
  lemma RequestServed(certifies: (Certificate, Key) -> bool, s: State, id: nat, k: Key, c: Certificate)
    requires s.mode && s.key == Some(k) && s.holder.Nobody? && id !in s.requests && certifies(c, k)
    ensures var steps := [Arrives(id), PassesGate(id), Locks(id), BindsCert(id, c), SetsKey(id), SetsCert(id),
                          Signs(id), Unlocks(id)];
            Possible(certifies, s, steps) && (c, k) in After(certifies, s, steps).signed
  {
    hide Possible, After;
    var steps := [Arrives(id), PassesGate(id), Locks(id), BindsCert(id, c), SetsKey(id), SetsCert(id), Signs(id),
                  Unlocks(id)];
    var s1 := Next(certifies, s, steps[0]);
    var s2 := Next(certifies, s1, steps[1]);
    var s3 := Next(certifies, s2, steps[2]);
    assert steps[3..] == [BindsCert(id, c), SetsKey(id), SetsCert(id), Signs(id), Unlocks(id)];
    LockedServed(certifies, s3, id, k, c);
    var end := After(certifies, s3, steps[3..]);
    Onward(certifies, s2, steps[2..], end);
    Onward(certifies, s1, steps[1..], end);
    Onward(certifies, s, steps, end);
  }

  lemma LockedServed(certifies: (Certificate, Key) -> bool, s: State, id: nat, k: Key, c: Certificate)
    requires At(s, id, Locked) && s.key == Some(k) && certifies(c, k)
    ensures var steps := [BindsCert(id, c), SetsKey(id), SetsCert(id), Signs(id), Unlocks(id)];
            Possible(certifies, s, steps) && (c, k) in After(certifies, s, steps).signed
  {
    hide Possible, After, Next, Enabled, At;
    var steps := [BindsCert(id, c), SetsKey(id), SetsCert(id), Signs(id), Unlocks(id)];
    CertBound(certifies, s, id, k, c);
    var s1 := Next(certifies, s, steps[0]);
    KeySet(certifies, s1, id, k, c);
    var s2 := Next(certifies, s1, steps[1]);
    CertSet(certifies, s2, id, k, c);
    var s3 := Next(certifies, s2, steps[2]);
    PairSigned(certifies, s3, id, k, c);
    var s4 := Next(certifies, s3, steps[3]);
    Released(certifies, s4, id);
    var end := Next(certifies, s4, steps[4]);
    Stop(certifies, end, steps[5..]);
    Onward(certifies, s4, steps[4..], end);
    Onward(certifies, s3, steps[3..], end);
    Onward(certifies, s2, steps[2..], end);
    Onward(certifies, s1, steps[1..], end);
    Onward(certifies, s, steps, end);
  }

  lemma CertBound(certifies: (Certificate, Key) -> bool, s: State, id: nat, k: Key, c: Certificate)
    requires At(s, id, Locked) && s.key == Some(k) && certifies(c, k)
    ensures Enabled(s, BindsCert(id, c))
    ensures var n := Next(certifies, s, BindsCert(id, c));
            n.key == Some(k) && n.cert == Some(c) && At(n, id, Checked(c, k))
  {
  }

  lemma KeySet(certifies: (Certificate, Key) -> bool, s: State, id: nat, k: Key, c: Certificate)
    requires At(s, id, Checked(c, k)) && s.key == Some(k) && s.cert == Some(c)
    ensures Enabled(s, SetsKey(id))
    ensures var n := Next(certifies, s, SetsKey(id)); n.cert == Some(c) && At(n, id, KeyBound(c, k, k))
  {
  }

  lemma CertSet(certifies: (Certificate, Key) -> bool, s: State, id: nat, k: Key, c: Certificate)
    requires At(s, id, KeyBound(c, k, k)) && s.cert == Some(c)
    ensures Enabled(s, SetsCert(id)) && At(Next(certifies, s, SetsCert(id)), id, Bound(c, k, k))
  {
  }

  lemma PairSigned(certifies: (Certificate, Key) -> bool, s: State, id: nat, k: Key, c: Certificate)
    requires At(s, id, Bound(c, k, k))
    ensures Enabled(s, Signs(id))
    ensures var n := Next(certifies, s, Signs(id)); At(n, id, Signed) && (c, k) in n.signed
  {
  }

  lemma Released(certifies: (Certificate, Key) -> bool, s: State, id: nat)
    requires At(s, id, Signed)
    ensures Enabled(s, Unlocks(id)) && Next(certifies, s, Unlocks(id)).signed == s.signed
  {
  }

  // A reload puts its key in the place of the old one and changes nothing else.
  lemma ReloadReplaces(certifies: (Certificate, Key) -> bool, s: State, k: Key)
    requires s.loader.Resting? && s.holder.Nobody?
    ensures var steps := [ReloadFetches(k), ReloadLocks, ReloadSwaps, ReloadUnlocks];
            Possible(certifies, s, steps) && After(certifies, s, steps) == s.(key := Some(k))
  {
    hide Possible, After;
    var steps := [ReloadFetches(k), ReloadLocks, ReloadSwaps, ReloadUnlocks];
    var s1 := Next(certifies, s, steps[0]);
    var s2 := Next(certifies, s1, steps[1]);
    var s3 := Next(certifies, s2, steps[2]);
    var end := Next(certifies, s3, steps[3]);
    Stop(certifies, end, steps[4..]);
    Onward(certifies, s3, steps[3..], end);
    Onward(certifies, s2, steps[2..], end);
    Onward(certifies, s1, steps[1..], end);
    Onward(certifies, s, steps, end);
  }

  // A request that finds the mode off, or whose certificate is not for the key, ends without a
  // signature and leaves the mutex free.
  lemma RequestRefused(certifies: (Certificate, Key) -> bool, s: State, id: nat, c: Certificate)
    requires s.holder.Nobody? && id !in s.requests && (s.mode ==> s.key.Some? && !certifies(c, s.key.value))
    ensures var steps := [Arrives(id), PassesGate(id)] + if s.mode then [Locks(id), BindsCert(id, c)] else [];
            Possible(certifies, s, steps) && After(certifies, s, steps) == Move(s, id, Ended)
  {
    hide Possible, After;
    var steps := [Arrives(id), PassesGate(id)] + if s.mode then [Locks(id), BindsCert(id, c)] else [];
    var s1 := Next(certifies, s, steps[0]);
    var s2 := Next(certifies, s1, steps[1]);
    var end := s2;
    if s.mode {
      var s3 := Next(certifies, s2, steps[2]);
      end := Next(certifies, s3, steps[3]);
      Stop(certifies, end, steps[4..]);
      Onward(certifies, s3, steps[3..], end);
      Onward(certifies, s2, steps[2..], end);
    } else {
      Stop(certifies, end, steps[2..]);
    }
    Onward(certifies, s1, steps[1..], end);
    Onward(certifies, s, steps, end);
    assert end.requests == s.requests[id := Ended];
  }

  lemma Onward(certifies: (Certificate, Key) -> bool, s: State, steps: seq<Step>, end: State)
    requires steps != [] && Enabled(s, steps[0])
    requires var n := Next(certifies, s, steps[0]);
             Possible(certifies, n, steps[1..]) && After(certifies, n, steps[1..]) == end
    ensures Possible(certifies, s, steps) && After(certifies, s, steps) == end
  {
  }

  lemma Stop(certifies: (Certificate, Key) -> bool, s: State, steps: seq<Step>)
    requires steps == []
    ensures Possible(certifies, s, steps) && After(certifies, s, steps) == s
  {
  }
}
