/** The pool finalizer as a guard: a pool that held it when an address was created outlives that address, so
    release finds its pool. */
module PoolGuard {
  import opened Wrappers
  import opened Prefixes
  import opened Index
  import opened Owners
  import opened Annotations
  import opened AddressText
  import opened Model
  import opened Protocol
  import opened Frames
  import opened PoolProtocol
  import opened System
  import opened ClaimSafety
  import opened PoolSafety

  // ---- The listing ----

  /** With kinds free of slashes the indexed listing is the scan by kind, name and namespace. */
  lemma ListingIsScan(addresses: map<Key, Address>, pk: PoolKey)
    requires '/' !in pk.kind && forall k :: k in addresses ==> '/' !in addresses[k].poolRef.kind
    ensures Listing(addresses, pk) ==
      set k | k in addresses && addresses[k].poolRef.kind == pk.kind && addresses[k].poolRef.name == pk.name
              && (pk.namespace != "" ==> k.namespace == pk.namespace)
  {
    forall k | k in addresses
      ensures IPPoolRefValue(addresses[k].poolRef) == IPPoolRefValue(PoolRef(IPAM_GROUP, pk.kind, pk.name))
         <==> addresses[k].poolRef.kind == pk.kind && addresses[k].poolRef.name == pk.name
    {
      IndexKeyInjective(addresses[k].poolRef, PoolRef(IPAM_GROUP, pk.kind, pk.name));
    }
  }

  /** An address is listed under its own pool. */
  lemma ListedUnderItsPool(addresses: map<Key, Address>, key: Key, pk: PoolKey)
    requires key in addresses && PoolKeyOf(key.namespace, addresses[key].poolRef) == Some(pk)
    ensures key in Listing(addresses, pk)
  {
  }

  lemma EmptyListingIsUnused(addresses: map<Key, Address>, pk: PoolKey)
    requires Listing(addresses, pk) == {}
    ensures Unused(addresses, pk)
  {
    forall k | k in addresses
      ensures PoolKeyOf(k.namespace, addresses[k].poolRef) != Some(pk)
    {
      if PoolKeyOf(k.namespace, addresses[k].poolRef) == Some(pk) {
        ListedUnderItsPool(addresses, k, pk);
      }
    }
  }

  // ---- The hypothesis ----

  /** The claim worker's call creates an address, committed whether or not the response arrives. */
  predicate Creates(s: State, e: Event) {
    && e.Call? && s.worker.Busy? && s.worker.pc.Writing? && (e.reply.Done? || e.reply.Lost?)
    && s.worker.pc.existing.None? && s.worker.key !in s.store.addresses
  }

  /** The claim worker creates an address of a pool that a pass under way, having listed no users, means to let go. */
  predicate Exposes(s: State, e: Event) {
    && Creates(s, e)
    && var pk := PoolKeyOf(s.worker.key.namespace, s.worker.pc.next.poolRef);
    && pk.Some? && pk.value in s.poolWorkers && LetsGo(s.poolWorkers[pk.value])
  }

  predicate NoExposure(s: State, e: Event) {
    !Exposes(s, e)
  }

  // ---- The invariant ----

  /** The pass has listed no users and means to let the pool go. */
  predicate LetsGo(w: PoolWorker) {
    match w
    case PoolListing(_) => false
    case ResolvingIDs(snap, next, users) => snap.deleting && users == 0
    case ResolvingDetails(snap, next, users, _, _) => snap.deleting && users == 0
    case PoolPatching(snap, next) => snap.finalizer && !next.finalizer
  }

  predicate KeepsFinalizer(w: PoolWorker) {
    match w
    case ResolvingIDs(snap, next, _) => next.finalizer == snap.finalizer
    case ResolvingDetails(snap, next, _, _, _) => next.finalizer == snap.finalizer
    case _ => true
  }

  ghost predicate Guarded(st: Store) {
    forall k :: k in st.addresses && st.addresses[k].guarded ==> PoolGuards(st, k, st.addresses[k])
  }

  /** No address belongs to the pool. */
  predicate Unused(addresses: map<Key, Address>, pk: PoolKey) {
    forall k :: k in addresses ==> PoolKeyOf(k.namespace, addresses[k].poolRef) != Some(pk)
  }

  ghost predicate GuardInv(s: State) {
    && Guarded(s.store)
    && forall pk :: pk in s.poolWorkers ==>
         KeepsFinalizer(s.poolWorkers[pk]) && (LetsGo(s.poolWorkers[pk]) ==> Unused(s.store.addresses, pk))
  }

  /** The finalizer of a deleted pool goes exactly if no address is listed. */
  lemma ConcludeLetsGo(snap: Pool, next: Pool, users: nat, resolved: bool)
    requires next.finalizer == snap.finalizer
    ensures var w := Conclude(snap, next, users, resolved);
      && (!w.next.finalizer <==> snap.deleting && (users == 0 || !snap.finalizer))
      && (LetsGo(w) ==> snap.deleting && users == 0)
  {
  }

  /** Only an empty listing makes a pass let its pool go. */
  lemma PoolStepLetsGo(cfg: Config, st: Store, pk: PoolKey, w: PoolWorker, reply: Reply)
    requires KeepsFinalizer(w)
    ensures var o := PoolStep(cfg, st, pk, w, reply);
      o.worker.Some? ==>
        && KeepsFinalizer(o.worker.value)
        && (LetsGo(o.worker.value) ==> LetsGo(w) || (w.PoolListing? && |Listing(st.addresses, pk)| == 0))
  {
    hide Conclude, ResolveIDs, Build, GatewayChoice, DetailsOf, SafeAllocatedCount, PatchPool, Listing;
    forall snap: Pool, n: Pool, users: nat, ok: bool | n.finalizer == snap.finalizer
      ensures LetsGo(Conclude(snap, n, users, ok)) ==> snap.deleting && users == 0
      ensures Conclude(snap, n, users, ok).PoolPatching?
    {
      ConcludeLetsGo(snap, n, users, ok);
      ConcludePatches(snap, n, users, ok);
    }
  }

  lemma PoolStepGuards(cfg: Config, st: Store, pk: PoolKey, w: PoolWorker, reply: Reply)
    requires KeepsFinalizer(w) && (LetsGo(w) ==> Unused(st.addresses, pk))
    ensures var o := PoolStep(cfg, st, pk, w, reply);
      o.worker.Some? ==> KeepsFinalizer(o.worker.value) && (LetsGo(o.worker.value) ==> Unused(st.addresses, pk))
  {
    PoolStepLetsGo(cfg, st, pk, w, reply);
    hide PoolStep, LetsGo, KeepsFinalizer, Unused;
    if |Listing(st.addresses, pk)| == 0 {
      EmptyListingIsUnused(st.addresses, pk);
    }
  }

  lemma ConcludePatches(snap: Pool, next: Pool, users: nat, resolved: bool)
    ensures Conclude(snap, next, users, resolved).PoolPatching?
  {
  }

  /** The patch takes the finalizer away from a pool that guards an address. */
  ghost predicate TakesGuard(st: Store, pk: PoolKey, snap: Pool, next: Pool, meta: bool) {
    && meta && snap.finalizer && !next.finalizer
    && exists k :: k in st.addresses && st.addresses[k].guarded && PoolKeyOf(k.namespace, st.addresses[k].poolRef) == Some(pk)
  }

  /** Exactly such a patch leaves an address without its guard. */
  lemma PatchGuardsIff(st: Store, pk: PoolKey, snap: Pool, next: Pool, meta: bool, status: bool)
    requires Guarded(st)
    ensures Guarded(st.(pools := PatchPool(st.pools, pk, snap, next, meta, status))) <==> !TakesGuard(st, pk, snap, next, meta)
  {
    var st' := st.(pools := PatchPool(st.pools, pk, snap, next, meta, status));
    hide PoolKeyOf;
    if TakesGuard(st, pk, snap, next, meta) {
      var k :| k in st.addresses && st.addresses[k].guarded && PoolKeyOf(k.namespace, st.addresses[k].poolRef) == Some(pk);
      assert PoolGuards(st, k, st.addresses[k]) && !PoolGuards(st', k, st'.addresses[k]);
    } else {
      forall k | k in st.addresses && st.addresses[k].guarded
        ensures PoolGuards(st', k, st.addresses[k])
      {
        assert PoolGuards(st, k, st.addresses[k]);
      }
    }
  }

  lemma UnusedGuardsNothing(st: Store, pk: PoolKey, snap: Pool, next: Pool, meta: bool)
    requires LetsGo(PoolPatching(snap, next)) ==> Unused(st.addresses, pk)
    ensures !TakesGuard(st, pk, snap, next, meta)
  {
    hide PoolKeyOf;
  }

  lemma PoolCallGuards(cfg: Config, s: State, pk: PoolKey, reply: Reply)
    requires GuardInv(s) && Legal(cfg, s, PoolCall(pk, reply))
    ensures GuardInv(Apply(cfg, s, PoolCall(pk, reply)))
  {
    var w := s.poolWorkers[pk];
    PoolStepGuards(cfg, s.store, pk, w, reply);
    if w.PoolPatching? && reply.Wrote? {
      PatchGuardsIff(s.store, pk, w.snap, w.next, reply.meta, reply.status);
      assert !TakesGuard(s.store, pk, w.snap, w.next, reply.meta) by {
        UnusedGuardsNothing(s.store, pk, w.snap, w.next, reply.meta);
      }
    }
    PoolStepPools(cfg, s.store, pk, w, reply);
    hide PoolStep, PatchPool, Unused, LetsGo, KeepsFinalizer, PoolGuards, TakesGuard;
  }

  lemma PoolStepPools(cfg: Config, st: Store, pk: PoolKey, w: PoolWorker, reply: Reply)
    ensures PoolStep(cfg, st, pk, w, reply).pools ==
      if w.PoolPatching? && reply.Wrote? then PatchPool(st.pools, pk, w.snap, w.next, reply.meta, reply.status) else st.pools
  {
    hide PatchPool, Conclude, ResolveIDs, PoolDetailed, PoolListed;
  }

  /** Fewer addresses at most, with the same references. */
  ghost predicate Fewer(addresses: map<Key, Address>, addresses': map<Key, Address>) {
    forall k :: k in addresses' ==>
      k in addresses && addresses'[k].poolRef == addresses[k].poolRef && addresses'[k].guarded == addresses[k].guarded
  }

  /** Fewer addresses on kept pools are still guarded, and unused pools stay unused. */
  lemma FewerGuarded(s: State, st': Store, w: Worker)
    requires GuardInv(s) && PoolsKept(s.store.pools, st'.pools) && Fewer(s.store.addresses, st'.addresses)
    ensures GuardInv(s.(store := st', worker := w))
  {
    hide LetsGo, KeepsFinalizer, PoolKeyOf;
    forall pk | Unused(s.store.addresses, pk)
      ensures Unused(st'.addresses, pk)
    {
    }
    forall k | k in st'.addresses && st'.addresses[k].guarded
      ensures PoolGuards(st', k, st'.addresses[k])
    {
      assert PoolGuards(s.store, k, s.store.addresses[k]);
    }
    hide Unused, PoolGuards;
  }

  lemma UnprotectFewer(st: Store, key: Key)
    ensures Fewer(st.addresses, Unprotect(st, key).addresses)
  {
    if key in st.addresses && !st.addresses[key].deleting {
      assert Unprotect(st, key).addresses == st.addresses[key := st.addresses[key].(protect := false)];
      hide Unprotect;
    }
  }

  lemma DeleteFewer(st: Store, key: Key)
    ensures Fewer(st.addresses, DeleteAddress(st, key).addresses)
  {
    if key in st.addresses && st.addresses[key].protect {
      assert DeleteAddress(st, key).addresses == st.addresses[key := st.addresses[key].(deleting := true)];
      hide DeleteAddress;
    }
  }

  /** No step but the write adds an address. */
  lemma StepFewer(cfg: Config, st: Store, key: Key, c: Claim, pc: Pc, reply: Reply)
    requires !pc.Writing?
    ensures Fewer(st.addresses, Step(cfg, st, key, c, pc, reply).store.addresses)
  {
    if pc.DeleteUnprotecting? {
      UnprotectFewer(st, key);
      hide Unprotect;
    } else if pc.DeleteDeleting? {
      DeleteFewer(st, key);
      hide DeleteAddress;
    } else {
      StepFrame(cfg, st, key, c, pc, reply);
      hide Step;
    }
  }

  // ---- The write ----

  /** A pool about to be let go stays unused when an address of another pool is written. */
  lemma WriteKeepsUnused(st: Store, key: Key, next: Address, pk: PoolKey)
    requires Unused(st.addresses, pk)
    requires key in st.addresses ==>
      next.poolRef.kind == st.addresses[key].poolRef.kind && next.poolRef.name == st.addresses[key].poolRef.name
    requires key !in st.addresses ==> PoolKeyOf(key.namespace, next.poolRef) != Some(pk)
    ensures Unused(WriteAddress(st, key, next).addresses, pk)
  {
    hide PoolGuards;
  }

  lemma WriteKeepsGuarded(st: Store, key: Key, next: Address)
    requires Guarded(st)
    requires key in st.addresses ==>
      next.poolRef.kind == st.addresses[key].poolRef.kind && next.poolRef.name == st.addresses[key].poolRef.name
    ensures Guarded(WriteAddress(st, key, next))
  {
    var st' := WriteAddress(st, key, next);
    assert st'.pools == st.pools;
    assert forall k :: k in st'.addresses && k != key ==> k in st.addresses && st'.addresses[k] == st.addresses[k];
    assert st'.addresses[key].poolRef == next.poolRef;
    assert st'.addresses[key].guarded == if key in st.addresses then st.addresses[key].guarded else PoolGuards(st, key, next);
    hide WriteAddress;
    assert key in st.addresses && st.addresses[key].guarded ==> PoolGuards(st, key, st.addresses[key]);
  }

  lemma WritingGuards(cfg: Config, s: State, reply: Reply)
    requires Inv(cfg, s) && GuardInv(s) && s.worker.Busy? && s.worker.pc.Writing?
    requires NoExposure(s, Call(reply))
    ensures GuardInv(s.(store := StepWriting(s.store, s.worker.key, s.worker.c, s.worker.pc.existing, s.worker.pc.next, reply).store))
  {
    var st, key, next := s.store, s.worker.key, s.worker.pc.next;
    if s.worker.pc.existing.Some? == (key in st.addresses) && (reply.Done? || reply.Lost?) {
      WritesItsPool(cfg, s);
      hide Inv;
      WriteKeepsGuarded(st, key, next);
      forall pk | pk in s.poolWorkers && LetsGo(s.poolWorkers[pk])
        ensures Unused(WriteAddress(st, key, next).addresses, pk)
      {
        WriteKeepsUnused(st, key, next, pk);
      }
      hide WriteAddress, Guarded, Unused, LetsGo, KeepsFinalizer;
    }
  }

  lemma WritesItsPool(cfg: Config, s: State)
    requires Inv(cfg, s) && s.worker.Busy? && s.worker.pc.Writing?
    ensures var key, next := s.worker.key, s.worker.pc.next;
      key in s.store.addresses ==>
        && next.poolRef.kind == s.store.addresses[key].poolRef.kind && next.poolRef.name == s.store.addresses[key].poolRef.name
  {
    assert Addresses(s.store);
  }

  // ---- Every event ----

  lemma SameFewer(addresses: map<Key, Address>)
    ensures Fewer(addresses, addresses)
  {
  }

  lemma ActionFewer(st: Store, a: Action)
    ensures Fewer(st.addresses, Act(st, a).addresses)
  {
    if a.MarkAddress? {
      DeleteFewer(st, a.key);
      hide DeleteAddress;
    } else {
      hide Fewer;
      ActionKeepsAddresses(st, a);
      hide Act;
      SameFewer(st.addresses);
    }
  }

  lemma CreatePoolGuards(cfg: Config, s: State, pk: PoolKey, pool: Pool)
    requires GuardInv(s) && pk !in s.store.pools
    ensures GuardInv(s.(store := s.store.(pools := s.store.pools[pk := pool])))
  {
    hide Unused, LetsGo, KeepsFinalizer, PoolKeyOf;
    var st' := s.store.(pools := s.store.pools[pk := pool]);
    forall k | k in st'.addresses && st'.addresses[k].guarded
      ensures PoolGuards(st', k, st'.addresses[k])
    {
      assert PoolGuards(s.store, k, s.store.addresses[k]);
    }
  }

  lemma ActionGuards(cfg: Config, s: State, a: Action)
    requires GuardInv(s) && LegalAction(cfg, s, a)
    ensures GuardInv(s.(store := Act(s.store, a)))
  {
    if a.CreatePool? {
      CreatePoolGuards(cfg, s, a.pk, a.pool);
      hide GuardInv;
    } else {
      ActionKeepsPools(s.store, a);
      ActionFewer(s.store, a);
      hide Act, GuardInv, PoolsKept, Fewer;
      FewerGuarded(s, Act(s.store, a), s.worker);
    }
  }

  lemma CallGuards(cfg: Config, s: State, reply: Reply)
    requires Inv(cfg, s) && GuardInv(s) && Legal(cfg, s, Call(reply)) && NoExposure(s, Call(reply))
    ensures GuardInv(Apply(cfg, s, Call(reply)))
  {
    if s.worker.pc.Writing? {
      WritingGuards(cfg, s, reply);
      hide Inv, GuardInv, StepWriting;
      SameGuards(s, Apply(cfg, s, Call(reply)).store, s.poolWorkers, Apply(cfg, s, Call(reply)).worker);
    } else {
      StepFewer(cfg, s.store, s.worker.key, s.worker.c, s.worker.pc, reply);
      StepFrame(cfg, s.store, s.worker.key, s.worker.c, s.worker.pc, reply);
      hide Step, Inv, GuardInv, Fewer;
      FewerGuarded(s, Apply(cfg, s, Call(reply)).store, Apply(cfg, s, Call(reply)).worker);
    }
  }

  /** The claim worker does not matter. */
  lemma SameGuards(s: State, st': Store, pws: map<PoolKey, PoolWorker>, w: Worker)
    requires GuardInv(s.(store := st', poolWorkers := pws))
    ensures GuardInv(s.(store := st', poolWorkers := pws, worker := w))
  {
  }

  lemma PoolBeginGuards(s: State, pk: PoolKey)
    requires GuardInv(s) && pk in s.store.pools
    ensures GuardInv(s.(poolWorkers := s.poolWorkers[pk := PoolListing(s.store.pools[pk])]))
  {
    hide Unused, PoolGuards;
  }

  lemma EventGuards(cfg: Config, s: State, e: Event)
    requires Inv(cfg, s) && GuardInv(s) && Legal(cfg, s, e) && NoExposure(s, e)
    ensures GuardInv(Apply(cfg, s, e))
  {
    hide Inv, LegalAction, LegalReply;
    match e
    case Begin(key, reply) =>
      hide GuardInv;
      assert Start(s.store, key, reply).store == s.store;
      SameGuards(s, s.store, s.poolWorkers, Start(s.store, key, reply).worker);
    case Call(reply) => CallGuards(cfg, s, reply);
    case PoolBegin(pk) =>
      if pk in s.store.pools {
        PoolBeginGuards(s, pk);
      }
    case PoolCall(pk, reply) => PoolCallGuards(cfg, s, pk, reply);
    case Crash =>
      hide Guarded;
    case Other(a) => ActionGuards(cfg, s, a);
  }

  lemma InitGuards(cfg: Config, s: State)
    requires Init(cfg, s)
    ensures GuardInv(s)
  {
  }

  lemma {:induction false} RunGuards(cfg: Config, s: State, run: seq<Event>)
    requires Sound(cfg) && Inv(cfg, s) && GuardInv(s) && LegalRun(cfg, s, run) && Along(cfg, s, run, NoExposure)
    ensures Inv(cfg, Final(cfg, s, run)) && GuardInv(Final(cfg, s, run))
    decreases |run|
  {
    hide Inv, GuardInv, Legal, Apply, NoExposure;
    if run != [] {
      EventKeeps(cfg, s, run[0]);
      EventGuards(cfg, s, run[0]);
      RunGuards(cfg, Apply(cfg, s, run[0]), run[1..]);
    }
  }

  // ---- The exact condition ----

  lemma ExposureBreaksGuard(cfg: Config, s: State, e: Event)
    requires Legal(cfg, s, e) && Exposes(s, e)
    ensures !GuardInv(Apply(cfg, s, e))
  {
    var st, key, next := s.store, s.worker.key, s.worker.pc.next;
    var pk := PoolKeyOf(key.namespace, next.poolRef).value;
    var s' := Apply(cfg, s, e);
    assert s'.store.addresses == WriteAddress(st, key, next).addresses && s'.poolWorkers == s.poolWorkers by {
      hide WriteAddress;
    }
    assert key in s'.store.addresses && s'.store.addresses[key].poolRef == next.poolRef;
    hide Apply, Legal, LetsGo, KeepsFinalizer, PoolKeyOf, Guarded, WriteAddress;
    assert !Unused(s'.store.addresses, pk);
  }

  /** An event keeps the pools guarded if and only if it does not create an address of a pool that is being let go. */
  lemma GuardedUnlessExposed(cfg: Config, s: State, e: Event)
    requires Inv(cfg, s) && GuardInv(s) && Legal(cfg, s, e)
    ensures GuardInv(Apply(cfg, s, e)) <==> !Exposes(s, e)
  {
    hide Inv, GuardInv, Legal, Apply, Exposes;
    if Exposes(s, e) {
      ExposureBreaksGuard(cfg, s, e);
    } else {
      assert NoExposure(s, e);
      EventGuards(cfg, s, e);
    }
  }

  // ---- The theorem ----

  /** If no address is created for a pool that a pass under way is letting go, an address whose pool held the
      finalizer at its creation always has its pool: the finalizer is still there, and a delete pass of the claim
      goes on to release through that pool unless it is paused or its read fails. */
  lemma GuardedPoolIsFound(cfg: Config, s0: State, run: seq<Event>, key: Key, reply: Reply)
    requires Sound(cfg) && Init(cfg, s0) && LegalRun(cfg, s0, run) && Along(cfg, s0, run, NoExposure)
    requires key in Final(cfg, s0, run).store.addresses && Final(cfg, s0, run).store.addresses[key].guarded
    ensures var st := Final(cfg, s0, run).store;
      && key in st.claims
      && var pk := PoolKeyOf(key.namespace, st.claims[key].poolRef);
      && pk.Some? && pk.value in st.pools && st.pools[pk.value].finalizer
      && (!reply.Failed? && !st.pools[pk.value].paused && st.claims[key].deleting ==>
            StepFetching(st, key, st.claims[key], reply) == At(st, key, st.claims[key], ReleaseGetting(st.pools[pk.value])))
  {
    InitHolds(cfg, s0);
    InitGuards(cfg, s0);
    RunGuards(cfg, s0, run);
    var st := Final(cfg, s0, run).store;
    assert Addresses(st) && PoolGuards(st, key, st.addresses[key]);
  }
}
