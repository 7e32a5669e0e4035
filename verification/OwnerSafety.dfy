/** Every address is controlled by its own claim and blocked by its pool, over any run. */
module OwnerSafety {
  import opened Wrappers
  import opened Prefixes
  import opened Annotations
  import opened AddressText
  import opened Index
  import opened Owners
  import opened Model
  import opened Protocol
  import opened Frames
  import opened PoolProtocol
  import opened System
  import opened ClaimSafety
  import opened PoolGuard

  // ---- The invariant ----

  predicate Supported(key: Key, c: Claim) {
    PoolKeyOf(key.namespace, c.poolRef).Some?
  }

  /** The pool is an owner that does not control but blocks deletion. */
  ghost predicate HeldByPool(owners: seq<Owner>, ref: PoolRef) {
    exists o :: o in owners && o.group == IPAM_GROUP && o.version == "v1alpha1" && o.kind == ref.kind && o.name == ref.name
                && o.controller == Some(false) && o.blockOwnerDeletion == Some(true)
  }

  ghost predicate WellOwned(key: Key, c: Claim, owners: seq<Owner>) {
    Supported(key, c) && ControllerOf(owners) == Some(ClaimOwner(key, c)) && HeldByPool(owners, c.poolRef)
  }

  /** The claim may take control: there is no controller, or an earlier reference to the claim. */
  predicate Ownable(key: Key, c: Claim, owners: seq<Owner>) {
    Supported(key, c) && Controllable(owners, ClaimOwner(key, c))
  }

  ghost predicate OwnedAddresses(st: Store) {
    forall k :: k in st.addresses && k in st.claims ==> WellOwned(k, st.claims[k], st.addresses[k].owners)
  }

  ghost predicate PcOwned(key: Key, c: Claim, pc: Pc) {
    match pc
    case Getting(_) => Supported(key, c)
    case Finding(_, _, base) => Ownable(key, c, base.owners)
    case CheckingField(_, _, base) => Ownable(key, c, base.owners)
    case Resolving(_, _, base) => Ownable(key, c, base.owners)
    case Allocating(_, _, base, _, _) => Ownable(key, c, base.owners)
    case LookingUpIDs(_, _, base, _) => Ownable(key, c, base.owners)
    case LookingUpDetails(_, _, base, _, _) => Ownable(key, c, base.owners)
    case Writing(_, next) => WellOwned(key, c, next.owners)
    case _ => true
  }

  ghost predicate OwnedOutcome(o: Outcome) {
    OwnedAddresses(o.store) && (o.worker.Busy? ==> PcOwned(o.worker.key, o.worker.c, o.worker.pc))
  }

  ghost predicate OwnedInv(s: State) {
    OwnedOutcome(Outcome(s.store, s.worker))
  }

  // ---- Steps of the claim worker ----

  lemma FinishOwns(base: Address, key: Key, c: Claim, pool: Pool)
    requires Ownable(key, c, base.owners)
    ensures WellOwned(key, c, Finish(base, key, c, pool).owners)
  {
    var claim, ref := ClaimOwner(key, c), PoolOwner(c.poolRef, pool);
    assert NotControlledBy(base.owners, ref);
    hide ControllerOf;
    ControllerStays(base.owners, claim, ref);
    EnsuredOwners(base.owners, claim, ref);
    hide Ensured;
  }

  /** The pass goes on for the same claim with a step that fits. */
  ghost predicate OwnsOn(key: Key, c: Claim, o: Outcome) {
    o.worker.Busy? ==> o.worker.key == key && o.worker.c == c && PcOwned(key, c, o.worker.pc)
  }

  lemma ToWriteOwns(st: Store, key: Key, c: Claim, pool: Pool, existing: Option<Address>, base: Address)
    requires Ownable(key, c, base.owners)
    ensures OwnsOn(key, c, ToWrite(st, key, c, pool, existing, base))
  {
    FinishOwns(base, key, c, pool);
    hide Finish, WellOwned;
  }

  lemma LookUpGatewayOwns(cfg: Config, st: Store, key: Key, c: Claim, pool: Pool, existing: Option<Address>, base: Address,
                          ids: seq<int>, mode: Mode)
    requires Ownable(key, c, base.owners)
    ensures OwnsOn(key, c, LookUpGateway(cfg, st, key, c, pool, existing, base, ids, mode))
  {
    hide ToWrite, GatewayFrom, Controllable, PoolKeyOf;
    ToWriteOwns(st, key, c, pool, existing, base.(gateway := GatewayFrom(cfg, pool.status.details, base, mode)));
  }

  lemma GettingOwns(st: Store, key: Key, c: Claim, pool: Pool, reply: Reply)
    requires OwnedAddresses(st) && Current(st, key, c) && Supported(key, c)
    ensures OwnsOn(key, c, StepGetting(st, key, c, pool, reply))
  {
    hide ToWrite, PoolKeyOf;
    var existing := Lookup(st.addresses, key);
    var base := if existing.Some? then existing.value else NewIPAddress(key, c);
    assert Ownable(key, c, base.owners) by {
      hide HeldByPool;
      assert key in st.addresses ==> WellOwned(key, st.claims[key], st.addresses[key].owners);
    }
    hide Ownable, OwnedAddresses;
    ToWriteOwns(st, key, c, pool, existing, base);
  }

  lemma SearchOwns(cfg: Config, st: Store, key: Key, c: Claim, pc: Pc, reply: Reply)
    requires PcOwned(key, c, pc)
    requires pc.Finding? || pc.CheckingField? || pc.Resolving? || pc.Allocating?
    ensures OwnsOn(key, c, Step(cfg, st, key, c, pc, reply))
  {
    hide LookUpGateway, Ownable, ResolveIDs, MetadataOk, MapIPAddress, AddRecord;
    forall st', pool, existing, base: Address, ids, mode | Ownable(key, c, base.owners)
      ensures OwnsOn(key, c, LookUpGateway(cfg, st', key, c, pool, existing, base, ids, mode))
    {
      LookUpGatewayOwns(cfg, st', key, c, pool, existing, base, ids, mode);
    }
  }

  lemma LookingUpOwns(cfg: Config, st: Store, key: Key, c: Claim, pc: Pc, reply: Reply)
    requires PcOwned(key, c, pc)
    requires pc.LookingUpIDs? || pc.LookingUpDetails?
    ensures OwnsOn(key, c, Step(cfg, st, key, c, pc, reply))
  {
    hide ToWrite, Ownable, ResolveIDs, Build, DetailsOf, GatewayChoice, GatewayFrom;
    forall pool, existing, base: Address | Ownable(key, c, base.owners)
      ensures OwnsOn(key, c, ToWrite(st, key, c, pool, existing, base))
    {
      ToWriteOwns(st, key, c, pool, existing, base);
    }
  }

  /** Every step but the write leaves the owners of the addresses alone. */
  lemma OtherStepOwns(cfg: Config, st: Store, key: Key, c: Claim, pc: Pc, reply: Reply)
    requires OwnedAddresses(st) && Current(st, key, c) && PcOwned(key, c, pc) && !pc.Writing?
    ensures OwnsOn(key, c, Step(cfg, st, key, c, pc, reply))
  {
    hide StepGetting, StepFinding, StepCheckingField, StepResolving, StepAllocating, StepLookingUpIDs, StepLookingUpDetails,
      OwnedAddresses, PcOwned, OwnsOn, StepFetching, StepPolling, StepReleaseGetting, StepReleaseFinding, StepReleaseTrying,
      StepReleaseDeleting, StepDeleteGetting, StepDeleteUnprotecting, StepDeleteDeleting, StepPatching;
    match pc
    case Fetching => FetchingOwns(st, key, c, reply);
    case Getting(pool) =>
      assert Supported(key, c) by {
        GettingIsSupported(key, c, pool);
      }
      GettingOwns(st, key, c, pool, reply);
    case Finding(_, _, _) => SearchOwns(cfg, st, key, c, pc, reply);
    case CheckingField(_, _, _) => SearchOwns(cfg, st, key, c, pc, reply);
    case Resolving(_, _, _) => SearchOwns(cfg, st, key, c, pc, reply);
    case Allocating(_, _, _, _, _) => SearchOwns(cfg, st, key, c, pc, reply);
    case LookingUpIDs(_, _, _, _) => LookingUpOwns(cfg, st, key, c, pc, reply);
    case LookingUpDetails(_, _, _, _, _) => LookingUpOwns(cfg, st, key, c, pc, reply);
    case _ => EndOwns(cfg, st, key, c, pc, reply);
  }

  lemma GettingIsSupported(key: Key, c: Claim, pool: Pool)
    requires PcOwned(key, c, Getting(pool))
    ensures Supported(key, c)
  {
  }

  lemma FetchingOwns(st: Store, key: Key, c: Claim, reply: Reply)
    ensures OwnsOn(key, c, StepFetching(st, key, c, reply))
  {
    hide PoolKeyOf;
  }

  lemma EndOwns(cfg: Config, st: Store, key: Key, c: Claim, pc: Pc, reply: Reply)
    requires pc.Polling? || ReleasePc(pc)
    ensures OwnsOn(key, c, Step(cfg, st, key, c, pc, reply))
  {
    hide Candidates, PatchedClaim;
  }

  /** Fewer addresses, with the same owners. */
  ghost predicate SameOwners(st: Store, st': Store) {
    forall k :: k in st'.addresses ==> k in st.addresses && st'.addresses[k].owners == st.addresses[k].owners
  }

  /** Claims that have an address keep UID and pool. */
  ghost predicate SameClaims(st: Store, st': Store) {
    forall k :: k in st'.claims && k in st'.addresses ==>
      k in st.claims && st'.claims[k].uid == st.claims[k].uid && st'.claims[k].poolRef == st.claims[k].poolRef
  }

  lemma SameOwnersKeep(st: Store, st': Store)
    requires OwnedAddresses(st) && SameOwners(st, st') && SameClaims(st, st')
    ensures OwnedAddresses(st')
  {
    hide ControllerOf, HeldByPool, PoolKeyOf;
    forall k | k in st'.addresses && k in st'.claims
      ensures WellOwned(k, st'.claims[k], st'.addresses[k].owners)
    {
      assert WellOwned(k, st.claims[k], st.addresses[k].owners);
    }
  }

  lemma UnprotectOwns(st: Store, key: Key)
    ensures SameOwners(st, Unprotect(st, key)) && SameClaims(st, Unprotect(st, key))
  {
    if key in st.addresses && !st.addresses[key].deleting {
      assert Unprotect(st, key).addresses == st.addresses[key := st.addresses[key].(protect := false)];
    }
  }

  lemma DeleteOwns(st: Store, key: Key)
    ensures SameOwners(st, DeleteAddress(st, key)) && SameClaims(st, DeleteAddress(st, key))
  {
    if key in st.addresses && st.addresses[key].protect {
      assert DeleteAddress(st, key).addresses == st.addresses[key := st.addresses[key].(deleting := true)];
    }
  }

  lemma PatchKeepsClaims(st: Store, key: Key, c: Claim, update: Claim, exit: Exit, meta: bool, status: bool)
    ensures SameClaims(st, PatchClaim(st, key, c, update, exit, meta, status))
    ensures PatchClaim(st, key, c, update, exit, meta, status).addresses == st.addresses
  {
    PatchIsOnlyClaims(st, key, c, update, exit, meta, status);
    if key in st.claims {
      PatchIsOneClaim(st, key, c, update, exit, meta, status);
      hide PatchClaim;
    }
  }

  lemma StepKeepsOwners(cfg: Config, st: Store, key: Key, c: Claim, pc: Pc, reply: Reply)
    requires OwnedAddresses(st) && !pc.Writing?
    ensures OwnedAddresses(Step(cfg, st, key, c, pc, reply).store)
  {
    StepLeavesOwners(cfg, st, key, c, pc, reply);
    hide Step, SameOwners, SameClaims;
    SameOwnersKeep(st, Step(cfg, st, key, c, pc, reply).store);
  }

  lemma StepLeavesOwners(cfg: Config, st: Store, key: Key, c: Claim, pc: Pc, reply: Reply)
    requires !pc.Writing?
    ensures var st' := Step(cfg, st, key, c, pc, reply).store; SameOwners(st, st') && SameClaims(st, st')
  {
    StepFrame(cfg, st, key, c, pc, reply);
    if pc.DeleteUnprotecting? {
      UnprotectOwns(st, key);
      hide Unprotect;
    } else if pc.DeleteDeleting? {
      DeleteOwns(st, key);
      hide DeleteAddress;
    } else if pc.Patching? {
      if reply.Wrote? {
        PatchKeepsClaims(st, key, c, pc.update, pc.exit, reply.meta, reply.status);
      }
      hide PatchClaim;
    } else {
      hide Step;
    }
  }

  lemma WritingOwns(st: Store, key: Key, c: Claim, existing: Option<Address>, next: Address, reply: Reply)
    requires OwnedAddresses(st) && Current(st, key, c) && WellOwned(key, c, next.owners)
    ensures OwnedOutcome(StepWriting(st, key, c, existing, next, reply))
  {
    hide PoolGuards, ControllerOf, HeldByPool, PoolKeyOf;
    var st' := WriteAddress(st, key, next);
    assert st'.claims == st.claims && st'.addresses[key].owners == next.owners;
    assert forall k :: k in st'.addresses && k != key ==> k in st.addresses && st'.addresses[k] == st.addresses[k];
    hide WriteAddress;
    forall k | k in st'.addresses && k in st'.claims
      ensures WellOwned(k, st'.claims[k], st'.addresses[k].owners)
    {
      assert k != key ==> WellOwned(k, st.claims[k], st.addresses[k].owners);
    }
    hide WellOwned;
  }

  lemma CallOwned(cfg: Config, s: State, reply: Reply)
    requires Inv(cfg, s) && OwnedInv(s) && Legal(cfg, s, Call(reply))
    ensures OwnedInv(Apply(cfg, s, Call(reply)))
  {
    var st, key, c, pc := s.store, s.worker.key, s.worker.c, s.worker.pc;
    InvIsGood(cfg, s);
    if pc.Writing? {
      hide StoreInv, OwnedAddresses, WellOwned;
      WritingOwns(st, key, c, pc.existing, pc.next, reply);
    } else if c.finalizer {
      hide StoreInv;
      StepKeepsOwners(cfg, st, key, c, pc, reply);
      OtherStepOwns(cfg, st, key, c, pc, reply);
      hide Step, PcOwned, OwnedAddresses;
    } else {
      hide StoreInv;
      StepKeepsOwners(cfg, st, key, c, pc, reply);
      EndOwns(cfg, st, key, c, pc, reply);
      hide Step, PcOwned, OwnedAddresses;
    }
  }

  // ---- Every event ----

  lemma UpdateOwns(st: Store, key: Key, f: Claim -> Claim)
    requires forall c :: Kin(c, f(c))
    ensures SameOwners(st, UpdateClaim(st, key, f)) && SameClaims(st, UpdateClaim(st, key, f))
  {
    assert key in st.claims ==> Kin(st.claims[key], f(st.claims[key]));
  }

  lemma CreateClaimOwns(cfg: Config, s: State, key: Key, claim: Claim)
    requires Inv(cfg, s) && LegalAction(cfg, s, CreateClaim(key, claim))
    ensures SameOwners(s.store, Act(s.store, CreateClaim(key, claim))) && SameClaims(s.store, Act(s.store, CreateClaim(key, claim)))
  {
    assert Addresses(s.store);
    hide Inv;
    ActCreates(s.store, key, claim);
    hide Act;
  }

  lemma ActionKeepsOwners(cfg: Config, s: State, a: Action)
    requires Inv(cfg, s) && LegalAction(cfg, s, a)
    ensures SameOwners(s.store, Act(s.store, a)) && SameClaims(s.store, Act(s.store, a))
  {
    hide Inv, UpdateClaim, DeleteAddress, UpdatePool, SameOwners, SameClaims, LegalAction;
    var st := s.store;
    match a
    case MarkAddress(key) => DeleteOwns(st, key);
    case EditClaim(key, annotations, clusterLabel) =>
      UpdateOwns(st, key, (c: Claim) => c.(annotations := annotations, clusterLabel := clusterLabel));
    case DeleteClaim(key) => UpdateOwns(st, key, (c: Claim) => c.(deleting := true));
    case ReleaseClaim(key) => UpdateOwns(st, key, (c: Claim) => c.(held := false));
    case CreateClaim(key, claim) => CreateClaimOwns(cfg, s, key, claim);
    case _ => OtherActionOwns(cfg, s, a);
  }

  lemma OtherActionOwns(cfg: Config, s: State, a: Action)
    requires LegalAction(cfg, s, a)
    requires !a.CreateClaim? && !a.EditClaim? && !a.DeleteClaim? && !a.ReleaseClaim? && !a.MarkAddress?
    ensures SameOwners(s.store, Act(s.store, a)) && SameClaims(s.store, Act(s.store, a))
  {
    OtherActionSameCore(cfg, s, a);
    hide Act;
  }

  lemma ActionOwned(cfg: Config, s: State, a: Action)
    requires Inv(cfg, s) && OwnedAddresses(s.store) && LegalAction(cfg, s, a)
    ensures OwnedAddresses(Act(s.store, a))
  {
    ActionKeepsOwners(cfg, s, a);
    hide Act, Inv, SameOwners, SameClaims, LegalAction;
    SameOwnersKeep(s.store, Act(s.store, a));
  }

  lemma EventOwned(cfg: Config, s: State, e: Event)
    requires Inv(cfg, s) && OwnedInv(s) && Legal(cfg, s, e)
    ensures OwnedInv(Apply(cfg, s, e))
  {
    hide LegalReply, LegalAction, WellOwned;
    match e
    case Begin(key, reply) =>
      assert Start(s.store, key, reply).store == s.store;
    case Call(reply) => CallOwned(cfg, s, reply);
    case PoolBegin(pk) =>
    case PoolCall(pk, reply) => hide PoolStep, PcOwned;
    case Crash =>
    case Other(a) =>
      ActionOwned(cfg, s, a);
      hide Act, PcOwned;
  }

  lemma {:induction false} RunOwned(cfg: Config, s: State, run: seq<Event>)
    requires Sound(cfg) && Inv(cfg, s) && OwnedInv(s) && LegalRun(cfg, s, run)
    ensures OwnedInv(Final(cfg, s, run))
    decreases |run|
  {
    hide Inv, OwnedInv, Legal, Apply;
    if run != [] {
      EventKeeps(cfg, s, run[0]);
      EventOwned(cfg, s, run[0]);
      RunOwned(cfg, Apply(cfg, s, run[0]), run[1..]);
    }
  }

  // ---- The theorem ----

  /** In every reachable state an address names its claim and the claim's pool. It has its own claim, by UID, as its
      one effective controller, and its pool as an owner that only blocks deletion. */
  lemma AddressIsOwned(cfg: Config, s0: State, run: seq<Event>, key: Key)
    requires Sound(cfg) && Init(cfg, s0) && LegalRun(cfg, s0, run)
    requires key in Final(cfg, s0, run).store.addresses
    ensures var st := Final(cfg, s0, run).store;
      && key in st.claims
      && var a, c := st.addresses[key], st.claims[key];
      && a.claimName == key.name && a.poolRef == PoolRef("ipam.cluster.x-k8s.io", c.poolRef.kind, c.poolRef.name)
      && ControllerOf(a.owners) ==
           Some(Owner("ipam.cluster.x-k8s.io", "v1beta2", "IPAddressClaim", key.name, c.uid, Some(true), Some(true)))
      && HeldByPool(a.owners, c.poolRef)
  {
    OwnedAtEnd(cfg, s0, run);
    var st := Final(cfg, s0, run).store;
    assert Addresses(st);
    assert WellOwned(key, st.claims[key], st.addresses[key].owners);
  }

  /** In every reachable state the indexed listing of a pool holds exactly the addresses whose claims refer to
      that pool. */
  lemma ListingIsExact(cfg: Config, s0: State, run: seq<Event>, pk: PoolKey, key: Key)
    requires Sound(cfg) && Init(cfg, s0) && LegalRun(cfg, s0, run) && IsPoolKey(pk)
    ensures var st := Final(cfg, s0, run).store;
      key in Listing(st.addresses, pk) <==>
        key in st.addresses && key in st.claims && PoolKeyOf(key.namespace, st.claims[key].poolRef) == Some(pk)
  {
    hide LegalRun, Final, OwnedInv, Inv, Listing, PoolKeyOf, IsPoolKey;
    OwnedAtEnd(cfg, s0, run);
    ListedIffReferred(cfg, Final(cfg, s0, run), pk, key);
  }

  lemma OwnedAtEnd(cfg: Config, s0: State, run: seq<Event>)
    requires Sound(cfg) && Init(cfg, s0) && LegalRun(cfg, s0, run)
    ensures Inv(cfg, Final(cfg, s0, run)) && OwnedInv(Final(cfg, s0, run))
  {
    InitHolds(cfg, s0);
    assert OwnedInv(s0);
    hide Inv, OwnedInv;
    RunKeeps(cfg, s0, run);
    RunOwned(cfg, s0, run);
  }

  lemma ListedIffReferred(cfg: Config, s: State, pk: PoolKey, key: Key)
    requires Inv(cfg, s) && OwnedInv(s) && IsPoolKey(pk)
    ensures key in Listing(s.store.addresses, pk) <==>
      key in s.store.addresses && key in s.store.claims && PoolKeyOf(key.namespace, s.store.claims[key].poolRef) == Some(pk)
  {
    var st := s.store;
    if key in st.addresses {
      assert key in st.claims && Describes(st.addresses[key], key, st.claims[key]) && Supported(key, st.claims[key]) by {
        assert Addresses(st);
        assert WellOwned(key, st.claims[key], st.addresses[key].owners);
      }
      hide Inv, OwnedInv;
      ListedIffOwn(st.addresses, key, pk);
    }
  }

  lemma ListedIffOwn(addresses: map<Key, Address>, key: Key, pk: PoolKey)
    requires key in addresses && PoolKeyOf(key.namespace, addresses[key].poolRef).Some? && IsPoolKey(pk)
    ensures key in Listing(addresses, pk) <==> PoolKeyOf(key.namespace, addresses[key].poolRef) == Some(pk)
  {
    IndexKeyInjective(addresses[key].poolRef, PoolRef(IPAM_GROUP, pk.kind, pk.name));
    hide IPPoolRefValue;
  }
}
