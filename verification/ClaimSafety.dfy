/** What every reachable state keeps: one record per claim, no record without its claim, and no record left
    behind by a release that found its pool. */
module ClaimSafety {
  import opened Wrappers
  import opened Prefixes
  import opened Gateway
  import opened Index
  import opened Annotations
  import opened AddressText
  import opened Owners
  import opened Model
  import opened Protocol
  import opened Frames
  import opened PoolProtocol
  import opened System

  // ---- The invariant of the stores ----

  /** The claim of that UID exists and holds the release finalizer. */
  predicate Registered(st: Store, key: Key, uid: Uid) {
    key in st.claims && st.claims[key].uid == uid && st.claims[key].finalizer
  }

  ghost predicate Identity(st: Store) {
    && (forall k :: k in st.claims ==> st.claims[k].uid in st.born && st.born[st.claims[k].uid] == k)
    && st.released !! st.abandoned
  }

  /** A claim whose finalizer a delete pass dropped never gets it back. */
  predicate Finished(st: Store, uid: Uid) {
    && uid in st.born
    && (var k := st.born[uid]; k in st.claims && st.claims[k].uid == uid ==> st.claims[k].deleting && !st.claims[k].finalizer)
  }

  ghost predicate Endings(st: Store) {
    forall u :: u in st.released || u in st.abandoned ==> Finished(st, u)
  }

  /** The address names its claim and the claim's pool. */
  predicate Describes(a: Address, key: Key, c: Claim) {
    a.claimName == key.name && a.poolRef == PoolRef("ipam.cluster.x-k8s.io", c.poolRef.kind, c.poolRef.name)
  }

  /** An address only exists beside its registered claim. */
  ghost predicate Addresses(st: Store) {
    forall k :: k in st.addresses ==>
      k in st.claims && st.claims[k].finalizer && Describes(st.addresses[k], k, st.claims[k])
  }

  ghost predicate UniqueRecords(cfg: Config, st: Store) {
    forall i, j, u: Uid | i in st.records && j in st.records && Carries(cfg, st.records[i], u) && Carries(cfg, st.records[j], u) :: i == j
  }

  predicate Accounted(st: Store, uid: Uid) {
    uid in st.abandoned || (uid in st.born && Registered(st, st.born[uid], uid))
  }

  ghost predicate OwnedRecords(cfg: Config, st: Store) {
    forall i, u: Uid :: i in st.records && Carries(cfg, st.records[i], u) ==> Accounted(st, u)
  }

  ghost predicate StoreInv(cfg: Config, st: Store) {
    Identity(st) && Endings(st) && Addresses(st) && UniqueRecords(cfg, st) && OwnedRecords(cfg, st)
  }

  // ---- The invariant of the claim worker ----

  /** The claim as read is still the stored one, up to what others may change. */
  predicate Current(st: Store, key: Key, c: Claim) {
    && c.finalizer && Registered(st, key, c.uid)
    && (c.deleting ==> st.claims[key].deleting)
    && st.claims[key].poolRef == c.poolRef
  }

  /** What holds at a step of a pass over a registered claim: whom the address in the making belongs to, when
      no record carries the claim's UID, and that only deleted claims are released. */
  ghost predicate PcInv(cfg: Config, st: Store, key: Key, c: Claim, pc: Pc) {
    match pc
    case Fetching => true
    case Getting(_) => true
    case Finding(_, _, base) => Describes(base, key, c)
    case CheckingField(_, _, base) => Describes(base, key, c) && NoRecord(cfg, st, c.uid)
    case Resolving(_, _, base) => Describes(base, key, c) && NoRecord(cfg, st, c.uid)
    case Allocating(_, _, base, _, _) => Describes(base, key, c) && NoRecord(cfg, st, c.uid)
    case LookingUpIDs(_, _, base, _) => Describes(base, key, c)
    case LookingUpDetails(_, _, base, _, _) => Describes(base, key, c)
    case Writing(_, next) => Describes(next, key, c)
    case Polling(_) => true
    case ReleaseGetting(_) => c.deleting
    case ReleaseFinding(_) => c.deleting
    case ReleaseTrying(_) => c.deleting && NoRecord(cfg, st, c.uid)
    case ReleaseDeleting(id) => c.deleting && forall i :: i in st.records && i != id ==> !Carries(cfg, st.records[i], c.uid)
    case DeleteGetting(withPool) => c.deleting && (withPool ==> NoRecord(cfg, st, c.uid))
    case DeleteUnprotecting(withPool) => c.deleting && (withPool ==> NoRecord(cfg, st, c.uid))
    case DeleteDeleting(withPool) =>
      c.deleting && (withPool ==> NoRecord(cfg, st, c.uid)) && (key in st.addresses ==> !st.addresses[key].protect)
    case Patching(update, exit) =>
      && update.finalizer == exit.Kept?
      && (!exit.Kept? ==> c.deleting && key !in st.addresses)
      && (exit.Released? ==> NoRecord(cfg, st, c.uid))
  }

  /** A pass over a claim without the finalizer only registers it. */
  ghost predicate WorkerInv(cfg: Config, st: Store, key: Key, c: Claim, pc: Pc) {
    && c.uid in st.born && st.born[c.uid] == key
    && (if c.finalizer then Current(st, key, c) && PcInv(cfg, st, key, c, pc)
        else pc == Patching(c.(finalizer := true), Kept))
  }

  ghost predicate Good(cfg: Config, o: Outcome) {
    StoreInv(cfg, o.store) && (o.worker.Busy? ==> WorkerInv(cfg, o.store, o.worker.key, o.worker.c, o.worker.pc))
  }

  ghost predicate Inv(cfg: Config, s: State) {
    Good(cfg, Outcome(s.store, s.worker))
  }

  // ---- Steps of a live claim ----

  /** The store is as before and the pass goes on with a step that fits. */
  ghost predicate GoesOn(cfg: Config, st: Store, key: Key, c: Claim, o: Outcome) {
    o.store == st && o.worker.Busy? && o.worker.key == key && o.worker.c == c && PcInv(cfg, st, key, c, o.worker.pc)
  }

  /** The pass is over the claim as stored. */
  ghost predicate Tracks(st: Store, key: Key, c: Claim) {
    c.uid in st.born && st.born[c.uid] == key && Current(st, key, c)
  }

  lemma GoingOnIsGood(cfg: Config, st: Store, key: Key, c: Claim, o: Outcome)
    requires StoreInv(cfg, st) && Tracks(st, key, c) && GoesOn(cfg, st, key, c, o)
    ensures Good(cfg, o)
  {
  }

  lemma ReportGoesOn(cfg: Config, st: Store, key: Key, c: Claim, reason: Reason)
    requires c.finalizer
    ensures GoesOn(cfg, st, key, c, Report(st, key, c, reason))
  {
  }

  lemma ToWriteGoesOn(cfg: Config, st: Store, key: Key, c: Claim, pool: Pool, existing: Option<Address>, base: Address)
    requires Describes(base, key, c)
    ensures GoesOn(cfg, st, key, c, ToWrite(st, key, c, pool, existing, base))
  {
    hide Ensured;
    assert Finish(base, key, c, pool).poolRef == base.poolRef;
  }

  lemma LookUpGatewayGoesOn(cfg: Config, st: Store, key: Key, c: Claim, pool: Pool, existing: Option<Address>, base: Address,
                            ids: seq<int>, mode: Mode)
    requires Describes(base, key, c)
    ensures GoesOn(cfg, st, key, c, LookUpGateway(cfg, st, key, c, pool, existing, base, ids, mode))
  {
    hide ToWrite, GatewayFrom;
    ToWriteGoesOn(cfg, st, key, c, pool, existing, base.(gateway := GatewayFrom(cfg, pool.status.details, base, mode)));
  }

  lemma FetchingKeeps(cfg: Config, st: Store, key: Key, c: Claim, reply: Reply)
    requires StoreInv(cfg, st) && c.finalizer
    ensures GoesOn(cfg, st, key, c, StepFetching(st, key, c, reply))
  {
    hide StoreInv, PoolKeyOf;
  }

  lemma GettingKeeps(cfg: Config, st: Store, key: Key, c: Claim, pool: Pool, reply: Reply)
    requires Addresses(st) && Current(st, key, c)
    ensures GoesOn(cfg, st, key, c, StepGetting(st, key, c, pool, reply))
  {
    hide ToWrite;
    var existing := Lookup(st.addresses, key);
    var base := if existing.Some? then existing.value else NewIPAddress(key, c);
    ToWriteGoesOn(cfg, st, key, c, pool, existing, base);
  }

  lemma FindingKeeps(cfg: Config, st: Store, key: Key, c: Claim, pool: Pool, existing: Option<Address>, base: Address, reply: Reply)
    requires c.finalizer && Describes(base, key, c) && LegalByUID(cfg, st, c.uid, reply)
    ensures GoesOn(cfg, st, key, c, StepFinding(cfg, st, key, c, pool, existing, base, reply))
  {
    hide LookUpGateway, MapIPAddress;
    if reply.Found? {
      LookUpGatewayGoesOn(cfg, st, key, c, pool, existing, WithText(base, st.records[reply.id].text), pool.status.resolved, ByAddress);
    }
  }

  lemma StartAllocatingGoesOn(cfg: Config, st: Store, key: Key, c: Claim, pool: Pool, existing: Option<Address>, base: Address, ids: seq<int>)
    requires c.finalizer && Describes(base, key, c) && NoRecord(cfg, st, c.uid)
    ensures GoesOn(cfg, st, key, c, StartAllocating(cfg, st, key, c, pool, existing, base, ids))
  {
    hide MetadataOk;
  }

  lemma CheckingFieldKeeps(cfg: Config, st: Store, key: Key, c: Claim, pool: Pool, existing: Option<Address>, base: Address, reply: Reply)
    requires c.finalizer && Describes(base, key, c) && NoRecord(cfg, st, c.uid)
    ensures GoesOn(cfg, st, key, c, StepCheckingField(cfg, st, key, c, pool, existing, base, reply))
  {
    hide StartAllocating;
    StartAllocatingGoesOn(cfg, st, key, c, pool, existing, base, pool.status.resolved);
  }

  lemma ResolvingKeeps(cfg: Config, st: Store, key: Key, c: Claim, pool: Pool, existing: Option<Address>, base: Address, reply: Reply)
    requires c.finalizer && Describes(base, key, c) && NoRecord(cfg, st, c.uid)
    ensures GoesOn(cfg, st, key, c, StepResolving(cfg, st, key, c, pool, existing, base, reply))
  {
    hide StartAllocating, ResolveIDs;
    var ids := ResolveIDs(st.prefixes, pool.spec.gateways.prefixes);
    if ids.Ok? {
      StartAllocatingGoesOn(cfg, st, key, c, pool, existing, base, ids.value);
    }
  }

  lemma LookingUpKeeps(cfg: Config, st: Store, key: Key, c: Claim, pool: Pool, existing: Option<Address>, base: Address, ids: seq<int>, mode: Mode, reply: Reply)
    requires c.finalizer && Describes(base, key, c)
    ensures GoesOn(cfg, st, key, c, StepLookingUpIDs(cfg, st, key, c, pool, existing, base, mode, reply))
    ensures GoesOn(cfg, st, key, c, StepLookingUpDetails(cfg, st, key, c, pool, existing, base, ids, mode, reply))
  {
    hide ToWrite, GatewayFrom, ResolveIDs, Build, DetailsOf, GatewayChoice;
    forall entries: seq<ResolvedPrefix>
      ensures GoesOn(cfg, st, key, c, WithGateway(cfg, st, key, c, pool, existing, base, entries, mode))
    {
      ToWriteGoesOn(cfg, st, key, c, pool, existing, base.(gateway := GatewayFrom(cfg, entries, base, mode)));
    }
  }

  lemma PollingKeeps(cfg: Config, st: Store, key: Key, c: Claim, next: Address, reply: Reply)
    requires c.finalizer
    ensures GoesOn(cfg, st, key, c, StepPolling(st, key, c, next, reply))
  {
  }

  // ---- Creating a record and an address ----

  /** The one new record is the claim's first. */
  lemma AddRecordKeeps(cfg: Config, st: Store, key: Key, c: Claim, pool: Pool, prefix: int, id: int, text: string)
    requires Sound(cfg) && StoreInv(cfg, st) && Tracks(st, key, c)
    requires NoRecord(cfg, st, c.uid) && id !in st.records && MetadataOk(cfg, c, pool)
    ensures StoreInv(cfg, AddRecord(cfg, st, key, c, pool, prefix, id, text))
    ensures Tracks(AddRecord(cfg, st, key, c, pool, prefix, id, text), key, c)
  {
    hide NewRecord, Effective, Carries;
    forall u: Uid
      ensures Carries(cfg, NewRecord(cfg, key, c, pool, prefix, text), u) <==> u == c.uid
    {
      NewRecordCarries(cfg, key, c, pool, prefix, text, u);
    }
    var st' := AddRecord(cfg, st, key, c, pool, prefix, id, text);
    forall i, u: Uid | i in st'.records && Carries(cfg, st'.records[i], u)
      ensures Accounted(st', u)
    {
      assert i != id ==> Accounted(st, u);
    }
  }

  lemma AllocatingKeeps(cfg: Config, st: Store, key: Key, c: Claim, pool: Pool, existing: Option<Address>, base: Address, ids: seq<int>, i: nat, reply: Reply)
    requires Sound(cfg) && StoreInv(cfg, st) && WorkerInv(cfg, st, key, c, Allocating(pool, existing, base, ids, i))
    requires LegalReply(cfg, st, c, Allocating(pool, existing, base, ids, i), reply)
    ensures Good(cfg, StepAllocating(cfg, st, key, c, pool, existing, base, ids, i, reply))
  {
    var pc := Allocating(pool, existing, base, ids, i);
    assert reply.Granted? || reply.GrantLost? ==> reply.id !in st.records;
    hide LegalReply, StepAllocating, MetadataOk, StoreInv, WorkerInv, PcInv, Good, Tracks;
    WorkerParts(cfg, st, key, c, pc);
    if i < |ids| && MetadataOk(cfg, c, pool) && (reply.Granted? || reply.GrantLost?) {
      GrantKeeps(cfg, st, key, c, pc, reply);
    } else {
      RefusalGoesOn(cfg, st, key, c, pc, reply);
      GoingOnIsGood(cfg, st, key, c, StepAllocating(cfg, st, key, c, pool, existing, base, ids, i, reply));
    }
  }

  lemma RefusalGoesOn(cfg: Config, st: Store, key: Key, c: Claim, pc: Pc, reply: Reply)
    requires pc.Allocating? && PcInv(cfg, st, key, c, pc) && c.finalizer
    requires pc.i >= |pc.ids| || !MetadataOk(cfg, c, pc.pool) || (!reply.Granted? && !reply.GrantLost?)
    ensures GoesOn(cfg, st, key, c, StepAllocating(cfg, st, key, c, pc.pool, pc.existing, pc.base, pc.ids, pc.i, reply))
  {
    hide LookUpGateway, MetadataOk, NoRecord, AddRecord;
  }

  lemma GrantKeeps(cfg: Config, st: Store, key: Key, c: Claim, pc: Pc, reply: Reply)
    requires Sound(cfg) && StoreInv(cfg, st) && Tracks(st, key, c) && pc.Allocating? && PcInv(cfg, st, key, c, pc)
    requires pc.i < |pc.ids| && MetadataOk(cfg, c, pc.pool) && (reply.Granted? || reply.GrantLost?) && reply.id !in st.records
    ensures Good(cfg, StepAllocating(cfg, st, key, c, pc.pool, pc.existing, pc.base, pc.ids, pc.i, reply))
  {
    var prefix := pc.ids[pc.i];
    var base := WithText(pc.base, reply.text);
    assert Describes(base, key, c) && c.finalizer && NoRecord(cfg, st, c.uid) by {
      hide MapIPAddress, NoRecord;
    }
    hide LookUpGateway, MetadataOk, StoreInv, AddRecord, PcInv, Good, GoesOn, Tracks, Describes, NoRecord, WithText;
    AddRecordKeeps(cfg, st, key, c, pc.pool, prefix, reply.id, reply.text);
    var st' := AddRecord(cfg, st, key, c, pc.pool, prefix, reply.id, reply.text);
    if reply.Granted? {
      LookUpGatewayGoesOn(cfg, st', key, c, pc.pool, pc.existing, base, pc.ids, ByPrefix(prefix));
      GoingOnIsGood(cfg, st', key, c, LookUpGateway(cfg, st', key, c, pc.pool, pc.existing, base, pc.ids, ByPrefix(prefix)));
    } else {
      ReportGoesOn(cfg, st', key, c, AllocationFailed);
      GoingOnIsGood(cfg, st', key, c, Fail(st', key, c));
    }
  }

  lemma WorkerParts(cfg: Config, st: Store, key: Key, c: Claim, pc: Pc)
    requires WorkerInv(cfg, st, key, c, pc) && pc.Allocating?
    ensures c.finalizer && Tracks(st, key, c) && PcInv(cfg, st, key, c, pc)
  {
  }

  /** A change of the addresses alone keeps the invariant if the addresses still fit their claims. */
  lemma AddressesKeep(cfg: Config, st: Store, addresses: map<Key, Address>)
    requires StoreInv(cfg, st) && Addresses(st.(addresses := addresses))
    ensures StoreInv(cfg, st.(addresses := addresses))
  {
    hide Carries;
    var st' := st.(addresses := addresses);
    forall i, u: Uid | i in st'.records && Carries(cfg, st'.records[i], u)
      ensures Accounted(st', u)
    {
      assert Accounted(st, u);
    }
  }

  lemma WritingKeeps(cfg: Config, st: Store, key: Key, c: Claim, existing: Option<Address>, next: Address, reply: Reply)
    requires StoreInv(cfg, st) && Tracks(st, key, c) && Describes(next, key, c)
    ensures Good(cfg, StepWriting(st, key, c, existing, next, reply))
  {
    hide StoreInv, WriteAddress, Good, GoesOn, Tracks, Describes;
    var st' := WriteAddress(st, key, next);
    TracksNow(st, key, c);
    WriteAddressKeeps(cfg, st, key, c, next);
    TracksOn(st, st', key, c);
    ReportGoesOn(cfg, st, key, c, AllocationFailed);
    ReportGoesOn(cfg, st', key, c, AllocationFailed);
    GoingOnIsGood(cfg, st, key, c, Fail(st, key, c));
    GoingOnIsGood(cfg, st', key, c, Fail(st', key, c));
    GoesOnToPoll(cfg, st', key, c, next);
    GoingOnIsGood(cfg, st', key, c, At(st', key, c, Polling(next)));
  }

  lemma TracksNow(st: Store, key: Key, c: Claim)
    requires Tracks(st, key, c)
    ensures Current(st, key, c) && c.finalizer
  {
  }

  lemma TracksOn(st: Store, st': Store, key: Key, c: Claim)
    requires Tracks(st, key, c) && st' == st.(addresses := st'.addresses)
    ensures Tracks(st', key, c)
  {
  }

  lemma GoesOnToPoll(cfg: Config, st: Store, key: Key, c: Claim, next: Address)
    ensures GoesOn(cfg, st, key, c, At(st, key, c, Polling(next)))
  {
  }

  lemma WriteAddressKeeps(cfg: Config, st: Store, key: Key, c: Claim, next: Address)
    requires StoreInv(cfg, st) && Current(st, key, c) && Describes(next, key, c)
    ensures StoreInv(cfg, WriteAddress(st, key, next))
    ensures WriteAddress(st, key, next) == st.(addresses := WriteAddress(st, key, next).addresses)
  {
    hide PoolGuards;
    var st' := WriteAddress(st, key, next);
    assert Describes(st'.addresses[key], key, c);
    assert forall k :: k in st'.addresses && k != key ==> k in st.addresses && st'.addresses[k] == st.addresses[k];
    hide WriteAddress, Carries;
    AddressesKeep(cfg, st, st'.addresses);
  }

  // ---- Steps of a deleted claim ----

  lemma ReleaseGettingKeeps(cfg: Config, st: Store, key: Key, c: Claim, pool: Pool, reply: Reply)
    requires StoreInv(cfg, st) && WorkerInv(cfg, st, key, c, ReleaseGetting(pool))
    ensures Good(cfg, StepReleaseGetting(st, key, c, reply))
  {
    hide StoreInv;
  }

  /** After the lookup by UID no other record carries the UID. */
  lemma ReleaseFindingKeeps(cfg: Config, st: Store, key: Key, c: Claim, found: Option<Address>, reply: Reply)
    requires StoreInv(cfg, st) && WorkerInv(cfg, st, key, c, ReleaseFinding(found))
    requires LegalByUID(cfg, st, c.uid, reply)
    ensures Good(cfg, StepReleaseFinding(st, key, c, found, reply))
  {
    hide Candidates, Carries, StoreInv;
    if reply.Found? {
      OthersDoNotCarry(cfg, st, c.uid, reply.id);
    }
  }

  lemma OthersDoNotCarry(cfg: Config, st: Store, uid: Uid, id: int)
    requires StoreInv(cfg, st) && id in st.records && Carries(cfg, st.records[id], uid)
    ensures forall i :: i in st.records && i != id ==> !Carries(cfg, st.records[i], uid)
  {
  }

  lemma ReleaseTryingKeeps(cfg: Config, st: Store, key: Key, c: Claim, candidates: seq<string>, reply: Reply)
    requires StoreInv(cfg, st) && WorkerInv(cfg, st, key, c, ReleaseTrying(candidates))
    ensures Good(cfg, StepReleaseTrying(st, key, c, candidates, reply))
  {
    hide Carries, StoreInv;
  }

  lemma DeleteGettingKeeps(cfg: Config, st: Store, key: Key, c: Claim, withPool: bool, reply: Reply)
    requires StoreInv(cfg, st) && WorkerInv(cfg, st, key, c, DeleteGetting(withPool))
    ensures Good(cfg, StepDeleteGetting(st, key, c, withPool, reply))
  {
    hide Carries, StoreInv;
  }

  lemma ReleaseDeletingKeeps(cfg: Config, st: Store, key: Key, c: Claim, id: int, reply: Reply)
    requires StoreInv(cfg, st) && WorkerInv(cfg, st, key, c, ReleaseDeleting(id))
    ensures Good(cfg, StepReleaseDeleting(st, key, c, id, reply))
  {
    hide Carries;
    var gone := st.(records := st.records - {id});
    forall i, u: Uid | i in gone.records && Carries(cfg, gone.records[i], u)
      ensures Accounted(gone, u)
    {
      assert gone.records[i] == st.records[i] && Accounted(st, u);
    }
  }

  lemma UnprotectKeeps(cfg: Config, st: Store, key: Key)
    requires StoreInv(cfg, st)
    ensures StoreInv(cfg, Unprotect(st, key)) && Unprotect(st, key) == st.(addresses := Unprotect(st, key).addresses)
    ensures key in Unprotect(st, key).addresses ==> !Unprotect(st, key).addresses[key].protect
  {
    UnprotectIsAddresses(st, key);
    UnprotectLeaves(st, key);
    hide StoreInv, Unprotect;
    AddressesKeep(cfg, st, Unprotect(st, key).addresses) by {
      FewerFit(cfg, st, Unprotect(st, key).addresses);
    }
  }

  /** What is left of the addresses after either call. */
  ghost predicate Leaves(addresses: map<Key, Address>, addresses': map<Key, Address>) {
    forall k :: k in addresses' ==>
      k in addresses && addresses'[k].claimName == addresses[k].claimName && addresses'[k].poolRef == addresses[k].poolRef
  }

  lemma UnprotectLeaves(st: Store, key: Key)
    ensures Leaves(st.addresses, Unprotect(st, key).addresses)
    ensures key in Unprotect(st, key).addresses ==> !Unprotect(st, key).addresses[key].protect
  {
    if key in st.addresses && !st.addresses[key].deleting {
      assert Unprotect(st, key).addresses == st.addresses[key := st.addresses[key].(protect := false)];
    }
  }

  lemma DeleteLeaves(st: Store, key: Key)
    ensures Leaves(st.addresses, DeleteAddress(st, key).addresses)
    ensures key in st.addresses && !st.addresses[key].protect ==> key !in DeleteAddress(st, key).addresses
    ensures forall k :: k in DeleteAddress(st, key).addresses ==>
      k in st.addresses && DeleteAddress(st, key).addresses[k].protect == st.addresses[k].protect
  {
    if key in st.addresses && st.addresses[key].protect {
      assert DeleteAddress(st, key).addresses == st.addresses[key := st.addresses[key].(deleting := true)];
    }
  }

  lemma FewerFit(cfg: Config, st: Store, addresses: map<Key, Address>)
    requires StoreInv(cfg, st) && Leaves(st.addresses, addresses)
    ensures Addresses(st.(addresses := addresses))
  {
    assert Addresses(st);
    hide StoreInv;
  }

  lemma DeleteAddressKeeps(cfg: Config, st: Store, key: Key)
    requires StoreInv(cfg, st)
    ensures StoreInv(cfg, DeleteAddress(st, key)) && DeleteAddress(st, key) == st.(addresses := DeleteAddress(st, key).addresses)
    ensures key in st.addresses && !st.addresses[key].protect ==> key !in DeleteAddress(st, key).addresses
    ensures forall k :: k in DeleteAddress(st, key).addresses ==>
      k in st.addresses && DeleteAddress(st, key).addresses[k].protect == st.addresses[k].protect
  {
    DeleteIsAddresses(st, key);
    DeleteLeaves(st, key);
    hide StoreInv, DeleteAddress;
    AddressesKeep(cfg, st, DeleteAddress(st, key).addresses) by {
      FewerFit(cfg, st, DeleteAddress(st, key).addresses);
    }
  }

  lemma DeleteUnprotectingKeeps(cfg: Config, st: Store, key: Key, c: Claim, withPool: bool, reply: Reply)
    requires StoreInv(cfg, st) && WorkerInv(cfg, st, key, c, DeleteUnprotecting(withPool))
    ensures Good(cfg, StepDeleteUnprotecting(st, key, c, withPool, reply))
  {
    hide Carries, StoreInv, Unprotect;
    UnprotectKeeps(cfg, st, key);
  }

  lemma DeleteDeletingKeeps(cfg: Config, st: Store, key: Key, c: Claim, withPool: bool, reply: Reply)
    requires StoreInv(cfg, st) && WorkerInv(cfg, st, key, c, DeleteDeleting(withPool))
    ensures Good(cfg, StepDeleteDeleting(st, key, c, withPool, reply))
  {
    hide Carries, StoreInv, DeleteAddress, Addresses;
    DeleteAddressKeeps(cfg, st, key);
    assert key !in st.addresses ==> key !in DeleteAddress(st, key).addresses;
  }

  // ---- The closing patch ----

  /** One claim changes: it gets finalizer `fin`, or it disappears without one. */
  ghost predicate OneClaim(st: Store, st': Store, key: Key, fin: bool) {
    && (forall k :: k != key ==> (k in st'.claims <==> k in st.claims))
    && (forall k :: k != key && k in st'.claims ==> st'.claims[k] == st.claims[k])
    && (key in st'.claims ==> key in st.claims && Kin(st.claims[key], st'.claims[key]) && st'.claims[key].finalizer == fin)
    && (key in st.claims && key !in st'.claims ==> !fin)
  }

  /** The same claim, at most marked as deleted since. */
  predicate Kin(c: Claim, c': Claim) {
    c'.uid == c.uid && c'.poolRef == c.poolRef && (c.deleting ==> c'.deleting)
  }

  ghost predicate OnlyClaims(st: Store, st': Store) {
    st'.addresses == st.addresses && st'.records == st.records && st'.born == st.born
  }

  function FinalizerAfter(st: Store, key: Key, c: Claim, update: Claim, meta: bool): bool
    requires key in st.claims
  {
    if meta then PatchedFinalizer(st.claims[key].finalizer, st.claims[key].deleting, c.finalizer, update.finalizer)
    else st.claims[key].finalizer
  }

  lemma PatchIsOneClaim(st: Store, key: Key, c: Claim, update: Claim, exit: Exit, meta: bool, status: bool)
    requires key in st.claims
    ensures OneClaim(st, PatchClaim(st, key, c, update, exit, meta, status), key, FinalizerAfter(st, key, c, update, meta))
  {
  }

  lemma PatchIsOnlyClaims(st: Store, key: Key, c: Claim, update: Claim, exit: Exit, meta: bool, status: bool)
    ensures var st' := PatchClaim(st, key, c, update, exit, meta, status);
      && OnlyClaims(st, st')
      && (exit.Kept? ==> st'.released == st.released && st'.abandoned == st.abandoned)
  {
    PatchIsClaims(st, key, c, update, exit, meta, status);
    hide PatchClaim;
  }

  lemma PatchHistory(st: Store, key: Key, c: Claim, update: Claim, exit: Exit, meta: bool, status: bool)
    requires key in st.claims
    ensures var st' := PatchClaim(st, key, c, update, exit, meta, status);
      && st'.released == (if meta && exit.Released? then st.released + {c.uid} else st.released)
      && st'.abandoned == (if meta && exit.Abandoned? then st.abandoned + {c.uid} else st.abandoned)
  {
  }

  lemma EndingsKept(st: Store, st': Store, key: Key, fin: bool)
    requires Identity(st) && Endings(st) && OneClaim(st, st', key, fin) && OnlyClaims(st, st')
    requires key in st.claims && st.claims[key].deleting && !st.claims[key].finalizer ==> !fin
    ensures forall u :: u in st.released || u in st.abandoned ==> Finished(st', u)
  {
    forall u | u in st.released || u in st.abandoned
      ensures Finished(st', u)
    {
      assert Finished(st, u);
    }
  }

  lemma RecordsKept(cfg: Config, st: Store, st': Store, key: Key, fin: bool)
    requires OwnedRecords(cfg, st) && OneClaim(st, st', key, fin) && OnlyClaims(st, st') && st.abandoned <= st'.abandoned
    requires key in st.claims && st.claims[key].finalizer && !fin ==>
      st.claims[key].uid in st'.abandoned || NoRecord(cfg, st, st.claims[key].uid)
    ensures OwnedRecords(cfg, st')
  {
    hide Carries;
    forall i, u: Uid | i in st'.records && Carries(cfg, st'.records[i], u)
      ensures Accounted(st', u)
    {
      assert Accounted(st, u);
    }
  }

  /** A claim that keeps its finalizer, or gets one, keeps the invariant. */
  lemma OneClaimKeeps(cfg: Config, st: Store, st': Store, key: Key, fin: bool)
    requires StoreInv(cfg, st) && OneClaim(st, st', key, fin) && OnlyClaims(st, st')
    requires st'.released == st.released && st'.abandoned == st.abandoned
    requires key in st.claims ==> (st.claims[key].finalizer ==> fin) && (st.claims[key].deleting && !st.claims[key].finalizer ==> !fin)
    ensures StoreInv(cfg, st')
  {
    hide Carries;
    EndingsKept(st, st', key, fin);
    RecordsKept(cfg, st, st', key, fin);
    assert Identity(st');
    assert Addresses(st');
  }

  /** Dropping the finalizer leaves no record of the claim unaccounted for. */
  lemma DropKeepsStore(cfg: Config, st: Store, st': Store, key: Key, c: Claim, exit: Exit)
    requires StoreInv(cfg, st) && Tracks(st, key, c) && c.deleting && key !in st.addresses
    requires OneClaim(st, st', key, false) && OnlyClaims(st, st')
    requires st'.released == if exit.Released? then st.released + {c.uid} else st.released
    requires st'.abandoned == if exit.Abandoned? then st.abandoned + {c.uid} else st.abandoned
    requires exit.Abandoned? || NoRecord(cfg, st, c.uid)
    ensures StoreInv(cfg, st')
  {
    hide Carries;
    EndingsKept(st, st', key, false);
    RecordsKept(cfg, st, st', key, false);
    assert !Finished(st, c.uid);
    assert Finished(st', c.uid);
    assert Identity(st');
    assert Addresses(st');
  }

  lemma DroppingKeeps(cfg: Config, st: Store, key: Key, c: Claim, update: Claim, exit: Exit, status: bool)
    requires StoreInv(cfg, st) && Tracks(st, key, c) && PcInv(cfg, st, key, c, Patching(update, exit)) && !exit.Kept?
    ensures StoreInv(cfg, PatchClaim(st, key, c, update, exit, true, status))
  {
    PatchIsOneClaim(st, key, c, update, exit, true, status);
    PatchIsOnlyClaims(st, key, c, update, exit, true, status);
    PatchHistory(st, key, c, update, exit, true, status);
    hide PatchClaim, StoreInv, OneClaim, OnlyClaims;
    DropKeepsStore(cfg, st, PatchClaim(st, key, c, update, exit, true, status), key, c, exit);
  }

  lemma PatchingKeeps(cfg: Config, st: Store, key: Key, c: Claim, update: Claim, exit: Exit, reply: Reply)
    requires StoreInv(cfg, st) && WorkerInv(cfg, st, key, c, Patching(update, exit)) && reply.Wrote?
    ensures Good(cfg, StepPatching(st, key, c, update, exit, reply))
  {
    var st' := PatchClaim(st, key, c, update, exit, reply.meta, reply.status);
    if key !in st.claims {
      assert st' == st;
    } else if exit.Kept? || !reply.meta {
      PatchIsOneClaim(st, key, c, update, exit, reply.meta, reply.status);
      PatchIsOnlyClaims(st, key, c, update, exit, reply.meta, reply.status);
      PatchHistory(st, key, c, update, exit, reply.meta, reply.status);
      hide PatchClaim, StoreInv;
      OneClaimKeeps(cfg, st, st', key, FinalizerAfter(st, key, c, update, reply.meta));
    } else {
      DroppingKeeps(cfg, st, key, c, update, exit, reply.status);
    }
  }

  // ---- Every event keeps the invariant ----

  lemma CallKeeps(cfg: Config, s: State, reply: Reply)
    requires Sound(cfg) && Inv(cfg, s) && Legal(cfg, s, Call(reply))
    ensures Inv(cfg, Apply(cfg, s, Call(reply)))
  {
    hide StoreInv, GoesOn, Good, PcInv, StepFetching, StepGetting, StepFinding, StepCheckingField, StepResolving, StepAllocating,
      StepLookingUpIDs, StepLookingUpDetails, StepWriting, StepPolling, StepReleaseGetting, StepReleaseFinding, StepReleaseTrying,
      StepReleaseDeleting, StepDeleteGetting, StepDeleteUnprotecting, StepDeleteDeleting, StepPatching;
    var st, key, c := s.store, s.worker.key, s.worker.c;
    InvIsGood(cfg, s);
    if c.finalizer {
      if ReleasePc(s.worker.pc) {
        ReleaseCallKeeps(cfg, st, key, c, s.worker.pc, reply);
      } else {
        LiveCallKeeps(cfg, st, key, c, s.worker.pc, reply);
      }
    } else {
      PatchingKeeps(cfg, st, key, c, c.(finalizer := true), Kept, reply);
    }
  }

  lemma InvIsGood(cfg: Config, s: State)
    requires Inv(cfg, s) && s.worker.Busy?
    ensures StoreInv(cfg, s.store) && WorkerInv(cfg, s.store, s.worker.key, s.worker.c, s.worker.pc)
  {
  }

  /** Steps of a release, and the closing patch. */
  predicate ReleasePc(pc: Pc) {
    || pc.ReleaseGetting? || pc.ReleaseFinding? || pc.ReleaseTrying? || pc.ReleaseDeleting?
    || pc.DeleteGetting? || pc.DeleteUnprotecting? || pc.DeleteDeleting? || pc.Patching?
  }

  lemma LiveCallKeeps(cfg: Config, st: Store, key: Key, c: Claim, pc: Pc, reply: Reply)
    requires Sound(cfg) && StoreInv(cfg, st) && Tracks(st, key, c) && PcInv(cfg, st, key, c, pc)
    requires LegalReply(cfg, st, c, pc, reply)
    requires !ReleasePc(pc)
    ensures Good(cfg, Step(cfg, st, key, c, pc, reply))
  {
    hide StoreInv, GoesOn, Good, StepFetching, StepGetting, StepFinding, StepCheckingField, StepResolving, StepAllocating,
      StepLookingUpIDs, StepLookingUpDetails, StepWriting, StepPolling, StepReleaseGetting, StepReleaseFinding, StepReleaseTrying,
      StepReleaseDeleting, StepDeleteGetting, StepDeleteUnprotecting, StepDeleteDeleting, StepPatching;
    var o := Step(cfg, st, key, c, pc, reply);
    match pc
    case Fetching =>
      FetchingKeeps(cfg, st, key, c, reply);
      GoingOnIsGood(cfg, st, key, c, o);
    case Getting(pool) =>
      AddressesHold(cfg, st);
      GettingKeeps(cfg, st, key, c, pool, reply);
      GoingOnIsGood(cfg, st, key, c, o);
    case Finding(pool, existing, base) =>
      FindingKeeps(cfg, st, key, c, pool, existing, base, reply);
      GoingOnIsGood(cfg, st, key, c, o);
    case CheckingField(pool, existing, base) =>
      CheckingFieldKeeps(cfg, st, key, c, pool, existing, base, reply);
      GoingOnIsGood(cfg, st, key, c, o);
    case Resolving(pool, existing, base) =>
      ResolvingKeeps(cfg, st, key, c, pool, existing, base, reply);
      GoingOnIsGood(cfg, st, key, c, o);
    case Allocating(pool, existing, base, ids, i) =>
      AllocatingKeeps(cfg, st, key, c, pool, existing, base, ids, i, reply);
    case LookingUpIDs(pool, existing, base, mode) =>
      LookingUpKeeps(cfg, st, key, c, pool, existing, base, [], mode, reply);
      GoingOnIsGood(cfg, st, key, c, o);
    case LookingUpDetails(pool, existing, base, ids, mode) =>
      LookingUpKeeps(cfg, st, key, c, pool, existing, base, ids, mode, reply);
      GoingOnIsGood(cfg, st, key, c, o);
    case Writing(existing, next) =>
      WritingKeeps(cfg, st, key, c, existing, next, reply);
    case Polling(next) =>
      PollingKeeps(cfg, st, key, c, next, reply);
      GoingOnIsGood(cfg, st, key, c, o);
    case _ =>
  }

  lemma ReleaseCallKeeps(cfg: Config, st: Store, key: Key, c: Claim, pc: Pc, reply: Reply)
    requires Sound(cfg) && StoreInv(cfg, st) && Tracks(st, key, c) && PcInv(cfg, st, key, c, pc)
    requires LegalReply(cfg, st, c, pc, reply)
    requires ReleasePc(pc)
    ensures Good(cfg, Step(cfg, st, key, c, pc, reply))
  {
    hide StoreInv, GoesOn, Good, StepFetching, StepGetting, StepFinding, StepCheckingField, StepResolving, StepAllocating,
      StepLookingUpIDs, StepLookingUpDetails, StepWriting, StepPolling, StepReleaseGetting, StepReleaseFinding, StepReleaseTrying,
      StepReleaseDeleting, StepDeleteGetting, StepDeleteUnprotecting, StepDeleteDeleting, StepPatching;
    match pc
    case ReleaseGetting(pool) => ReleaseGettingKeeps(cfg, st, key, c, pool, reply);
    case ReleaseFinding(found) => ReleaseFindingKeeps(cfg, st, key, c, found, reply);
    case ReleaseTrying(candidates) => ReleaseTryingKeeps(cfg, st, key, c, candidates, reply);
    case ReleaseDeleting(id) => ReleaseDeletingKeeps(cfg, st, key, c, id, reply);
    case DeleteGetting(withPool) => DeleteGettingKeeps(cfg, st, key, c, withPool, reply);
    case DeleteUnprotecting(withPool) => DeleteUnprotectingKeeps(cfg, st, key, c, withPool, reply);
    case DeleteDeleting(withPool) => DeleteDeletingKeeps(cfg, st, key, c, withPool, reply);
    case Patching(update, exit) => PatchingKeeps(cfg, st, key, c, update, exit, reply);
    case _ =>
  }

  lemma AddressesHold(cfg: Config, st: Store)
    requires StoreInv(cfg, st)
    ensures Addresses(st)
  {
  }

  lemma BeginKeeps(cfg: Config, s: State, key: Key, reply: Reply)
    requires Inv(cfg, s) && Legal(cfg, s, Begin(key, reply))
    ensures Inv(cfg, Apply(cfg, s, Begin(key, reply)))
  {
    hide Carries, Endings, Addresses, UniqueRecords, OwnedRecords;
  }

  /** Claims, addresses and history stay, and the records with the ownership tag stay. */
  ghost predicate SameCore(cfg: Config, st: Store, st': Store) {
    && st'.claims == st.claims && st'.addresses == st.addresses
    && st'.born == st.born && st'.released == st.released && st'.abandoned == st.abandoned
    && forall i :: i in st'.records && cfg.tag in st'.records[i].tags ==> i in st.records && st'.records[i] == st.records[i]
  }

  lemma SameCoreKeeps(cfg: Config, st: Store, st': Store, w: Worker)
    requires Good(cfg, Outcome(st, w)) && SameCore(cfg, st, st')
    ensures Good(cfg, Outcome(st', w))
  {
    SameCoreKeepsStore(cfg, st, st');
    hide StoreInv;
    if w.Busy? && w.c.finalizer {
      SameCoreKeepsPc(cfg, st, st', w.key, w.c, w.pc);
      hide PcInv, SameCore;
      assert st'.claims == st.claims && st'.born == st.born by {
        SameCoreFields(cfg, st, st');
      }
    }
  }

  lemma SameCoreFields(cfg: Config, st: Store, st': Store)
    requires SameCore(cfg, st, st')
    ensures st'.claims == st.claims && st'.born == st.born && st'.addresses == st.addresses
  {
  }

  lemma SameCoreKeepsStore(cfg: Config, st: Store, st': Store)
    requires StoreInv(cfg, st) && SameCore(cfg, st, st')
    ensures StoreInv(cfg, st')
  {
    forall i, u: Uid | i in st'.records && Carries(cfg, st'.records[i], u)
      ensures Accounted(st', u)
    {
      assert Accounted(st, u);
    }
  }

  lemma SameCoreKeepsPc(cfg: Config, st: Store, st': Store, key: Key, c: Claim, pc: Pc)
    requires PcInv(cfg, st, key, c, pc) && SameCore(cfg, st, st')
    ensures PcInv(cfg, st', key, c, pc)
  {
    assert NoRecord(cfg, st, c.uid) ==> NoRecord(cfg, st', c.uid);
  }

  /** A change of one claim by somebody else: its finalizer stays, and its worker goes on. */
  lemma EditKeeps(cfg: Config, s: State, st': Store, key: Key)
    requires Inv(cfg, s) && key in s.store.claims
    requires OneClaim(s.store, st', key, s.store.claims[key].finalizer) && OnlyClaims(s.store, st')
    requires st'.released == s.store.released && st'.abandoned == s.store.abandoned
    ensures Inv(cfg, s.(store := st'))
  {
    OneClaimKeeps(cfg, s.store, st', key, s.store.claims[key].finalizer);
    hide StoreInv;
    if s.worker.Busy? && s.worker.c.finalizer {
      assert PcInv(cfg, st', s.worker.key, s.worker.c, s.worker.pc) by {
        assert NoRecord(cfg, s.store, s.worker.c.uid) ==> NoRecord(cfg, st', s.worker.c.uid);
      }
      hide PcInv;
      assert Current(st', s.worker.key, s.worker.c);
    }
  }

  lemma CreateClaimKeeps(cfg: Config, s: State, key: Key, claim: Claim)
    requires Inv(cfg, s) && LegalAction(cfg, s, CreateClaim(key, claim))
    ensures Inv(cfg, s.(store := Act(s.store, CreateClaim(key, claim))))
  {
    CreateClaimKeepsStore(cfg, s.store, key, claim);
    hide StoreInv;
    if s.worker.Busy? && s.worker.c.finalizer {
      var st' := Act(s.store, CreateClaim(key, claim));
      assert PcInv(cfg, st', s.worker.key, s.worker.c, s.worker.pc) by {
        assert NoRecord(cfg, s.store, s.worker.c.uid) ==> NoRecord(cfg, st', s.worker.c.uid);
      }
      hide PcInv;
      assert Current(st', s.worker.key, s.worker.c);
    }
  }

  lemma CreateClaimKeepsStore(cfg: Config, st: Store, key: Key, claim: Claim)
    requires StoreInv(cfg, st) && key !in st.claims && claim.uid !in st.born && FreshClaim(claim)
    ensures StoreInv(cfg, Act(st, CreateClaim(key, claim)))
  {
    var st' := Act(st, CreateClaim(key, claim));
    hide Carries, Act;
    assert st' == st.(claims := st.claims[key := claim], born := st.born[claim.uid := key]) by {
      ActCreates(st, key, claim);
    }
    assert Identity(st') && Addresses(st') && UniqueRecords(cfg, st');
    NewClaimEndings(cfg, st, st', key, claim);
    hide Identity, Addresses, UniqueRecords, Endings, OwnedRecords;
  }

  lemma NewClaimEndings(cfg: Config, st: Store, st': Store, key: Key, claim: Claim)
    requires Identity(st) && Endings(st) && OwnedRecords(cfg, st) && key !in st.claims && claim.uid !in st.born
    requires st' == st.(claims := st.claims[key := claim], born := st.born[claim.uid := key])
    ensures Endings(st') && OwnedRecords(cfg, st')
  {
    hide Carries;
    forall u | u in st'.released || u in st'.abandoned
      ensures Finished(st', u)
    {
      assert Finished(st, u);
    }
    forall i, u: Uid | i in st'.records && Carries(cfg, st'.records[i], u)
      ensures Accounted(st', u)
    {
      assert Accounted(st, u);
    }
  }

  lemma ActCreates(st: Store, key: Key, claim: Claim)
    ensures Act(st, CreateClaim(key, claim)) == st.(claims := st.claims[key := claim], born := st.born[claim.uid := key])
  {
  }

  lemma MarkAddressKeeps(cfg: Config, s: State, key: Key)
    requires Inv(cfg, s)
    ensures Inv(cfg, s.(store := DeleteAddress(s.store, key)))
  {
    DeleteAddressKeeps(cfg, s.store, key);
    hide StoreInv, DeleteAddress;
    if s.worker.Busy? && s.worker.c.finalizer {
      var st' := DeleteAddress(s.store, key);
      assert PcInv(cfg, st', s.worker.key, s.worker.c, s.worker.pc) by {
        assert NoRecord(cfg, s.store, s.worker.c.uid) ==> NoRecord(cfg, st', s.worker.c.uid);
      }
      hide PcInv;
      assert Current(st', s.worker.key, s.worker.c);
    }
  }

  lemma ClaimActionKeeps(cfg: Config, s: State, key: Key, f: Claim -> Claim)
    requires Inv(cfg, s)
    requires forall c :: Kin(c, f(c)) && f(c).finalizer == c.finalizer
    ensures Inv(cfg, s.(store := UpdateClaim(s.store, key, f)))
  {
    hide Inv, UpdateClaim, OneClaim, OnlyClaims;
    if key in s.store.claims {
      UpdateIsOneClaim(s.store, key, f);
      UpdateIsOnlyClaims(s.store, key, f);
      EditKeeps(cfg, s, UpdateClaim(s.store, key, f), key);
    } else {
      assert UpdateClaim(s.store, key, f) == s.store by {
        UpdateNothing(s.store, key, f);
      }
    }
  }

  lemma UpdateNothing(st: Store, key: Key, f: Claim -> Claim)
    requires key !in st.claims
    ensures UpdateClaim(st, key, f) == st
  {
  }

  lemma UpdateIsOneClaim(st: Store, key: Key, f: Claim -> Claim)
    requires key in st.claims && Kin(st.claims[key], f(st.claims[key])) && f(st.claims[key]).finalizer == st.claims[key].finalizer
    ensures OneClaim(st, UpdateClaim(st, key, f), key, st.claims[key].finalizer)
  {
  }

  lemma UpdateIsOnlyClaims(st: Store, key: Key, f: Claim -> Claim)
    ensures var st' := UpdateClaim(st, key, f);
      OnlyClaims(st, st') && st'.released == st.released && st'.abandoned == st.abandoned
  {
  }

  lemma ActionKeeps(cfg: Config, s: State, a: Action)
    requires Inv(cfg, s) && LegalAction(cfg, s, a)
    ensures Inv(cfg, s.(store := Act(s.store, a)))
  {
    hide Inv, UpdateClaim, UpdatePool, DeleteAddress, NextGeneration;
    match a
    case CreateClaim(key, claim) => CreateClaimKeeps(cfg, s, key, claim);
    case EditClaim(key, annotations, clusterLabel) =>
      ClaimActionKeeps(cfg, s, key, (c: Claim) => c.(annotations := annotations, clusterLabel := clusterLabel));
    case DeleteClaim(key) => ClaimActionKeeps(cfg, s, key, (c: Claim) => c.(deleting := true));
    case ReleaseClaim(key) => ClaimActionKeeps(cfg, s, key, (c: Claim) => c.(held := false));
    case MarkAddress(key) => MarkAddressKeeps(cfg, s, key);
    case _ => OtherActionKeeps(cfg, s, a);
  }

  lemma OtherActionKeeps(cfg: Config, s: State, a: Action)
    requires Inv(cfg, s) && LegalAction(cfg, s, a)
    requires !a.CreateClaim? && !a.EditClaim? && !a.DeleteClaim? && !a.ReleaseClaim? && !a.MarkAddress?
    ensures Inv(cfg, s.(store := Act(s.store, a)))
  {
    OtherActionSameCore(cfg, s, a);
    hide Act;
    SameCoreKeeps(cfg, s.store, Act(s.store, a), s.worker);
  }

  lemma OtherActionSameCore(cfg: Config, s: State, a: Action)
    requires LegalAction(cfg, s, a)
    requires !a.CreateClaim? && !a.EditClaim? && !a.DeleteClaim? && !a.ReleaseClaim? && !a.MarkAddress?
    ensures SameCore(cfg, s.store, Act(s.store, a))
  {
    if a.AddForeign? || a.RemoveForeign? || a.EditPrefixes? || a.CreatePool? {
    } else {
      assert Act(s.store, a) == s.store.(pools := Act(s.store, a).pools) by {
        hide StorePool, NextGeneration;
      }
      hide Act;
    }
  }

  lemma EventKeeps(cfg: Config, s: State, e: Event)
    requires Sound(cfg) && Inv(cfg, s) && Legal(cfg, s, e)
    ensures Inv(cfg, Apply(cfg, s, e))
  {
    hide Inv, Step, PoolStep, Act, LegalAction, LegalReply;
    match e
    case Begin(key, reply) => BeginKeeps(cfg, s, key, reply);
    case Call(reply) => CallKeeps(cfg, s, reply);
    case PoolBegin(pk) => PoolKeeps(cfg, s, s.store.pools, Apply(cfg, s, e).poolWorkers);
    case PoolCall(pk, reply) => PoolKeeps(cfg, s, PoolStep(cfg, s.store, pk, s.poolWorkers[pk], reply).pools, Apply(cfg, s, e).poolWorkers);
    case Crash => CrashKeeps(cfg, s);
    case Other(a) => ActionKeeps(cfg, s, a);
  }

  lemma CrashKeeps(cfg: Config, s: State)
    requires Inv(cfg, s)
    ensures Inv(cfg, s.(worker := Idle, poolWorkers := map[]))
  {
  }

  lemma PoolKeeps(cfg: Config, s: State, pools: map<PoolKey, Pool>, workers: map<PoolKey, PoolWorker>)
    requires Inv(cfg, s)
    ensures Inv(cfg, s.(store := s.store.(pools := pools), poolWorkers := workers))
  {
    assert SameCore(cfg, s.store, s.store.(pools := pools));
    SameCoreKeeps(cfg, s.store, s.store.(pools := pools), s.worker);
  }

  lemma InitHolds(cfg: Config, s: State)
    requires Init(cfg, s)
    ensures Inv(cfg, s)
  {
  }

  lemma {:induction false} RunKeeps(cfg: Config, s: State, run: seq<Event>)
    requires Sound(cfg) && Inv(cfg, s) && LegalRun(cfg, s, run)
    ensures Inv(cfg, Final(cfg, s, run))
    decreases |run|
  {
    hide Inv, Legal, Apply;
    if run != [] {
      EventKeeps(cfg, s, run[0]);
      RunKeeps(cfg, Apply(cfg, s, run[0]), run[1..]);
    }
  }

  // ---- The theorems ----

  /** Over any run, with a crash or a lost response after any call, at most one record carries a claim's UID. */
  lemma AtMostOneRecord(cfg: Config, s0: State, run: seq<Event>, uid: Uid, i: int, j: int)
    requires Sound(cfg) && Init(cfg, s0) && LegalRun(cfg, s0, run)
    requires i in Final(cfg, s0, run).store.records && Carries(cfg, Final(cfg, s0, run).store.records[i], uid)
    requires j in Final(cfg, s0, run).store.records && Carries(cfg, Final(cfg, s0, run).store.records[j], uid)
    ensures i == j
  {
    InitHolds(cfg, s0);
    RunKeeps(cfg, s0, run);
  }

  /** A record's claim exists and is registered, unless a delete pass that did not find the pool let it go. */
  lemma RecordHasItsClaim(cfg: Config, s0: State, run: seq<Event>, uid: Uid, i: int)
    requires Sound(cfg) && Init(cfg, s0) && LegalRun(cfg, s0, run)
    requires i in Final(cfg, s0, run).store.records && Carries(cfg, Final(cfg, s0, run).store.records[i], uid)
    ensures var st := Final(cfg, s0, run).store;
      uid in st.abandoned || exists key :: Registered(st, key, uid)
  {
    InitHolds(cfg, s0);
    RunKeeps(cfg, s0, run);
    var st := Final(cfg, s0, run).store;
    assert Accounted(st, uid);
  }

  /** The history of releases only grows. */
  lemma EventRemembers(cfg: Config, s: State, e: Event)
    requires Legal(cfg, s, e)
    ensures s.store.released <= Apply(cfg, s, e).store.released
  {
    match e
    case Call(reply) => StepFrame(cfg, s.store, s.worker.key, s.worker.c, s.worker.pc, reply); hide Step;
    case Other(a) => ActRemembers(s.store, a); hide Act;
    case _ => hide PoolStep;
  }

  lemma ActRemembers(st: Store, a: Action)
    ensures Act(st, a).released == st.released
  {
    hide StorePool, NextGeneration;
  }

  lemma {:induction false} RunRemembers(cfg: Config, s: State, run: seq<Event>)
    requires LegalRun(cfg, s, run)
    ensures s.store.released <= Final(cfg, s, run).store.released
    decreases |run|
  {
    hide Legal, Apply;
    if run != [] {
      EventRemembers(cfg, s, run[0]);
      RunRemembers(cfg, Apply(cfg, s, run[0]), run[1..]);
    }
  }

  lemma ReleasedHasNoRecord(cfg: Config, s: State, uid: Uid)
    requires Inv(cfg, s) && uid in s.store.released
    ensures NoRecord(cfg, s.store, uid)
  {
    hide Carries;
    assert Finished(s.store, uid);
    assert !Accounted(s.store, uid);
  }

  /** Once a delete pass that found the pool has dropped a claim's finalizer, no record carries the claim's UID,
      and whatever happens afterwards none ever does again. */
  lemma ReleasedLeavesNothing(cfg: Config, s0: State, run: seq<Event>, more: seq<Event>, uid: Uid)
    requires Sound(cfg) && Init(cfg, s0) && LegalRun(cfg, s0, run) && LegalRun(cfg, Final(cfg, s0, run), more)
    requires uid in Final(cfg, s0, run).store.released
    ensures NoRecord(cfg, Final(cfg, s0, run).store, uid)
    ensures NoRecord(cfg, Final(cfg, Final(cfg, s0, run), more).store, uid)
  {
    hide LegalRun, Final, Inv, NoRecord;
    InitHolds(cfg, s0);
    RunKeeps(cfg, s0, run);
    var s := Final(cfg, s0, run);
    ReleasedHasNoRecord(cfg, s, uid);
    RunKeeps(cfg, s, more);
    RunRemembers(cfg, s, more);
    ReleasedHasNoRecord(cfg, Final(cfg, s, more), uid);
  }

  // ---- An address whose record cannot be located ----

  /** No record carries the claim's UID, and none answers a lookup by these texts. */
  ghost predicate Unlocatable(cfg: Config, st: Store, uid: Uid, candidates: seq<string>) {
    && NoRecord(cfg, st, uid)
    && forall q, id :: q in candidates && id in st.records ==> !Answering(cfg, st.records[id], q)
  }

  /** The address is there with these texts, and stays while others only mark it. */
  predicate Stays(st: Store, key: Key, candidates: seq<string>, marked: bool) {
    && key in st.addresses && Candidates(st.addresses[key].text, st.addresses[key].prefix) == candidates
    && (marked ==> st.addresses[key].protect)
  }

  /** A delete pass that found its pool is looking for the record, or has given up. */
  predicate Searching(st: Store, key: Key, c: Claim, pc: Pc, candidates: seq<string>, marked: bool) {
    match pc
    case ReleaseGetting(_) => Stays(st, key, candidates, marked)
    case ReleaseFinding(found) => found.Some? && Candidates(found.value.text, found.value.prefix) == candidates
    case ReleaseTrying(rest) => forall q :: q in rest ==> q in candidates
    case Patching(update, exit) => update == c && exit.Kept?
    case _ => false
  }

  ghost predicate SearchInv(cfg: Config, s: State, key: Key, uid: Uid, candidates: seq<string>, marked: bool) {
    && Unlocatable(cfg, s.store, uid, candidates) && key in s.store.claims && s.store.claims[key].finalizer
    && (s.worker.Busy? ==>
          s.worker.key == key && s.worker.c.uid == uid && Searching(s.store, key, s.worker.c, s.worker.pc, candidates, marked))
  }

  lemma SearchStep(cfg: Config, st: Store, key: Key, c: Claim, pc: Pc, reply: Reply, candidates: seq<string>, marked: bool)
    requires Unlocatable(cfg, st, c.uid, candidates) && Searching(st, key, c, pc, candidates, marked) && !pc.Patching?
    requires LegalReply(cfg, st, c, pc, reply)
    ensures var o := Step(cfg, st, key, c, pc, reply);
      o.store == st && o.worker.Busy? && o.worker.key == key && o.worker.c == c && Searching(st, key, c, o.worker.pc, candidates, marked)
  {
    hide Candidates, Carries, Answering;
    if pc.ReleaseTrying? {
      assert pc.candidates[0] in pc.candidates;
      assert forall q :: q in pc.candidates[1..] ==> q in pc.candidates;
    }
  }

  /** The records with the ownership tag stay as they are. */
  ghost predicate SameTagged(cfg: Config, st: Store, st': Store) {
    && (forall i :: i in st'.records && cfg.tag in st'.records[i].tags ==> i in st.records && st'.records[i] == st.records[i])
    && (forall i :: i in st.records && cfg.tag in st.records[i].tags ==> i in st'.records && st'.records[i] == st.records[i])
  }

  lemma SearchCall(cfg: Config, s: State, key: Key, uid: Uid, candidates: seq<string>, marked: bool, reply: Reply)
    requires SearchInv(cfg, s, key, uid, candidates, marked) && Legal(cfg, s, Call(reply))
    ensures var s' := Apply(cfg, s, Call(reply));
      SearchInv(cfg, s', key, uid, candidates, marked) && s'.store.records == s.store.records
  {
    if s.worker.pc.Patching? {
      var st, c := s.store, s.worker.c;
      PatchIsOneClaim(st, key, c, c, Kept, reply.meta, reply.status);
      PatchIsOnlyClaims(st, key, c, c, Kept, reply.meta, reply.status);
      hide PatchClaim, Candidates, Carries, Answering;
    } else {
      SearchStep(cfg, s.store, key, s.worker.c, s.worker.pc, reply, candidates, marked);
      hide Step, Unlocatable, Searching;
    }
  }

  lemma SameTaggedUnlocatable(cfg: Config, st: Store, st': Store, uid: Uid, candidates: seq<string>)
    requires Unlocatable(cfg, st, uid, candidates) && SameTagged(cfg, st, st')
    ensures Unlocatable(cfg, st', uid, candidates)
  {
    hide Answers;
  }

  /** What somebody else does leaves the tagged records, the claim with its finalizer, and the address unless it
      is unprotected and deleted. */
  lemma ActionSearches(cfg: Config, s: State, a: Action, key: Key, candidates: seq<string>, marked: bool)
    requires LegalAction(cfg, s, a) && key in s.store.claims && s.store.claims[key].finalizer
    requires a == MarkAddress(key) ==> marked
    ensures var st' := Act(s.store, a);
      && SameTagged(cfg, s.store, st') && key in st'.claims && st'.claims[key].finalizer
      && (Stays(s.store, key, candidates, marked) ==> Stays(st', key, candidates, marked))
  {
    ActionKeepsTagged(cfg, s, a);
    ActionKeepsClaim(cfg, s, a, key);
    hide SameTagged;
    if a == MarkAddress(key) {
      hide Candidates;
    } else if a.MarkAddress? {
      hide Candidates;
    } else {
      ActionKeepsAddresses(s.store, a);
      hide Act, Candidates;
    }
  }

  lemma ActionKeepsAddresses(st: Store, a: Action)
    requires !a.MarkAddress?
    ensures Act(st, a).addresses == st.addresses
  {
    hide StorePool, NextGeneration;
  }

  lemma ActionKeepsClaim(cfg: Config, s: State, a: Action, key: Key)
    requires LegalAction(cfg, s, a) && key in s.store.claims && s.store.claims[key].finalizer
    ensures key in Act(s.store, a).claims && Act(s.store, a).claims[key].finalizer
  {
    hide UpdateClaim, UpdatePool, DeleteAddress, NextGeneration;
    var st := s.store;
    match a
    case EditClaim(k, annotations, clusterLabel) =>
      UpdateKeepsClaim(st, k, (c: Claim) => c.(annotations := annotations, clusterLabel := clusterLabel), key);
    case DeleteClaim(k) => UpdateKeepsClaim(st, k, (c: Claim) => c.(deleting := true), key);
    case ReleaseClaim(k) => UpdateKeepsClaim(st, k, (c: Claim) => c.(held := false), key);
    case CreateClaim(_, _) =>
    case MarkAddress(k) => DeleteIsAddresses(st, k);
    case _ => PoolActionKeepsClaims(cfg, s, a);
  }

  lemma PoolActionKeepsClaims(cfg: Config, s: State, a: Action)
    requires LegalAction(cfg, s, a)
    requires !a.CreateClaim? && !a.EditClaim? && !a.DeleteClaim? && !a.ReleaseClaim? && !a.MarkAddress?
    ensures Act(s.store, a).claims == s.store.claims
  {
    OtherActionSameCore(cfg, s, a);
    hide Act;
  }

  lemma UpdateKeepsClaim(st: Store, k: Key, f: Claim -> Claim, key: Key)
    requires key in st.claims && st.claims[key].finalizer && forall c :: f(c).finalizer == c.finalizer
    ensures var st' := UpdateClaim(st, k, f); key in st'.claims && st'.claims[key].finalizer
  {
  }

  lemma ActionKeepsTagged(cfg: Config, s: State, a: Action)
    requires LegalAction(cfg, s, a)
    ensures SameTagged(cfg, s.store, Act(s.store, a))
  {
    if a.AddForeign? || a.RemoveForeign? {
      ForeignKeepsTagged(cfg, s, a);
    } else {
      ActionKeepsRecords(s.store, a);
    }
    hide Act;
  }

  lemma ForeignKeepsTagged(cfg: Config, s: State, a: Action)
    requires LegalAction(cfg, s, a) && (a.AddForeign? || a.RemoveForeign?)
    ensures SameTagged(cfg, s.store, Act(s.store, a))
  {
  }

  lemma ActionKeepsRecords(st: Store, a: Action)
    requires !a.AddForeign? && !a.RemoveForeign?
    ensures Act(st, a).records == st.records
  {
    hide StorePool, NextGeneration;
  }

  lemma SearchEvent(cfg: Config, s: State, key: Key, uid: Uid, candidates: seq<string>, marked: bool, e: Event)
    requires SearchInv(cfg, s, key, uid, candidates, marked) && Legal(cfg, s, e) && !e.Begin?
    requires e == Event.Other(MarkAddress(key)) ==> marked
    ensures var s' := Apply(cfg, s, e);
      SearchInv(cfg, s', key, uid, candidates, marked) && SameTagged(cfg, s.store, s'.store)
  {
    match e
    case Call(reply) => SearchCall(cfg, s, key, uid, candidates, marked, reply); hide Step, SearchInv;
    case Other(a) =>
      ActionSearches(cfg, s, a, key, candidates, marked);
      SameTaggedUnlocatable(cfg, s.store, Act(s.store, a), uid, candidates);
      hide Act, Unlocatable, Stays, SameTagged, Candidates;
    case _ => hide PoolStep, Unlocatable, Candidates;
  }

  lemma {:induction false} SearchKeeps(cfg: Config, s: State, key: Key, uid: Uid, candidates: seq<string>, marked: bool, run: seq<Event>)
    requires SearchInv(cfg, s, key, uid, candidates, marked) && LegalRun(cfg, s, run)
    requires forall k :: 0 <= k < |run| ==> !run[k].Begin? && (run[k] == Event.Other(MarkAddress(key)) ==> marked)
    ensures var f := Final(cfg, s, run);
      SearchInv(cfg, f, key, uid, candidates, marked) && SameTagged(cfg, s.store, f.store)
    decreases |run|
  {
    hide SearchInv, Legal, Apply;
    if run != [] {
      var s' := Apply(cfg, s, run[0]);
      SearchEvent(cfg, s, key, uid, candidates, marked, run[0]);
      SearchKeeps(cfg, s', key, uid, candidates, marked, run[1..]);
    }
  }

  /** While the address exists and no record can be located for it, a delete pass that found its pool deletes
      nothing, and whatever happens until the next pass the claim keeps its finalizer. Somebody else may delete the
      address under the pass only if it is protected, which marks it. */
  lemma NoDropWithoutRecord(cfg: Config, s: State, key: Key, c: Claim, pool: Pool, run: seq<Event>)
    requires s.worker == Busy(key, c, ReleaseGetting(pool)) && key in s.store.addresses
    requires key in s.store.claims && s.store.claims[key].finalizer
    requires Unlocatable(cfg, s.store, c.uid, Candidates(s.store.addresses[key].text, s.store.addresses[key].prefix))
    requires LegalRun(cfg, s, run) && forall k :: 0 <= k < |run| ==> !run[k].Begin?
    requires s.store.addresses[key].protect || forall k :: 0 <= k < |run| ==> run[k] != Event.Other(MarkAddress(key))
    ensures var st := Final(cfg, s, run).store;
      SameTagged(cfg, s.store, st) && key in st.claims && st.claims[key].finalizer
  {
    var a := s.store.addresses[key];
    SearchKeeps(cfg, s, key, c.uid, Candidates(a.text, a.prefix), a.protect, run);
  }
}
