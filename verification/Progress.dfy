/** Passes in which nothing fails: from any reachable state of a live claim two of them reach Ready, and every
    further one changes nothing. */
module Progress {
  import opened Wrappers
  import opened Gateway
  import opened Prefixes
  import opened Annotations
  import opened AddressText
  import opened Owners
  import opened Model
  import opened Protocol
  import opened Frames
  import opened System
  import opened ClaimSafety
  import opened ReleaseSafety
  import opened OwnerSafety
  import opened TextSafety

  /** The prefixes with a free address. */
  type Room = set<int>

  // ---- Passes without failures ----

  /** The answer is a success: a prefix grants an address if and only if it has room. */
  predicate Calm(cfg: Config, room: Room, st: Store, c: Claim, pc: Pc, reply: Reply) {
    && LegalReply(cfg, st, c, pc, reply)
    && match pc
       case Finding(_, _, _) => !reply.Failed?
       case ReleaseFinding(_) => !reply.Failed?
       case ReleaseTrying(_) => !reply.Failed?
       case Allocating(_, _, _, ids, i) => if i < |ids| && ids[i] in room then reply.Granted? else reply.NoRoom?
       case Patching(_, _) => reply == Wrote(true, true)
       case _ => reply.Done?
  }

  predicate CalmCall(cfg: Config, room: Room, s: State, e: Event) {
    s.worker.Busy? && e.Call? && Calm(cfg, room, s.store, s.worker.c, s.worker.pc, e.reply)
  }

  /** One whole pass for the claim. */
  predicate WholePass(cfg: Config, room: Room, s: State, key: Key, run: seq<Event>) {
    && run != [] && run[0] == Begin(key, Done) && LegalRun(cfg, s, run)
    && Along(cfg, Apply(cfg, s, run[0]), run[1..], (x, e) => CalmCall(cfg, room, x, e))
    && Final(cfg, s, run).worker.Idle?
  }

  // ---- What a claim needs to be served ----

  function PoolAt(st: Store, key: Key, c: Claim): Option<Pool> {
    var pk := PoolKeyOf(key.namespace, c.poolRef);
    if pk.Some? then Lookup(st.pools, pk.value) else None
  }

  /** The prefixes an allocation would try. */
  function KnownIDs(st: Store, pool: Pool): Result<seq<int>> {
    if pool.status.resolved != [] then Ok(pool.status.resolved) else ResolveIDs(st.prefixes, pool.spec.gateways.prefixes)
  }

  ghost predicate RoomFrom(room: Room, ids: seq<int>, i: nat) {
    exists j :: i <= j < |ids| && ids[j] in room
  }

  /** A new address can be had: the metadata parses, the prefixes resolve, and one of them has room. */
  ghost predicate CanAllocate(cfg: Config, room: Room, st: Store, c: Claim, pool: Pool) {
    MetadataOk(cfg, c, pool) && KnownIDs(st, pool).Ok? && RoomFrom(room, KnownIDs(st, pool).value, 0)
  }

  ghost predicate Servable(cfg: Config, room: Room, st: Store, c: Claim, pool: Pool) {
    HasRecord(cfg, st, c.uid) || CanAllocate(cfg, room, st, c, pool)
  }

  predicate Open(st: Store, key: Key, c: Claim) {
    PoolAt(st, key, c).Some? && !PoolAt(st, key, c).value.paused
  }

  /** A live claim with an unpaused pool, and a record already or room for one. */
  ghost predicate Startable(cfg: Config, room: Room, st: Store, key: Key) {
    && key in st.claims && !st.claims[key].deleting
    && Open(st, key, st.claims[key])
    && Servable(cfg, room, st, st.claims[key], PoolAt(st, key, st.claims[key]).value)
  }

  /** The address is what the mutation would make of it. */
  predicate Complete(a: Address, key: Key, c: Claim, pool: Pool) {
    Finish(a, key, c, pool) == a
  }

  predicate Placed(st: Store, key: Key, c: Claim) {
    key in st.addresses && PoolAt(st, key, c).Some? && Complete(st.addresses[key], key, c, PoolAt(st, key, c).value)
  }

  /** The claim is Ready with its address, and nothing is left to do. */
  predicate Settled(st: Store, key: Key) {
    && key in st.claims
    && var c := st.claims[key];
    && !c.deleting && c.finalizer && Open(st, key, c) && Placed(st, key, c)
    && c.addressRef == key.name && c.ready == IsReady(st.addresses[key].text)
  }

  // ---- On the way ----

  predicate Untouched(st: Store, key: Key, c: Claim) {
    key in st.claims && st.claims[key] == c && c.finalizer && !c.deleting && Open(st, key, c)
  }

  predicate New(st: Store, key: Key, c: Claim, pool: Pool, existing: Option<Address>) {
    PoolAt(st, key, c) == Some(pool) && existing.None? && key !in st.addresses
  }

  ghost predicate PcOnTrack(cfg: Config, room: Room, st: Store, key: Key, c: Claim, pc: Pc) {
    match pc
    case Fetching => PoolAt(st, key, c).Some? && Servable(cfg, room, st, c, PoolAt(st, key, c).value)
    case Getting(pool) => PoolAt(st, key, c) == Some(pool) && Servable(cfg, room, st, c, pool)
    case Finding(pool, existing, base) => New(st, key, c, pool, existing) && Servable(cfg, room, st, c, pool)
    case CheckingField(pool, existing, base) => New(st, key, c, pool, existing) && CanAllocate(cfg, room, st, c, pool)
    case Resolving(pool, existing, base) =>
      New(st, key, c, pool, existing) && CanAllocate(cfg, room, st, c, pool) && pool.status.resolved == []
    case Allocating(pool, existing, base, ids, i) =>
      New(st, key, c, pool, existing) && MetadataOk(cfg, c, pool) && KnownIDs(st, pool) == Ok(ids) && i < |ids| && RoomFrom(room, ids, i)
    case LookingUpIDs(pool, existing, base, mode) => New(st, key, c, pool, existing)
    case LookingUpDetails(pool, existing, base, ids, mode) => New(st, key, c, pool, existing)
    case Writing(existing, next) =>
      existing.Some? == (key in st.addresses) && PoolAt(st, key, c).Some? && Complete(next, key, c, PoolAt(st, key, c).value)
    case Polling(next) => Placed(st, key, c) && st.addresses[key].text == next.text
    case Patching(update, exit) =>
      exit.Kept? && Placed(st, key, c) && update == c.(addressRef := key.name, ready := IsReady(st.addresses[key].text))
    case _ => false
  }

  ghost predicate OnTrack(cfg: Config, room: Room, st: Store, key: Key, c: Claim, pc: Pc)
  {
    Untouched(st, key, c) && PcOnTrack(cfg, room, st, key, c, pc)
  }

  function IDCount(st: Store, pool: Pool): nat {
    var ids := KnownIDs(st, pool);
    if ids.Ok? then |ids.value| else 0
  }

  /** At most so many calls are left. */
  function CallsLeft(st: Store, key: Key, c: Claim, pc: Pc): (n: nat)
    ensures n > 0
  {
    match pc
    case Fetching => 10 + (if PoolAt(st, key, c).Some? then IDCount(st, PoolAt(st, key, c).value) else 0)
    case Getting(pool) => 9 + IDCount(st, pool)
    case Finding(pool, _, _) => 8 + IDCount(st, pool)
    case CheckingField(pool, _, _) => 7 + IDCount(st, pool)
    case Resolving(pool, _, _) => 6 + IDCount(st, pool)
    case Allocating(_, _, _, ids, i) => if i < |ids| then 5 + |ids| - i else 5
    case LookingUpIDs(_, _, _, _) => 5
    case LookingUpDetails(_, _, _, _, _) => 4
    case Writing(_, _) => 3
    case Polling(_) => 2
    case _ => 1
  }

  /** The outcome is a step further on the way. */
  ghost predicate Further(cfg: Config, room: Room, key: Key, c: Claim, o: Outcome, left: nat) {
    && o.worker.Busy? && o.worker.key == key && o.worker.c == c
    && OnTrack(cfg, room, o.store, key, c, o.worker.pc)
    && CallsLeft(o.store, key, c, o.worker.pc) < left
  }

  // ---- Steps on the way ----

  /** The mutation is idempotent. */
  lemma FinishTwice(base: Address, key: Key, c: Claim, pool: Pool)
    requires Ownable(key, c, base.owners)
    ensures Complete(Finish(base, key, c, pool), key, c, pool)
  {
    var claim, ref := ClaimOwner(key, c), PoolOwner(c.poolRef, pool);
    assert NotControlledBy(base.owners, ref);
    hide ControllerOf;
    EnsuredIdempotent(base.owners, claim, ref);
    hide Ensured;
  }

  lemma ToWriteOnTrack(cfg: Config, room: Room, st: Store, key: Key, c: Claim, pool: Pool, existing: Option<Address>, base: Address)
    requires Untouched(st, key, c) && Ownable(key, c, base.owners)
    requires PoolAt(st, key, c) == Some(pool) && existing == Lookup(st.addresses, key)
    ensures Further(cfg, room, key, c, ToWrite(st, key, c, pool, existing, base), 4)
  {
    FinishTwice(base, key, c, pool);
    var next := Finish(base, key, c, pool);
    hide Finish, Untouched, PoolAt, Ownable, Complete, Further;
    if existing == Some(next) {
      assert key in st.addresses && st.addresses[key] == next;
      FurtherAt(cfg, room, st, key, c, Polling(next), 4);
    } else {
      assert existing.Some? == (key in st.addresses);
      hide Lookup;
      FurtherAt(cfg, room, st, key, c, Writing(existing, next), 4);
    }
  }

  lemma FurtherAt(cfg: Config, room: Room, st: Store, key: Key, c: Claim, pc: Pc, left: nat)
    requires OnTrack(cfg, room, st, key, c, pc) && CallsLeft(st, key, c, pc) < left
    ensures Further(cfg, room, key, c, At(st, key, c, pc), left)
  {
  }

  lemma FurtherBefore(cfg: Config, room: Room, key: Key, c: Claim, o: Outcome, left: nat, before: nat)
    requires Further(cfg, room, key, c, o, left) && left <= before
    ensures Further(cfg, room, key, c, o, before)
  {
  }

  lemma WithGatewayOnTrack(cfg: Config, room: Room, st: Store, key: Key, c: Claim, pool: Pool, existing: Option<Address>, base: Address,
                           entries: seq<ResolvedPrefix>, mode: Mode)
    requires Untouched(st, key, c) && Ownable(key, c, base.owners) && New(st, key, c, pool, existing)
    ensures Further(cfg, room, key, c, WithGateway(cfg, st, key, c, pool, existing, base, entries, mode), 4)
  {
    hide ToWrite, GatewayFrom, Untouched, Further, PoolAt, Controllable, PoolKeyOf;
    ToWriteOnTrack(cfg, room, st, key, c, pool, existing, base.(gateway := GatewayFrom(cfg, entries, base, mode)));
  }

  lemma LookUpGatewayOnTrack(cfg: Config, room: Room, st: Store, key: Key, c: Claim, pool: Pool, existing: Option<Address>, base: Address,
                             ids: seq<int>, mode: Mode)
    requires Untouched(st, key, c) && Ownable(key, c, base.owners) && New(st, key, c, pool, existing)
    ensures Further(cfg, room, key, c, LookUpGateway(cfg, st, key, c, pool, existing, base, ids, mode), 6)
  {
    WithGatewayOnTrack(cfg, room, st, key, c, pool, existing, base, pool.status.details, mode);
    hide WithGateway, Untouched, PoolAt, Ownable, Further, New;
    FurtherBefore(cfg, room, key, c, WithGateway(cfg, st, key, c, pool, existing, base, pool.status.details, mode), 4, 6);
    FurtherAt(cfg, room, st, key, c, LookingUpIDs(pool, existing, base, mode), 6);
    FurtherAt(cfg, room, st, key, c, LookingUpDetails(pool, existing, base, ids, mode), 6);
  }

  lemma StartAllocatingOnTrack(cfg: Config, room: Room, st: Store, key: Key, c: Claim, pool: Pool, existing: Option<Address>, base: Address)
    requires Untouched(st, key, c) && New(st, key, c, pool, existing) && CanAllocate(cfg, room, st, c, pool)
    ensures Further(cfg, room, key, c, StartAllocating(cfg, st, key, c, pool, existing, base, KnownIDs(st, pool).value), 6 + IDCount(st, pool))
  {
    hide MetadataOk, Untouched, PoolAt, ResolveIDs;
  }

  lemma GettingOnTrack(cfg: Config, room: Room, st: Store, key: Key, c: Claim, pool: Pool, reply: Reply)
    requires OnTrack(cfg, room, st, key, c, Getting(pool)) && Named(cfg, st) && OwnedAddresses(st) && !reply.Failed?
    ensures Further(cfg, room, key, c, StepGetting(st, key, c, pool, reply), 9 + IDCount(st, pool))
  {
    hide PoolAt, CanAllocate, HasRecord, ToWrite;
    if key in st.addresses {
      var a := st.addresses[key];
      assert WellOwned(key, c, a.owners);
      ToWriteOnTrack(cfg, room, st, key, c, pool, Some(a), a);
    }
  }

  lemma FindingOnTrack(cfg: Config, room: Room, st: Store, key: Key, c: Claim, pc: Pc, reply: Reply)
    requires pc.Finding? && OnTrack(cfg, room, st, key, c, pc) && Ownable(key, c, pc.base.owners) && Calm(cfg, room, st, c, pc, reply)
    ensures Further(cfg, room, key, c, Step(cfg, st, key, c, pc, reply), 8 + IDCount(st, pc.pool))
  {
    hide PoolAt, CanAllocate, Carries, LookUpGateway, MapIPAddress, Controllable, PoolKeyOf;
    match reply
    case Found(id) =>
      LookUpGatewayOnTrack(cfg, room, st, key, c, pc.pool, pc.existing, WithText(pc.base, st.records[id].text), pc.pool.status.resolved, ByAddress);
    case _ =>
  }

  lemma CheckingOnTrack(cfg: Config, room: Room, st: Store, key: Key, c: Claim, pc: Pc, reply: Reply)
    requires pc.CheckingField? || pc.Resolving?
    requires OnTrack(cfg, room, st, key, c, pc) && Calm(cfg, room, st, c, pc, reply)
    ensures Further(cfg, room, key, c, Step(cfg, st, key, c, pc, reply), CallsLeft(st, key, c, pc))
  {
    hide PoolAt, RoomFrom, StartAllocating, ResolveIDs, MetadataOk;
    StartAllocatingOnTrack(cfg, room, st, key, c, pc.pool, pc.existing, pc.base);
  }

  lemma AddRecordUntouched(cfg: Config, st: Store, key: Key, c: Claim, pool: Pool, existing: Option<Address>, prefix: int, id: int, text: string)
    requires Untouched(st, key, c) && New(st, key, c, pool, existing) && MetadataOk(cfg, c, pool)
    ensures var st' := AddRecord(cfg, st, key, c, pool, prefix, id, text);
      Untouched(st', key, c) && New(st', key, c, pool, existing)
  {
    hide NewRecord, MetadataOk;
  }

  lemma AllocatingOnTrack(cfg: Config, room: Room, st: Store, key: Key, c: Claim, pc: Pc, reply: Reply)
    requires pc.Allocating? && OnTrack(cfg, room, st, key, c, pc) && Ownable(key, c, pc.base.owners) && Calm(cfg, room, st, c, pc, reply)
    ensures Further(cfg, room, key, c, Step(cfg, st, key, c, pc, reply), CallsLeft(st, key, c, pc))
  {
    var pool, ids, i := pc.pool, pc.ids, pc.i;
    if reply.Granted? {
      GrantedOnTrack(cfg, room, st, key, c, pc, reply);
    } else {
      hide PoolAt, MetadataOk, LookUpGateway, Ownable, ResolveIDs, AddRecord, Untouched, New, Further;
      assert RoomFrom(room, ids, i + 1);
      FurtherAt(cfg, room, st, key, c, Allocating(pool, pc.existing, pc.base, ids, i + 1), CallsLeft(st, key, c, pc));
    }
  }

  lemma GrantedOnTrack(cfg: Config, room: Room, st: Store, key: Key, c: Claim, pc: Pc, reply: Reply)
    requires pc.Allocating? && OnTrack(cfg, room, st, key, c, pc) && Ownable(key, c, pc.base.owners) && reply.Granted?
    ensures Further(cfg, room, key, c, Step(cfg, st, key, c, pc, reply), CallsLeft(st, key, c, pc))
  {
    var pool, ids, i := pc.pool, pc.ids, pc.i;
    var st' := AddRecord(cfg, st, key, c, pool, ids[i], reply.id, reply.text);
    var base := WithText(pc.base, reply.text);
    AddRecordUntouched(cfg, st, key, c, pool, pc.existing, ids[i], reply.id, reply.text);
    assert base.owners == pc.base.owners;
    hide PoolAt, MetadataOk, LookUpGateway, Ownable, KnownIDs, AddRecord, Untouched, New, Further, WithText;
    LookUpGatewayOnTrack(cfg, room, st', key, c, pool, pc.existing, base, ids, ByPrefix(ids[i]));
    FurtherBefore(cfg, room, key, c, LookUpGateway(cfg, st', key, c, pool, pc.existing, base, ids, ByPrefix(ids[i])), 6, CallsLeft(st, key, c, pc));
  }

  lemma LookingUpOnTrack(cfg: Config, room: Room, st: Store, key: Key, c: Claim, pc: Pc, reply: Reply)
    requires pc.LookingUpIDs? || pc.LookingUpDetails?
    requires OnTrack(cfg, room, st, key, c, pc) && Ownable(key, c, pc.base.owners)
    ensures Further(cfg, room, key, c, Step(cfg, st, key, c, pc, reply), CallsLeft(st, key, c, pc))
  {
    hide PoolAt, WithGateway, ResolveIDs, Build, DetailsOf, GatewayChoice, Ownable;
    forall entries: seq<ResolvedPrefix>
      ensures Further(cfg, room, key, c, WithGateway(cfg, st, key, c, pc.pool, pc.existing, pc.base, entries, pc.mode), 4)
    {
      WithGatewayOnTrack(cfg, room, st, key, c, pc.pool, pc.existing, pc.base, entries, pc.mode);
    }
  }

  lemma WritingOnTrack(cfg: Config, room: Room, st: Store, key: Key, c: Claim, existing: Option<Address>, next: Address)
    requires OnTrack(cfg, room, st, key, c, Writing(existing, next))
    ensures Further(cfg, room, key, c, StepWriting(st, key, c, existing, next, Done), 3)
  {
    hide WriteAddress, Complete;
    var pool := PoolAt(st, key, c).value;
    var st' := WriteAddress(st, key, next);
    WriteAddressKeepsRest(st, key, next);
    CompleteWritten(next, st'.addresses[key], key, c, pool);
    SamePlace(st, st', key, c);
    hide PoolAt, Untouched, Further;
    FurtherAt(cfg, room, st', key, c, Polling(next), 3);
  }

  lemma SamePlace(st: Store, st': Store, key: Key, c: Claim)
    requires st'.claims == st.claims && st'.pools == st.pools
    ensures PoolAt(st', key, c) == PoolAt(st, key, c) && Untouched(st', key, c) == Untouched(st, key, c)
  {
  }

  lemma CompleteWritten(next: Address, written: Address, key: Key, c: Claim, pool: Pool)
    requires written == next.(deleting := written.deleting, guarded := written.guarded)
    ensures Complete(written, key, c, pool) == Complete(next, key, c, pool)
  {
    hide Ensured;
  }

  lemma WriteAddressKeepsRest(st: Store, key: Key, next: Address)
    ensures var st' := WriteAddress(st, key, next);
      && st'.claims == st.claims && st'.pools == st.pools && key in st'.addresses
      && st'.addresses[key] == next.(deleting := st'.addresses[key].deleting, guarded := st'.addresses[key].guarded)
  {
    hide PoolGuards;
  }

  /** After the closing patch the claim is settled. */
  lemma PatchingSettles(cfg: Config, room: Room, st: Store, key: Key, c: Claim, update: Claim)
    requires OnTrack(cfg, room, st, key, c, Patching(update, Kept))
    ensures var o := StepPatching(st, key, c, update, Kept, Wrote(true, true));
      o.worker.Idle? && Settled(o.store, key)
  {
    hide Finish;
    var st' := PatchClaim(st, key, c, update, Kept, true, true);
    assert st'.addresses == st.addresses && st'.pools == st.pools && st'.claims == st.claims[key := update];
    CompleteForUpdate(st.addresses[key], key, c, update, PoolAt(st, key, c).value);
  }

  lemma CompleteForUpdate(a: Address, key: Key, c: Claim, update: Claim, pool: Pool)
    requires update.uid == c.uid && update.poolRef == c.poolRef && update.clusterLabel == c.clusterLabel
    ensures Complete(a, key, update, pool) == Complete(a, key, c, pool)
  {
    hide Ensured;
  }

  /** The invariants that a pass starts from. */
  ghost predicate Sane(cfg: Config, s: State) {
    Inv(cfg, s) && TextInv(cfg, s) && OwnedInv(s)
  }

  ghost predicate Going(cfg: Config, room: Room, s: State) {
    Sane(cfg, s) && s.worker.Busy? && OnTrack(cfg, room, s.store, s.worker.key, s.worker.c, s.worker.pc)
  }

  lemma StepOnTrack(cfg: Config, room: Room, st: Store, key: Key, c: Claim, pc: Pc, reply: Reply)
    requires Named(cfg, st) && OwnedAddresses(st) && PcOwned(key, c, pc)
    requires OnTrack(cfg, room, st, key, c, pc) && Calm(cfg, room, st, c, pc, reply)
    ensures var o := Step(cfg, st, key, c, pc, reply);
      if pc.Patching? then o.worker.Idle? && Settled(o.store, key)
      else Further(cfg, room, key, c, o, CallsLeft(st, key, c, pc))
  {
    hide OwnedAddresses, Named, OnTrack, Calm, Further, CallsLeft, StepFetching, StepGetting, StepFinding, StepCheckingField, StepResolving,
      StepAllocating, StepLookingUpIDs, StepLookingUpDetails, StepWriting, StepPolling, StepPatching, Ownable, Settled;
    match pc
    case Getting(pool) =>
      CalmAnswers(cfg, room, st, c, pc, reply);
      GettingOnTrack(cfg, room, st, key, c, pool, reply);
      assert CallsLeft(st, key, c, pc) == 9 + IDCount(st, pool) by {
        CallsLeftOf(st, key, c, pc);
      }
    case Finding(pool, _, _) =>
      FindingOnTrack(cfg, room, st, key, c, pc, reply);
      CallsLeftOf(st, key, c, pc);
    case CheckingField(_, _, _) => CheckingOnTrack(cfg, room, st, key, c, pc, reply);
    case Resolving(_, _, _) => CheckingOnTrack(cfg, room, st, key, c, pc, reply);
    case Allocating(_, _, _, _, _) => AllocatingOnTrack(cfg, room, st, key, c, pc, reply);
    case LookingUpIDs(_, _, _, _) => LookingUpOnTrack(cfg, room, st, key, c, pc, reply);
    case LookingUpDetails(_, _, _, _, _) => LookingUpOnTrack(cfg, room, st, key, c, pc, reply);
    case Writing(existing, next) =>
      CalmAnswers(cfg, room, st, c, pc, reply);
      CallsLeftOf(st, key, c, pc);
      WritingOnTrack(cfg, room, st, key, c, existing, next);
    case Patching(update, exit) =>
      CalmAnswers(cfg, room, st, c, pc, reply);
      assert exit == Kept by {
        PatchesKept(cfg, room, st, key, c, update, exit);
      }
      PatchingSettles(cfg, room, st, key, c, update);
    case _ => EdgeOnTrack(cfg, room, st, key, c, pc, reply);
  }

  lemma CalmAnswers(cfg: Config, room: Room, st: Store, c: Claim, pc: Pc, reply: Reply)
    requires Calm(cfg, room, st, c, pc, reply)
    ensures pc.Getting? || pc.Writing? ==> reply.Done?
    ensures pc.Patching? ==> reply == Wrote(true, true)
  {
  }

  lemma PatchesKept(cfg: Config, room: Room, st: Store, key: Key, c: Claim, update: Claim, exit: Exit)
    requires OnTrack(cfg, room, st, key, c, Patching(update, exit))
    ensures exit == Kept
  {
  }

  lemma CallsLeftOf(st: Store, key: Key, c: Claim, pc: Pc)
    ensures pc.Getting? ==> CallsLeft(st, key, c, pc) == 9 + IDCount(st, pc.pool)
    ensures pc.Finding? ==> CallsLeft(st, key, c, pc) == 8 + IDCount(st, pc.pool)
    ensures pc.Writing? ==> CallsLeft(st, key, c, pc) == 3
  {
  }

  /** The first and the last read of a pass; a delete pass is not on the way. */
  lemma EdgeOnTrack(cfg: Config, room: Room, st: Store, key: Key, c: Claim, pc: Pc, reply: Reply)
    requires pc.Fetching? || pc.Polling? || ReleasePc(pc)
    requires OnTrack(cfg, room, st, key, c, pc) && Calm(cfg, room, st, c, pc, reply) && !pc.Patching?
    ensures Further(cfg, room, key, c, Step(cfg, st, key, c, pc, reply), CallsLeft(st, key, c, pc))
  {
    hide Servable, Complete, KnownIDs, PoolKeyOf;
  }

  // ---- Whole passes ----

  /** Every event keeps the invariants. */
  lemma EventSane(cfg: Config, s: State, e: Event)
    requires Sound(cfg) && Sane(cfg, s) && Legal(cfg, s, e)
    ensures Sane(cfg, Apply(cfg, s, e))
  {
    hide Inv, TextInv, OwnedInv, Legal, Apply;
    EventKeeps(cfg, s, e);
    EventNamed(cfg, s, e);
    EventOwned(cfg, s, e);
  }

  lemma SaneParts(cfg: Config, s: State)
    requires Sane(cfg, s)
    ensures Inv(cfg, s) && Named(cfg, s.store) && OwnedAddresses(s.store)
    ensures s.worker.Busy? ==> PcOwned(s.worker.key, s.worker.c, s.worker.pc)
  {
    hide Inv;
  }

  /** One call on the way: either the pass is done and the claim settled, or fewer calls are left. */
  lemma CalmCallGoesOn(cfg: Config, room: Room, s: State, e: Event)
    requires Sound(cfg) && Going(cfg, room, s) && Legal(cfg, s, e) && CalmCall(cfg, room, s, e)
    ensures var s' := Apply(cfg, s, e);
      && Sane(cfg, s')
      && (s'.worker.Idle? ==> Settled(s'.store, s.worker.key))
      && (s'.worker.Busy? ==>
            && Going(cfg, room, s') && s'.worker.key == s.worker.key
            && CallsLeft(s'.store, s'.worker.key, s'.worker.c, s'.worker.pc) < CallsLeft(s.store, s.worker.key, s.worker.c, s.worker.pc))
  {
    EventSane(cfg, s, e);
    SaneParts(cfg, s);
    StepOnTrack(cfg, room, s.store, s.worker.key, s.worker.c, s.worker.pc, e.reply);
    hide Step, OnTrack, Sane, CallsLeft, Settled, Calm;
  }

  function Left(s: State): nat {
    if s.worker.Busy? then CallsLeft(s.store, s.worker.key, s.worker.c, s.worker.pc) else 0
  }

  /** Calls without failures lead to a settled claim, and there are only so many of them. */
  lemma {:induction false} CalmCallsSettle(cfg: Config, room: Room, s: State, run: seq<Event>)
    requires Sound(cfg) && Going(cfg, room, s) && LegalRun(cfg, s, run)
    requires Along(cfg, s, run, (x, e) => CalmCall(cfg, room, x, e))
    ensures var f := Final(cfg, s, run);
      && Sane(cfg, f)
      && |run| + Left(f) <= Left(s)
      && (if f.worker.Idle? then Settled(f.store, s.worker.key) else Going(cfg, room, f))
    decreases |run|
  {
    hide Going, Sane, Settled, CallsLeft, CalmCall, Legal, Apply;
    SaneGoing(cfg, room, s);
    if run != [] {
      var s' := Apply(cfg, s, run[0]);
      CalmCallGoesOn(cfg, room, s, run[0]);
      if s'.worker.Busy? {
        CalmCallsSettle(cfg, room, s', run[1..]);
      } else if run[1..] != [] {
        IdleCallsNothing(cfg, room, s', run[1..][0]);
      }
    }
  }

  lemma SaneGoing(cfg: Config, room: Room, s: State)
    requires Going(cfg, room, s)
    ensures Sane(cfg, s) && s.worker.Busy?
  {
  }

  lemma IdleCallsNothing(cfg: Config, room: Room, s: State, e: Event)
    requires s.worker.Idle?
    ensures !CalmCall(cfg, room, s, e)
  {
  }

  lemma OneIsAnAddress()
    ensures MapIPAddress("1").address == "1"
  {
  }

  /** The pass is never stuck. */
  lemma CalmReplyExists(cfg: Config, room: Room, s: State) returns (reply: Reply)
    requires Going(cfg, room, s)
    ensures Calm(cfg, room, s.store, s.worker.c, s.worker.pc, reply)
  {
    var st, c, pc := s.store, s.worker.c, s.worker.pc;
    assert PcOnTrack(cfg, room, st, s.worker.key, c, pc);
    hide Going, Sane, Carries, Servable, CanAllocate, Complete, PoolAt, KnownIDs, MetadataOk, MapIPAddress, Untouched, Open;
    match pc
    case Finding(_, _, _) =>
      if id :| id in st.records && Carries(cfg, st.records[id], c.uid) {
        reply := Found(id);
      } else {
        reply := Missing;
      }
    case Allocating(_, _, _, ids, i) =>
      if i < |ids| && ids[i] in room {
        var id := Above(st.records.Keys);
        OneIsAnAddress();
        reply := Granted(id, "1");
      } else {
        reply := NoRoom;
      }
    case Patching(_, _) => reply := Wrote(true, true);
    case _ => reply := Done;
  }

  lemma {:induction false} CalmCallsExist(cfg: Config, room: Room, s: State) returns (run: seq<Event>)
    requires Sound(cfg) && Going(cfg, room, s)
    ensures LegalRun(cfg, s, run) && Along(cfg, s, run, (x, e) => CalmCall(cfg, room, x, e)) && Final(cfg, s, run).worker.Idle?
    decreases Left(s)
  {
    var e, s' := CalmCallExists(cfg, room, s);
    hide Going, CalmCall, Legal, Apply, Left;
    var rest: seq<Event> := [];
    if s'.worker.Busy? {
      rest := CalmCallsExist(cfg, room, s');
    }
    run := [e] + rest;
    assert run[1..] == rest && run[0] == e;
  }

  lemma CalmCallExists(cfg: Config, room: Room, s: State) returns (e: Event, s': State)
    requires Sound(cfg) && Going(cfg, room, s)
    ensures Legal(cfg, s, e) && CalmCall(cfg, room, s, e) && s' == Apply(cfg, s, e)
    ensures s'.worker.Busy? ==> Going(cfg, room, s') && Left(s') < Left(s)
  {
    var reply := CalmReplyExists(cfg, room, s);
    SaneGoing(cfg, room, s);
    CalmIsLegal(cfg, room, s, reply);
    hide Going, Settled, CallsLeft, CalmCall, Sane, Legal, Apply;
    e := Call(reply);
    s' := Apply(cfg, s, e);
    CalmCallGoesOn(cfg, room, s, e);
  }

  lemma CalmIsLegal(cfg: Config, room: Room, s: State, reply: Reply)
    requires s.worker.Busy? && Calm(cfg, room, s.store, s.worker.c, s.worker.pc, reply)
    ensures Legal(cfg, s, Call(reply)) && CalmCall(cfg, room, s, Call(reply))
  {
  }

  // ---- From a reachable state ----

  ghost predicate Resting(cfg: Config, s: State) {
    Sane(cfg, s) && s.worker.Idle?
  }

  /** Beginning a pass of a registered claim puts it on its way. */
  lemma BeginGoes(cfg: Config, room: Room, s: State, key: Key)
    requires Sound(cfg) && Resting(cfg, s) && Startable(cfg, room, s.store, key) && s.store.claims[key].finalizer
    ensures Legal(cfg, s, Begin(key, Done))
    ensures var s' := Apply(cfg, s, Begin(key, Done)); Going(cfg, room, s') && s'.worker.key == key && s'.store == s.store
  {
    BeginSane(cfg, s, key);
    hide Sane, Servable;
  }

  lemma BeginSane(cfg: Config, s: State, key: Key)
    requires Sound(cfg) && Resting(cfg, s)
    ensures Legal(cfg, s, Begin(key, Done)) && Sane(cfg, Apply(cfg, s, Begin(key, Done)))
  {
    assert Legal(cfg, s, Begin(key, Done));
    hide Legal, Sane, Apply;
    EventSane(cfg, s, Begin(key, Done));
  }

  /** One pass of a registered claim settles it. */
  lemma RegisteredPassSettles(cfg: Config, room: Room, s: State, key: Key, run: seq<Event>)
    requires Sound(cfg) && Resting(cfg, s) && Startable(cfg, room, s.store, key) && s.store.claims[key].finalizer
    requires WholePass(cfg, room, s, key, run)
    ensures Resting(cfg, Final(cfg, s, run)) && Settled(Final(cfg, s, run).store, key)
  {
    BeginGoes(cfg, room, s, key);
    var s' := Apply(cfg, s, Begin(key, Done));
    hide Resting, Startable, Going, Sane, Settled, CalmCall, Legal, Apply, CallsLeft;
    CalmCallsSettle(cfg, room, s', run[1..]);
    assert Resting(cfg, Final(cfg, s, run)) by {
      RestingIf(cfg, Final(cfg, s, run));
    }
  }

  lemma RestingIf(cfg: Config, s: State)
    requires Sane(cfg, s) && s.worker.Idle?
    ensures Resting(cfg, s)
  {
  }

  /** The store with the claim registered. */
  function Registering(st: Store, key: Key): Store
    requires key in st.claims
  {
    st.(claims := st.claims[key := st.claims[key].(finalizer := true)])
  }

  /** The first pass of a new claim only registers it. */
  lemma NewPassRegisters(cfg: Config, room: Room, s: State, key: Key, run: seq<Event>)
    requires Sound(cfg) && Resting(cfg, s) && key in s.store.claims && !s.store.claims[key].deleting && !s.store.claims[key].finalizer
    requires WholePass(cfg, room, s, key, run)
    ensures Final(cfg, s, run).store == Registering(s.store, key) && Resting(cfg, Final(cfg, s, run))
  {
    BeginRegisters(cfg, s, key);
    hide Resting, Sane, Legal, CalmCall, Along;
    BeginSane(cfg, s, key);
    var s1 := Apply(cfg, s, Begin(key, Done));
    hide Apply;
    OnlyThePatch(cfg, room, s1, run[1..]);
    var s2 := Apply(cfg, s1, Call(Wrote(true, true)));
    PatchRegisters(cfg, s1, s.store, key);
    FinalOfTwo(cfg, s, s1, s2, run);
    PatchSane(cfg, s1);
    RestingIf(cfg, s2);
  }

  lemma BeginRegisters(cfg: Config, s: State, key: Key)
    requires s.worker.Idle? && key in s.store.claims && !s.store.claims[key].finalizer
    ensures Legal(cfg, s, Begin(key, Done))
    ensures var c, s1 := s.store.claims[key], Apply(cfg, s, Begin(key, Done));
      s1.worker == Busy(key, c, Patching(c.(finalizer := true), Kept)) && s1.store == s.store
  {
  }

  lemma PatchRegisters(cfg: Config, s: State, st: Store, key: Key)
    requires key in st.claims && !st.claims[key].deleting && !st.claims[key].finalizer && s.store == st
    requires s.worker == Busy(key, st.claims[key], Patching(st.claims[key].(finalizer := true), Kept))
    ensures Legal(cfg, s, Call(Wrote(true, true)))
    ensures var s2 := Apply(cfg, s, Call(Wrote(true, true))); s2.worker.Idle? && s2.store == Registering(st, key)
  {
    RegisteringPatch(st, key);
    hide PatchClaim, Registering;
  }

  lemma FinalOfTwo(cfg: Config, s: State, s1: State, s2: State, run: seq<Event>)
    requires |run| == 2 && LegalRun(cfg, s, run) && s1 == Apply(cfg, s, run[0])
    requires Legal(cfg, s1, run[1..][0]) && s2 == Apply(cfg, s1, run[1..][0])
    ensures Final(cfg, s, run) == s2
  {
    hide Apply, Legal;
    assert run[1..][1..] == [];
    assert Final(cfg, s, run) == Final(cfg, s1, run[1..]) == Final(cfg, s2, []);
  }

  lemma OnlyThePatch(cfg: Config, room: Room, s: State, run: seq<Event>)
    requires s.worker.Busy? && s.worker.pc.Patching?
    requires LegalRun(cfg, s, run) && Along(cfg, s, run, (x, e) => CalmCall(cfg, room, x, e)) && Final(cfg, s, run).worker.Idle?
    ensures run == [Call(Wrote(true, true))]
  {
    hide Apply, Legal;
    assert CalmCall(cfg, room, s, run[0]);
    var s' := Apply(cfg, s, run[0]);
    assert s'.worker.Idle? by {
      PatchEnds(cfg, s);
    }
    if |run| > 1 {
      IdleCallsNothing(cfg, room, s', run[1..][0]);
      hide CalmCall;
    }
  }

  lemma PatchEnds(cfg: Config, s: State)
    requires s.worker.Busy? && s.worker.pc.Patching? && Legal(cfg, s, Call(Wrote(true, true)))
    ensures Apply(cfg, s, Call(Wrote(true, true))).worker.Idle?
  {
    hide PatchClaim;
  }

  lemma PatchSane(cfg: Config, s: State)
    requires Sound(cfg) && Sane(cfg, s) && s.worker.Busy? && s.worker.pc.Patching?
    ensures Sane(cfg, Apply(cfg, s, Call(Wrote(true, true))))
  {
    var e := Call(Wrote(true, true));
    assert Legal(cfg, s, e);
    hide Legal, Sane, Apply;
    EventSane(cfg, s, e);
  }

  lemma RegisteringPatch(st: Store, key: Key)
    requires key in st.claims && !st.claims[key].deleting && !st.claims[key].finalizer
    ensures PatchClaim(st, key, st.claims[key], st.claims[key].(finalizer := true), Kept, true, true) == Registering(st, key)
  {
  }

  lemma RegisteringStartable(cfg: Config, room: Room, st: Store, key: Key)
    requires Startable(cfg, room, st, key)
    ensures Startable(cfg, room, Registering(st, key), key)
  {
    var st', c := Registering(st, key), st.claims[key];
    hide Carries, ResolveIDs, PoolKeyOf;
    assert HasRecord(cfg, st, c.uid) ==> HasRecord(cfg, st', c.uid);
    hide HasRecord;
    MetadataOfClaim(cfg, c, st'.claims[key]);
    hide MetadataOk;
  }

  lemma MetadataOfClaim(cfg: Config, c: Claim, c': Claim)
    requires c'.annotations == c.annotations
    ensures forall pool :: MetadataOk(cfg, c', pool) == MetadataOk(cfg, c, pool)
  {
    hide Effective;
  }

  // ---- Passes over a settled claim ----

  /** The pass has found everything in place so far. */
  predicate Quiet(st: Store, key: Key, c: Claim, pc: Pc) {
    && Settled(st, key) && c == st.claims[key] && st.addresses[key].text != ""
    && match pc
       case Fetching => true
       case Getting(pool) => PoolAt(st, key, c) == Some(pool)
       case Polling(next) => next == st.addresses[key]
       case Patching(update, exit) => update == c && exit == Kept
       case _ => false
  }

  lemma QuietStep(cfg: Config, room: Room, st: Store, key: Key, c: Claim, pc: Pc, reply: Reply)
    requires Quiet(st, key, c, pc) && Calm(cfg, room, st, c, pc, reply)
    ensures var o := Step(cfg, st, key, c, pc, reply);
      && o.store == st
      && (o.worker.Busy? ==> o.worker.key == key && o.worker.c == c && Quiet(st, key, c, o.worker.pc))
  {
    hide Finish, PoolKeyOf;
    if pc.Patching? {
      assert PatchClaim(st, key, c, c, Kept, true, true) == st by {
        PatchNothing(st, key);
      }
      hide PatchClaim;
    }
  }

  lemma PatchNothing(st: Store, key: Key)
    requires key in st.claims && !st.claims[key].deleting
    ensures PatchClaim(st, key, st.claims[key], st.claims[key], Kept, true, true) == st
  {
    var st' := PatchClaim(st, key, st.claims[key], st.claims[key], Kept, true, true);
    assert st'.claims == st.claims;
  }

  predicate AtRest(s: State) {
    s.worker.Busy? ==> Quiet(s.store, s.worker.key, s.worker.c, s.worker.pc)
  }

  lemma {:induction false} QuietCalls(cfg: Config, room: Room, s: State, run: seq<Event>)
    requires AtRest(s) && LegalRun(cfg, s, run) && Along(cfg, s, run, (x, e) => CalmCall(cfg, room, x, e))
    ensures Final(cfg, s, run).store == s.store
    decreases |run|
  {
    if run != [] {
      QuietCall(cfg, room, s, run[0]);
      hide AtRest, CalmCall, Legal, Apply;
      QuietCalls(cfg, room, Apply(cfg, s, run[0]), run[1..]);
    }
  }

  lemma QuietCall(cfg: Config, room: Room, s: State, e: Event)
    requires AtRest(s) && Legal(cfg, s, e) && CalmCall(cfg, room, s, e)
    ensures Apply(cfg, s, e).store == s.store && AtRest(Apply(cfg, s, e))
  {
    QuietStep(cfg, room, s.store, s.worker.key, s.worker.c, s.worker.pc, e.reply);
    hide Step, Quiet, Calm;
  }

  // ---- Which passes agree ----

  /** The claim's record and its address agree, or the address is still to come. */
  ghost predicate Agreeing(cfg: Config, st: Store, key: Key, c: Claim, pc: Pc)
    requires key in st.claims
  {
    match pc
    case Fetching => key in st.addresses ==> OwnIn(cfg, st, key)
    case Getting(_) => key in st.addresses ==> OwnIn(cfg, st, key)
    case LookingUpIDs(_, _, base, _) => HasOwn(cfg, st, c.uid, base.text, base.prefix)
    case LookingUpDetails(_, _, base, _, _) => HasOwn(cfg, st, c.uid, base.text, base.prefix)
    case Writing(_, next) => HasOwn(cfg, st, c.uid, next.text, next.prefix)
    case Polling(_) => key in st.addresses && OwnIn(cfg, st, key)
    case Patching(_, _) => key in st.addresses && OwnIn(cfg, st, key)
    case _ => true
  }

  /** The outcome agrees exactly if the step before did. */
  ghost predicate AgreesOn(cfg: Config, o: Outcome, key: Key, c: Claim, agreed: bool) {
    o.worker.Busy? && key in o.store.claims && (Agreeing(cfg, o.store, key, c, o.worker.pc) <==> agreed)
  }

  lemma ToWriteAgrees(cfg: Config, st: Store, key: Key, c: Claim, pool: Pool, existing: Option<Address>, base: Address)
    requires key in st.claims && st.claims[key] == c && existing == Lookup(st.addresses, key)
    ensures AgreesOn(cfg, ToWrite(st, key, c, pool, existing, base), key, c, HasOwn(cfg, st, c.uid, base.text, base.prefix))
  {
    var next := Finish(base, key, c, pool);
    assert next.text == base.text && next.prefix == base.prefix by {
      hide Ensured;
    }
    hide Finish, HasOwn, AgreesOn;
    if existing == Some(next) {
      assert key in st.addresses && st.addresses[key] == next;
      assert Agreeing(cfg, st, key, c, Polling(next)) == HasOwn(cfg, st, c.uid, base.text, base.prefix);
      hide Agreeing, Lookup;
      AgreesAt(cfg, st, key, c, Polling(next));
    } else {
      hide Lookup, OwnIn;
      assert Agreeing(cfg, st, key, c, Writing(existing, next)) == HasOwn(cfg, st, c.uid, base.text, base.prefix);
      hide Agreeing;
      AgreesAt(cfg, st, key, c, Writing(existing, next));
    }
  }

  lemma AgreesAt(cfg: Config, st: Store, key: Key, c: Claim, pc: Pc)
    requires key in st.claims && st.claims[key] == c
    ensures AgreesOn(cfg, At(st, key, c, pc), key, c, Agreeing(cfg, st, key, c, pc))
  {
    hide Agreeing;
  }

  lemma WithGatewayAgrees(cfg: Config, st: Store, key: Key, c: Claim, pool: Pool, existing: Option<Address>, base: Address,
                          entries: seq<ResolvedPrefix>, mode: Mode)
    requires key in st.claims && st.claims[key] == c && existing == Lookup(st.addresses, key)
    ensures AgreesOn(cfg, WithGateway(cfg, st, key, c, pool, existing, base, entries, mode), key, c, HasOwn(cfg, st, c.uid, base.text, base.prefix))
  {
    hide ToWrite, GatewayFrom, HasOwn;
    ToWriteAgrees(cfg, st, key, c, pool, existing, base.(gateway := GatewayFrom(cfg, entries, base, mode)));
  }

  lemma LookUpGatewayAgrees(cfg: Config, st: Store, key: Key, c: Claim, pool: Pool, existing: Option<Address>, base: Address,
                            ids: seq<int>, mode: Mode)
    requires key in st.claims && st.claims[key] == c && existing == Lookup(st.addresses, key)
    ensures AgreesOn(cfg, LookUpGateway(cfg, st, key, c, pool, existing, base, ids, mode), key, c, HasOwn(cfg, st, c.uid, base.text, base.prefix))
  {
    hide WithGateway, HasOwn;
    WithGatewayAgrees(cfg, st, key, c, pool, existing, base, pool.status.details, mode);
  }

  lemma LookingUpAgrees(cfg: Config, st: Store, key: Key, c: Claim, pc: Pc, reply: Reply)
    requires pc.LookingUpIDs? || pc.LookingUpDetails?
    requires key in st.claims && st.claims[key] == c && pc.existing == Lookup(st.addresses, key)
    ensures AgreesOn(cfg, Step(cfg, st, key, c, pc, reply), key, c, HasOwn(cfg, st, c.uid, pc.base.text, pc.base.prefix))
  {
    hide WithGateway, ResolveIDs, Build, DetailsOf, GatewayChoice, HasOwn;
    forall entries: seq<ResolvedPrefix>
      ensures AgreesOn(cfg, WithGateway(cfg, st, key, c, pc.pool, pc.existing, pc.base, entries, pc.mode), key, c,
                       HasOwn(cfg, st, c.uid, pc.base.text, pc.base.prefix))
    {
      WithGatewayAgrees(cfg, st, key, c, pc.pool, pc.existing, pc.base, entries, pc.mode);
    }
  }

  /** A record that is found, or granted, is the one the address repeats. */
  lemma FoundAgrees(cfg: Config, st: Store, key: Key, c: Claim, pc: Pc, reply: Reply)
    requires pc.Finding? && LegalByUID(cfg, st, c.uid, reply) && !reply.Failed?
    requires key in st.claims && st.claims[key] == c && pc.existing == Lookup(st.addresses, key)
    ensures AgreesOn(cfg, Step(cfg, st, key, c, pc, reply), key, c, true)
  {
    hide LookUpGateway, Carries, MapIPAddress, NoRecord;
    if reply.Found? {
      var base := WithText(pc.base, st.records[reply.id].text);
      assert Names(base.text, base.prefix, st.records[reply.id]);
      LookUpGatewayAgrees(cfg, st, key, c, pc.pool, pc.existing, base, pc.pool.status.resolved, ByAddress);
    }
  }

  lemma GrantAgrees(cfg: Config, st: Store, key: Key, c: Claim, pc: Pc, reply: Reply)
    requires Sound(cfg) && pc.Allocating? && pc.i < |pc.ids| && MetadataOk(cfg, c, pc.pool) && reply.Granted?
    requires key in st.claims && st.claims[key] == c && pc.existing == Lookup(st.addresses, key)
    ensures AgreesOn(cfg, Step(cfg, st, key, c, pc, reply), key, c, true)
  {
    hide AddRecord, LookUpGateway, HasOwn, MapIPAddress, MetadataOk, WithText, NewRecord;
    var prefix := pc.ids[pc.i];
    var st' := AddRecord(cfg, st, key, c, pc.pool, prefix, reply.id, reply.text);
    var base := WithText(pc.base, reply.text);
    AddIsRecords(cfg, st, key, c, pc.pool, prefix, reply.id, reply.text);
    GrantedIsOwn(cfg, st, key, c, pc.pool, pc.base, prefix, reply.id, reply.text);
    LookUpGatewayAgrees(cfg, st', key, c, pc.pool, pc.existing, base, pc.ids, ByPrefix(prefix));
  }

  lemma GrantedIsOwn(cfg: Config, st: Store, key: Key, c: Claim, pool: Pool, base: Address, prefix: int, id: int, text: string)
    requires Sound(cfg) && MetadataOk(cfg, c, pool)
    ensures HasOwn(cfg, AddRecord(cfg, st, key, c, pool, prefix, id, text), c.uid, WithText(base, text).text, WithText(base, text).prefix)
  {
    AddIsRecords(cfg, st, key, c, pool, prefix, id, text);
    hide AddRecord, NewRecord, Carries, MetadataOk, MapIPAddress;
    NewRecordText(cfg, key, c, pool, prefix, text);
    NewRecordCarries(cfg, key, c, pool, prefix, text, c.uid);
    assert Names(WithText(base, text).text, WithText(base, text).prefix, AddRecord(cfg, st, key, c, pool, prefix, id, text).records[id]);
  }

  lemma WritingAgrees(cfg: Config, st: Store, key: Key, c: Claim, existing: Option<Address>, next: Address)
    requires key in st.claims && st.claims[key] == c && existing.Some? == (key in st.addresses)
    ensures AgreesOn(cfg, StepWriting(st, key, c, existing, next, Done), key, c, HasOwn(cfg, st, c.uid, next.text, next.prefix))
  {
    WriteAddressKeepsRest(st, key, next);
    assert WriteAddress(st, key, next).records == st.records;
    hide WriteAddress, Carries, Names;
  }

  /** A calm step on the way keeps the agreement, and the lack of it. */
  lemma StepAgrees(cfg: Config, room: Room, st: Store, key: Key, c: Claim, pc: Pc, reply: Reply)
    requires Sound(cfg) && Named(cfg, st) && OnTrack(cfg, room, st, key, c, pc) && Calm(cfg, room, st, c, pc, reply) && !pc.Patching?
    ensures key in st.claims && AgreesOn(cfg, Step(cfg, st, key, c, pc, reply), key, c, Agreeing(cfg, st, key, c, pc))
  {
    hide HasOwn, MapIPAddress, Carries, Servable, CanAllocate, Complete, Open, PoolAt, MetadataOk, KnownIDs;
    match pc
    case Getting(pool) =>
      hide ToWrite;
      if key in st.addresses {
        ToWriteAgrees(cfg, st, key, c, pool, Some(st.addresses[key]), st.addresses[key]);
      }
    case Finding(_, _, _) => FoundAgrees(cfg, st, key, c, pc, reply); hide Step;
    case Allocating(_, _, _, _, _) =>
      if reply.Granted? {
        GrantAgrees(cfg, st, key, c, pc, reply);
        hide Step;
      }
    case LookingUpIDs(_, _, _, _) => LookingUpAgrees(cfg, st, key, c, pc, reply); hide Step;
    case LookingUpDetails(_, _, _, _, _) => LookingUpAgrees(cfg, st, key, c, pc, reply); hide Step;
    case Writing(existing, next) => WritingAgrees(cfg, st, key, c, existing, next); hide WriteAddress;
    case CheckingField(_, _, _) => CheckingAgrees(cfg, room, st, key, c, pc, reply); hide Step;
    case Resolving(_, _, _) => CheckingAgrees(cfg, room, st, key, c, pc, reply); hide Step;
    case _ => EdgeAgrees(cfg, room, st, key, c, pc, reply); hide Step, Agreeing;
  }

  lemma EdgeAgrees(cfg: Config, room: Room, st: Store, key: Key, c: Claim, pc: Pc, reply: Reply)
    requires pc.Fetching? || pc.Polling? || ReleasePc(pc)
    requires OnTrack(cfg, room, st, key, c, pc) && Calm(cfg, room, st, c, pc, reply) && !pc.Patching?
    ensures key in st.claims && AgreesOn(cfg, Step(cfg, st, key, c, pc, reply), key, c, Agreeing(cfg, st, key, c, pc))
  {
    hide Servable, Complete, KnownIDs, PoolKeyOf, OwnIn;
  }

  lemma CheckingAgrees(cfg: Config, room: Room, st: Store, key: Key, c: Claim, pc: Pc, reply: Reply)
    requires pc.CheckingField? || pc.Resolving?
    requires OnTrack(cfg, room, st, key, c, pc) && Calm(cfg, room, st, c, pc, reply)
    ensures key in st.claims && AgreesOn(cfg, Step(cfg, st, key, c, pc, reply), key, c, true)
  {
    hide PoolAt, ResolveIDs, MetadataOk;
  }

  lemma PatchAgrees(cfg: Config, room: Room, st: Store, key: Key, c: Claim, update: Claim)
    requires OnTrack(cfg, room, st, key, c, Patching(update, Kept))
    ensures var st' := StepPatching(st, key, c, update, Kept, Wrote(true, true)).store;
      key in st'.claims && key in st'.addresses && (OwnIn(cfg, st', key) <==> OwnIn(cfg, st, key))
  {
    hide Finish, Carries, Names;
    PatchIsOnlyClaims(st, key, c, update, Kept, true, true);
    PatchIsOneClaim(st, key, c, update, Kept, true, true);
    PatchingSettles(cfg, room, st, key, c, update);
    hide PatchClaim;
  }

  /** The worker's step agrees. */
  ghost predicate Agrees(cfg: Config, s: State)
    requires s.worker.Busy? && s.worker.key in s.store.claims
  {
    Agreeing(cfg, s.store, s.worker.key, s.worker.c, s.worker.pc)
  }

  lemma GoingHasClaim(cfg: Config, room: Room, s: State)
    requires Going(cfg, room, s)
    ensures s.worker.Busy? && s.worker.key in s.store.claims
  {
  }

  lemma SettledHas(st: Store, key: Key)
    requires Settled(st, key)
    ensures key in st.claims && key in st.addresses
  {
  }

  lemma CalmCallAgrees(cfg: Config, room: Room, s: State, e: Event)
    requires Sound(cfg) && Going(cfg, room, s) && Legal(cfg, s, e) && CalmCall(cfg, room, s, e)
    ensures var s' := Apply(cfg, s, e);
      s.worker.key in s.store.claims && s.worker.key in s'.store.claims &&
      (if s'.worker.Busy? then s'.worker.key == s.worker.key && (Agrees(cfg, s') <==> Agrees(cfg, s))
       else s.worker.key in s'.store.addresses && (OwnIn(cfg, s'.store, s.worker.key) <==> Agrees(cfg, s)))
  {
    SaneParts(cfg, s);
    GoingHasClaim(cfg, room, s);
    var st, key, c, pc := s.store, s.worker.key, s.worker.c, s.worker.pc;
    hide Sane, Inv;
    if pc.Patching? {
      PatchAgrees(cfg, room, st, key, c, pc.update);
      hide StepPatching, OnTrack, OwnIn;
    } else {
      StepOnTrack(cfg, room, st, key, c, pc, e.reply);
      StepAgrees(cfg, room, st, key, c, pc, e.reply);
      hide Step, OnTrack, Agreeing;
    }
  }

  /** A completed pass agrees in the end exactly if it did on the way. */
  lemma {:induction false} CalmCallsAgree(cfg: Config, room: Room, s: State, run: seq<Event>)
    requires Sound(cfg) && Going(cfg, room, s) && LegalRun(cfg, s, run)
    requires Along(cfg, s, run, (x, e) => CalmCall(cfg, room, x, e)) && Final(cfg, s, run).worker.Idle?
    ensures s.worker.key in s.store.claims
    ensures var st := Final(cfg, s, run).store;
      s.worker.key in st.claims && s.worker.key in st.addresses && (OwnIn(cfg, st, s.worker.key) <==> Agrees(cfg, s))
    decreases |run|
  {
    hide Going, Sane, CallsLeft, CalmCall, Legal, Apply, Agrees, OwnIn, Settled;
    SaneGoing(cfg, room, s);
    GoingHasClaim(cfg, room, s);
    var s' := Apply(cfg, s, run[0]);
    CalmCallGoesOn(cfg, room, s, run[0]);
    CalmCallAgrees(cfg, room, s, run[0]);
    if s'.worker.Busy? {
      CalmCallsAgree(cfg, room, s', run[1..]);
    } else if run[1..] != [] {
      IdleCallsNothing(cfg, room, s', run[1..][0]);
    }
  }

  /** The address of the claim, if there is one, is that of its record. */
  ghost predicate Agreed(cfg: Config, st: Store, key: Key)
    requires key in st.claims
  {
    key in st.addresses ==> OwnIn(cfg, st, key)
  }

  lemma RegisteredPassAgrees(cfg: Config, room: Room, s: State, key: Key, run: seq<Event>)
    requires Sound(cfg) && Resting(cfg, s) && Startable(cfg, room, s.store, key) && s.store.claims[key].finalizer
    requires WholePass(cfg, room, s, key, run)
    ensures var st := Final(cfg, s, run).store;
      key in st.claims && key in st.addresses && (OwnIn(cfg, st, key) <==> Agreed(cfg, s.store, key))
  {
    BeginGoes(cfg, room, s, key);
    var s' := Apply(cfg, s, Begin(key, Done));
    assert Agrees(cfg, s') <==> Agreed(cfg, s.store, key) by {
      hide Resting, Going, OwnIn, Servable;
    }
    hide Resting, Startable, Going, Sane, CalmCall, Legal, Apply, Agrees, Agreed, OwnIn;
    CalmCallsAgree(cfg, room, s', run[1..]);
  }

  lemma RegisteringAgreed(cfg: Config, st: Store, key: Key)
    requires key in st.claims
    ensures Agreed(cfg, Registering(st, key), key) <==> Agreed(cfg, st, key)
  {
    hide Carries, Names;
  }

  // ---- The theorems ----

  lemma ReachableIsSane(cfg: Config, s0: State, run: seq<Event>)
    requires Sound(cfg) && Init(cfg, s0) && LegalRun(cfg, s0, run)
    ensures Sane(cfg, Final(cfg, s0, run))
  {
    OwnedAtEnd(cfg, s0, run);
    InitNamed(cfg, s0);
    RunNamed(cfg, s0, run);
  }

  ghost predicate OneRecordAgrees(cfg: Config, st: Store, key: Key)
    requires key in st.claims && key in st.addresses
  {
    exists i :: i in st.records && Carries(cfg, st.records[i], st.claims[key].uid)
                && Names(st.addresses[key].text, st.addresses[key].prefix, st.records[i])
                && forall j :: j in st.records && Carries(cfg, st.records[j], st.claims[key].uid) ==> j == i
  }

  /** There never are two records, so an own record that the address repeats is the one. */
  lemma OneRecordIffOwn(cfg: Config, s: State, key: Key)
    requires Inv(cfg, s) && key in s.store.claims && key in s.store.addresses
    ensures OneRecordAgrees(cfg, s.store, key) <==> OwnIn(cfg, s.store, key)
  {
    var st := s.store;
    assert UniqueRecords(cfg, st);
    hide Inv, Carries, Names;
    if OwnIn(cfg, st, key) {
      var i :| i in st.records && Carries(cfg, st.records[i], st.claims[key].uid)
               && Names(st.addresses[key].text, st.addresses[key].prefix, st.records[i]);
    }
  }

  /** A settled claim is left alone by every further pass. */
  lemma SettledPassChangesNothing(cfg: Config, room: Room, s: State, key: Key, pass: seq<Event>)
    requires Sound(cfg) && Resting(cfg, s) && Settled(s.store, key) && WholePass(cfg, room, s, key, pass)
    ensures Final(cfg, s, pass).store == s.store && Resting(cfg, Final(cfg, s, pass))
  {
    SaneParts(cfg, s);
    SettledHas(s.store, key);
    var s' := Apply(cfg, s, pass[0]);
    BeginQuiet(cfg, s, key);
    hide Settled, CalmCall, Apply, Legal, AtRest, Sane, Inv;
    QuietCalls(cfg, room, s', pass[1..]);
    RunSane(cfg, s, pass);
    RestingIf(cfg, Final(cfg, s, pass));
  }

  lemma {:induction false} RunSane(cfg: Config, s: State, run: seq<Event>)
    requires Sound(cfg) && Sane(cfg, s) && LegalRun(cfg, s, run)
    ensures Sane(cfg, Final(cfg, s, run))
    decreases |run|
  {
    hide Sane, Legal, Apply;
    if run != [] {
      EventSane(cfg, s, run[0]);
      RunSane(cfg, Apply(cfg, s, run[0]), run[1..]);
    }
  }

  lemma BeginQuiet(cfg: Config, s: State, key: Key)
    requires s.worker.Idle? && Settled(s.store, key) && s.store.addresses[key].text != ""
    ensures var s' := Apply(cfg, s, Begin(key, Done)); s'.store == s.store && AtRest(s')
  {
    hide Finish;
  }

  /** Two passes, whatever state the claim was left in. */
  lemma TwoPassesSettle(cfg: Config, room: Room, s: State, key: Key, first: seq<Event>, second: seq<Event>)
    requires Sound(cfg) && Resting(cfg, s) && Startable(cfg, room, s.store, key)
    requires WholePass(cfg, room, s, key, first) && WholePass(cfg, room, Final(cfg, s, first), key, second)
    ensures var s2 := Final(cfg, Final(cfg, s, first), second);
      && Resting(cfg, s2) && Settled(s2.store, key)
      && key in s.store.claims && key in s2.store.claims && key in s2.store.addresses
      && (OwnIn(cfg, s2.store, key) <==> Agreed(cfg, s.store, key))
  {
    var s1 := Final(cfg, s, first);
    StartableHasClaim(cfg, room, s.store, key);
    hide Resting, Settled, Agreed, OwnIn;
    if s.store.claims[key].finalizer {
      RegisteredPassSettles(cfg, room, s, key, first);
      RegisteredPassAgrees(cfg, room, s, key, first);
      hide WholePass, Startable;
      SettledPassChangesNothing(cfg, room, s1, key, second);
    } else {
      NewPassRegisters(cfg, room, s, key, first);
      RegisteringStartable(cfg, room, s.store, key);
      RegisteringAgreed(cfg, s.store, key);
      hide WholePass, Startable;
      RegisteredPassSettles(cfg, room, s1, key, second);
      RegisteredPassAgrees(cfg, room, s1, key, second);
    }
  }

  lemma StartableHasClaim(cfg: Config, room: Room, st: Store, key: Key)
    requires Startable(cfg, room, st, key)
    ensures key in st.claims && !st.claims[key].deleting
  {
  }

  /** From every reachable state, whatever has failed or stopped before, two passes without failures make a live
      claim Ready whose pool is open and that has a record or can get one, with its `IPAddress`. It has exactly one
      record in the end, which the `IPAddress` repeats, if and only if the `IPAddress` it had before, if any, was
      that of its record. */
  lemma TwoPassesSuffice(cfg: Config, room: Room, s0: State, run: seq<Event>, key: Key, first: seq<Event>, second: seq<Event>)
    requires Sound(cfg) && Init(cfg, s0) && LegalRun(cfg, s0, run)
    requires Final(cfg, s0, run).worker.Idle? && Startable(cfg, room, Final(cfg, s0, run).store, key)
    requires WholePass(cfg, room, Final(cfg, s0, run), key, first)
    requires WholePass(cfg, room, Final(cfg, Final(cfg, s0, run), first), key, second)
    ensures var st := Final(cfg, Final(cfg, Final(cfg, s0, run), first), second).store;
      && Settled(st, key) && UniqueRecords(cfg, st)
      && (OneRecordAgrees(cfg, st, key) <==> Agreed(cfg, Final(cfg, s0, run).store, key))
  {
    hide LegalRun, Final, Along, Startable, Agreed, OwnIn, Settled, UniqueRecords, OneRecordAgrees, Sane, Resting, Inv;
    var s := Final(cfg, s0, run);
    var s2 := Final(cfg, Final(cfg, s, first), second);
    hide WholePass;
    ReachableIsSane(cfg, s0, run);
    RestingIf(cfg, s);
    TwoPassesSettle(cfg, room, s, key, first, second);
    RestingIsUnique(cfg, s2);
    OneRecordIffOwn(cfg, s2, key);
  }

  lemma RestingIsUnique(cfg: Config, s: State)
    requires Resting(cfg, s)
    ensures Inv(cfg, s) && UniqueRecords(cfg, s.store)
  {
  }

  /** A pass without failures over a settled claim changes nothing at all. */
  lemma FurtherPassesChangeNothing(cfg: Config, room: Room, s0: State, run: seq<Event>, key: Key, pass: seq<Event>)
    requires Sound(cfg) && Init(cfg, s0) && LegalRun(cfg, s0, run)
    requires Final(cfg, s0, run).worker.Idle? && Settled(Final(cfg, s0, run).store, key)
    requires WholePass(cfg, room, Final(cfg, s0, run), key, pass)
    ensures Final(cfg, Final(cfg, s0, run), pass).store == Final(cfg, s0, run).store
  {
    var s := Final(cfg, s0, run);
    hide LegalRun, Final, WholePass, Settled;
    ReachableIsSane(cfg, s0, run);
    RestingIf(cfg, s);
    SettledPassChangesNothing(cfg, room, s, key, pass);
  }

  /** From every reachable state such a pass can be completed. */
  lemma PassExists(cfg: Config, room: Room, s: State, key: Key) returns (run: seq<Event>)
    requires Sound(cfg) && Resting(cfg, s) && Startable(cfg, room, s.store, key)
    ensures WholePass(cfg, room, s, key, run)
  {
    StartableHasClaim(cfg, room, s.store, key);
    if s.store.claims[key].finalizer {
      BeginGoes(cfg, room, s, key);
      var s' := Apply(cfg, s, Begin(key, Done));
      var rest := CalmCallsExist(cfg, room, s');
      run := [Begin(key, Done)] + rest;
      assert run[1..] == rest;
      hide Resting, Startable, Going, CalmCall, Legal, Apply;
    } else {
      run := NewPassExists(cfg, room, s, key);
    }
  }

  lemma NewPassExists(cfg: Config, room: Room, s: State, key: Key) returns (run: seq<Event>)
    requires s.worker.Idle? && key in s.store.claims && !s.store.claims[key].finalizer
    ensures WholePass(cfg, room, s, key, run)
  {
    assert Legal(cfg, s, Begin(key, Done));
    var s1 := Apply(cfg, s, Begin(key, Done));
    assert s1.worker.Busy? && s1.worker.pc.Patching?;
    hide Apply;
    CalmIsLegal(cfg, room, s1, Wrote(true, true));
    PatchEnds(cfg, s1);
    hide CalmCall, Legal;
    run := [Begin(key, Done), Call(Wrote(true, true))];
    assert run[1..] == [Call(Wrote(true, true))] && run[1..][1..] == [];
    var s2 := Apply(cfg, s1, run[1..][0]);
    assert LegalRun(cfg, s2, run[1..][1..]);
    assert LegalRun(cfg, s1, run[1..]);
    FinalOfTwo(cfg, s, s1, s2, run);
    assert Along(cfg, s2, run[1..][1..], (x, e) => CalmCall(cfg, room, x, e));
  }

  /** It is over after at most `11 + n` events for a pool of `n` prefixes. */
  lemma PassIsBounded(cfg: Config, room: Room, s: State, key: Key, run: seq<Event>)
    requires Sound(cfg) && Resting(cfg, s) && Startable(cfg, room, s.store, key)
    requires run != [] && run[0] == Begin(key, Done) && LegalRun(cfg, s, run)
    requires Along(cfg, Apply(cfg, s, run[0]), run[1..], (x, e) => CalmCall(cfg, room, x, e))
    ensures |run| <= 11 + IDCount(s.store, PoolAt(s.store, key, s.store.claims[key]).value)
  {
    StartableHasClaim(cfg, room, s.store, key);
    var s' := Apply(cfg, s, run[0]);
    if s.store.claims[key].finalizer {
      BeginGoes(cfg, room, s, key);
      assert Left(s') == 10 + IDCount(s.store, PoolAt(s.store, key, s.store.claims[key]).value) by {
        hide IDCount, PoolAt, Resting, Going, Servable;
      }
      hide Resting, Startable, Going, CalmCall, Legal, Apply, Left;
      CalmCallsSettle(cfg, room, s', run[1..]);
    } else {
      assert s'.worker.Busy? && s'.worker.pc.Patching?;
      hide Resting, Startable, Apply;
      OnePatchOnly(cfg, room, s', run[1..]);
    }
  }

  lemma OnePatchOnly(cfg: Config, room: Room, s: State, run: seq<Event>)
    requires s.worker.Busy? && s.worker.pc.Patching?
    requires LegalRun(cfg, s, run) && Along(cfg, s, run, (x, e) => CalmCall(cfg, room, x, e))
    ensures |run| <= 1
  {
    hide Apply, Legal;
    if run != [] {
      assert CalmCall(cfg, room, s, run[0]);
      var s' := Apply(cfg, s, run[0]);
      assert s'.worker.Idle? by {
        PatchEnds(cfg, s);
      }
      if |run| > 1 {
        IdleCallsNothing(cfg, room, s', run[1..][0]);
        hide CalmCall;
      }
    }
  }
}
