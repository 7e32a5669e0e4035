/** The claim worker as a step machine: one step for each external call, with the answer of the call as input
    (pkg/ipamutil/reconciler.go:126-374; internal/controller/ipaddressclaim_controller.go:101-379). */
module Protocol {
  import opened Wrappers
  import opened Gateway
  import opened Prefixes
  import opened Annotations
  import opened Owners
  import opened AddressText
  import opened Model

  /** Both stores. `born`, `released` and `abandoned` are history: the name of every claim UID so far, and the
      UIDs whose finalizer a delete pass dropped with and without having found the pool. */
  datatype Store = Store(
    claims: map<Key, Claim>, addresses: map<Key, Address>, pools: map<PoolKey, Pool>,
    records: map<int, Record>, prefixes: seq<Row>,
    born: map<Uid, Key>, released: set<Uid>, abandoned: set<Uid>)

  /** How an external call ends for the caller and for the store. */
  datatype Reply =
    | Done                              // answered; a write has committed
    | Failed                            // an error, nothing committed
    | Lost                              // committed, but the caller sees an error
    | Skip                              // the claim's cluster is paused or missing
    | Found(id: int)                    // a lookup's record
    | Missing                           // a lookup without a match
    | Granted(id: int, text: string)    // a new record
    | GrantLost(id: int, text: string)  // a new record whose response is lost
    | NoRoom                            // no available address, or an empty response
    | Wrote(meta: bool, status: bool)   // the parts of the closing patch that committed

  datatype Exit = Kept | Released | Abandoned

  /** Whether the gateway is looked up by the allocating prefix or by the reused address. */
  datatype Mode = ByPrefix(id: int) | ByAddress

  /** The next external call of a claim pass, with the local state it needs. */
  datatype Pc =
    | Fetching
    | Getting(pool: Pool)
    | Finding(pool: Pool, existing: Option<Address>, base: Address)
    | CheckingField(pool: Pool, existing: Option<Address>, base: Address)
    | Resolving(pool: Pool, existing: Option<Address>, base: Address)
    | Allocating(pool: Pool, existing: Option<Address>, base: Address, ids: seq<int>, i: nat)
    | LookingUpIDs(pool: Pool, existing: Option<Address>, base: Address, mode: Mode)
    | LookingUpDetails(pool: Pool, existing: Option<Address>, base: Address, ids: seq<int>, mode: Mode)
    | Writing(existing: Option<Address>, next: Address)
    | Polling(next: Address)
    | ReleaseGetting(pool: Pool)
    | ReleaseFinding(found: Option<Address>)
    | ReleaseTrying(candidates: seq<string>)
    | ReleaseDeleting(id: int)
    | DeleteGetting(withPool: bool)
    | DeleteUnprotecting(withPool: bool)
    | DeleteDeleting(withPool: bool)
    | Patching(update: Claim, exit: Exit)

  /** The one claim worker: idle, or in a pass for `key` with the claim as it was read. */
  datatype Worker = Idle | Busy(key: Key, c: Claim, pc: Pc)

  datatype Outcome = Outcome(store: Store, worker: Worker)

  function Lookup<K, V>(m: map<K, V>, k: K): Option<V> {
    if k in m then Some(m[k]) else None
  }

  // ---- Ends of a pass ----

  function At(st: Store, key: Key, c: Claim, pc: Pc): Outcome {
    Outcome(st, Busy(key, c, pc))
  }

  function Quit(st: Store): Outcome {
    Outcome(st, Idle)
  }

  /** The closing patch runs even when there is nothing to change. */
  function Stop(st: Store, key: Key, c: Claim): Outcome {
    At(st, key, c, Patching(c, Kept))
  }

  function Report(st: Store, key: Key, c: Claim, reason: Reason): Outcome {
    At(st, key, c, Patching(c.(ready := NotReady(reason)), Kept))
  }

  function Fail(st: Store, key: Key, c: Claim): Outcome {
    Report(st, key, c, AllocationFailed)
  }

  // ---- Writing the address ----

  /** The part of the mutation that follows the address itself. */
  function Finish(base: Address, key: Key, c: Claim, pool: Pool): Address {
    base.(owners := Ensured(base.owners, ClaimOwner(key, c), PoolOwner(c.poolRef, pool)),
          clusterLabel := if c.clusterLabel.Some? then c.clusterLabel else base.clusterLabel,
          protect := true)
  }

  /** Write only what differs. */
  function ToWrite(st: Store, key: Key, c: Claim, pool: Pool, existing: Option<Address>, base: Address): Outcome {
    var next := Finish(base, key, c, pool);
    At(st, key, c, if existing == Some(next) then Polling(next) else Writing(existing, next))
  }

  function GatewayFrom(cfg: Config, entries: seq<ResolvedPrefix>, base: Address, mode: Mode): string {
    match mode
    case ByPrefix(id) => GatewayForPrefixID(entries, id)
    case ByAddress => GatewayForAddress(cfg.ip, entries, base.text)
  }

  function WithGateway(cfg: Config, st: Store, key: Key, c: Claim, pool: Pool, existing: Option<Address>, base: Address,
                       entries: seq<ResolvedPrefix>, mode: Mode): Outcome {
    ToWrite(st, key, c, pool, existing, base.(gateway := GatewayFrom(cfg, entries, base, mode)))
  }

  /** The cached entries if there are any, else a live lookup. */
  function LookUpGateway(cfg: Config, st: Store, key: Key, c: Claim, pool: Pool, existing: Option<Address>, base: Address,
                         ids: seq<int>, mode: Mode): Outcome {
    if pool.status.details != [] then WithGateway(cfg, st, key, c, pool, existing, base, pool.status.details, mode)
    else if ids == [] then At(st, key, c, LookingUpIDs(pool, existing, base, mode))
    else At(st, key, c, LookingUpDetails(pool, existing, base, ids, mode))
  }

  function WithText(base: Address, text: string): Address {
    var m := MapIPAddress(text);
    base.(text := m.address, prefix := Some(m.prefix))
  }

  // ---- Allocating ----

  function NextPrefix(st: Store, key: Key, c: Claim, pool: Pool, existing: Option<Address>, base: Address, ids: seq<int>, i: nat): Outcome {
    if i < |ids| then At(st, key, c, Allocating(pool, existing, base, ids, i))
    else Report(st, key, c, PoolExhausted)
  }

  predicate MetadataOk(cfg: Config, c: Claim, pool: Pool) {
    Effective(cfg.parse, pool.spec.defaults, c.annotations).Ok?
  }

  function StartAllocating(cfg: Config, st: Store, key: Key, c: Claim, pool: Pool, existing: Option<Address>, base: Address, ids: seq<int>): Outcome {
    if MetadataOk(cfg, c, pool) then NextPrefix(st, key, c, pool, existing, base, ids, 0) else Fail(st, key, c)
  }

  function AddRecord(cfg: Config, st: Store, key: Key, c: Claim, pool: Pool, prefix: int, id: int, text: string): Store
    requires MetadataOk(cfg, c, pool)
  {
    st.(records := st.records[id := NewRecord(cfg, key, c, pool, prefix, text)])
  }

  // ---- The steps of a live claim ----

  function StepFetching(st: Store, key: Key, c: Claim, reply: Reply): Outcome {
    var pk := PoolKeyOf(key.namespace, c.poolRef);
    if pk.None? || reply.Failed? then Fail(st, key, c)
    else if pk.value !in st.pools then
      if c.deleting then At(st, key, c, DeleteGetting(false)) else Report(st, key, c, PoolNotFound)
    else
      var pool := st.pools[pk.value];
      if pool.paused then Report(st, key, c, PoolPaused)
      else At(st, key, c, if c.deleting then ReleaseGetting(pool) else Getting(pool))
  }

  function StepGetting(st: Store, key: Key, c: Claim, pool: Pool, reply: Reply): Outcome {
    if reply.Failed? then Fail(st, key, c)
    else
      var existing := Lookup(st.addresses, key);
      var base := if existing.Some? then existing.value else NewIPAddress(key, c);
      if base.text != "" then ToWrite(st, key, c, pool, existing, base)
      else At(st, key, c, Finding(pool, existing, base))
  }

  function StepFinding(cfg: Config, st: Store, key: Key, c: Claim, pool: Pool, existing: Option<Address>, base: Address, reply: Reply): Outcome {
    match reply
    case Found(id) =>
      if id in st.records then
        LookUpGateway(cfg, st, key, c, pool, existing, WithText(base, st.records[id].text), pool.status.resolved, ByAddress)
      else Fail(st, key, c)
    case Missing => At(st, key, c, CheckingField(pool, existing, base))
    case _ => Fail(st, key, c)
  }

  function StepCheckingField(cfg: Config, st: Store, key: Key, c: Claim, pool: Pool, existing: Option<Address>, base: Address, reply: Reply): Outcome {
    if !reply.Done? then Fail(st, key, c)
    else if pool.status.resolved != [] then StartAllocating(cfg, st, key, c, pool, existing, base, pool.status.resolved)
    else At(st, key, c, Resolving(pool, existing, base))
  }

  function StepResolving(cfg: Config, st: Store, key: Key, c: Claim, pool: Pool, existing: Option<Address>, base: Address, reply: Reply): Outcome {
    var ids := ResolveIDs(st.prefixes, pool.spec.gateways.prefixes);
    if !reply.Done? || ids.Err? then Fail(st, key, c)
    else StartAllocating(cfg, st, key, c, pool, existing, base, ids.value)
  }

  function StepAllocating(cfg: Config, st: Store, key: Key, c: Claim, pool: Pool, existing: Option<Address>, base: Address,
                          ids: seq<int>, i: nat, reply: Reply): Outcome {
    if i >= |ids| || !MetadataOk(cfg, c, pool) then Fail(st, key, c)
    else
      match reply
      case NoRoom => NextPrefix(st, key, c, pool, existing, base, ids, i + 1)
      case Granted(id, text) =>
        LookUpGateway(cfg, AddRecord(cfg, st, key, c, pool, ids[i], id, text), key, c, pool, existing,
                      WithText(base, text), ids, ByPrefix(ids[i]))
      case GrantLost(id, text) => Fail(AddRecord(cfg, st, key, c, pool, ids[i], id, text), key, c)
      case _ => Fail(st, key, c)
  }

  function StepLookingUpIDs(cfg: Config, st: Store, key: Key, c: Claim, pool: Pool, existing: Option<Address>, base: Address, mode: Mode, reply: Reply): Outcome {
    var ids := ResolveIDs(st.prefixes, pool.spec.gateways.prefixes);
    if !reply.Done? || ids.Err? then WithGateway(cfg, st, key, c, pool, existing, base, [], mode)
    else At(st, key, c, LookingUpDetails(pool, existing, base, ids.value, mode))
  }

  function StepLookingUpDetails(cfg: Config, st: Store, key: Key, c: Claim, pool: Pool, existing: Option<Address>, base: Address,
                                ids: seq<int>, mode: Mode, reply: Reply): Outcome {
    var built := Build(GatewayChoice(cfg.ip, pool.spec.gateways), ids, DetailsOf(st.prefixes, ids));
    var entries := if reply.Done? && built.Ok? then built.value.entries else [];
    WithGateway(cfg, st, key, c, pool, existing, base, entries, mode)
  }

  /** Does the pool of the address hold its finalizer? */
  predicate PoolGuards(st: Store, key: Key, a: Address) {
    var pk := PoolKeyOf(key.namespace, a.poolRef);
    pk.Some? && pk.value in st.pools && st.pools[pk.value].finalizer
  }

  /** The store after the create or the patch. A patch leaves a deletion mark alone. */
  function WriteAddress(st: Store, key: Key, next: Address): Store {
    var written :=
      if key in st.addresses then next.(deleting := st.addresses[key].deleting, guarded := st.addresses[key].guarded)
      else next.(guarded := PoolGuards(st, key, next));
    st.(addresses := st.addresses[key := written])
  }

  function StepWriting(st: Store, key: Key, c: Claim, existing: Option<Address>, next: Address, reply: Reply): Outcome {
    var possible := existing.Some? == (key in st.addresses);
    if possible && reply.Done? then At(WriteAddress(st, key, next), key, c, Polling(next))
    else if possible && reply.Lost? then Fail(WriteAddress(st, key, next), key, c)
    else Fail(st, key, c)
  }

  function StepPolling(st: Store, key: Key, c: Claim, next: Address, reply: Reply): Outcome {
    if reply.Done? && key in st.addresses then
      At(st, key, c, Patching(c.(addressRef := key.name, ready := IsReady(next.text)), Kept))
    else Fail(st, key, c)
  }

  // ---- The steps of a deleted claim ----

  function StepReleaseGetting(st: Store, key: Key, c: Claim, reply: Reply): Outcome {
    if reply.Failed? then Stop(st, key, c) else At(st, key, c, ReleaseFinding(Lookup(st.addresses, key)))
  }

  function TryCandidates(st: Store, key: Key, c: Claim, candidates: seq<string>): Outcome {
    if candidates == [] then Stop(st, key, c) else At(st, key, c, ReleaseTrying(candidates))
  }

  function StepReleaseFinding(st: Store, key: Key, c: Claim, found: Option<Address>, reply: Reply): Outcome {
    match reply
    case Found(id) => At(st, key, c, ReleaseDeleting(id))
    case Missing =>
      if found.None? then At(st, key, c, DeleteGetting(true))
      else TryCandidates(st, key, c, Candidates(found.value.text, found.value.prefix))
    case _ => Stop(st, key, c)
  }

  function StepReleaseTrying(st: Store, key: Key, c: Claim, candidates: seq<string>, reply: Reply): Outcome {
    match reply
    case Found(id) => At(st, key, c, ReleaseDeleting(id))
    case Missing => if candidates == [] then Stop(st, key, c) else TryCandidates(st, key, c, candidates[1..])
    case _ => Stop(st, key, c)
  }

  /** Deleting a record that is already gone is fine. */
  function StepReleaseDeleting(st: Store, key: Key, c: Claim, id: int, reply: Reply): Outcome {
    var gone := st.(records := st.records - {id});
    if reply.Done? then At(gone, key, c, DeleteGetting(true))
    else if reply.Lost? then Stop(gone, key, c)
    else Stop(st, key, c)
  }

  function Drop(st: Store, key: Key, c: Claim, withPool: bool): Outcome {
    At(st, key, c, Patching(c.(finalizer := false), if withPool then Released else Abandoned))
  }

  function StepDeleteGetting(st: Store, key: Key, c: Claim, withPool: bool, reply: Reply): Outcome {
    if reply.Failed? then Stop(st, key, c)
    else if key !in st.addresses then Drop(st, key, c, withPool)
    else At(st, key, c, if st.addresses[key].protect then DeleteUnprotecting(withPool) else DeleteDeleting(withPool))
  }

  /** Dropping the last finalizer of an address that is being deleted removes it. */
  function Unprotect(st: Store, key: Key): Store {
    if key !in st.addresses then st
    else if st.addresses[key].deleting then st.(addresses := st.addresses - {key})
    else st.(addresses := st.addresses[key := st.addresses[key].(protect := false)])
  }

  /** The API's delete: a protected address is only marked. */
  function DeleteAddress(st: Store, key: Key): Store {
    if key !in st.addresses then st
    else if st.addresses[key].protect then st.(addresses := st.addresses[key := st.addresses[key].(deleting := true)])
    else st.(addresses := st.addresses - {key})
  }

  function StepDeleteUnprotecting(st: Store, key: Key, c: Claim, withPool: bool, reply: Reply): Outcome {
    if reply.Done? then At(Unprotect(st, key), key, c, DeleteDeleting(withPool))
    else if reply.Lost? then Stop(Unprotect(st, key), key, c)
    else Stop(st, key, c)
  }

  function StepDeleteDeleting(st: Store, key: Key, c: Claim, withPool: bool, reply: Reply): Outcome {
    if reply.Done? then Drop(DeleteAddress(st, key), key, c, withPool)
    else if reply.Lost? then Stop(DeleteAddress(st, key), key, c)
    else Stop(st, key, c)
  }

  // ---- The closing patch ----

  /** The finalizer after a patch of the metadata. The API refuses a new finalizer on a deleted object. */
  function PatchedFinalizer(cur: bool, deleting: bool, was: bool, now: bool): bool {
    if was == now || (now && deleting) then cur else now
  }

  /** A claim whose last finalizer is gone disappears if it is being deleted. */
  function StoreClaim(st: Store, key: Key, claim: Claim): Store {
    if claim.deleting && !claim.finalizer && !claim.held then st.(claims := st.claims - {key})
    else st.(claims := st.claims[key := claim])
  }

  function PatchedClaim(cur: Claim, was: Claim, now: Claim, meta: bool, status: bool): Claim {
    cur.(finalizer := if meta then PatchedFinalizer(cur.finalizer, cur.deleting, was.finalizer, now.finalizer) else cur.finalizer,
         addressRef := if status && now.addressRef != was.addressRef then now.addressRef else cur.addressRef,
         ready := if status && now.ready != was.ready then now.ready else cur.ready)
  }

  function PatchClaim(st: Store, key: Key, was: Claim, now: Claim, exit: Exit, meta: bool, status: bool): Store {
    if key !in st.claims then st
    else
      var stored := StoreClaim(st, key, PatchedClaim(st.claims[key], was, now, meta, status));
      stored.(released := if meta && exit.Released? then st.released + {was.uid} else st.released,
              abandoned := if meta && exit.Abandoned? then st.abandoned + {was.uid} else st.abandoned)
  }

  function StepPatching(st: Store, key: Key, c: Claim, next: Claim, exit: Exit, reply: Reply): Outcome {
    if reply.Wrote? then Quit(PatchClaim(st, key, c, next, exit, reply.meta, reply.status)) else Quit(st)
  }

  // ---- A pass ----

  /** Reading the claim and its cluster, and registering the finalizer before anything else. */
  function Start(st: Store, key: Key, reply: Reply): Outcome {
    if key !in st.claims || !reply.Done? then Quit(st)
    else
      var c := st.claims[key];
      if !c.finalizer then At(st, key, c, Patching(c.(finalizer := true), Kept))
      else At(st, key, c, Fetching)
  }

  function Step(cfg: Config, st: Store, key: Key, c: Claim, pc: Pc, reply: Reply): Outcome {
    match pc
    case Fetching => StepFetching(st, key, c, reply)
    case Getting(pool) => StepGetting(st, key, c, pool, reply)
    case Finding(pool, existing, base) => StepFinding(cfg, st, key, c, pool, existing, base, reply)
    case CheckingField(pool, existing, base) => StepCheckingField(cfg, st, key, c, pool, existing, base, reply)
    case Resolving(pool, existing, base) => StepResolving(cfg, st, key, c, pool, existing, base, reply)
    case Allocating(pool, existing, base, ids, i) => StepAllocating(cfg, st, key, c, pool, existing, base, ids, i, reply)
    case LookingUpIDs(pool, existing, base, mode) => StepLookingUpIDs(cfg, st, key, c, pool, existing, base, mode, reply)
    case LookingUpDetails(pool, existing, base, ids, mode) => StepLookingUpDetails(cfg, st, key, c, pool, existing, base, ids, mode, reply)
    case Writing(existing, next) => StepWriting(st, key, c, existing, next, reply)
    case Polling(next) => StepPolling(st, key, c, next, reply)
    case ReleaseGetting(_) => StepReleaseGetting(st, key, c, reply)
    case ReleaseFinding(found) => StepReleaseFinding(st, key, c, found, reply)
    case ReleaseTrying(candidates) => StepReleaseTrying(st, key, c, candidates, reply)
    case ReleaseDeleting(id) => StepReleaseDeleting(st, key, c, id, reply)
    case DeleteGetting(withPool) => StepDeleteGetting(st, key, c, withPool, reply)
    case DeleteUnprotecting(withPool) => StepDeleteUnprotecting(st, key, c, withPool, reply)
    case DeleteDeleting(withPool) => StepDeleteDeleting(st, key, c, withPool, reply)
    case Patching(update, exit) => StepPatching(st, key, c, update, exit, reply)
  }

  /** No record answers a lookup for the claim's UID. */
  predicate NoRecord(cfg: Config, st: Store, uid: Uid) {
    forall id :: id in st.records ==> !Carries(cfg, st.records[id], uid)
  }

  /** The answers the two stores may give. A lookup answers truthfully, and a new record has an unused ID and a
      non-empty address. */
  predicate LegalReply(cfg: Config, st: Store, c: Claim, pc: Pc, reply: Reply) {
    match pc
    case Finding(_, _, _) => LegalByUID(cfg, st, c.uid, reply)
    case ReleaseFinding(_) => LegalByUID(cfg, st, c.uid, reply)
    case ReleaseTrying(candidates) =>
      candidates != [] && (
        || reply.Failed?
        || (reply.Found? && reply.id in st.records && Answering(cfg, st.records[reply.id], candidates[0]))
        || (reply.Missing? && forall id :: id in st.records ==> !Answering(cfg, st.records[id], candidates[0])))
    case Allocating(_, _, _, _, _) =>
      || reply.Failed? || reply.NoRoom?
      || ((reply.Granted? || reply.GrantLost?) && reply.id !in st.records && MapIPAddress(reply.text).address != "")
    case Patching(_, _) => reply.Wrote?
    case _ =>
      if pc.Writing? || pc.ReleaseDeleting? || pc.DeleteUnprotecting? || pc.DeleteDeleting? then reply.Done? || reply.Failed? || reply.Lost?
      else reply.Done? || reply.Failed?
  }

  predicate LegalByUID(cfg: Config, st: Store, uid: Uid, reply: Reply) {
    || reply.Failed?
    || (reply.Found? && reply.id in st.records && Carries(cfg, st.records[reply.id], uid))
    || (reply.Missing? && NoRecord(cfg, st, uid))
  }
}
