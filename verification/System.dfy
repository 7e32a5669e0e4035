/** Runs of the whole system: the claim worker, the pool workers, crashes, and everybody else. */
module System {
  import opened Wrappers
  import opened Prefixes
  import opened Model
  import opened Protocol
  import opened PoolProtocol

  /** There is one claim worker, and at most one pass per pool at a time. */
  datatype State = State(store: Store, worker: Worker, poolWorkers: map<PoolKey, PoolWorker>)

  /** What users, other controllers and NetBox operators do. */
  datatype Action =
    | CreateClaim(key: Key, claim: Claim)
    | EditClaim(key: Key, annotations: map<string, string>, clusterLabel: Option<string>)
    | DeleteClaim(key: Key)
    | ReleaseClaim(key: Key)                 // the other finalizers go
    | MarkAddress(key: Key)                  // somebody deletes the IPAddress
    | CreatePool(pk: PoolKey, pool: Pool)
    | EditPool(pk: PoolKey, spec: PoolSpec)
    | PausePool(pk: PoolKey, paused: bool)
    | DeletePool(pk: PoolKey)
    | ReleasePool(pk: PoolKey)
    | EditPrefixes(table: seq<Row>)
    | AddForeign(id: int, record: Record)    // a NetBox record without the ownership tag
    | RemoveForeign(id: int)

  datatype Event =
    | Begin(key: Key, reply: Reply)
    | Call(reply: Reply)
    | PoolBegin(pk: PoolKey)
    | PoolCall(pk: PoolKey, reply: Reply)
    | Crash
    | Other(action: Action)

  predicate FreshClaim(claim: Claim) {
    !claim.deleting && !claim.finalizer && claim.addressRef == "" && claim.ready == Unset
  }

  predicate FreshPool(pool: Pool) {
    && !pool.deleting && !pool.finalizer && pool.generation == 1 && pool.status == NEW_STATUS
    && pool.log == map[1 := pool.spec.gateways]
  }

  /** UIDs are never reused, a pool is not recreated while a pass for it is under way, and nobody else touches
      records with the ownership tag. */
  predicate LegalAction(cfg: Config, s: State, a: Action) {
    match a
    case CreateClaim(key, claim) => key !in s.store.claims && claim.uid !in s.store.born && FreshClaim(claim)
    case CreatePool(pk, pool) => IsPoolKey(pk) && pk !in s.store.pools && pk !in s.poolWorkers && FreshPool(pool)
    case AddForeign(id, record) => id !in s.store.records && cfg.tag !in record.tags
    case RemoveForeign(id) => id in s.store.records ==> cfg.tag !in s.store.records[id].tags
    case _ => true
  }

  function UpdateClaim(st: Store, key: Key, f: Claim -> Claim): Store {
    if key in st.claims then StoreClaim(st, key, f(st.claims[key])) else st
  }

  function UpdatePool(st: Store, pk: PoolKey, f: Pool -> Pool): Store {
    if pk in st.pools then st.(pools := StorePool(st.pools, pk, f(st.pools[pk]))) else st
  }

  /** Every change of the spec, and the deletion mark, is a new generation. */
  function NextGeneration(pool: Pool, spec: PoolSpec): Pool {
    pool.(spec := spec, generation := pool.generation + 1, log := pool.log[pool.generation + 1 := spec.gateways])
  }

  function Act(st: Store, a: Action): Store {
    match a
    case CreateClaim(key, claim) => st.(claims := st.claims[key := claim], born := st.born[claim.uid := key])
    case EditClaim(key, annotations, clusterLabel) =>
      UpdateClaim(st, key, (c: Claim) => c.(annotations := annotations, clusterLabel := clusterLabel))
    case DeleteClaim(key) => UpdateClaim(st, key, (c: Claim) => c.(deleting := true))
    case ReleaseClaim(key) => UpdateClaim(st, key, (c: Claim) => c.(held := false))
    case MarkAddress(key) => DeleteAddress(st, key)
    case CreatePool(pk, pool) => st.(pools := st.pools[pk := pool])
    case EditPool(pk, spec) => UpdatePool(st, pk, (p: Pool) => NextGeneration(p, spec))
    case PausePool(pk, paused) => UpdatePool(st, pk, (p: Pool) => p.(paused := paused))
    case DeletePool(pk) => UpdatePool(st, pk, (p: Pool) => if p.deleting then p else NextGeneration(p, p.spec).(deleting := true))
    case ReleasePool(pk) => UpdatePool(st, pk, (p: Pool) => p.(held := false))
    case EditPrefixes(table) => st.(prefixes := table)
    case AddForeign(id, record) => st.(records := st.records[id := record])
    case RemoveForeign(id) => st.(records := st.records - {id})
  }

  predicate Legal(cfg: Config, s: State, e: Event) {
    match e
    case Begin(_, reply) => s.worker.Idle? && (reply.Done? || reply.Failed? || reply.Skip?)
    case Call(reply) => s.worker.Busy? && LegalReply(cfg, s.store, s.worker.c, s.worker.pc, reply)
    case PoolBegin(pk) => pk !in s.poolWorkers && IsPoolKey(pk)
    case PoolCall(pk, reply) => pk in s.poolWorkers && LegalPoolReply(s.poolWorkers[pk], reply)
    case Crash => true
    case Other(a) => LegalAction(cfg, s, a)
  }

  function Apply(cfg: Config, s: State, e: Event): State
    requires Legal(cfg, s, e)
  {
    match e
    case Begin(key, reply) =>
      var o := Start(s.store, key, reply);
      s.(store := o.store, worker := o.worker)
    case Call(reply) =>
      var o := Step(cfg, s.store, s.worker.key, s.worker.c, s.worker.pc, reply);
      s.(store := o.store, worker := o.worker)
    case PoolBegin(pk) =>
      if pk in s.store.pools then s.(poolWorkers := s.poolWorkers[pk := PoolListing(s.store.pools[pk])]) else s
    case PoolCall(pk, reply) =>
      var o := PoolStep(cfg, s.store, pk, s.poolWorkers[pk], reply);
      s.(store := s.store.(pools := o.pools),
         poolWorkers := if o.worker.Some? then s.poolWorkers[pk := o.worker.value] else s.poolWorkers - {pk})
    case Crash => s.(worker := Idle, poolWorkers := map[])
    case Other(a) => s.(store := Act(s.store, a))
  }

  /** Nothing of the provider's own exists yet; NetBox may hold any records without a claim's stamp. */
  predicate Init(cfg: Config, s: State) {
    && s.store.claims == map[] && s.store.addresses == map[] && s.store.pools == map[]
    && s.store.born == map[] && s.store.released == {} && s.store.abandoned == {}
    && s.worker == Idle && s.poolWorkers == map[]
    && forall id :: id in s.store.records ==> cfg.tag in s.store.records[id].tags ==> cfg.field !in s.store.records[id].fields
  }

  /** A legal sequence of events from `s`. */
  predicate LegalRun(cfg: Config, s: State, run: seq<Event>)
    decreases |run|
  {
    run == [] || (Legal(cfg, s, run[0]) && LegalRun(cfg, Apply(cfg, s, run[0]), run[1..]))
  }

  function Final(cfg: Config, s: State, run: seq<Event>): State
    requires LegalRun(cfg, s, run)
    decreases |run|
  {
    if run == [] then s else Final(cfg, Apply(cfg, s, run[0]), run[1..])
  }

  /** Every event of the run satisfies `allowed` in the state it happens in. */
  predicate Along(cfg: Config, s: State, run: seq<Event>, allowed: (State, Event) -> bool)
    requires LegalRun(cfg, s, run)
    decreases |run|
  {
    run == [] || (allowed(s, run[0]) && Along(cfg, Apply(cfg, s, run[0]), run[1..], allowed))
  }
}
