/** A pool pass as a step machine (internal/controller/pool_controller.go:55-305 and the deferred patch of its
    two callers). */
module PoolProtocol {
  import opened Wrappers
  import opened Gateway
  import opened Prefixes
  import opened Index
  import opened Model
  import opened Protocol

  /** The next external call of a pool pass. `snap` is the pool as it was read, `next` as it will be patched. */
  datatype PoolWorker =
    | PoolListing(snap: Pool)
    | ResolvingIDs(snap: Pool, next: Pool, users: nat)
    | ResolvingDetails(snap: Pool, next: Pool, users: nat, ids: seq<int>, idTable: seq<Row>)
    | PoolPatching(snap: Pool, next: Pool)

  /** Resolve again when nothing is cached or the spec's generation is new. */
  predicate NeedsResolution(snap: Pool) {
    snap.status.resolved == [] || snap.status.observed != snap.generation
  }

  /** A newer generation is observed while an older cache stays. */
  function Missed(status: PoolStatus, snap: Pool): PoolStatus {
    if snap.status.resolved != [] && snap.status.observed != snap.generation then status.(missed := true) else status
  }

  function Labelled(next: Pool): Pool {
    if next.spec.clusterName != "" then next.(clusterLabel := Some(next.spec.clusterName)) else next
  }

  /** The end of the pass: the Ready condition, the label, and the finalizer. */
  function Conclude(snap: Pool, next: Pool, users: nat, resolved: bool): PoolWorker {
    var status := if resolved then next.status.(ready := PoolReady) else Missed(next.status, snap).(ready := PrefixResolutionFailed);
    var labelled := Labelled(next.(status := status));
    PoolPatching(
      snap,
      if !snap.deleting then labelled.(finalizer := true)
      else if users > 0 then labelled.(status := status.(ready := DeletionBlocked))
      else labelled.(finalizer := false))
  }

  function PoolListed(snap: Pool, users: nat): PoolWorker {
    var observed := snap.(status := snap.status.(observed := snap.generation));
    match SafeAllocatedCount(users)
    case Err => PoolPatching(snap, observed.(status := Missed(observed.status, snap)))
    case Ok(count) =>
      var counted := observed.(status := observed.status.(inUse := Some(count)));
      if NeedsResolution(snap) then ResolvingIDs(snap, counted, users) else Conclude(snap, counted, users, true)
  }

  function Cached(next: Pool, snap: Pool, ids: seq<int>, entries: seq<ResolvedPrefix>, idTable: seq<Row>, detailTable: seq<Row>): Pool {
    next.(status := next.status.(
      resolved := ids, details := entries,
      origin := Origin(snap.generation, snap.spec.gateways, idTable, detailTable), missed := false))
  }

  function PoolDetailed(cfg: Config, snap: Pool, next: Pool, users: nat, ids: seq<int>, idTable: seq<Row>, table: seq<Row>): PoolWorker {
    match Build(GatewayChoice(cfg.ip, snap.spec.gateways), ids, DetailsOf(table, ids))
    case Ok(built) => Conclude(snap, Cached(next, snap, ids, built.entries, idTable, table), users, true)
    case Err => Conclude(snap, next, users, false)
  }

  /** A pool whose last finalizer is gone disappears if it is being deleted. */
  function StorePool(pools: map<PoolKey, Pool>, pk: PoolKey, pool: Pool): map<PoolKey, Pool> {
    if pool.deleting && !pool.finalizer && !pool.held then pools - {pk} else pools[pk := pool]
  }

  function PatchedPool(cur: Pool, snap: Pool, next: Pool, meta: bool, status: bool): Pool {
    cur.(finalizer := if meta then PatchedFinalizer(cur.finalizer, cur.deleting, snap.finalizer, next.finalizer) else cur.finalizer,
         clusterLabel := if meta && next.clusterLabel != snap.clusterLabel then next.clusterLabel else cur.clusterLabel,
         status := if status then next.status else cur.status)
  }

  function PatchPool(pools: map<PoolKey, Pool>, pk: PoolKey, snap: Pool, next: Pool, meta: bool, status: bool): map<PoolKey, Pool> {
    if pk !in pools then pools else StorePool(pools, pk, PatchedPool(pools[pk], snap, next, meta, status))
  }

  datatype PoolOutcome = PoolOutcome(pools: map<PoolKey, Pool>, worker: Option<PoolWorker>)

  function PoolStep(cfg: Config, st: Store, pk: PoolKey, w: PoolWorker, reply: Reply): PoolOutcome {
    match w
    case PoolListing(snap) =>
      PoolOutcome(st.pools, if reply.Done? then Some(PoolListed(snap, |Listing(st.addresses, pk)|)) else None)
    case ResolvingIDs(snap, next, users) =>
      var ids := ResolveIDs(st.prefixes, snap.spec.gateways.prefixes);
      PoolOutcome(st.pools, Some(
        if reply.Done? && ids.Ok? then ResolvingDetails(snap, next, users, ids.value, st.prefixes)
        else Conclude(snap, next, users, false)))
    case ResolvingDetails(snap, next, users, ids, idTable) =>
      PoolOutcome(st.pools, Some(
        if reply.Done? then PoolDetailed(cfg, snap, next, users, ids, idTable, st.prefixes)
        else Conclude(snap, next, users, false)))
    case PoolPatching(snap, next) =>
      PoolOutcome(if reply.Wrote? then PatchPool(st.pools, pk, snap, next, reply.meta, reply.status) else st.pools, None)
  }

  predicate LegalPoolReply(w: PoolWorker, reply: Reply) {
    if w.PoolPatching? then reply.Wrote? else reply.Done? || reply.Failed?
  }
}
