/** The code of a pool pass, call by call, against the pool machine (internal/controller/pool_controller.go:55-305
    and the deferred patch of internal/controller/netboxippool_controller.go:52-92). */
module PoolReconciler {
  import opened Wrappers
  import opened Text
  import opened Gateway
  import opened Prefixes
  import opened Index
  import opened Model
  import opened Protocol
  import opened PoolProtocol
  import opened System
  import opened PoolSafety
  import opened Cluster

  /** The stores as a pass for one pool sees them. */
  class PoolStores {
    const cfg: Config
    const answers: nat -> Reply
    const pk: PoolKey
    ghost const start: State
    var store: Store
    var clock: nat
    ghost var pass: Option<PoolWorker>
    ghost var log: seq<Event>

    ghost function Now(): State
      reads this
    {
      State(store, start.worker, if pass.Some? then start.poolWorkers[pk := pass.value] else start.poolWorkers - {pk})
    }

    ghost predicate Valid()
      reads this
    {
      pk !in start.poolWorkers && LegalRun(cfg, start, log) && Final(cfg, start, log) == Now()
    }

    constructor (cfg: Config, pk: PoolKey, store: Store, answers: nat -> Reply, ghost worker: Worker, ghost others: map<PoolKey, PoolWorker>)
      requires pk !in others
      ensures Valid() && pass == None && log == []
      ensures this.cfg == cfg && this.pk == pk && this.store == store && start == State(store, worker, others)
    {
      this.cfg, this.pk, this.store, this.answers, clock := cfg, pk, store, answers, 0;
      start, pass, log := State(store, worker, others), None, [];
      new;
      assert others - {pk} == others;
    }

    method Next() returns (reply: Reply)
      modifies this`clock
      ensures Valid() == old(Valid())
    {
      reply := answers(clock);
      clock := clock + 1;
    }

    /** The pool machine has taken one step with this answer. */
    ghost predicate Took(reply: Reply, store0: Store, pass0: Option<PoolWorker>, log0: seq<Event>)
      reads this
    {
      && Valid() && pass0.Some? && log == log0 + [PoolCall(pk, reply)]
      && LegalPoolReply(pass0.value, reply)
      && var o := PoolStep(cfg, store0, pk, pass0.value, reply);
      && store == store0.(pools := o.pools) && pass == o.worker
    }

    ghost method Follow(before: Store, reply: Reply)
      requires pass.Some? && LegalPoolReply(pass.value, reply) && pk !in start.poolWorkers
      requires LegalRun(cfg, start, log) && Final(cfg, start, log) == State(before, start.worker, start.poolWorkers[pk := pass.value])
      requires store == before.(pools := PoolStep(cfg, before, pk, pass.value, reply).pools)
      modifies this`pass, this`log
      ensures Took(reply, before, old(pass), old(log))
    {
      hide LegalRun, Final, PoolStep, LegalPoolReply;
      var w := pass.value;
      OneMore(cfg, start, log, PoolCall(pk, reply));
      assert start.poolWorkers[pk := w] - {pk} == start.poolWorkers - {pk};
      pass := PoolStep(cfg, before, pk, w, reply).worker;
      assert pass.Some? ==> start.poolWorkers[pk := w][pk := pass.value] == start.poolWorkers[pk := pass.value];
      log := log + [PoolCall(pk, reply)];
    }

    /** The pool object, if it exists. */
    method GetPool() returns (r: Option<Pool>)
      requires Valid() && pass.None? && IsPoolKey(pk)
      modifies this`pass, this`log
      ensures Valid() && log == old(log) + [PoolBegin(pk)]
      ensures r == Lookup(store.pools, pk)
      ensures pass == if r.Some? then Some(PoolListing(r.value)) else None
    {
      hide LegalRun, Final, PoolStep;
      r := Lookup(store.pools, pk);
      assert start.poolWorkers - {pk} == start.poolWorkers;
      OneMore(cfg, start, log, PoolBegin(pk));
      pass := if pk in store.pools then Some(PoolListing(store.pools[pk])) else None;
      log := log + [PoolBegin(pk)];
    }

    /** How many addresses use the pool. */
    method CountAddressesInUse() returns (r: Result<nat>, ghost reply: Reply)
      requires Valid() && pass.Some? && pass.value.PoolListing?
      modifies this
      ensures Took(reply, old(store), old(pass), old(log)) && store == old(store)
      ensures r == if reply.Done? then Ok(|Listing(store.addresses, pk)|) else Err
    {
      hide Legal, Apply, LegalRun, Final;
      ghost var before := store;
      var raw := Next();
      var answer := if raw.Done? then raw else Failed;
      r := if answer.Done? then Ok(|Listing(store.addresses, pk)|) else Err;
      reply := answer;
      Follow(before, reply);
    }

    method ResolveReferences(refs: seq<PrefixRef>) returns (r: Result<seq<int>>, ghost reply: Reply)
      requires Valid() && pass.Some? && pass.value.ResolvingIDs?
      modifies this
      ensures Took(reply, old(store), old(pass), old(log)) && store == old(store)
      ensures r == if reply.Done? then ResolveIDs(store.prefixes, refs) else Err
    {
      hide Legal, Apply, LegalRun, Final;
      ghost var before := store;
      var raw := Next();
      var answer := if raw.Done? then raw else Failed;
      r := if answer.Done? then ResolveIDs(store.prefixes, refs) else Err;
      reply := answer;
      Follow(before, reply);
    }

    method GetDetails(ids: seq<int>) returns (r: Result<seq<PrefixDetail>>, ghost reply: Reply)
      requires Valid() && pass.Some? && pass.value.ResolvingDetails?
      modifies this
      ensures Took(reply, old(store), old(pass), old(log)) && store == old(store)
      ensures r == if reply.Done? then Ok(DetailsOf(store.prefixes, ids)) else Err
    {
      hide Legal, Apply, LegalRun, Final;
      ghost var before := store;
      var raw := Next();
      var answer := if raw.Done? then raw else Failed;
      r := if answer.Done? then Ok(DetailsOf(store.prefixes, ids)) else Err;
      reply := answer;
      Follow(before, reply);
    }

    /** The closing patch, of which either part may fail. */
    method ClosingPatch(was: Pool, now: Pool) returns (ghost reply: Reply)
      requires Valid() && pass == Some(PoolPatching(was, now))
      modifies this
      ensures Took(reply, old(store), old(pass), old(log)) && pass == None
    {
      hide Legal, Apply, LegalRun, Final;
      ghost var before := store;
      var raw := Next();
      var answer := if raw.Wrote? then raw else Wrote(false, false);
      store := store.(pools := PatchPool(store.pools, pk, was, now, answer.meta, answer.status));
      reply := answer;
      Follow(before, reply);
    }
  }

  lemma ResolvedWhole(cfg: Config, spec: GatewaySpec, table: seq<Row>, ids: seq<int>, entries: seq<ResolvedPrefix>)
    requires ResolveIDs(table, spec.prefixes) == Ok(ids)
    requires Build(GatewayChoice(cfg.ip, spec), ids, DetailsOf(table, ids)).Ok?
    requires Build(GatewayChoice(cfg.ip, spec), ids, DetailsOf(table, ids)).value.entries == entries
    ensures Resolves(cfg.ip, spec, table, table, ids, entries)
  {
  }

  /** The prefixes must be resolved: nothing is cached, or the spec has a generation that was not observed. */
  predicate Outdated(pool: Pool) {
    pool.status.resolved == [] || pool.status.observed != pool.generation
  }

  /** What a pass reports that has counted the users. A deleted pool in use is blocked; else a failed resolution is
      reported; else the pool is ready. The label follows the spec. A live pool holds the finalizer, a deleted one
      only while it is used. Nothing else but the cache and its history changes. */
  predicate Reported(was: Pool, now: Pool, users: nat, failed: bool) {
    && now.status.inUse == Some(users) && now.status.observed == was.generation
    && (was.deleting && users > 0 ==> now.status.ready == DeletionBlocked)
    && (!(was.deleting && users > 0) && failed ==> now.status.ready == PrefixResolutionFailed)
    && (!(was.deleting && users > 0) && !failed ==> now.status.ready == PoolReady)
    && (was.spec.clusterName != "" ==> now.clusterLabel == Some(was.spec.clusterName))
    && (was.spec.clusterName == "" ==> now.clusterLabel == was.clusterLabel)
    && (!was.deleting ==> now.finalizer)
    && (was.deleting ==> (now.finalizer <==> users > 0 && was.finalizer))
    && now == was.(status := now.status, clusterLabel := now.clusterLabel, finalizer := now.finalizer)
  }

  /** What a pass leaves whose count does not fit: the generation counts as observed, and that is all. */
  predicate Uncounted(was: Pool, now: Pool) {
    && now == was.(status := now.status)
    && now.status == was.status.(observed := was.generation, missed := now.status.missed)
  }

  /** The conclusion of a pass says what is to be reported. */
  lemma ConcludedIsReported(snap: Pool, counted: Pool, now: Pool, users: nat, resolved: bool)
    requires counted == snap.(status := counted.status)
    requires counted.status.inUse == Some(users) && counted.status.observed == snap.generation
    requires Conclude(snap, counted, users, resolved) == PoolPatching(snap, now)
    ensures Reported(snap, now, users, !resolved)
    ensures now.status.resolved == counted.status.resolved && now.status.details == counted.status.details
  {
  }

  class PoolObject {
    var it: Pool

    constructor (pool: Pool)
      ensures it == pool
    {
      it := pool;
    }
  }

  class PoolStatusReconciler {
    const stores: PoolStores

    constructor (stores: PoolStores)
      ensures this.stores == stores
    {
      this.stores := stores;
    }

    /** One whole pass is a run of the pool machine, so the caches stay what runs keep them. */
    method Reconcile()
      requires stores.Valid() && stores.pass.None? && IsPoolKey(stores.pk)
      modifies stores
      ensures stores.Valid() && stores.pass.None?
      ensures |stores.log| > |old(stores.log)| && stores.log[|old(stores.log)|] == PoolBegin(stores.pk)
      ensures CacheInv(stores.cfg, stores.start) ==> CacheInv(stores.cfg, stores.Now())
    {
      hide LegalRun, Final, PoolStep, CacheInv;
      var got := stores.GetPool();
      if got.Some? {
        var pool := new PoolObject(got.value);
        var changed, failed := ReconcilePoolStatus(pool);
        if changed {
          ghost var reply := stores.ClosingPatch(got.value, pool.it);
        }
      }
      if CacheInv(stores.cfg, stores.start) {
        ReachesInv(stores);
      }
    }

    ghost method ReachesInv(stores: PoolStores)
      requires stores.Valid() && CacheInv(stores.cfg, stores.start)
      ensures CacheInv(stores.cfg, stores.Now())
    {
      RunKeepsCache(stores.cfg, stores.start, stores.log);
    }

    /** Counts the users, resolves the prefixes again exactly if the spec is new or nothing is cached, reports the
        condition, sets the label, and holds the finalizer or, for a deleted pool, drops it if and only if no address
        uses the pool. */
    method ReconcilePoolStatus(pool: PoolObject) returns (changed: bool, failed: bool)
      requires stores.Valid() && stores.pass == Some(PoolListing(pool.it))
      modifies stores, pool
      ensures stores.Valid() && stores.store == old(stores.store)
      ensures |stores.log| > |old(stores.log)| && stores.log[..|old(stores.log)|] == old(stores.log)
      ensures changed <==> stores.log[|old(stores.log)|] == PoolCall(stores.pk, Done)
      ensures stores.pass == if changed then Some(PoolPatching(old(pool.it), pool.it)) else None
      ensures !changed ==> pool.it == old(pool.it)
      ensures changed && |Listing(stores.store.addresses, stores.pk)| <= MAX_INT32 ==>
        Reported(old(pool.it), pool.it, |Listing(stores.store.addresses, stores.pk)|, failed)
      ensures changed && |Listing(stores.store.addresses, stores.pk)| <= MAX_INT32 ==>
        CacheAfter(old(pool.it), pool.it, failed, |old(stores.log)| + 1)
      ensures changed && |Listing(stores.store.addresses, stores.pk)| > MAX_INT32 ==>
        Uncounted(old(pool.it), pool.it)
    {
      hide LegalRun, Final, LegalPoolReply, Listing, Conclude, CacheAfter, Reported;
      failed := false;
      ghost var reply;
      var snap := pool.it;
      var counted;
      counted, reply := stores.CountAddressesInUse();
      if counted.Err? {
        return false, false;
      }
      var users := counted.value;
      var previous := pool.it.status.observed;
      pool.it := pool.it.(status := pool.it.status.(observed := pool.it.generation));
      var count := SafeAllocatedCount(users);
      CountIsExactOrTooLarge(users);
      if count.Err? {
        pool.it := pool.it.(status := Missed(pool.it.status, snap));
        return true, false;
      }
      pool.it := pool.it.(status := pool.it.status.(inUse := Some(count.value)));
      hide SafeAllocatedCount;
      failed := ResolveIfOutdated(pool, snap, previous, users);
      ghost var kept := pool.it;
      Settle(pool, snap, users, !failed);
      ConcludedIsReported(snap, kept, pool.it, users, !failed);
      CacheStays(snap, kept, pool.it, failed, |old(stores.log)| + 1);
      changed := true;
    }

    lemma CacheStays(was: Pool, kept: Pool, now: Pool, failed: bool, n: nat)
      requires CacheAfter(was, kept, failed, n) && now.spec == kept.spec
      requires now.status.resolved == kept.status.resolved && now.status.details == kept.status.details
      ensures CacheAfter(was, now, failed, n)
    {
      hide Outdated, Succeeded, Resolves;
    }

    method ResolveIfOutdated(pool: PoolObject, ghost snap: Pool, previous: nat, ghost users: nat) returns (failed: bool)
      requires stores.Valid() && previous == snap.status.observed
      requires pool.it == snap.(status := pool.it.status)
      requires pool.it.status.resolved == snap.status.resolved && pool.it.status.details == snap.status.details
      requires stores.pass == Some(
        if NeedsResolution(snap) then ResolvingIDs(snap, pool.it, users) else Conclude(snap, pool.it, users, true))
      modifies stores, pool
      ensures stores.Valid() && stores.store == old(stores.store)
      ensures |stores.log| >= |old(stores.log)| && stores.log[..|old(stores.log)|] == old(stores.log)
      ensures stores.pass == Some(Conclude(snap, pool.it, users, !failed))
      ensures pool.it == old(pool.it).(status := pool.it.status) && pool.it.status.inUse == old(pool.it).status.inUse
      ensures pool.it.status.observed == old(pool.it).status.observed
      ensures CacheAfter(snap, pool.it, failed, |old(stores.log)|)
    {
      hide LegalRun, Final, LegalPoolReply, Conclude, Resolves, Succeeded;
      failed := false;
      if |pool.it.status.resolved| == 0 || previous != pool.it.generation {
        var resolved := ResolvePoolPrefixes(pool, snap, users);
        failed := !resolved;
      }
    }

    /** The resolution fails exactly if it was needed and did not succeed. The cache is a resolution of the spec if
        it was needed and did, and stays if not. */
    ghost predicate CacheAfter(was: Pool, now: Pool, failed: bool, n: nat)
      reads stores
    {
      && (failed <==> Outdated(was) && !Succeeded(now.spec.gateways, n))
      && (if Outdated(was) && !failed then
            Resolves(stores.cfg.ip, now.spec.gateways, stores.store.prefixes, stores.store.prefixes, now.status.resolved, now.status.details)
          else now.status.resolved == was.status.resolved && now.status.details == was.status.details)
    }

    /** The two calls of a resolution, from this place in the log on, were answered; every reference gave an ID and
        every gateway was usable. */
    ghost predicate Succeeded(spec: GatewaySpec, n: nat)
      reads stores
    {
      && |stores.log| == n + 2 && stores.log[n] == PoolCall(stores.pk, Done) && stores.log[n + 1] == PoolCall(stores.pk, Done)
      && var ids := ResolveIDs(stores.store.prefixes, spec.prefixes);
      && ids.Ok? && Build(GatewayChoice(stores.cfg.ip, spec), ids.value, DetailsOf(stores.store.prefixes, ids.value)).Ok?
    }

    /** The condition, the label and the finalizer. */
    method Settle(pool: PoolObject, snap: Pool, users: nat, resolved: bool)
      modifies pool
      ensures PoolPatching(snap, pool.it) == Conclude(snap, old(pool.it), users, resolved)
    {
      MarkReady(pool, snap, resolved);
      if !snap.deleting {
        pool.it := pool.it.(finalizer := true);
        return;
      }
      if users > 0 {
        pool.it := pool.it.(status := pool.it.status.(ready := DeletionBlocked));
        return;
      }
      pool.it := pool.it.(finalizer := false);
    }

    method MarkReady(pool: PoolObject, snap: Pool, resolved: bool)
      modifies pool
      ensures pool.it == Labelled(old(pool.it).(status :=
        if resolved then old(pool.it).status.(ready := PoolReady)
        else Missed(old(pool.it).status, snap).(ready := PrefixResolutionFailed)))
    {
      if resolved {
        pool.it := pool.it.(status := pool.it.status.(ready := PoolReady));
      } else {
        pool.it := pool.it.(status := Missed(pool.it.status, snap).(ready := PrefixResolutionFailed));
      }
      if pool.it.spec.clusterName != "" {
        pool.it := pool.it.(clusterLabel := Some(pool.it.spec.clusterName));
      }
    }

    /** Resolves all references and details before it writes either cache. */
    method ResolvePoolPrefixes(pool: PoolObject, ghost snap: Pool, ghost users: nat) returns (ok: bool)
      requires stores.Valid() && stores.pass == Some(ResolvingIDs(snap, pool.it, users))
      requires pool.it.spec == snap.spec && pool.it.generation == snap.generation
      modifies stores, pool
      ensures stores.Valid() && stores.store == old(stores.store)
      ensures |stores.log| > |old(stores.log)| && stores.log[..|old(stores.log)|] == old(stores.log)
      ensures stores.pass == Some(Conclude(snap, pool.it, users, ok))
      ensures pool.it == old(pool.it).(status := pool.it.status) && pool.it.status.inUse == old(pool.it).status.inUse
      ensures pool.it.status.observed == old(pool.it).status.observed
      ensures ok <==> Succeeded(pool.it.spec.gateways, |old(stores.log)|)
      ensures !ok ==> pool.it == old(pool.it)
      ensures ok ==> Resolves(stores.cfg.ip, pool.it.spec.gateways, stores.store.prefixes, stores.store.prefixes,
                              pool.it.status.resolved, pool.it.status.details)
    {
      hide LegalRun, Final, LegalPoolReply, Conclude, Resolves, Succeeded;
      var table := stores.store.prefixes;
      var resolved := ResolveEntries(pool.it.spec.gateways, snap, pool.it, users);
      if resolved.Err? {
        return false;
      }
      var (ids, entries) := resolved.value;
      pool.it := pool.it.(status := pool.it.status.(
        resolved := ids, details := entries,
        origin := Origin(pool.it.generation, pool.it.spec.gateways, table, table), missed := false));
      return true;
    }

    /** The IDs of the references, and one entry for each. */
    method ResolveEntries(spec: GatewaySpec, ghost snap: Pool, ghost next: Pool, ghost users: nat)
        returns (r: Result<(seq<int>, seq<ResolvedPrefix>)>)
      requires stores.Valid() && stores.pass == Some(ResolvingIDs(snap, next, users)) && spec == snap.spec.gateways
      modifies stores
      ensures stores.Valid() && stores.store == old(stores.store)
      ensures |stores.log| > |old(stores.log)| && stores.log[..|old(stores.log)|] == old(stores.log)
      ensures r.Ok? <==> Succeeded(spec, |old(stores.log)|)
      ensures r.Err? ==> stores.pass == Some(Conclude(snap, next, users, false))
      ensures r.Ok? ==> Resolves(stores.cfg.ip, spec, stores.store.prefixes, stores.store.prefixes, r.value.0, r.value.1)
      ensures r.Ok? ==>
        stores.pass == Some(Conclude(snap, Cached(next, snap, r.value.0, r.value.1, stores.store.prefixes, stores.store.prefixes), users, true))
    {
      hide LegalRun, Final, LegalPoolReply, Conclude, GatewayChoice, DetailsOf, Build, ResolveIDs, Resolves, Cached;
      ghost var reply;
      var ids;
      ids, reply := stores.ResolveReferences(spec.prefixes);
      if ids.Err? {
        return Err;
      }
      var fetched;
      fetched, reply := stores.GetDetails(ids.value);
      if fetched.Err? {
        return Err;
      }
      var built := BuildResolvedPrefixes(stores.cfg.ip, spec, ids.value, fetched.value);
      if built.Err? {
        return Err;
      }
      ResolvedWhole(stores.cfg, spec, stores.store.prefixes, ids.value, built.value.entries);
      return Ok((ids.value, built.value.entries));
    }
  }
}
