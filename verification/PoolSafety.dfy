/** What pool passes keep: a cache that is one complete resolution of one generation of the spec, and a
    finalizer that stays while addresses refer to the pool. */
module PoolSafety {
  import opened Wrappers
  import opened Text
  import opened Prefixes
  import opened Index
  import opened AddressText
  import opened Owners
  import opened Annotations
  import opened Model
  import opened Protocol
  import opened Frames
  import opened PoolProtocol
  import opened System

  // ---- The cache ----

  /** A non-empty cache is the result of one resolution of the spec of one generation, up to the observed one;
      it is of the observed generation unless that one was missed. */
  ghost predicate StatusOk(cfg: Config, status: PoolStatus, log: map<nat, GatewaySpec>) {
    && (status.resolved == [] ==> status.details == [])
    && (status.resolved != [] ==>
          && status.origin.Origin?
          && status.origin.generation <= status.observed
          && status.origin.generation in log && log[status.origin.generation] == status.origin.spec
          && Resolves(cfg.ip, status.origin.spec, status.origin.idTable, status.origin.detailTable, status.resolved, status.details)
          && (status.origin.generation == status.observed <==> !status.missed))
  }

  ghost predicate PoolOk(cfg: Config, p: Pool) {
    && StatusOk(cfg, p.status, p.log)
    && p.status.observed <= p.generation
    && p.generation in p.log && p.log[p.generation] == p.spec.gateways
    && forall g :: g in p.log ==> g <= p.generation
  }

  /** The pool as it was read, aged by edits of its spec. */
  ghost predicate Aged(snap: Pool, cur: Pool) {
    && cur.status == snap.status && snap.generation <= cur.generation
    && forall g :: g in snap.log ==> g in cur.log && cur.log[g] == snap.log[g]
  }

  /** The status under way: the generation is observed, the cache is still the one that was read. */
  predicate Observing(snap: Pool, next: Pool) {
    && next.status.observed == snap.generation
    && next.status.resolved == snap.status.resolved && next.status.details == snap.status.details
    && next.status.origin == snap.status.origin && next.status.missed == snap.status.missed
    && NeedsResolution(snap)
  }

  ghost predicate PassOk(cfg: Config, w: PoolWorker) {
    && PoolOk(cfg, w.snap)
    && (match w
        case PoolListing(_) => true
        case ResolvingIDs(snap, next, _) => Observing(snap, next)
        case ResolvingDetails(snap, next, _, ids, idTable) =>
          Observing(snap, next) && ResolveIDs(idTable, snap.spec.gateways.prefixes) == Ok(ids)
        case PoolPatching(snap, next) => next.status.observed == snap.generation && StatusOk(cfg, next.status, snap.log))
  }

  ghost predicate CacheInv(cfg: Config, s: State) {
    && (forall pk :: pk in s.store.pools ==> PoolOk(cfg, s.store.pools[pk]))
    && (forall pk :: pk in s.poolWorkers ==>
          && PassOk(cfg, s.poolWorkers[pk])
          && (pk in s.store.pools ==> Aged(s.poolWorkers[pk].snap, s.store.pools[pk])))
  }

  lemma ConcludeOk(cfg: Config, snap: Pool, next: Pool, users: nat, resolved: bool)
    requires PoolOk(cfg, snap) && next.status.observed == snap.generation
    requires if resolved then StatusOk(cfg, next.status, snap.log) else Observing(snap, next)
    ensures PassOk(cfg, Conclude(snap, next, users, resolved))
    ensures Conclude(snap, next, users, resolved).snap == snap
  {
    ConcludeKeepsCache(snap, next, users, resolved);
    hide Conclude;
    var status := Conclude(snap, next, users, resolved).next.status;
    if resolved {
      SameCacheOk(cfg, next.status, status, snap.log);
      hide PoolOk, StatusOk;
    } else {
      hide Resolves;
    }
  }

  /** What a conclusion leaves of the cache. */
  lemma ConcludeKeepsCache(snap: Pool, next: Pool, users: nat, resolved: bool)
    ensures var w := Conclude(snap, next, users, resolved);
      && w.PoolPatching? && w.snap == snap && SameCache(next.status, w.next.status)
      && w.next.status.missed == if resolved then next.status.missed else Missed(next.status, snap).missed
  {
  }

  predicate SameCache(a: PoolStatus, b: PoolStatus) {
    b.observed == a.observed && b.resolved == a.resolved && b.details == a.details && b.origin == a.origin
  }

  lemma SameCacheOk(cfg: Config, a: PoolStatus, b: PoolStatus, log: map<nat, GatewaySpec>)
    requires StatusOk(cfg, a, log) && SameCache(a, b) && b.missed == a.missed
    ensures StatusOk(cfg, b, log)
  {
    hide Resolves;
  }

  lemma ListedOk(cfg: Config, snap: Pool, users: nat)
    requires PoolOk(cfg, snap)
    ensures PassOk(cfg, PoolListed(snap, users)) && PoolListed(snap, users).snap == snap
  {
    hide Resolves, SafeAllocatedCount, Conclude;
    var count := SafeAllocatedCount(users);
    if count.Ok? && !NeedsResolution(snap) {
      var observed := snap.(status := snap.status.(observed := snap.generation));
      ConcludeOk(cfg, snap, observed.(status := observed.status.(inUse := Some(count.value))), users, true);
    }
  }

  lemma DetailedOk(cfg: Config, snap: Pool, next: Pool, users: nat, ids: seq<int>, idTable: seq<Row>, table: seq<Row>)
    requires PassOk(cfg, ResolvingDetails(snap, next, users, ids, idTable))
    ensures PassOk(cfg, PoolDetailed(cfg, snap, next, users, ids, idTable, table))
    ensures PoolDetailed(cfg, snap, next, users, ids, idTable, table).snap == snap
  {
    var built := Build(GatewayChoice(cfg.ip, snap.spec.gateways), ids, DetailsOf(table, ids));
    hide Conclude;
    if built.Ok? {
      CachedOk(cfg, snap, next, ids, idTable, table);
      hide PoolOk, StatusOk, Build, GatewayChoice, DetailsOf, ResolveIDs;
      ConcludeOk(cfg, snap, Cached(next, snap, ids, built.value.entries, idTable, table), users, true);
    } else {
      hide Build, GatewayChoice, DetailsOf, ResolveIDs;
      ConcludeOk(cfg, snap, next, users, false);
    }
  }

  /** A complete resolution is a good cache. */
  lemma CachedOk(cfg: Config, snap: Pool, next: Pool, ids: seq<int>, idTable: seq<Row>, table: seq<Row>)
    requires PoolOk(cfg, snap) && Observing(snap, next) && ResolveIDs(idTable, snap.spec.gateways.prefixes) == Ok(ids)
    requires Build(GatewayChoice(cfg.ip, snap.spec.gateways), ids, DetailsOf(table, ids)).Ok?
    ensures var entries := Build(GatewayChoice(cfg.ip, snap.spec.gateways), ids, DetailsOf(table, ids)).value.entries;
      StatusOk(cfg, Cached(next, snap, ids, entries, idTable, table).status, snap.log)
  {
    hide GatewayChoice, DetailsOf, ResolveIDs;
    var entries := Build(GatewayChoice(cfg.ip, snap.spec.gateways), ids, DetailsOf(table, ids)).value.entries;
    assert ids == [] ==> entries == [];
  }

  /** The pools after a call, and the pass that goes on with the pool as it was read. */
  lemma PoolStepOk(cfg: Config, st: Store, pk: PoolKey, w: PoolWorker, reply: Reply)
    requires PassOk(cfg, w) && LegalPoolReply(w, reply)
    requires pk in st.pools ==> PoolOk(cfg, st.pools[pk]) && Aged(w.snap, st.pools[pk])
    ensures var o := PoolStep(cfg, st, pk, w, reply);
      && (o.worker.Some? ==> PassOk(cfg, o.worker.value) && o.worker.value.snap == w.snap && o.pools == st.pools)
      && (pk in o.pools ==> pk in st.pools && PoolOk(cfg, o.pools[pk]))
      && (forall k :: k != pk ==> (k in o.pools <==> k in st.pools))
      && (forall k :: k != pk && k in o.pools ==> o.pools[k] == st.pools[k])
  {
    match w
    case PoolListing(snap) =>
      hide PoolListed, PassOk, Resolves, Listing;
      ListedOk(cfg, snap, |Listing(st.addresses, pk)|) by {
        PassParts(cfg, w);
      }
    case ResolvingIDs(snap, next, users) =>
      ConcludeOk(cfg, snap, next, users, false);
      hide Conclude, Resolves;
    case ResolvingDetails(snap, next, users, ids, idTable) =>
      DetailedOk(cfg, snap, next, users, ids, idTable, st.prefixes);
      ConcludeOk(cfg, snap, next, users, false);
      hide PoolDetailed, Conclude, PassOk;
    case PoolPatching(snap, next) =>
      PatchedOk(cfg, st, pk, snap, next, reply.meta, reply.status);
      hide PatchPool, PassOk, PoolOk;
  }

  lemma PassParts(cfg: Config, w: PoolWorker)
    requires PassOk(cfg, w)
    ensures PoolOk(cfg, w.snap)
  {
  }

  lemma PatchedOk(cfg: Config, st: Store, pk: PoolKey, snap: Pool, next: Pool, meta: bool, status: bool)
    requires PassOk(cfg, PoolPatching(snap, next))
    requires pk in st.pools ==> PoolOk(cfg, st.pools[pk]) && Aged(snap, st.pools[pk])
    ensures var pools := PatchPool(st.pools, pk, snap, next, meta, status);
      && (pk in pools ==> pk in st.pools && PoolOk(cfg, pools[pk]))
      && (forall k :: k != pk ==> (k in pools <==> k in st.pools))
      && (forall k :: k != pk && k in pools ==> pools[k] == st.pools[k])
  {
    hide Resolves, PatchedFinalizer;
  }

  lemma PoolCallKeepsCache(cfg: Config, s: State, pk: PoolKey, reply: Reply)
    requires CacheInv(cfg, s) && Legal(cfg, s, PoolCall(pk, reply))
    ensures CacheInv(cfg, Apply(cfg, s, PoolCall(pk, reply)))
  {
    hide PoolStep, PassOk, PoolOk, Aged;
    var w := s.poolWorkers[pk];
    PoolStepOk(cfg, s.store, pk, w, reply);
    var o := PoolStep(cfg, s.store, pk, w, reply);
    var workers := if o.worker.Some? then s.poolWorkers[pk := o.worker.value] else s.poolWorkers - {pk};
    assert Apply(cfg, s, PoolCall(pk, reply)) == s.(store := s.store.(pools := o.pools), poolWorkers := workers);
    hide Legal, Apply, LegalPoolReply;
    OnePassKeepsCache(cfg, s, pk, o, workers);
  }

  /** One pool and its pass change. */
  lemma OnePassKeepsCache(cfg: Config, s: State, pk: PoolKey, o: PoolOutcome, workers: map<PoolKey, PoolWorker>)
    requires CacheInv(cfg, s) && pk in s.poolWorkers
    requires workers == if o.worker.Some? then s.poolWorkers[pk := o.worker.value] else s.poolWorkers - {pk}
    requires o.worker.Some? ==> PassOk(cfg, o.worker.value) && o.worker.value.snap == s.poolWorkers[pk].snap && o.pools == s.store.pools
    requires pk in o.pools ==> PoolOk(cfg, o.pools[pk])
    requires forall k :: k != pk ==> (k in o.pools <==> k in s.store.pools)
    requires forall k :: k != pk && k in o.pools ==> o.pools[k] == s.store.pools[k]
    ensures CacheInv(cfg, s.(store := s.store.(pools := o.pools), poolWorkers := workers))
  {
    hide PassOk, PoolOk, Aged;
  }

  /** A change of one pool by somebody else. */
  lemma AgedKeepsCache(cfg: Config, s: State, pk: PoolKey, pool: Pool)
    requires CacheInv(cfg, s) && pk in s.store.pools && Aged(s.store.pools[pk], pool) && PoolOk(cfg, pool)
    ensures CacheInv(cfg, s.(store := s.store.(pools := StorePool(s.store.pools, pk, pool))))
  {
    hide PassOk, PoolOk;
  }

  lemma NextGenerationAges(cfg: Config, pool: Pool, spec: PoolSpec)
    requires PoolOk(cfg, pool)
    ensures Aged(pool, NextGeneration(pool, spec)) && PoolOk(cfg, NextGeneration(pool, spec))
  {
    hide Resolves;
  }

  lemma PoolActionKeepsCache(cfg: Config, s: State, pk: PoolKey, f: Pool -> Pool)
    requires CacheInv(cfg, s)
    requires pk in s.store.pools ==> Aged(s.store.pools[pk], f(s.store.pools[pk])) && PoolOk(cfg, f(s.store.pools[pk]))
    ensures CacheInv(cfg, s.(store := UpdatePool(s.store, pk, f)))
  {
    hide PassOk, PoolOk, Aged;
    if pk in s.store.pools {
      AgedKeepsCache(cfg, s, pk, f(s.store.pools[pk]));
    }
  }

  lemma SamePoolsKeepCache(cfg: Config, s: State, st': Store, w: Worker)
    requires CacheInv(cfg, s) && st'.pools == s.store.pools
    ensures CacheInv(cfg, s.(store := st', worker := w))
  {
    hide PassOk, PoolOk, Aged;
  }

  lemma ActionKeepsCache(cfg: Config, s: State, a: Action)
    requires CacheInv(cfg, s) && LegalAction(cfg, s, a)
    ensures CacheInv(cfg, s.(store := Act(s.store, a)))
  {
    hide CacheInv, PoolOk, Aged, UpdatePool, UpdateClaim, DeleteAddress, FreshPool;
    match a
    case CreatePool(pk, pool) => CreatePoolKeepsCache(cfg, s, pk, pool);
    case EditPool(pk, spec) =>
      if pk in s.store.pools {
        PoolHolds(cfg, s, pk);
        NextGenerationAges(cfg, s.store.pools[pk], spec);
      }
      hide NextGeneration;
      PoolActionKeepsCache(cfg, s, pk, (p: Pool) => NextGeneration(p, spec));
    case PausePool(pk, paused) =>
      if pk in s.store.pools {
        PoolHolds(cfg, s, pk);
        FlagAges(cfg, s.store.pools[pk], s.store.pools[pk].(paused := paused));
      }
      PoolActionKeepsCache(cfg, s, pk, (p: Pool) => p.(paused := paused));
    case DeletePool(pk) =>
      if pk in s.store.pools {
        PoolHolds(cfg, s, pk);
        var p := s.store.pools[pk];
        NextGenerationAges(cfg, p, p.spec);
        var next := if p.deleting then p else NextGeneration(p, p.spec);
        FlagAges(cfg, p, p);
        FlagAges(cfg, next, next.(deleting := true));
        AgesTwice(p, next, next.(deleting := true));
      }
      hide NextGeneration;
      PoolActionKeepsCache(cfg, s, pk, (p: Pool) => if p.deleting then p else NextGeneration(p, p.spec).(deleting := true));
    case ReleasePool(pk) =>
      if pk in s.store.pools {
        PoolHolds(cfg, s, pk);
        FlagAges(cfg, s.store.pools[pk], s.store.pools[pk].(held := false));
      }
      PoolActionKeepsCache(cfg, s, pk, (p: Pool) => p.(held := false));
    case _ =>
      assert Act(s.store, a).pools == s.store.pools by {
        SamePools(s.store, a);
      }
      SamePoolsKeepCache(cfg, s, Act(s.store, a), s.worker);
  }

  lemma SamePools(st: Store, a: Action)
    requires !a.CreatePool? && !a.EditPool? && !a.PausePool? && !a.DeletePool? && !a.ReleasePool?
    ensures Act(st, a).pools == st.pools
  {
  }

  lemma PoolHolds(cfg: Config, s: State, pk: PoolKey)
    requires CacheInv(cfg, s) && pk in s.store.pools
    ensures PoolOk(cfg, s.store.pools[pk])
  {
  }

  lemma AgesTwice(a: Pool, b: Pool, c: Pool)
    requires Aged(a, b) && Aged(b, c)
    ensures Aged(a, c)
  {
  }

  /** Flags that are neither status nor spec do not matter. */
  lemma FlagAges(cfg: Config, p: Pool, q: Pool)
    requires PoolOk(cfg, p)
    requires q.status == p.status && q.log == p.log && q.generation == p.generation && q.spec == p.spec
    ensures Aged(p, q) && PoolOk(cfg, q)
  {
    hide Resolves;
  }

  lemma CreatePoolKeepsCache(cfg: Config, s: State, pk: PoolKey, pool: Pool)
    requires CacheInv(cfg, s) && LegalAction(cfg, s, CreatePool(pk, pool))
    ensures CacheInv(cfg, s.(store := Act(s.store, CreatePool(pk, pool))))
  {
    assert PoolOk(cfg, pool);
    hide PassOk, PoolOk, Aged;
  }

  lemma PoolBeginKeepsCache(cfg: Config, s: State, pk: PoolKey)
    requires CacheInv(cfg, s) && pk in s.store.pools
    ensures CacheInv(cfg, s.(poolWorkers := s.poolWorkers[pk := PoolListing(s.store.pools[pk])]))
  {
    PoolHolds(cfg, s, pk);
    FlagAges(cfg, s.store.pools[pk], s.store.pools[pk]);
    hide PoolOk, Aged;
  }

  lemma EventKeepsCache(cfg: Config, s: State, e: Event)
    requires CacheInv(cfg, s) && Legal(cfg, s, e)
    ensures CacheInv(cfg, Apply(cfg, s, e))
  {
    match e
    case PoolBegin(pk) =>
      if pk in s.store.pools {
        PoolBeginKeepsCache(cfg, s, pk);
        hide CacheInv;
      }
    case PoolCall(pk, reply) => PoolCallKeepsCache(cfg, s, pk, reply);
    case Other(a) => ActionKeepsCache(cfg, s, a);
    case Begin(key, reply) =>
      hide CacheInv;
      SamePoolsKeepCache(cfg, s, s.store, Start(s.store, key, reply).worker);
    case Call(reply) =>
      StepFrame(cfg, s.store, s.worker.key, s.worker.c, s.worker.pc, reply);
      hide CacheInv, Step;
      SamePoolsKeepCache(cfg, s, Apply(cfg, s, e).store, Apply(cfg, s, e).worker);
    case Crash =>
      hide PoolOk;
  }

  lemma {:induction false} RunKeepsCache(cfg: Config, s: State, run: seq<Event>)
    requires CacheInv(cfg, s) && LegalRun(cfg, s, run)
    ensures CacheInv(cfg, Final(cfg, s, run))
    decreases |run|
  {
    hide CacheInv, Legal, Apply;
    if run != [] {
      EventKeepsCache(cfg, s, run[0]);
      RunKeepsCache(cfg, Apply(cfg, s, run[0]), run[1..]);
    }
  }

  /** In every reachable state a non-empty prefix cache is the complete result of one resolution of the spec the
      pool had at some generation, with IDs and entries aligned; that generation is the observed one unless a
      newer generation was observed and not resolved. */
  lemma CacheIsOneResolution(cfg: Config, s0: State, run: seq<Event>, pk: PoolKey)
    requires Init(cfg, s0) && LegalRun(cfg, s0, run)
    requires pk in Final(cfg, s0, run).store.pools && Final(cfg, s0, run).store.pools[pk].status.resolved != []
    ensures var p := Final(cfg, s0, run).store.pools[pk];
      && p.status.origin.Origin?
      && p.status.origin.generation <= p.status.observed <= p.generation
      && p.status.origin.generation in p.log && p.log[p.status.origin.generation] == p.status.origin.spec
      && Resolves(cfg.ip, p.status.origin.spec, p.status.origin.idTable, p.status.origin.detailTable, p.status.resolved, p.status.details)
      && |p.status.details| == |p.status.resolved|
      && (forall i :: 0 <= i < |p.status.resolved| ==> p.status.details[i].id == p.status.resolved[i])
      && (p.status.origin.generation == p.status.observed <==> !p.status.missed)
  {
    RunKeepsCache(cfg, s0, run);
    PoolHolds(cfg, Final(cfg, s0, run), pk);
  }

  // ---- A current cache ----

  /** The event is not a failed resolution of a new generation over a non-empty cache, nor a count beyond int32
      at such a moment. */
  predicate ResolvesNewGenerations(cfg: Config, s: State, e: Event) {
    e.PoolCall? && e.pk in s.poolWorkers ==>
      var w := s.poolWorkers[e.pk];
      w.snap.status.resolved != [] && w.snap.status.observed != w.snap.generation ==>
        match w
        case PoolListing(_) => e.reply.Done? ==> |Listing(s.store.addresses, e.pk)| <= MAX_INT32
        case ResolvingIDs(snap, _, _) => e.reply.Done? && ResolveIDs(s.store.prefixes, snap.spec.gateways.prefixes).Ok?
        case ResolvingDetails(snap, _, _, ids, _) =>
          e.reply.Done? && Build(GatewayChoice(cfg.ip, snap.spec.gateways), ids, DetailsOf(s.store.prefixes, ids)).Ok?
        case PoolPatching(_, _) => true
  }

  predicate NoneMissed(s: State) {
    && (forall pk :: pk in s.store.pools ==> !s.store.pools[pk].status.missed)
    && (forall pk :: pk in s.poolWorkers ==>
          && !s.poolWorkers[pk].snap.status.missed
          && (!s.poolWorkers[pk].PoolListing? ==> !s.poolWorkers[pk].next.status.missed))
  }

  lemma EventMissesNothing(cfg: Config, s: State, e: Event)
    requires NoneMissed(s) && Legal(cfg, s, e) && ResolvesNewGenerations(cfg, s, e)
    ensures NoneMissed(Apply(cfg, s, e))
  {
    match e
    case PoolCall(pk, reply) => PoolCallMissesNothing(cfg, s, pk, reply);
    case Call(reply) =>
      StepFrame(cfg, s.store, s.worker.key, s.worker.c, s.worker.pc, reply);
      hide Step;
    case Other(a) =>
      if !a.CreatePool? {
        ActionKeepsPools(s.store, a);
        hide Act;
      }
    case _ =>
  }

  /** Status and finalizer of every pool stay, and a pool with its finalizer stays. */
  ghost predicate PoolsKept(pools: map<PoolKey, Pool>, pools': map<PoolKey, Pool>) {
    && (forall k :: k in pools' ==> k in pools && pools'[k].status == pools[k].status && pools'[k].finalizer == pools[k].finalizer)
    && (forall k :: k in pools && pools[k].finalizer ==> k in pools')
  }

  lemma UpdateKeepsPools(st: Store, pk: PoolKey, f: Pool -> Pool)
    requires forall p :: f(p).status == p.status && f(p).finalizer == p.finalizer
    ensures PoolsKept(st.pools, UpdatePool(st, pk, f).pools)
    ensures UpdatePool(st, pk, f).addresses == st.addresses
  {
    if pk in st.pools {
      StoreKeepsPools(st.pools, pk, f(st.pools[pk]));
      hide StorePool, PoolsKept;
    }
  }

  lemma StoreKeepsPools(pools: map<PoolKey, Pool>, pk: PoolKey, pool: Pool)
    requires pk in pools && pool.status == pools[pk].status && pool.finalizer == pools[pk].finalizer
    ensures PoolsKept(pools, StorePool(pools, pk, pool))
  {
  }

  /** Nobody else changes a pool's status or finalizer. */
  lemma ActionKeepsPools(st: Store, a: Action)
    requires !a.CreatePool?
    ensures PoolsKept(st.pools, Act(st, a).pools)
  {
    match a
    case EditPool(pk, spec) => UpdateKeepsPools(st, pk, (p: Pool) => NextGeneration(p, spec)); hide UpdatePool;
    case PausePool(pk, paused) => UpdateKeepsPools(st, pk, (p: Pool) => p.(paused := paused)); hide UpdatePool;
    case DeletePool(pk) =>
      UpdateKeepsPools(st, pk, (p: Pool) => if p.deleting then p else NextGeneration(p, p.spec).(deleting := true));
      hide UpdatePool, NextGeneration;
    case ReleasePool(pk) => UpdateKeepsPools(st, pk, (p: Pool) => p.(held := false)); hide UpdatePool;
    case _ =>
      SamePools(st, a);
      hide Act;
  }

  lemma PoolCallMissesNothing(cfg: Config, s: State, pk: PoolKey, reply: Reply)
    requires NoneMissed(s) && Legal(cfg, s, PoolCall(pk, reply)) && ResolvesNewGenerations(cfg, s, PoolCall(pk, reply))
    ensures NoneMissed(Apply(cfg, s, PoolCall(pk, reply)))
  {
    PoolStepMissesNothing(cfg, s, pk, reply);
    hide PoolStep, ResolvesNewGenerations;
  }

  lemma PoolStepMissesNothing(cfg: Config, s: State, pk: PoolKey, reply: Reply)
    requires NoneMissed(s) && pk in s.poolWorkers && ResolvesNewGenerations(cfg, s, PoolCall(pk, reply))
    requires LegalPoolReply(s.poolWorkers[pk], reply)
    ensures var o := PoolStep(cfg, s.store, pk, s.poolWorkers[pk], reply);
      && (forall k :: k in o.pools ==> !o.pools[k].status.missed)
      && (o.worker.Some? ==> !o.worker.value.snap.status.missed
                             && (!o.worker.value.PoolListing? ==> !o.worker.value.next.status.missed))
  {
    if s.poolWorkers[pk].PoolPatching? {
      PatchMissesNothing(s, pk, reply);
      hide PatchPool;
    } else {
      PassMissesNothing(cfg, s, pk, reply);
      hide PoolStep;
    }
  }

  lemma PatchMissesNothing(s: State, pk: PoolKey, reply: Reply)
    requires NoneMissed(s) && pk in s.poolWorkers && s.poolWorkers[pk].PoolPatching? && reply.Wrote?
    ensures var pools := PatchPool(s.store.pools, pk, s.poolWorkers[pk].snap, s.poolWorkers[pk].next, reply.meta, reply.status);
      forall k :: k in pools ==> !pools[k].status.missed
  {
    hide PatchedFinalizer;
  }

  lemma ConcludeMisses(snap: Pool, next: Pool, users: nat, ok: bool)
    ensures var w := Conclude(snap, next, users, ok);
      w.PoolPatching? && w.snap == snap
      && (w.next.status.missed ==> next.status.missed || (!ok && snap.status.resolved != [] && snap.status.observed != snap.generation))
  {
  }

  lemma PassMissesNothing(cfg: Config, s: State, pk: PoolKey, reply: Reply)
    requires NoneMissed(s) && pk in s.poolWorkers && !s.poolWorkers[pk].PoolPatching? && ResolvesNewGenerations(cfg, s, PoolCall(pk, reply))
    ensures var o := PoolStep(cfg, s.store, pk, s.poolWorkers[pk], reply);
      && o.pools == s.store.pools
      && (o.worker.Some? ==> !o.worker.value.snap.status.missed
                             && (!o.worker.value.PoolListing? ==> !o.worker.value.next.status.missed))
  {
    hide ResolveIDs, Build, GatewayChoice, DetailsOf, SafeAllocatedCount, Listing, Conclude;
    forall snap: Pool, next: Pool, users: nat, ok: bool
      ensures var w := Conclude(snap, next, users, ok);
        w.PoolPatching? && w.snap == snap
        && (w.next.status.missed ==> next.status.missed || (!ok && snap.status.resolved != [] && snap.status.observed != snap.generation))
    {
      ConcludeMisses(snap, next, users, ok);
    }
    if s.poolWorkers[pk].PoolListing? {
      CountIsExactOrTooLarge(|Listing(s.store.addresses, pk)|);
    }
  }

  lemma {:induction false} RunMissesNothing(cfg: Config, s: State, run: seq<Event>)
    requires NoneMissed(s) && LegalRun(cfg, s, run) && Along(cfg, s, run, (x, e) => ResolvesNewGenerations(cfg, x, e))
    ensures NoneMissed(Final(cfg, s, run))
    decreases |run|
  {
    hide NoneMissed, Legal, Apply, ResolvesNewGenerations;
    if run != [] {
      EventMissesNothing(cfg, s, run[0]);
      RunMissesNothing(cfg, Apply(cfg, s, run[0]), run[1..]);
    }
  }

  /** If no new generation's resolution ever failed over a non-empty cache, and the counts fitted, every
      non-empty cache is of the generation its pool reports as observed. */
  lemma CacheIsCurrent(cfg: Config, s0: State, run: seq<Event>, pk: PoolKey)
    requires Init(cfg, s0) && LegalRun(cfg, s0, run) && Along(cfg, s0, run, (x, e) => ResolvesNewGenerations(cfg, x, e))
    requires pk in Final(cfg, s0, run).store.pools && Final(cfg, s0, run).store.pools[pk].status.resolved != []
    ensures var status := Final(cfg, s0, run).store.pools[pk].status;
      status.origin.Origin? && status.origin.generation == status.observed
  {
    RunMissesNothing(cfg, s0, run);
    CacheIsOneResolution(cfg, s0, run, pk);
  }

  /** What a failed resolution of a new generation leaves: the generation counts as observed, the older cache
      stays, and the next pass reports Ready without resolving anything. */
  lemma FailedResolutionHidesItself(cfg: Config, snap: Pool, users: nat)
    requires !snap.deleting && users <= MAX_INT32
    requires snap.status.resolved != [] && snap.status.observed != snap.generation
    ensures PoolListed(snap, users).ResolvingIDs?
    ensures var failed := Conclude(snap, PoolListed(snap, users).next, users, false).next;
      && failed.status.ready == PrefixResolutionFailed && failed.status.missed
      && failed.status.observed == snap.generation && failed.status.resolved == snap.status.resolved
      && (var again := PoolListed(failed, users);
          && again.PoolPatching?
          && again.next.status.ready == PoolReady
          && again.next.status.resolved == snap.status.resolved && again.next.status.missed)
  {
    CountIsExactOrTooLarge(users);
    hide SafeAllocatedCount;
  }
}
