/** How passes end: what refuses a claim, what is asked only after what, and what a settled claim's address and a
    patched pool look like. */
module Outcomes {
  import opened Wrappers
  import opened Prefixes
  import opened AddressText
  import opened Owners
  import opened Model
  import opened Protocol
  import opened Frames
  import opened PoolProtocol
  import opened System
  import opened ClaimSafety
  import opened Progress

  // ---- Refused claims ----

  /** The pool that the claim means: in its own namespace, or global. */
  predicate Means(key: Key, c: Claim, pk: PoolKey) {
    || (c.poolRef.kind == "NetBoxIPPool" && pk == PoolKey(key.namespace, "NetBoxIPPool", c.poolRef.name))
    || (c.poolRef.kind == "GlobalNetBoxIPPool" && pk == PoolKey("", "GlobalNetBoxIPPool", c.poolRef.name))
  }

  /** The claim cannot be served: its pool's kind is unknown, its pool is missing, or its pool is paused. A missing
      pool does not keep a deleted claim. */
  ghost predicate Refused(st: Store, key: Key, c: Claim, reason: Reason) {
    match reason
    case AllocationFailed => forall pk :: !Means(key, c, pk)
    case PoolNotFound => !c.deleting && exists pk :: Means(key, c, pk) && pk !in st.pools
    case PoolPaused => exists pk :: Means(key, c, pk) && pk in st.pools && st.pools[pk].paused
    case PoolExhausted => false
  }

  lemma MeantPool(key: Key, c: Claim)
    ensures forall pk :: Means(key, c, pk) <==> PoolKeyOf(key.namespace, c.poolRef) == Some(pk)
  {
    var meant := PoolKeyOf(key.namespace, c.poolRef);
    if meant.Some? {
      assert Means(key, c, meant.value);
    }
  }

  lemma RefusedAtOnce(cfg: Config, st: Store, key: Key, c: Claim, reason: Reason)
    requires Refused(st, key, c, reason)
    ensures Step(cfg, st, key, c, Fetching, Done) == At(st, key, c, Patching(c.(ready := NotReady(reason)), Kept))
  {
    MeantPool(key, c);
    hide PoolKeyOf, Means;
    var meant := PoolKeyOf(key.namespace, c.poolRef);
    assert meant.None? ==> forall pk :: !Means(key, c, pk);
    assert meant.Some? ==> Means(key, c, meant.value);
  }

  /** A pass without failures over a claim that is refused reports why, and does nothing else. */
  lemma RefusedPassOnlyReports(cfg: Config, room: Room, s: State, key: Key, run: seq<Event>, reason: Reason)
    requires s.worker.Idle? && key in s.store.claims && s.store.claims[key].finalizer
    requires Refused(s.store, key, s.store.claims[key], reason) && WholePass(cfg, room, s, key, run)
    ensures var st := s.store;
      Final(cfg, s, run).store == st.(claims := st.claims[key := st.claims[key].(ready := NotReady(reason))])
  {
    var st, c := s.store, s.store.claims[key];
    var s1 := Apply(cfg, s, run[0]);
    assert s1.worker == Busy(key, c, Fetching) && s1.store == st;
    RefusedAtOnce(cfg, st, key, c, reason);
    hide Refused, CalmCall, Along, StepFetching, Final;
    FirstCallIsDone(cfg, room, s1, run[1..]);
    var s2 := Apply(cfg, s1, run[1..][0]);
    assert s2.worker == Busy(key, c, Patching(c.(ready := NotReady(reason)), Kept)) && s2.store == st;
    hide Apply, Legal, Step;
    OnlyThePatch(cfg, room, s2, run[1..][1..]);
    ReportIsStored(cfg, s2, st, key, reason);
    LastOfThree(cfg, s, s1, s2, run);
  }

  lemma FirstCallIsDone(cfg: Config, room: Room, s: State, run: seq<Event>)
    requires s.worker.Busy? && s.worker.pc.Fetching? && LegalRun(cfg, s, run)
    requires Along(cfg, s, run, (x, e) => CalmCall(cfg, room, x, e)) && Final(cfg, s, run).worker.Idle?
    ensures run != [] && run[0] == Call(Done)
    ensures var s' := Apply(cfg, s, Call(Done));
      && Along(cfg, s', run[1..], (x, e) => CalmCall(cfg, room, x, e)) && Final(cfg, s', run[1..]).worker.Idle?
  {
    hide Apply, Legal;
    assert run != [];
    assert CalmCall(cfg, room, s, run[0]);
  }

  lemma ReportIsStored(cfg: Config, s: State, st: Store, key: Key, reason: Reason)
    requires key in st.claims && st.claims[key].finalizer && s.store == st
    requires s.worker == Busy(key, st.claims[key], Patching(st.claims[key].(ready := NotReady(reason)), Kept))
    requires Legal(cfg, s, Call(Wrote(true, true)))
    ensures Apply(cfg, s, Call(Wrote(true, true))).store == st.(claims := st.claims[key := st.claims[key].(ready := NotReady(reason))])
  {
  }

  lemma LastOfThree(cfg: Config, s: State, s1: State, s2: State, run: seq<Event>)
    requires |run| == 3 && LegalRun(cfg, s, run) && s1 == Apply(cfg, s, run[0])
    requires Legal(cfg, s1, run[1..][0]) && s2 == Apply(cfg, s1, run[1..][0])
    ensures Legal(cfg, s2, run[2]) && Final(cfg, s, run) == Apply(cfg, s2, run[2])
  {
    hide Apply, Legal;
    assert run[1..][1..][1..] == [] && run[1..][1..][0] == run[2];
    assert LegalRun(cfg, s2, run[1..][1..]);
    assert Final(cfg, s, run) == Final(cfg, s2, run[1..][1..]);
  }

  /** A pool is reported missing or paused only when it is. */
  lemma RefusalIsTrue(cfg: Config, st: Store, key: Key, c: Claim, pc: Pc, reply: Reply, reason: Reason)
    requires reason.PoolNotFound? || reason.PoolPaused?
    requires var w := Step(cfg, st, key, c, pc, reply).worker;
      w.Busy? && w.pc.Patching? && w.pc.update.ready == NotReady(reason) && c.ready != NotReady(reason)
    ensures pc.Fetching? && Refused(st, key, c, reason)
  {
    MeantPool(key, c);
    hide PoolKeyOf, Means, Finish, MetadataOk, Build, DetailsOf, GatewayChoice, ResolveIDs, GatewayFrom, Candidates, MapIPAddress, AddRecord,
      WriteAddress, Unprotect, DeleteAddress, PatchClaim;
    var meant := PoolKeyOf(key.namespace, c.poolRef);
    assert meant.Some? ==> Means(key, c, meant.value);
  }

  // ---- The custom field ----

  /** The worker looks for prefixes or asks one for an address. */
  predicate Asks(w: Worker, key: Key) {
    w.Busy? && w.key == key && (w.pc.Resolving? || w.pc.Allocating?)
  }

  /** The claim worker has checked the custom field, and it exists. */
  predicate Checks(s: State, e: Event, key: Key) {
    s.worker.Busy? && s.worker.key == key && s.worker.pc.CheckingField? && e == Call(Done)
  }

  ghost predicate AsksOn(cfg: Config, s: State, run: seq<Event>, key: Key)
    requires LegalRun(cfg, s, run)
    decreases |run|
  {
    Asks(s.worker, key) && (run == [] || AsksOn(cfg, Apply(cfg, s, run[0]), run[1..], key))
  }

  /** At some event of the run the field is checked, and from then on the worker asks. */
  ghost predicate AsksAfterCheck(cfg: Config, s: State, run: seq<Event>, key: Key)
    requires LegalRun(cfg, s, run)
    decreases |run|
  {
    run != [] && (
      || (Checks(s, run[0], key) && AsksOn(cfg, Apply(cfg, s, run[0]), run[1..], key))
      || AsksAfterCheck(cfg, Apply(cfg, s, run[0]), run[1..], key))
  }

  lemma AsksBecauseChecked(cfg: Config, s: State, e: Event, key: Key)
    requires Legal(cfg, s, e) && Asks(Apply(cfg, s, e).worker, key)
    ensures Asks(s.worker, key) || Checks(s, e, key)
  {
    match e
    case Call(reply) => StepAsks(cfg, s.store, s.worker.key, s.worker.c, s.worker.pc, reply); hide Step;
    case Other(a) => hide Act;
    case PoolCall(pk, reply) => hide PoolStep;
    case _ =>
  }

  lemma StepAsks(cfg: Config, st: Store, key: Key, c: Claim, pc: Pc, reply: Reply)
    requires var w := Step(cfg, st, key, c, pc, reply).worker; w.Busy? && (w.pc.Resolving? || w.pc.Allocating?)
    ensures Step(cfg, st, key, c, pc, reply).worker.key == key
    ensures pc.Resolving? || pc.Allocating? || (pc.CheckingField? && reply == Done)
  {
    hide PoolKeyOf, Finish, MetadataOk, Build, DetailsOf, GatewayChoice, ResolveIDs, GatewayFrom, Candidates, MapIPAddress, AddRecord,
      WriteAddress, Unprotect, DeleteAddress, PatchClaim;
  }

  /** Whenever the worker asks for an address, it has found the custom field to exist earlier in the same pass. */
  lemma {:induction false} AsksOnlyAfterCheck(cfg: Config, s: State, run: seq<Event>, key: Key)
    requires LegalRun(cfg, s, run) && Asks(Final(cfg, s, run).worker, key)
    ensures AsksOn(cfg, s, run, key) || AsksAfterCheck(cfg, s, run, key)
    ensures !Asks(s.worker, key) ==> AsksAfterCheck(cfg, s, run, key)
    decreases |run|
  {
    hide Asks, Checks, Legal, Apply;
    if run != [] {
      var s' := Apply(cfg, s, run[0]);
      AsksOnlyAfterCheck(cfg, s', run[1..], key);
      if AsksOn(cfg, s', run[1..], key) {
        AsksBecauseChecked(cfg, s, run[0], key);
      }
    }
  }

  /** Without the field the claim fails, and nothing is asked or written. */
  lemma MissingFieldFails(cfg: Config, s: State)
    requires s.worker.Busy? && s.worker.pc.CheckingField?
    ensures Legal(cfg, s, Call(Failed))
    ensures var s', c := Apply(cfg, s, Call(Failed)), s.worker.c;
      s'.store == s.store && s'.worker == Busy(s.worker.key, c, Patching(c.(ready := NotReady(AllocationFailed)), Kept))
  {
  }

  // ---- Deleted claims ----

  /** The worker removes the address of a deleted claim only, and only once no record carries the claim's UID, unless
      the claim's pool was missing. */
  lemma AddressGoesLast(cfg: Config, s0: State, run: seq<Event>, key: Key, reply: Reply)
    requires Sound(cfg) && Init(cfg, s0) && LegalRun(cfg, s0, run)
    requires Legal(cfg, Final(cfg, s0, run), Call(reply))
    requires key in Final(cfg, s0, run).store.addresses && key !in Apply(cfg, Final(cfg, s0, run), Call(reply)).store.addresses
    ensures var s := Final(cfg, s0, run);
      && s.worker.key == key && s.worker.c.deleting
      && (s.worker.pc.DeleteUnprotecting? || s.worker.pc.DeleteDeleting?)
      && (s.worker.pc.withPool ==> NoRecord(cfg, s.store, s.worker.c.uid))
  {
    var s := Final(cfg, s0, run);
    InitHolds(cfg, s0);
    hide Inv, LegalRun, Final, Legal;
    RunKeeps(cfg, s0, run);
    var pc := s.worker.pc;
    StepFrame(cfg, s.store, s.worker.key, s.worker.c, pc, reply);
    RemovalIsOwn(cfg, s.store, s.worker.key, s.worker.c, pc, reply, key);
    assert WorkerInv(cfg, s.store, s.worker.key, s.worker.c, pc) by {
      WorkerHolds(cfg, s);
    }
    hide Step, NoRecord, Current;
  }

  lemma WorkerHolds(cfg: Config, s: State)
    requires Inv(cfg, s) && s.worker.Busy?
    ensures WorkerInv(cfg, s.store, s.worker.key, s.worker.c, s.worker.pc)
  {
  }

  lemma RemovalIsOwn(cfg: Config, st: Store, key: Key, c: Claim, pc: Pc, reply: Reply, k: Key)
    requires k in st.addresses && k !in Step(cfg, st, key, c, pc, reply).store.addresses
    ensures k == key && (pc.DeleteUnprotecting? || pc.DeleteDeleting?)
  {
    StepFrame(cfg, st, key, c, pc, reply);
    if pc.Writing? {
      hide PoolGuards;
    } else if pc.DeleteUnprotecting? || pc.DeleteDeleting? {
    } else {
      hide Step;
    }
  }

  // ---- Claims whose pool is gone ----

  /** A delete pass that has not found the pool: it removes the address and drops the finalizer. */
  ghost predicate Abandoning(st: Store, key: Key, c: Claim, pc: Pc) {
    && key in st.claims && st.claims[key] == c && c.deleting && c.finalizer
    && match pc
       case Fetching => exists pk :: Means(key, c, pk) && pk !in st.pools
       case DeleteGetting(withPool) => !withPool
       case DeleteUnprotecting(withPool) => !withPool
       case DeleteDeleting(withPool) => !withPool && (key in st.addresses ==> !st.addresses[key].protect)
       case Patching(update, exit) => update == c.(finalizer := false) && exit.Abandoned? && key !in st.addresses
       case _ => false
  }

  /** The claim is let go without a look at its records. */
  predicate LetGo(st: Store, key: Key, uid: Uid) {
    key !in st.addresses && uid in st.abandoned && (key in st.claims ==> !st.claims[key].finalizer)
  }

  lemma AbandoningGoesOn(cfg: Config, room: Room, st: Store, key: Key, c: Claim, pc: Pc, reply: Reply)
    requires Abandoning(st, key, c, pc) && Calm(cfg, room, st, c, pc, reply)
    ensures var o := Step(cfg, st, key, c, pc, reply);
      && o.store.records == st.records
      && (if o.worker.Busy? then o.worker.key == key && o.worker.c == c && Abandoning(o.store, key, c, o.worker.pc)
          else LetGo(o.store, key, c.uid))
  {
    if pc.Patching? {
      hide LegalReply;
    } else {
      MeantPool(key, c);
      hide PoolKeyOf, Means, PatchClaim, LetGo;
    }
  }

  ghost predicate AbandoningState(s: State, key: Key, c: Claim) {
    s.worker.Busy? && s.worker.key == key && s.worker.c == c && Abandoning(s.store, key, c, s.worker.pc)
  }

  lemma AbandoningCall(cfg: Config, room: Room, s: State, key: Key, c: Claim, e: Event)
    requires AbandoningState(s, key, c) && Legal(cfg, s, e) && CalmCall(cfg, room, s, e)
    ensures var s' := Apply(cfg, s, e);
      && s'.store.records == s.store.records
      && if s'.worker.Busy? then AbandoningState(s', key, c) else LetGo(s'.store, key, c.uid)
  {
    AbandoningGoesOn(cfg, room, s.store, key, c, s.worker.pc, e.reply);
    hide Step, Calm, Abandoning, LetGo;
  }

  lemma {:induction false} AbandoningCalls(cfg: Config, room: Room, s: State, key: Key, c: Claim, run: seq<Event>)
    requires AbandoningState(s, key, c) && LegalRun(cfg, s, run)
    requires Along(cfg, s, run, (x, e) => CalmCall(cfg, room, x, e)) && Final(cfg, s, run).worker.Idle?
    ensures var st := Final(cfg, s, run).store; st.records == s.store.records && LetGo(st, key, c.uid)
    decreases |run|
  {
    assert s.worker.Busy?;
    hide CalmCall, Legal, Apply, LetGo, AbandoningState;
    var s' := Apply(cfg, s, run[0]);
    AbandoningCall(cfg, room, s, key, c, run[0]);
    if s'.worker.Busy? {
      AbandoningCalls(cfg, room, s', key, c, run[1..]);
    } else if run[1..] != [] {
      IdleCallsNothing(cfg, room, s', run[1..][0]);
    }
  }

  /** A pass without failures over a deleted claim whose pool is missing removes its address and its finalizer, and
      leaves every record where it is. */
  lemma MissingPoolAbandons(cfg: Config, room: Room, s: State, key: Key, pk: PoolKey, run: seq<Event>)
    requires s.worker.Idle? && key in s.store.claims && s.store.claims[key].deleting && s.store.claims[key].finalizer
    requires Means(key, s.store.claims[key], pk) && pk !in s.store.pools
    requires WholePass(cfg, room, s, key, run)
    ensures var st := Final(cfg, s, run).store; st.records == s.store.records && LetGo(st, key, s.store.claims[key].uid)
  {
    var s' := Apply(cfg, s, run[0]);
    assert AbandoningState(s', key, s.store.claims[key]) && s'.store.records == s.store.records;
    hide Apply, Legal, CalmCall, AbandoningState, LetGo;
    AbandoningCalls(cfg, room, s', key, s.store.claims[key], run[1..]);
  }

  // ---- What others did ----

  /** An address that somebody marked for deletion keeps the mark, whatever happens, until it is gone. */
  lemma MarkStays(cfg: Config, s: State, e: Event, key: Key)
    requires Legal(cfg, s, e) && key in s.store.addresses && s.store.addresses[key].deleting
    ensures key in Apply(cfg, s, e).store.addresses ==> Apply(cfg, s, e).store.addresses[key].deleting
  {
    match e
    case Call(reply) =>
      StepFrame(cfg, s.store, s.worker.key, s.worker.c, s.worker.pc, reply);
      StepKeepsMark(cfg, s.store, s.worker.key, s.worker.c, s.worker.pc, reply, key);
      hide Step;
    case Other(a) =>
      if !a.MarkAddress? {
        ActionKeepsAddresses(s.store, a);
        hide Act;
      }
    case PoolCall(pk, reply) => hide PoolStep;
    case _ =>
  }

  lemma StepKeepsMark(cfg: Config, st: Store, key: Key, c: Claim, pc: Pc, reply: Reply, k: Key)
    requires k in st.addresses && st.addresses[k].deleting
    ensures var addresses := Step(cfg, st, key, c, pc, reply).store.addresses; k in addresses ==> addresses[k].deleting
  {
    StepFrame(cfg, st, key, c, pc, reply);
    if pc.Writing? {
      hide PoolGuards;
    } else if pc.DeleteUnprotecting? || pc.DeleteDeleting? {
    } else {
      hide Step;
    }
  }

  /** The closing patch changes the finalizer, the reference and the condition only, and each only with its own part;
      what others wrote since the claim was read stays. */
  lemma PatchTouchesItsParts(st: Store, key: Key, was: Claim, now: Claim, exit: Exit, meta: bool, status: bool)
    requires key in st.claims
    ensures var st' := PatchClaim(st, key, was, now, exit, meta, status);
      && (forall k :: k != key ==> (k in st'.claims <==> k in st.claims) && (k in st.claims ==> st'.claims[k] == st.claims[k]))
      && (key in st'.claims ==>
            && var cur, next := st.claims[key], st'.claims[key];
            && next == cur.(finalizer := next.finalizer, addressRef := next.addressRef, ready := next.ready)
            && (!meta || was.finalizer == now.finalizer ==> next.finalizer == cur.finalizer)
            && (!status || was.ready == now.ready ==> next.ready == cur.ready)
            && (!status || was.addressRef == now.addressRef ==> next.addressRef == cur.addressRef)
            && (cur.deleting && next.finalizer ==> cur.finalizer))
      && (key !in st'.claims ==> st.claims[key].deleting && !st.claims[key].held)
  {
  }

  // ---- Settled claims ----

  /** The address of a settled claim is protected, carries the claim's cluster label if there is one, and refers to its
      pool by UID. */
  lemma SettledAddress(st: Store, key: Key)
    requires Settled(st, key)
    ensures var a, c := st.addresses[key], st.claims[key];
      var pool := PoolAt(st, key, c).value;
      && a.protect && (c.clusterLabel.Some? ==> a.clusterLabel == c.clusterLabel)
      && exists o :: o in a.owners && o.kind == c.poolRef.kind && o.name == c.poolRef.name && o.uid == pool.uid
  {
    var a, c := st.addresses[key], st.claims[key];
    var pool := PoolAt(st, key, c).value;
    assert Finish(a, key, c, pool) == a;
    OtherOwnersStay(a.owners, ClaimOwner(key, c), PoolOwner(c.poolRef, pool));
    hide Ensured, PoolAt;
  }

  /** The condition becomes Ready only when the address has been seen, and it shows that address. */
  lemma ReadyMeansSeen(cfg: Config, st: Store, key: Key, c: Claim, pc: Pc, reply: Reply)
    requires var w := Step(cfg, st, key, c, pc, reply).worker;
      w.Busy? && w.pc.Patching? && w.pc.update.ready.IsReady? && w.pc.update.ready != c.ready
    ensures pc.Polling? && reply == Done && key in st.addresses
    ensures Step(cfg, st, key, c, pc, reply).worker.pc.update == c.(addressRef := key.name, ready := IsReady(pc.next.text))
  {
    hide PoolKeyOf, Finish, MetadataOk, Build, DetailsOf, GatewayChoice, ResolveIDs, GatewayFrom, Candidates, MapIPAddress, AddRecord,
      WriteAddress, Unprotect, DeleteAddress, PatchClaim;
  }

  // ---- Pools ----

  /** A pool that nobody else changed is stored as the pass leaves it, and is gone if it was being deleted and this
      was its last finalizer. */
  lemma PatchStoresPool(pools: map<PoolKey, Pool>, pk: PoolKey, was: Pool, now: Pool)
    requires pk in pools && pools[pk] == was
    requires now == was.(status := now.status, clusterLabel := now.clusterLabel, finalizer := now.finalizer)
    requires was.deleting && now.finalizer ==> was.finalizer
    ensures PatchPool(pools, pk, was, now, true, true) ==
      if now.deleting && !now.finalizer && !now.held then pools - {pk} else pools[pk := now]
  {
  }

  /** The closing patch of a pool pass changes the finalizer, the label and the status of its own pool only: the first
      two with the metadata part and if the pass changed them, the status as a whole with its own part. */
  lemma PoolPatchTouchesItsParts(pools: map<PoolKey, Pool>, pk: PoolKey, was: Pool, now: Pool, meta: bool, status: bool)
    requires pk in pools
    ensures var pools' := PatchPool(pools, pk, was, now, meta, status);
      && (forall k :: k != pk ==> (k in pools' <==> k in pools) && (k in pools ==> pools'[k] == pools[k]))
      && (pk in pools' ==>
            && var cur, next := pools[pk], pools'[pk];
            && next == cur.(finalizer := next.finalizer, clusterLabel := next.clusterLabel, status := next.status)
            && next.status == (if status then now.status else cur.status)
            && (!meta || was.finalizer == now.finalizer ==> next.finalizer == cur.finalizer)
            && (!meta || was.clusterLabel == now.clusterLabel ==> next.clusterLabel == cur.clusterLabel)
            && (cur.deleting && next.finalizer ==> cur.finalizer))
      && (pk !in pools' ==> pools[pk].deleting && !pools[pk].held)
  {
  }
}
