/** Concrete runs that break what the safety theorems promise once their hypotheses are dropped. */
module Witnesses {
  import opened Wrappers
  import opened Text
  import opened Gateway
  import opened Prefixes
  import opened Index
  import opened Annotations
  import opened AddressText
  import opened Owners
  import opened Model
  import opened Protocol
  import opened Frames
  import opened PoolProtocol
  import opened System
  import opened ClaimSafety
  import opened ReleaseSafety
  import opened PoolGuard
  import opened Cluster
  import opened Progress

  // ---- Building a run ----

  predicate Runs(cfg: Config, s0: State, run: seq<Event>, s: State) {
    LegalRun(cfg, s0, run) && Final(cfg, s0, run) == s
  }

  lemma Go(cfg: Config, s0: State, run: seq<Event>, s: State, e: Event) returns (longer: seq<Event>)
    requires Runs(cfg, s0, run, s) && Legal(cfg, s, e)
    ensures Runs(cfg, s0, longer, Apply(cfg, s, e))
  {
    hide Legal, Apply;
    OneMore(cfg, s0, run, e);
    longer := run + [e];
  }

  lemma Take(cfg: Config, s0: State, run: seq<Event>, s: State, reply: Reply) returns (longer: seq<Event>, s': State)
    requires Runs(cfg, s0, run, s) && s.worker.Busy? && LegalReply(cfg, s.store, s.worker.c, s.worker.pc, reply)
    ensures Runs(cfg, s0, longer, s')
    ensures var o := Step(cfg, s.store, s.worker.key, s.worker.c, s.worker.pc, reply);
      s' == s.(store := o.store, worker := o.worker)
  {
    hide LegalReply, Step, Runs;
    longer := Go(cfg, s0, run, s, Call(reply));
    s' := Apply(cfg, s, Call(reply));
  }

  lemma RunOf(cfg: Config, run: seq<Event>, s: State)
    requires Runs(cfg, EMPTY, run, s)
    ensures LegalRun(cfg, EMPTY, run) && Final(cfg, EMPTY, run) == s
  {
  }

  lemma TakeCrash(cfg: Config, s0: State, run: seq<Event>, s: State) returns (longer: seq<Event>)
    requires Runs(cfg, s0, run, s)
    ensures Runs(cfg, s0, longer, State(s.store, Idle, map[]))
  {
    hide Runs;
    longer := Go(cfg, s0, run, s, Crash);
  }

  // ---- Passages ----

  /** The first pass of a claim. */
  lemma Register(cfg: Config, s0: State, run: seq<Event>, s: State, key: Key) returns (longer: seq<Event>, s': State)
    requires Runs(cfg, s0, run, s) && s.worker.Idle?
    requires key in s.store.claims && !s.store.claims[key].deleting && !s.store.claims[key].finalizer
    ensures Runs(cfg, s0, longer, s') && s' == s.(store := Registering(s.store, key))
  {
    var c := s.store.claims[key];
    RegisteringPatch(s.store, key);
    hide Runs, PatchClaim, Registering;
    longer := Go(cfg, s0, run, s, Begin(key, Done));
    var s1 := s.(worker := Busy(key, c, Patching(c.(finalizer := true), Kept)));
    assert Apply(cfg, s, Begin(key, Done)) == s1;
    hide Apply, Legal;
    longer, s' := Take(cfg, s0, longer, s1, Wrote(true, true));
  }

  /** A pass of a registered claim up to the reading of its pool. */
  lemma Fetch(cfg: Config, s0: State, run: seq<Event>, s: State, key: Key, pool: Pool) returns (longer: seq<Event>, s': State)
    requires Runs(cfg, s0, run, s) && s.worker.Idle?
    requires key in s.store.claims && s.store.claims[key].finalizer
    requires PoolAt(s.store, key, s.store.claims[key]) == Some(pool) && !pool.paused
    ensures Runs(cfg, s0, longer, s')
    ensures var c := s.store.claims[key];
      s' == s.(worker := Busy(key, c, if c.deleting then ReleaseGetting(pool) else Getting(pool)))
  {
    var c := s.store.claims[key];
    hide Runs, PoolKeyOf;
    longer := Go(cfg, s0, run, s, Begin(key, Done));
    var s1 := s.(worker := Busy(key, c, Fetching));
    assert Apply(cfg, s, Begin(key, Done)) == s1;
    hide Apply, Legal;
    longer, s' := Take(cfg, s0, longer, s1, Done);
  }

  /** A claim without record or address whose pool has one prefix and no cache, up to the question to NetBox. */
  lemma Ask(cfg: Config, s0: State, run: seq<Event>, s: State, key: Key, pool: Pool, id: int) returns (longer: seq<Event>, s': State)
    requires Runs(cfg, s0, run, s) && s.worker.Idle?
    requires key in s.store.claims && s.store.claims[key].finalizer && !s.store.claims[key].deleting
    requires PoolAt(s.store, key, s.store.claims[key]) == Some(pool) && !pool.paused
    requires pool.status.resolved == [] && ResolveIDs(s.store.prefixes, pool.spec.gateways.prefixes) == Ok([id])
    requires key !in s.store.addresses && NoRecord(cfg, s.store, s.store.claims[key].uid) && MetadataOk(cfg, s.store.claims[key], pool)
    ensures Runs(cfg, s0, longer, s')
    ensures var c := s.store.claims[key];
      s' == s.(worker := Busy(key, c, Allocating(pool, None, NewIPAddress(key, c), [id], 0)))
  {
    hide Runs, NoRecord, MetadataOk, ResolveIDs, PoolAt;
    longer, s' := Fetch(cfg, s0, run, s, key, pool);
    longer, s' := Take(cfg, s0, longer, s', Done);
    longer, s' := Take(cfg, s0, longer, s', Missing);
    longer, s' := Take(cfg, s0, longer, s', Done);
    longer, s' := Take(cfg, s0, longer, s', Done);
  }

  /** NetBox grants an address, and the `IPAddress` is about to be written, without a gateway. */
  lemma Grant(cfg: Config, s0: State, run: seq<Event>, s: State, pool: Pool, id: int, rid: int, text: string)
      returns (longer: seq<Event>, next: Address, s': State)
    requires Runs(cfg, s0, run, s) && s.worker.Busy?
    requires s.worker.pc == Allocating(pool, None, NewIPAddress(s.worker.key, s.worker.c), [id], 0) && pool.status.details == []
    requires MetadataOk(cfg, s.worker.c, pool) && rid !in s.store.records && MapIPAddress(text).address != ""
    ensures Runs(cfg, s0, longer, s')
    ensures s' == s.(store := AddRecord(cfg, s.store, s.worker.key, s.worker.c, pool, id, rid, text),
                     worker := Busy(s.worker.key, s.worker.c, Writing(None, next)))
    ensures next.text == MapIPAddress(text).address && next.prefix == Some(MapIPAddress(text).prefix)
    ensures next.poolRef == NewIPAddress(s.worker.key, s.worker.c).poolRef
  {
    hide Runs, MetadataOk, MapIPAddress, AddRecord, WriteAddress, Ensured, DetailsOf, Build, GatewayChoice;
    var key, c := s.worker.key, s.worker.c;
    longer, s' := Take(cfg, s0, run, s, Granted(rid, text));
    var added := AddRecord(cfg, s.store, key, c, pool, id, rid, text);
    assert s' == s.(store := added, worker :=
      Busy(key, c, LookingUpDetails(pool, None, WithText(NewIPAddress(key, c), text), [id], ByPrefix(id))));
    longer, s' := Take(cfg, s0, longer, s', Failed);
    next := Finish(WithText(NewIPAddress(key, c), text).(gateway := ""), key, c, pool);
  }

  /** The new `IPAddress` is written. */
  lemma Fill(cfg: Config, s0: State, run: seq<Event>, s: State, next: Address) returns (longer: seq<Event>, s': State)
    requires Runs(cfg, s0, run, s) && s.worker.Busy? && s.worker.pc == Writing(None, next) && s.worker.key !in s.store.addresses
    ensures Runs(cfg, s0, longer, s')
    ensures s' == s.(store := WriteAddress(s.store, s.worker.key, next), worker := s.worker.(pc := Polling(next)))
  {
    hide Runs, WriteAddress;
    longer, s' := Take(cfg, s0, run, s, Done);
  }

  /** NetBox grants an address, the response is lost, and the process stops. */
  lemma Spoil(cfg: Config, s0: State, run: seq<Event>, s: State, pool: Pool, id: int, rid: int, text: string)
      returns (longer: seq<Event>)
    requires Runs(cfg, s0, run, s) && s.worker.Busy?
    requires s.worker.pc == Allocating(pool, None, NewIPAddress(s.worker.key, s.worker.c), [id], 0)
    requires MetadataOk(cfg, s.worker.c, pool) && rid !in s.store.records && MapIPAddress(text).address != ""
    ensures Runs(cfg, s0, longer, State(AddRecord(cfg, s.store, s.worker.key, s.worker.c, pool, id, rid, text), Idle, map[]))
  {
    hide Runs, MetadataOk, MapIPAddress, AddRecord;
    var s';
    longer, s' := Take(cfg, s0, run, s, GrantLost(rid, text));
    longer := TakeCrash(cfg, s0, longer, s');
  }

  /** A delete pass up to the lookup by UID. */
  lemma StartRelease(cfg: Config, s0: State, run: seq<Event>, s: State, key: Key, pool: Pool) returns (longer: seq<Event>, s': State)
    requires Runs(cfg, s0, run, s) && s.worker.Idle?
    requires key in s.store.claims && s.store.claims[key].finalizer && s.store.claims[key].deleting
    requires PoolAt(s.store, key, s.store.claims[key]) == Some(pool) && !pool.paused
    ensures Runs(cfg, s0, longer, s')
    ensures s' == s.(worker := Busy(key, s.store.claims[key], ReleaseFinding(Lookup(s.store.addresses, key))))
  {
    hide Runs, PoolAt;
    longer, s' := Fetch(cfg, s0, run, s, key, pool);
    longer, s' := Take(cfg, s0, longer, s', Done);
  }

  /** The record is found and deleted, and the process stops. */
  lemma DeleteAndStop(cfg: Config, s0: State, run: seq<Event>, s: State, found: Option<Address>, id: int) returns (longer: seq<Event>)
    requires Runs(cfg, s0, run, s) && s.worker.Busy? && s.worker.pc == ReleaseFinding(found)
    requires id in s.store.records && Carries(cfg, s.store.records[id], s.worker.c.uid)
    ensures Runs(cfg, s0, longer, State(s.store.(records := s.store.records - {id}), Idle, map[]))
  {
    hide Runs, Carries;
    var s';
    longer, s' := Take(cfg, s0, run, s, Found(id));
    longer, s' := Take(cfg, s0, longer, s', Done);
    longer := TakeCrash(cfg, s0, longer, s');
  }

  /** No record carries the UID, but one answers the first text of the address. */
  lemma FallBack(cfg: Config, s0: State, run: seq<Event>, s: State, a: Address, id: int) returns (longer: seq<Event>)
    requires Runs(cfg, s0, run, s) && s.worker.Busy? && s.worker.pc == ReleaseFinding(Some(a))
    requires NoRecord(cfg, s.store, s.worker.c.uid) && Candidates(a.text, a.prefix) != []
    requires id in s.store.records && Answering(cfg, s.store.records[id], Candidates(a.text, a.prefix)[0])
    ensures Runs(cfg, s0, longer, s.(worker := s.worker.(pc := ReleaseDeleting(id))))
  {
    hide Runs, NoRecord, Candidates, Answering;
    var s';
    longer, s' := Take(cfg, s0, run, s, Missing);
    longer, s' := Take(cfg, s0, longer, s', Found(id));
  }

  // ---- A stop in the gap ----

  const NS := "ns"
  const POOL := PoolKey(NS, NETBOX_POOL_KIND, "pool")
  const A := Key(NS, "a")
  const B := Key(NS, "b")
  const REF := PoolRef(IPAM_GROUP, NETBOX_POOL_KIND, "pool")
  const SPEC := PoolSpec(GatewaySpec([PrefixRef(Some(7), "", None, "")], "", ""), Metadata(None, None, "", [], map[]), "active", "")
  const A_POOL := Pool("pool-uid", SPEC, 1, NEW_STATUS, None, false, false, false, false, map[1 := SPEC.gateways])
  const EMPTY := State(Store(map[], map[], map[], map[], [], map[], {}, {}), Idle, map[])

  function NewClaim(uid: Uid): Claim {
    Claim(uid, REF, map[], None, false, false, false, "", Unset)
  }

  /** The text of the one address that NetBox hands out twice. */
  function TheText(): string {
    "10.0.0.1" + "/" + Decimal(24)
  }

  lemma NoAnnotations(cfg: Config, uid: Uid, pool: Pool)
    ensures MetadataOk(cfg, NewClaim(uid).(finalizer := true), pool)
  {
  }

  lemma TheTextSplits()
    ensures MapIPAddress(TheText()) == Mapped("10.0.0.1", 24)
    ensures Candidates("10.0.0.1", Some(24)) == [TheText(), "10.0.0.1"] && Answers(TheText(), TheText())
  {
    assert Canonical(TheText(), "10.0.0.1", 24);
    CandidatesFindTheRecord(TheText(), "10.0.0.1", 24);
    assert TheText() in Candidates("10.0.0.1", Some(24));
  }

  lemma OnePrefix()
    ensures ResolveIDs([], SPEC.gateways.prefixes) == Ok([7])
  {
    var refs := SPEC.gateways.prefixes;
    assert |refs| == 1 && refs[..0] == [] && refs[0].id == Some(7);
    var r := ResolveIDs([], refs);
    assert StandsFor([], refs[0], r.value[0]);
    assert r.value == [7];
  }

  /** Both claims exist and are registered, beside their pool. */
  lemma TwoClaims(cfg: Config) returns (run: seq<Event>, s: State)
    ensures Runs(cfg, EMPTY, run, s) && s.worker.Idle? && s.poolWorkers == map[]
    ensures s.store == EMPTY.store.(
      pools := map[POOL := A_POOL],
      claims := map[A := NewClaim("uid-a").(finalizer := true), B := NewClaim("uid-b").(finalizer := true)],
      born := map["uid-a" := A, "uid-b" := B])
  {
    run := Go(cfg, EMPTY, [], EMPTY, Event.Other(CreatePool(POOL, A_POOL)));
    s := EMPTY.(store := EMPTY.store.(pools := map[POOL := A_POOL]));
    assert Apply(cfg, EMPTY, Event.Other(CreatePool(POOL, A_POOL))) == s;
    run, s := Join(cfg, run, s, A, "uid-a");
    run, s := Join(cfg, run, s, B, "uid-b");
  }

  /** A claim is created and registered. */
  lemma Join(cfg: Config, run: seq<Event>, s: State, key: Key, uid: Uid) returns (longer: seq<Event>, s': State)
    requires Runs(cfg, EMPTY, run, s) && s.worker.Idle? && key !in s.store.claims && uid !in s.store.born
    ensures Runs(cfg, EMPTY, longer, s')
    ensures s' == s.(store := s.store.(
      claims := s.store.claims[key := NewClaim(uid).(finalizer := true)], born := s.store.born[uid := key]))
  {
    hide Runs;
    var e := Event.Other(CreateClaim(key, NewClaim(uid)));
    longer := Go(cfg, EMPTY, run, s, e);
    var s1 := s.(store := s.store.(claims := s.store.claims[key := NewClaim(uid)], born := s.store.born[uid := key]));
    assert Apply(cfg, s, e) == s1;
    hide Apply, Legal;
    longer, s' := Register(cfg, EMPTY, longer, s1, key);
    assert s'.store.claims == s.store.claims[key := NewClaim(uid).(finalizer := true)];
  }

  /** What both claims and the pool are like, whatever records and addresses there are. */
  predicate Stage(st: Store, deleting: bool) {
    && st.pools == map[POOL := A_POOL] && st.prefixes == []
    && st.claims == map[A := NewClaim("uid-a").(finalizer := true, deleting := deleting), B := NewClaim("uid-b").(finalizer := true)]
    && st.born == map["uid-a" := A, "uid-b" := B]
  }

  /** A's address as it is written. */
  predicate Held(st: Store) {
    && st.addresses.Keys == {A}
    && st.addresses[A].text == "10.0.0.1" && st.addresses[A].prefix == Some(24)
  }

  lemma StagePool(st: Store, deleting: bool)
    requires Stage(st, deleting)
    ensures PoolAt(st, A, st.claims[A]) == Some(A_POOL) && PoolAt(st, B, st.claims[B]) == Some(A_POOL)
  {
  }

  lemma FilledStore(cfg: Config, st: Store, next: Address)
    requires Sound(cfg) && Stage(st, false) && st.records == map[] && st.addresses == map[]
    requires MetadataOk(cfg, st.claims[A], A_POOL) && next.text == "10.0.0.1" && next.prefix == Some(24)
    ensures var st' := WriteAddress(AddRecord(cfg, st, A, st.claims[A], A_POOL, 7, 1, TheText()), A, next);
      Stage(st', false) && Held(st') && st'.records.Keys == {1} && Carries(cfg, st'.records[1], "uid-a")
  {
    hide PoolGuards, NewRecord, Carries;
    NewRecordCarries(cfg, A, st.claims[A], A_POOL, 7, TheText(), "uid-a");
    AddIsRecords(cfg, st, A, st.claims[A], A_POOL, 7, 1, TheText());
  }

  lemma NoAddressesYet(cfg: Config, st: Store)
    requires A in st.claims && MetadataOk(cfg, st.claims[A], A_POOL) && st.addresses == map[]
    ensures A !in AddRecord(cfg, st, A, st.claims[A], A_POOL, 7, 1, TheText()).addresses
  {
    hide NewRecord;
  }

  /** A gets the record 1 and its address. */
  lemma FirstAct(cfg: Config) returns (run: seq<Event>, s: State)
    requires Sound(cfg)
    ensures Runs(cfg, EMPTY, run, s) && s.worker.Idle? && s.poolWorkers == map[]
    ensures Stage(s.store, false) && Held(s.store) && s.store.records.Keys == {1} && Carries(cfg, s.store.records[1], "uid-a")
  {
    run, s := TwoClaims(cfg);
    StagePool(s.store, false);
    OnePrefix();
    NoAnnotations(cfg, "uid-a", A_POOL);
    TheTextSplits();
    hide Runs, MetadataOk, PoolAt, ResolveIDs, PoolKeyOf, WriteAddress, AddRecord, Carries, MapIPAddress, Candidates, Answers;
    var next;
    var st := s.store;
    run, s := Ask(cfg, EMPTY, run, s, A, A_POOL, 7);
    run, next, s := Grant(cfg, EMPTY, run, s, A_POOL, 7, 1, TheText());
    NoAddressesYet(cfg, st);
    run, s := Fill(cfg, EMPTY, run, s, next);
    run := TakeCrash(cfg, EMPTY, run, s);
    FilledStore(cfg, st, next);
    s := State(s.store, Idle, map[]);
  }

  /** A is deleted, and a pass deletes its record and stops before it gets to the address. */
  lemma SecondAct(cfg: Config) returns (run: seq<Event>, s: State)
    requires Sound(cfg)
    ensures Runs(cfg, EMPTY, run, s) && s.worker.Idle? && s.poolWorkers == map[]
    ensures Stage(s.store, true) && Held(s.store) && s.store.records == map[]
  {
    run, s := FirstAct(cfg);
    hide Runs, Carries;
    run := Go(cfg, EMPTY, run, s, Event.Other(DeleteClaim(A)));
    s := s.(store := Deleted(s.store));
    StagePool(s.store, true);
    hide PoolAt, PoolKeyOf;
    run, s := StartRelease(cfg, EMPTY, run, s, A, A_POOL);
    run := DeleteAndStop(cfg, EMPTY, run, s, Some(s.store.addresses[A]), 1);
    assert s.store.records - {1} == map[];
    s := State(s.store.(records := map[]), Idle, map[]);
  }

  /** The stage with A deleted. */
  function Deleted(st: Store): (st': Store)
    requires Stage(st, false)
    ensures Stage(st', true) && st'.addresses == st.addresses && st'.records == st.records
    ensures st' == Act(st, DeleteClaim(A))
  {
    st.(claims := st.claims[A := st.claims[A].(deleting := true)])
  }

  /** NetBox hands the same address to B, in record 2, and the response is lost. */
  lemma ThirdAct(cfg: Config) returns (run: seq<Event>, s: State)
    requires Sound(cfg)
    ensures Runs(cfg, EMPTY, run, s) && s.worker.Idle? && s.poolWorkers == map[]
    ensures Stage(s.store, true) && Held(s.store) && s.store.records.Keys == {2} && s.store.records[2].text == TheText()
    ensures forall u: Uid :: Carries(cfg, s.store.records[2], u) <==> u == "uid-b"
    ensures cfg.tag in s.store.records[2].tags
  {
    run, s := SecondAct(cfg);
    StagePool(s.store, true);
    OnePrefix();
    NoAnnotations(cfg, "uid-b", A_POOL);
    TheTextSplits();
    var st := s.store;
    hide Runs, PoolAt, ResolveIDs, PoolKeyOf, MapIPAddress, Candidates, Answers, AddRecord, MetadataOk, Carries;
    run, s := Ask(cfg, EMPTY, run, s, B, A_POOL, 7);
    run := Spoil(cfg, EMPTY, run, s, A_POOL, 7, 2, TheText());
    SpoiledStore(cfg, st);
    s := State(AddRecord(cfg, st, B, st.claims[B], A_POOL, 7, 2, TheText()), Idle, map[]);
  }

  lemma SpoiledStore(cfg: Config, st: Store)
    requires Sound(cfg) && Stage(st, true) && Held(st) && st.records == map[] && MetadataOk(cfg, st.claims[B], A_POOL)
    ensures var st' := AddRecord(cfg, st, B, st.claims[B], A_POOL, 7, 2, TheText());
      && Stage(st', true) && Held(st') && st'.records.Keys == {2} && st'.records[2].text == TheText()
      && (forall u: Uid :: Carries(cfg, st'.records[2], u) <==> u == "uid-b")
      && cfg.tag in st'.records[2].tags
  {
    hide NewRecord, AddRecord, MetadataOk, Carries;
    AddIsRecords(cfg, st, B, st.claims[B], A_POOL, 7, 2, TheText());
    SpoiledRecord(cfg, st.claims[B]);
  }

  lemma SpoiledRecord(cfg: Config, c: Claim)
    requires Sound(cfg) && MetadataOk(cfg, c, A_POOL)
    ensures var r := NewRecord(cfg, B, c, A_POOL, 7, TheText());
      && r.text == TheText() && cfg.tag in r.tags
      && (forall u: Uid :: Carries(cfg, r, u) <==> u == c.uid)
  {
    var r := NewRecord(cfg, B, c, A_POOL, 7, TheText());
    assert r.text == TheText() by {
      hide Effective;
    }
    hide NewRecord, MetadataOk;
    forall u: Uid
      ensures Carries(cfg, r, u) <==> u == c.uid
    {
      hide Carries;
      NewRecordCarries(cfg, B, c, A_POOL, 7, TheText(), u);
    }
    assert Carries(cfg, r, c.uid);
  }

  /** Why `NoStopInGap` is needed: after a stop in the gap, A's retry finds its address without a record, falls
      back to the lookup by address, and is about to delete the record of the live claim B. */
  lemma StopInGapTakesAnothersRecord(cfg: Config) returns (run: seq<Event>)
    requires Sound(cfg)
    ensures Init(cfg, EMPTY) && LegalRun(cfg, EMPTY, run) && !Along(cfg, EMPTY, run, NoStopInGap)
    ensures var s := Final(cfg, EMPTY, run);
      && s.worker.Busy? && s.worker.pc.ReleaseDeleting? && s.worker.c.uid == "uid-a"
      && s.worker.pc.id in s.store.records
      && Carries(cfg, s.store.records[s.worker.pc.id], "uid-b") && !Carries(cfg, s.store.records[s.worker.pc.id], "uid-a")
      && Registered(s.store, B, "uid-b") && !s.store.claims[B].deleting
  {
    var s, a;
    hide Runs, Along;
    run, s, a := FourthAct(cfg);
    run := FallBack(cfg, EMPTY, run, s, a, 2);
    RunOf(cfg, run, s.(worker := s.worker.(pc := ReleaseDeleting(2))));
    hide LegalRun, Final;
    if Along(cfg, EMPTY, run, NoStopInGap) {
      ReleaseDeletesOwnRecord(cfg, EMPTY, run);
    }
  }

  /** A's retry looks for its record in vain. */
  lemma FourthAct(cfg: Config) returns (run: seq<Event>, s: State, a: Address)
    requires Sound(cfg)
    ensures Runs(cfg, EMPTY, run, s)
    ensures s.worker.Busy? && s.worker.pc == ReleaseFinding(Some(a)) && s.worker.c.uid == "uid-a" && NoRecord(cfg, s.store, "uid-a")
    ensures 2 in s.store.records && Carries(cfg, s.store.records[2], "uid-b") && !Carries(cfg, s.store.records[2], "uid-a")
    ensures Registered(s.store, B, "uid-b") && !s.store.claims[B].deleting
    ensures Candidates(a.text, a.prefix) != [] && Answering(cfg, s.store.records[2], Candidates(a.text, a.prefix)[0])
  {
    hide Runs, PoolAt, PoolKeyOf, Candidates, Answering, Carries, NoRecord;
    run, s := ThirdAct(cfg);
    StagePool(s.store, true);
    RetryFacts(cfg, s.store);
    a := s.store.addresses[A];
    run, s := StartRelease(cfg, EMPTY, run, s, A, A_POOL);
  }

  lemma RetryFacts(cfg: Config, st: Store)
    requires Stage(st, true) && Held(st) && st.records.Keys == {2} && st.records[2].text == TheText() && cfg.tag in st.records[2].tags
    requires forall u: Uid :: Carries(cfg, st.records[2], u) <==> u == "uid-b"
    ensures NoRecord(cfg, st, "uid-a") && Carries(cfg, st.records[2], "uid-b") && !Carries(cfg, st.records[2], "uid-a")
    ensures var a := st.addresses[A];
      Candidates(a.text, a.prefix) != [] && Answering(cfg, st.records[2], Candidates(a.text, a.prefix)[0])
  {
    TheTextSplits();
    hide Carries, Candidates, Answers;
  }

  // ---- A claim pass between a pool's listing and its patch ----

  lemma TakePool(cfg: Config, s0: State, run: seq<Event>, s: State, pk: PoolKey, reply: Reply) returns (longer: seq<Event>, s': State)
    requires Runs(cfg, s0, run, s) && pk in s.poolWorkers && LegalPoolReply(s.poolWorkers[pk], reply)
    ensures Runs(cfg, s0, longer, s')
    ensures var o := PoolStep(cfg, s.store, pk, s.poolWorkers[pk], reply);
      s' == s.(store := s.store.(pools := o.pools),
               poolWorkers := if o.worker.Some? then s.poolWorkers[pk := o.worker.value] else s.poolWorkers - {pk})
  {
    hide LegalPoolReply, PoolStep, Runs;
    longer := Go(cfg, s0, run, s, PoolCall(pk, reply));
    s' := Apply(cfg, s, PoolCall(pk, reply));
  }

  /** The pool as a pass leaves it that counts no users and cannot resolve the prefixes. */
  function Unresolved(snap: Pool): Pool {
    snap.(status := snap.status.(observed := snap.generation, inUse := Some(0), ready := PrefixResolutionFailed),
          finalizer := !snap.deleting)
  }

  lemma ListedEmpty(snap: Pool)
    requires snap.status.resolved == [] && snap.spec.clusterName == ""
    ensures var w := PoolListed(snap, 0);
      w.ResolvingIDs? && w.snap == snap && w.users == 0 && Conclude(snap, w.next, 0, false) == PoolPatching(snap, Unresolved(snap))
  {
    CountIsExactOrTooLarge(0);
    hide SafeAllocatedCount;
  }

  /** A pass for a pool without users and without a cache whose prefixes cannot be resolved, up to its patch. */
  lemma PoolPass(cfg: Config, s0: State, run: seq<Event>, s: State, pk: PoolKey) returns (longer: seq<Event>, s': State)
    requires Runs(cfg, s0, run, s) && pk !in s.poolWorkers && IsPoolKey(pk) && pk in s.store.pools
    requires s.store.pools[pk].status.resolved == [] && s.store.pools[pk].spec.clusterName == ""
    requires Listing(s.store.addresses, pk) == {}
    ensures Runs(cfg, s0, longer, s')
    ensures s' == s.(poolWorkers := s.poolWorkers[pk := PoolPatching(s.store.pools[pk], Unresolved(s.store.pools[pk]))])
  {
    ListedEmpty(s.store.pools[pk]);
    hide Runs, Listing, PoolListed, Conclude, Unresolved;
    longer, s' := ListPool(cfg, s0, run, s, pk);
    longer, s' := TakePool(cfg, s0, longer, s', pk, Failed);
  }

  const HELD_POOL := Unresolved(A_POOL)
  const DELETED_POOL := NextGeneration(HELD_POOL, SPEC).(deleting := true)

  /** The pool with its finalizer, and a registered claim. */
  lemma HeldPool(cfg: Config) returns (run: seq<Event>, s: State)
    ensures Runs(cfg, EMPTY, run, s) && s.worker.Idle? && s.poolWorkers == map[]
    ensures s.store == EMPTY.store.(
      pools := map[POOL := HELD_POOL], claims := map[A := NewClaim("uid-a").(finalizer := true)], born := map["uid-a" := A])
  {
    run := Go(cfg, EMPTY, [], EMPTY, Event.Other(CreatePool(POOL, A_POOL)));
    s := EMPTY.(store := EMPTY.store.(pools := map[POOL := A_POOL]));
    assert Apply(cfg, EMPTY, Event.Other(CreatePool(POOL, A_POOL))) == s;
    hide Runs, Listing;
    assert Listing(map[], POOL) == {} by {
      EmptyListing(POOL);
    }
    run, s := PoolPass(cfg, EMPTY, run, s, POOL);
    run, s := TakePool(cfg, EMPTY, run, s, POOL, Wrote(true, true));
    assert s.store.pools == map[POOL := HELD_POOL] && s.poolWorkers == map[];
    run, s := Join(cfg, run, s, A, "uid-a");
  }

  lemma EmptyListing(pk: PoolKey)
    ensures Listing(map[], pk) == {}
  {
  }

  /** Why `NoExposure` is needed: a pool pass lists no users; then an address is created, under the
      pool's finalizer; then the pass patches the finalizer away. The pool of a guarded address is gone. */
  lemma RaceLosesThePool(cfg: Config) returns (run: seq<Event>)
    requires Sound(cfg)
    ensures Init(cfg, EMPTY) && LegalRun(cfg, EMPTY, run)
    ensures var st := Final(cfg, EMPTY, run).store;
      && A in st.addresses && st.addresses[A].guarded
      && PoolKeyOf(A.namespace, st.addresses[A].poolRef) == Some(POOL) && POOL !in st.pools
    ensures !Along(cfg, EMPTY, run, NoExposure)
  {
    var s;
    run, s := LateWrite(cfg);
    hide Runs, PoolStep;
    var deleted, unresolved := s.store.pools[POOL], s.poolWorkers[POOL].next;
    run, s := TakePool(cfg, EMPTY, run, s, POOL, Wrote(true, true));
    assert s.store.pools == map[] by {
      GoneAfterPatch(deleted);
    }
    RunOf(cfg, run, s);
    if Along(cfg, EMPTY, run, NoExposure) {
      GuardedPoolIsFound(cfg, EMPTY, run, A, Done);
    }
  }

  lemma GoneAfterPatch(deleted: Pool)
    requires deleted == DELETED_POOL
    ensures PatchPool(map[POOL := deleted], POOL, deleted, Unresolved(deleted), true, true) == map[]
  {
  }

  /** The claim pass has its grant and the pool is marked as deleted. */
  lemma GrantAndDelete(cfg: Config) returns (run: seq<Event>, s: State, next: Address)
    requires Sound(cfg)
    ensures Runs(cfg, EMPTY, run, s) && s.poolWorkers == map[]
    ensures s.worker == Busy(A, NewClaim("uid-a").(finalizer := true), Writing(None, next)) && next.poolRef == REF
    ensures s.store.addresses == map[] && s.store.pools == map[POOL := DELETED_POOL]
  {
    run, s := HeldPool(cfg);
    OnePrefix();
    NoAnnotations(cfg, "uid-a", HELD_POOL);
    TheTextSplits();
    assert PoolAt(s.store, A, s.store.claims[A]) == Some(HELD_POOL);
    hide Runs, MetadataOk, PoolAt, ResolveIDs, PoolKeyOf, AddRecord, MapIPAddress, Candidates, Answers;
    var st := s.store;
    run, s := Ask(cfg, EMPTY, run, s, A, HELD_POOL, 7);
    run, next, s := Grant(cfg, EMPTY, run, s, HELD_POOL, 7, 1, TheText());
    AddIsRecords(cfg, st, A, st.claims[A], HELD_POOL, 7, 1, TheText());
    hide NewRecord;
    run, s := MarkPool(cfg, run, s);
  }

  lemma MarkPool(cfg: Config, run: seq<Event>, s: State) returns (longer: seq<Event>, s': State)
    requires Runs(cfg, EMPTY, run, s) && s.store.pools == map[POOL := HELD_POOL]
    ensures Runs(cfg, EMPTY, longer, s')
    ensures s' == s.(store := s.store.(pools := map[POOL := DELETED_POOL]))
  {
    MarkedPools(s.store);
    hide Runs, Act;
    longer := Go(cfg, EMPTY, run, s, Event.Other(DeletePool(POOL)));
    s' := Apply(cfg, s, Event.Other(DeletePool(POOL)));
  }

  lemma MarkedPools(st: Store)
    requires st.pools == map[POOL := HELD_POOL]
    ensures Act(st, DeletePool(POOL)) == st.(pools := map[POOL := DELETED_POOL])
  {
    assert st.pools[POOL := DELETED_POOL] == map[POOL := DELETED_POOL];
    hide NextGeneration, Unresolved;
    assert StorePool(st.pools, POOL, DELETED_POOL) == st.pools[POOL := DELETED_POOL] by {
      HeldStays();
    }
    hide StorePool;
  }

  lemma HeldStays()
    ensures DELETED_POOL.deleting && DELETED_POOL.finalizer && !HELD_POOL.deleting
  {
  }

  /** The pool pass has listed no users when the claim pass writes its address. */
  lemma LateWrite(cfg: Config) returns (run: seq<Event>, s: State)
    requires Sound(cfg)
    ensures Runs(cfg, EMPTY, run, s)
    ensures s.poolWorkers == map[POOL := PoolPatching(DELETED_POOL, Unresolved(DELETED_POOL))]
    ensures s.store.pools == map[POOL := DELETED_POOL]
    ensures A in s.store.addresses && s.store.addresses[A].guarded && s.store.addresses[A].poolRef == REF
  {
    var next;
    run, s, next := GrantAndDelete(cfg);
    EmptyListing(POOL);
    hide Runs, Listing;
    run, s := PoolPass(cfg, EMPTY, run, s, POOL);
    run, s := Fill(cfg, EMPTY, run, s, next);
  }

  // ---- A failed resolution that hides itself ----

  /** A pass's closing patch, committed whole, over a pool that has not changed since it was read. */
  lemma PatchWhole(pools: map<PoolKey, Pool>, pk: PoolKey, snap: Pool, next: Pool)
    requires pk in pools && pools[pk] == snap && !snap.deleting && next.finalizer
    requires next == snap.(status := next.status, finalizer := true, clusterLabel := next.clusterLabel)
    ensures PatchPool(pools, pk, snap, next, true, true) == pools[pk := next]
  {
    assert PatchedPool(snap, snap, next, true, true) == next;
  }

  /** What a pass concludes about a live pool. */
  lemma ConcludeLive(snap: Pool, next: Pool, users: nat, resolved: bool)
    requires !snap.deleting && next == snap.(status := next.status)
    ensures var w := Conclude(snap, next, users, resolved);
      && w.PoolPatching? && w.snap == snap
      && w.next == snap.(status := w.next.status, finalizer := true, clusterLabel := w.next.clusterLabel)
      && w.next.status == if resolved then next.status.(ready := PoolReady) else Missed(next.status, snap).(ready := PrefixResolutionFailed)
  {
  }

  /** Reading and counting a live pool. */
  lemma ListPool(cfg: Config, s0: State, run: seq<Event>, s: State, pk: PoolKey) returns (longer: seq<Event>, s': State)
    requires Runs(cfg, s0, run, s) && pk !in s.poolWorkers && IsPoolKey(pk) && pk in s.store.pools && Listing(s.store.addresses, pk) == {}
    ensures Runs(cfg, s0, longer, s')
    ensures s' == s.(poolWorkers := s.poolWorkers[pk := PoolListed(s.store.pools[pk], 0)])
  {
    assert |Listing(s.store.addresses, pk)| == 0;
    hide Runs, Listing, PoolListed;
    longer := Go(cfg, s0, run, s, PoolBegin(pk));
    s' := s.(poolWorkers := s.poolWorkers[pk := PoolListing(s.store.pools[pk])]);
    assert Apply(cfg, s, PoolBegin(pk)) == s';
    hide Apply, Legal;
    longer, s' := TakePool(cfg, s0, longer, s', pk, Done);
  }

  /** The closing patch of a pass over a live pool. */
  lemma PatchLive(cfg: Config, s0: State, run: seq<Event>, s: State, pk: PoolKey, snap: Pool, next: Pool) returns (longer: seq<Event>, s': State)
    requires Runs(cfg, s0, run, s) && s.poolWorkers == map[pk := PoolPatching(snap, next)]
    requires pk in s.store.pools && s.store.pools[pk] == snap && !snap.deleting && next.finalizer
    requires next == snap.(status := next.status, finalizer := true, clusterLabel := next.clusterLabel)
    ensures Runs(cfg, s0, longer, s')
    ensures s' == s.(store := s.store.(pools := s.store.pools[pk := next]), poolWorkers := map[])
  {
    PatchWhole(s.store.pools, pk, snap, next);
    hide Runs, PatchPool;
    longer, s' := TakePool(cfg, s0, run, s, pk, Wrote(true, true));
    assert s'.poolWorkers == map[];
  }

  /** A pool with a cache and a new generation. */
  predicate Outdated(p: Pool) {
    && !p.deleting && p.status.resolved != [] && p.status.observed != p.generation
  }

  lemma ListedOutdated(p: Pool)
    requires Outdated(p)
    ensures var w := PoolListed(p, 0);
      w.ResolvingIDs? && w.snap == p && w.users == 0 && w.next == p.(status := p.status.(observed := p.generation, inUse := Some(0)))
  {
    CountIsExactOrTooLarge(0);
    hide SafeAllocatedCount;
  }

  lemma ListedCurrent(p: Pool)
    requires !p.deleting && p.status.resolved != [] && p.status.observed == p.generation
    ensures PoolListed(p, 0) == Conclude(p, p.(status := p.status.(observed := p.generation, inUse := Some(0))), 0, true)
  {
    CountIsExactOrTooLarge(0);
    hide SafeAllocatedCount, Conclude;
  }

  /** From any state: a pass over an outdated pool whose resolution fails, and a second pass, leave the pool Ready and
      its generation observed, with the older cache. */
  lemma TwoPassesHide(cfg: Config, s0: State, run: seq<Event>, s: State, pk: PoolKey) returns (longer: seq<Event>, s': State)
    requires Runs(cfg, s0, run, s) && s.poolWorkers == map[] && IsPoolKey(pk) && pk in s.store.pools && Outdated(s.store.pools[pk])
    requires Listing(s.store.addresses, pk) == {}
    ensures Runs(cfg, s0, longer, s') && pk in s'.store.pools
    ensures var p, p' := s.store.pools[pk], s'.store.pools[pk];
      && p'.status.ready == PoolReady && p'.status.observed == p'.generation == p.generation && p'.status.missed
      && p'.status.resolved == p.status.resolved && p'.spec == p.spec
  {
    var p := s.store.pools[pk];
    ListedOutdated(p);
    hide Runs, Listing, PoolListed, Conclude;
    longer, s' := ListPool(cfg, s0, run, s, pk);
    var counted := s'.poolWorkers[pk].next;
    longer, s' := TakePool(cfg, s0, longer, s', pk, Failed);
    ConcludeLive(p, counted, 0, false);
    var failed := Conclude(p, counted, 0, false).next;
    assert s'.poolWorkers == map[pk := PoolPatching(p, failed)];
    longer, s' := PatchLive(cfg, s0, longer, s', pk, p, failed);
    longer, s' := PassOverCurrent(cfg, s0, longer, s', pk);
  }

  /** The pass that resolves nothing. */
  lemma PassOverCurrent(cfg: Config, s0: State, run: seq<Event>, s: State, pk: PoolKey) returns (longer: seq<Event>, s': State)
    requires Runs(cfg, s0, run, s) && s.poolWorkers == map[] && IsPoolKey(pk) && pk in s.store.pools
    requires Listing(s.store.addresses, pk) == {}
    requires var p := s.store.pools[pk]; !p.deleting && p.status.resolved != [] && p.status.observed == p.generation
    ensures Runs(cfg, s0, longer, s') && pk in s'.store.pools
    ensures var p, p' := s.store.pools[pk], s'.store.pools[pk];
      && p'.status == p.status.(inUse := Some(0), ready := PoolReady) && p'.spec == p.spec && p'.generation == p.generation
  {
    var p := s.store.pools[pk];
    var counted := p.(status := p.status.(observed := p.generation, inUse := Some(0)));
    ListedCurrent(p);
    ConcludeLive(p, counted, 0, true);
    hide Runs, Listing, PoolListed, Conclude;
    longer, s' := ListPool(cfg, s0, run, s, pk);
    var next := s'.poolWorkers[pk].next;
    assert s'.poolWorkers == map[pk := PoolPatching(p, next)];
    longer, s' := PatchLive(cfg, s0, longer, s', pk, p, next);
  }

  const NEW_SPEC := SPEC.(gateways := SPEC.gateways.(prefixes := [PrefixRef(Some(8), "", None, "")]))

  /** The one prefix of the first spec resolves, without a gateway. */
  lemma FirstCache(cfg: Config)
    ensures Build(GatewayChoice(cfg.ip, SPEC.gateways), [7], DetailsOf([], [7])).Ok?
    ensures Build(GatewayChoice(cfg.ip, SPEC.gateways), [7], DetailsOf([], [7])).value.entries != []
  {
    var fetched := DetailsOf([], [7]);
    assert fetched == [] by {
      assert [7][..0] == [];
    }
    BlankGateway(cfg);
    assert forall i :: 0 <= i < |[7]| ==> GatewayChoice(cfg.ip, SPEC.gateways)(i, DetailFor(fetched, [7][i])).Ok?;
  }

  lemma BlankGateway(cfg: Config)
    ensures GatewayAt(cfg.ip, SPEC.gateways, 0, PrefixDetail(0, "", map[])) == Ok(Choice("", false))
  {
    TrimIsTrimmed("");
    assert StaticGateway(SPEC.gateways, 0) == "" && CustomFieldString(map[], "") == "";
  }

  /** The first pass over the new pool fills its cache. */
  lemma CachedPool(cfg: Config) returns (run: seq<Event>, s: State)
    ensures Runs(cfg, EMPTY, run, s) && s.poolWorkers == map[] && s.store.addresses == map[] && s.store.prefixes == []
    ensures POOL in s.store.pools && var p := s.store.pools[POOL];
      && !p.deleting && p.status.resolved == [7] && p.status.observed == p.generation == 1 && p.spec == SPEC && p.finalizer
  {
    run := Go(cfg, EMPTY, [], EMPTY, Event.Other(CreatePool(POOL, A_POOL)));
    s := EMPTY.(store := EMPTY.store.(pools := map[POOL := A_POOL]));
    assert Apply(cfg, EMPTY, Event.Other(CreatePool(POOL, A_POOL))) == s;
    ListedEmpty(A_POOL);
    OnePrefix();
    FirstCache(cfg);
    EmptyListing(POOL);
    hide Runs, Listing, Conclude, ResolveIDs, Build, DetailsOf, GatewayChoice;
    run, s := ListPool(cfg, EMPTY, run, s, POOL);
    run, s := FillCache(cfg, run, s, PoolListed(A_POOL, 0).next);
  }

  lemma FillCache(cfg: Config, run: seq<Event>, s: State, counted: Pool) returns (longer: seq<Event>, s': State)
    requires Runs(cfg, EMPTY, run, s) && s.store.pools == map[POOL := A_POOL] && s.store.prefixes == [] && s.store.addresses == map[]
    requires s.poolWorkers == map[POOL := ResolvingIDs(A_POOL, counted, 0)]
    requires counted == A_POOL.(status := counted.status) && counted.status.observed == 1
    requires ResolveIDs([], SPEC.gateways.prefixes) == Ok([7])
    requires Build(GatewayChoice(cfg.ip, SPEC.gateways), [7], DetailsOf([], [7])).Ok?
    ensures Runs(cfg, EMPTY, longer, s') && s'.poolWorkers == map[] && s'.store.addresses == map[] && s'.store.prefixes == []
    ensures POOL in s'.store.pools && var p := s'.store.pools[POOL];
      && !p.deleting && p.status.resolved == [7] && p.status.observed == p.generation == 1 && p.spec == SPEC && p.finalizer
  {
    hide Runs, Conclude, ResolveIDs, Build, DetailsOf, GatewayChoice;
    longer, s' := TakePool(cfg, EMPTY, run, s, POOL, Done);
    assert s'.poolWorkers[POOL] == ResolvingDetails(A_POOL, counted, 0, [7], []);
    longer, s' := TakePool(cfg, EMPTY, longer, s', POOL, Done);
    var built := Build(GatewayChoice(cfg.ip, SPEC.gateways), [7], DetailsOf([], [7])).value;
    var cached := Cached(counted, A_POOL, [7], built.entries, [], []);
    ConcludeLive(A_POOL, cached, 0, true);
    var next := Conclude(A_POOL, cached, 0, true).next;
    assert s'.poolWorkers == map[POOL := PoolPatching(A_POOL, next)];
    longer, s' := PatchLive(cfg, EMPTY, longer, s', POOL, A_POOL, next);
  }

  /** A run from the empty state that ends with a pool that is Ready for its newest generation, while its cache still
      holds the prefix of the spec before. */
  lemma StaleCacheIsReady(cfg: Config) returns (run: seq<Event>)
    ensures Init(cfg, EMPTY) && LegalRun(cfg, EMPTY, run)
    ensures POOL in Final(cfg, EMPTY, run).store.pools
    ensures var p := Final(cfg, EMPTY, run).store.pools[POOL];
      && p.status.ready == PoolReady && p.status.observed == p.generation == 2
      && p.status.resolved == [7] && p.spec.gateways.prefixes == [PrefixRef(Some(8), "", None, "")]
  {
    var s;
    run, s := CachedPool(cfg);
    var p := s.store.pools[POOL];
    var edited := s.(store := s.store.(pools := s.store.pools[POOL := NextGeneration(p, NEW_SPEC)]));
    assert Act(s.store, EditPool(POOL, NEW_SPEC)) == edited.store;
    hide Runs;
    run := Go(cfg, EMPTY, run, s, Event.Other(EditPool(POOL, NEW_SPEC)));
    EmptyListing(POOL);
    hide Listing, Act;
    run, s := TwoPassesHide(cfg, EMPTY, run, edited, POOL);
    RunOf(cfg, run, s);
  }
}
