/** The gateway of an address is of the address's own family, whichever path wrote it. */
module GatewaySafety {
  import opened Wrappers
  import opened Text
  import opened Cidr
  import opened Gateway
  import opened Prefixes
  import opened AddressText
  import opened Index
  import opened Owners
  import opened Model
  import opened Protocol
  import opened Frames
  import opened PoolProtocol
  import opened System
  import opened ClaimSafety
  import opened PoolSafety
  import opened PoolGuard

  /** The family of each prefix ID. */
  type Families = int -> Family

  // ---- The hypothesis ----

  /** A prefix ID keeps its family. */
  ghost predicate HonestTable(cfg: Config, fam: Families, table: seq<Row>) {
    forall i :: 0 <= i < |table| ==>
      var p := cfg.ip.parsePrefix(Trim(table[i].prefix));
      p.Some? ==> p.value.addr.family == fam(table[i].id)
  }

  /** The text names an address in the block of the prefix. */
  ghost predicate InPrefix(cfg: Config, table: seq<Row>, id: int, text: string) {
    var a := cfg.ip.parseAddr(MapIPAddress(text).address);
    && a.Some?
    && exists i :: 0 <= i < |table| && table[i].id == id
        && cfg.ip.parsePrefix(Trim(table[i].prefix)).Some?
        && Contains(cfg.ip.parsePrefix(Trim(table[i].prefix)).value, a.value)
  }

  /** NetBox keeps the family of a prefix ID and hands out addresses inside the prefix asked for. */
  ghost predicate HonestNetBox(cfg: Config, fam: Families, s: State, e: Event) {
    && (e.Other? && e.action.EditPrefixes? ==> HonestTable(cfg, fam, e.action.table))
    && (e.Call? && e.reply.Granted? && s.worker.Busy? && s.worker.pc.Allocating? && s.worker.pc.i < |s.worker.pc.ids| ==>
          InPrefix(cfg, s.store.prefixes, s.worker.pc.ids[s.worker.pc.i], e.reply.text))
  }

  // ---- The invariant ----

  /** A gateway in the cache is an address in the family of its block, which is the family of its prefix ID. */
  predicate EntryFits(cfg: Config, fam: Families, d: ResolvedPrefix) {
    d.gateway != "" ==>
      && cfg.ip.parseAddr(d.gateway).Some? && cfg.ip.parsePrefix(d.cidr).Some?
      && cfg.ip.parseAddr(d.gateway).value.family == fam(d.id)
      && cfg.ip.parsePrefix(d.cidr).value.addr.family == fam(d.id)
  }

  predicate EntriesFit(cfg: Config, fam: Families, entries: seq<ResolvedPrefix>) {
    forall i :: 0 <= i < |entries| ==> EntryFits(cfg, fam, entries[i])
  }

  predicate AddressFits(cfg: Config, a: Address) {
    a.gateway != "" ==>
      && cfg.ip.parseAddr(a.gateway).Some? && cfg.ip.parseAddr(a.text).Some?
      && cfg.ip.parseAddr(a.gateway).value.family == cfg.ip.parseAddr(a.text).value.family
  }

  /** An address under a lookup by prefix has the family of that prefix. */
  predicate ModeFits(cfg: Config, fam: Families, text: string, mode: Mode) {
    mode.ByPrefix? ==> cfg.ip.parseAddr(text).Some? && cfg.ip.parseAddr(text).value.family == fam(mode.id)
  }

  ghost predicate PcFits(cfg: Config, fam: Families, pc: Pc) {
    match pc
    case Getting(pool) => EntriesFit(cfg, fam, pool.status.details)
    case Finding(pool, _, _) => EntriesFit(cfg, fam, pool.status.details)
    case CheckingField(pool, _, _) => EntriesFit(cfg, fam, pool.status.details)
    case Resolving(pool, _, _) => EntriesFit(cfg, fam, pool.status.details)
    case Allocating(pool, _, _, _, _) => EntriesFit(cfg, fam, pool.status.details)
    case LookingUpIDs(_, _, base, mode) => ModeFits(cfg, fam, base.text, mode)
    case LookingUpDetails(_, _, base, _, mode) => ModeFits(cfg, fam, base.text, mode)
    case Writing(_, next) => AddressFits(cfg, next)
    case _ => true
  }

  ghost predicate StoreFits(cfg: Config, fam: Families, st: Store) {
    && HonestTable(cfg, fam, st.prefixes)
    && (forall pk :: pk in st.pools ==> EntriesFit(cfg, fam, st.pools[pk].status.details))
    && (forall k :: k in st.addresses ==> AddressFits(cfg, st.addresses[k]))
  }

  ghost predicate PassFits(cfg: Config, fam: Families, w: PoolWorker) {
    && EntriesFit(cfg, fam, w.snap.status.details)
    && (!w.PoolListing? ==> EntriesFit(cfg, fam, w.next.status.details))
  }

  ghost predicate OutcomeFits(cfg: Config, fam: Families, o: Outcome) {
    StoreFits(cfg, fam, o.store) && (o.worker.Busy? ==> PcFits(cfg, fam, o.worker.pc))
  }

  ghost predicate FitInv(cfg: Config, fam: Families, s: State) {
    && OutcomeFits(cfg, fam, Outcome(s.store, s.worker))
    && forall pk :: pk in s.poolWorkers ==> PassFits(cfg, fam, s.poolWorkers[pk])
  }

  // ---- Entries ----

  /** The data of an ID has the ID's family, if it has any. */
  lemma DataFits(cfg: Config, fam: Families, table: seq<Row>, id: int)
    requires Lawful(cfg.ip) && HonestTable(cfg, fam, table)
    ensures var p := cfg.ip.parsePrefix(Trim(DataOf(table, id).cidr)); p.Some? ==> p.value.addr.family == fam(id)
    ensures Trim(DataOf(table, id).cidr) == DataOf(table, id).cidr
  {
    RowOfHasID(table, id);
    if RowOf(table, id).Some? {
      TrimIsTrimmed(RowOf(table, id).value.prefix);
    }
  }

  /** A resolution writes fitting entries only. */
  lemma BuiltEntriesFit(cfg: Config, fam: Families, spec: GatewaySpec, ids: seq<int>, table: seq<Row>)
    requires Lawful(cfg.ip) && HonestTable(cfg, fam, table)
    requires Build(GatewayChoice(cfg.ip, spec), ids, DetailsOf(table, ids)).Ok?
    ensures EntriesFit(cfg, fam, Build(GatewayChoice(cfg.ip, spec), ids, DetailsOf(table, ids)).value.entries)
  {
    var fetched := DetailsOf(table, ids);
    var entries := Build(GatewayChoice(cfg.ip, spec), ids, fetched).value.entries;
    hide HonestTable, DetailsOf, Build;
    forall i | 0 <= i < |entries|
      ensures EntryFits(cfg, fam, entries[i])
    {
      DetailForDetailsOf(table, ids, ids[i]);
      DataFits(cfg, fam, table, ids[i]);
      var d := DataOf(table, ids[i]);
      hide DataOf, DetailFor, ResolveGateway, Trim;
      assert GatewayChoice(cfg.ip, spec)(i, d) == GatewayAt(cfg.ip, spec, i, d);
      ResolvedGatewayFits(cfg.ip, d.cidr, CustomFieldString(d.fields, spec.gatewayField), StaticGateway(spec, i), spec.gateway);
    }
  }

  lemma {:induction false} EntryOfID(cfg: Config, fam: Families, entries: seq<ResolvedPrefix>, id: int)
    requires EntriesFit(cfg, fam, entries) && GatewayForPrefixID(entries, id) != ""
    ensures cfg.ip.parseAddr(GatewayForPrefixID(entries, id)).Some?
    ensures cfg.ip.parseAddr(GatewayForPrefixID(entries, id)).value.family == fam(id)
  {
    if entries[0].id != id {
      EntryOfID(cfg, fam, entries[1..], id);
    }
  }

  /** Both ways of choosing the gateway of an address fit the address. */
  lemma GatewayFits(cfg: Config, fam: Families, entries: seq<ResolvedPrefix>, base: Address, mode: Mode)
    requires EntriesFit(cfg, fam, entries) && ModeFits(cfg, fam, base.text, mode)
    ensures AddressFits(cfg, base.(gateway := GatewayFrom(cfg, entries, base, mode)))
  {
    if GatewayFrom(cfg, entries, base, mode) != "" {
      match mode
      case ByPrefix(id) => EntryOfID(cfg, fam, entries, id);
      case ByAddress =>
        var a := cfg.ip.parseAddr(base.text).value;
        var i :| 0 <= i < |entries| && Serves(cfg.ip, entries[i], a) && GatewayFrom(cfg, entries, base, mode) == entries[i].gateway;
        assert EntryFits(cfg, fam, entries[i]);
    }
  }

  // ---- Steps of the claim worker ----

  /** The store is as before and the next step fits. */
  ghost predicate FitsOn(cfg: Config, fam: Families, st: Store, o: Outcome) {
    o.store == st && (o.worker.Busy? ==> PcFits(cfg, fam, o.worker.pc))
  }

  lemma ToWriteFits(cfg: Config, fam: Families, st: Store, key: Key, c: Claim, pool: Pool, existing: Option<Address>, base: Address)
    requires AddressFits(cfg, base)
    ensures FitsOn(cfg, fam, st, ToWrite(st, key, c, pool, existing, base))
  {
    hide Ensured;
    assert Finish(base, key, c, pool).gateway == base.gateway && Finish(base, key, c, pool).text == base.text;
  }

  lemma WithGatewayFits(cfg: Config, fam: Families, st: Store, key: Key, c: Claim, pool: Pool, existing: Option<Address>, base: Address,
                        entries: seq<ResolvedPrefix>, mode: Mode)
    requires EntriesFit(cfg, fam, entries) && ModeFits(cfg, fam, base.text, mode)
    ensures FitsOn(cfg, fam, st, WithGateway(cfg, st, key, c, pool, existing, base, entries, mode))
  {
    GatewayFits(cfg, fam, entries, base, mode);
    hide ToWrite, GatewayFrom, AddressFits;
    ToWriteFits(cfg, fam, st, key, c, pool, existing, base.(gateway := GatewayFrom(cfg, entries, base, mode)));
  }

  lemma LookUpGatewayFits(cfg: Config, fam: Families, st: Store, key: Key, c: Claim, pool: Pool, existing: Option<Address>, base: Address,
                          ids: seq<int>, mode: Mode)
    requires EntriesFit(cfg, fam, pool.status.details) && ModeFits(cfg, fam, base.text, mode)
    ensures FitsOn(cfg, fam, st, LookUpGateway(cfg, st, key, c, pool, existing, base, ids, mode))
  {
    hide WithGateway, EntriesFit, ModeFits;
    WithGatewayFits(cfg, fam, st, key, c, pool, existing, base, pool.status.details, mode);
  }

  /** A granted address has the family of the prefix it was asked of. */
  lemma GrantFits(cfg: Config, fam: Families, table: seq<Row>, id: int, base: Address, text: string)
    requires HonestTable(cfg, fam, table) && InPrefix(cfg, table, id, text)
    ensures ModeFits(cfg, fam, WithText(base, text).text, ByPrefix(id))
  {
    hide MapIPAddress, Trim;
    var a := cfg.ip.parseAddr(MapIPAddress(text).address).value;
    var i :| 0 <= i < |table| && table[i].id == id
        && cfg.ip.parsePrefix(Trim(table[i].prefix)).Some?
        && Contains(cfg.ip.parsePrefix(Trim(table[i].prefix)).value, a);
  }

  lemma AllocatingFits(cfg: Config, fam: Families, st: Store, key: Key, c: Claim, pool: Pool, existing: Option<Address>, base: Address,
                       ids: seq<int>, i: nat, reply: Reply)
    requires StoreFits(cfg, fam, st) && HonestTable(cfg, fam, st.prefixes) && EntriesFit(cfg, fam, pool.status.details)
    requires reply.Granted? && i < |ids| ==> InPrefix(cfg, st.prefixes, ids[i], reply.text)
    ensures OutcomeFits(cfg, fam, StepAllocating(cfg, st, key, c, pool, existing, base, ids, i, reply))
  {
    hide LookUpGateway, MetadataOk, AddRecord, EntriesFit, AddressFits, HonestTable, InPrefix, WithText, StoreFits;
    if i < |ids| && MetadataOk(cfg, c, pool) && (reply.Granted? || reply.GrantLost?) {
      var st' := AddRecord(cfg, st, key, c, pool, ids[i], reply.id, reply.text);
      AddRecordFits(cfg, fam, st, key, c, pool, ids[i], reply.id, reply.text);
      if reply.Granted? {
        GrantFits(cfg, fam, st.prefixes, ids[i], base, reply.text);
        hide ModeFits;
        LookUpGatewayFits(cfg, fam, st', key, c, pool, existing, WithText(base, reply.text), ids, ByPrefix(ids[i]));
      }
    }
  }

  lemma AddRecordFits(cfg: Config, fam: Families, st: Store, key: Key, c: Claim, pool: Pool, prefix: int, id: int, text: string)
    requires StoreFits(cfg, fam, st) && MetadataOk(cfg, c, pool)
    ensures StoreFits(cfg, fam, AddRecord(cfg, st, key, c, pool, prefix, id, text))
  {
    hide NewRecord, EntriesFit, AddressFits, HonestTable;
  }

  lemma LookingUpDetailsFits(cfg: Config, fam: Families, st: Store, key: Key, c: Claim, pool: Pool, existing: Option<Address>, base: Address,
                             ids: seq<int>, mode: Mode, reply: Reply)
    requires Lawful(cfg.ip) && HonestTable(cfg, fam, st.prefixes) && ModeFits(cfg, fam, base.text, mode)
    ensures FitsOn(cfg, fam, st, StepLookingUpDetails(cfg, st, key, c, pool, existing, base, ids, mode, reply))
  {
    var built := Build(GatewayChoice(cfg.ip, pool.spec.gateways), ids, DetailsOf(st.prefixes, ids));
    if built.Ok? {
      BuiltEntriesFit(cfg, fam, pool.spec.gateways, ids, st.prefixes);
    }
    assert EntriesFit(cfg, fam, []);
    hide WithGateway, EntriesFit, HonestTable, Build, DetailsOf, GatewayChoice, ModeFits;
    var entries := if reply.Done? && built.Ok? then built.value.entries else [];
    WithGatewayFits(cfg, fam, st, key, c, pool, existing, base, entries, mode);
  }

  lemma WritingFits(cfg: Config, fam: Families, st: Store, key: Key, c: Claim, existing: Option<Address>, next: Address, reply: Reply)
    requires StoreFits(cfg, fam, st) && AddressFits(cfg, next)
    ensures OutcomeFits(cfg, fam, StepWriting(st, key, c, existing, next, reply))
  {
    hide PoolGuards, EntriesFit, HonestTable;
    var st' := WriteAddress(st, key, next);
    assert st'.pools == st.pools && st'.prefixes == st.prefixes;
    assert st'.addresses[key].text == next.text && st'.addresses[key].gateway == next.gateway;
    assert forall k :: k in st'.addresses && k != key ==> k in st.addresses && st'.addresses[k] == st.addresses[k];
    hide WriteAddress;
  }

  lemma FitsOnFits(cfg: Config, fam: Families, st: Store, o: Outcome)
    requires StoreFits(cfg, fam, st) && FitsOn(cfg, fam, st, o)
    ensures OutcomeFits(cfg, fam, o)
  {
  }

  /** Pools, prefixes and what an address says of its gateway stay. */
  ghost predicate SameGateways(st: Store, st': Store) {
    && st'.pools == st.pools && st'.prefixes == st.prefixes
    && forall k :: k in st'.addresses ==>
         k in st.addresses && st'.addresses[k].gateway == st.addresses[k].gateway && st'.addresses[k].text == st.addresses[k].text
  }

  lemma SameGatewaysFit(cfg: Config, fam: Families, st: Store, st': Store)
    requires StoreFits(cfg, fam, st) && SameGateways(st, st')
    ensures StoreFits(cfg, fam, st')
  {
    hide EntriesFit, HonestTable;
  }

  /** The steps of a delete pass and the closing patch. */
  lemma ReleaseFits(cfg: Config, fam: Families, st: Store, key: Key, c: Claim, pc: Pc, reply: Reply)
    requires ReleasePc(pc)
    ensures SameGateways(st, Step(cfg, st, key, c, pc, reply).store)
    ensures Step(cfg, st, key, c, pc, reply).worker.Busy? ==> PcFits(cfg, fam, Step(cfg, st, key, c, pc, reply).worker.pc)
  {
    ReleaseKeepsGateways(cfg, st, key, c, pc, reply);
    ReleaseGoesOn(cfg, st, key, c, pc, reply);
    hide SameGateways, Step, PcFits;
    NextFits(cfg, fam, Step(cfg, st, key, c, pc, reply).worker);
  }

  /** A delete pass stays one. */
  lemma ReleaseGoesOn(cfg: Config, st: Store, key: Key, c: Claim, pc: Pc, reply: Reply)
    requires ReleasePc(pc)
    ensures var w := Step(cfg, st, key, c, pc, reply).worker; w.Busy? ==> ReleasePc(w.pc)
  {
    hide Candidates, PatchClaim, Unprotect, DeleteAddress;
  }

  lemma NextFits(cfg: Config, fam: Families, w: Worker)
    requires w.Busy? ==> ReleasePc(w.pc)
    ensures w.Busy? ==> PcFits(cfg, fam, w.pc)
  {
  }

  lemma ReleaseKeepsGateways(cfg: Config, st: Store, key: Key, c: Claim, pc: Pc, reply: Reply)
    requires ReleasePc(pc)
    ensures SameGateways(st, Step(cfg, st, key, c, pc, reply).store)
  {
    if pc.DeleteUnprotecting? {
      UnprotectSame(st, key);
      hide Unprotect;
    } else if pc.DeleteDeleting? {
      DeleteSame(st, key);
      hide DeleteAddress;
    } else {
      StepFrame(cfg, st, key, c, pc, reply);
      hide Step;
    }
  }

  lemma UnprotectSame(st: Store, key: Key)
    ensures SameGateways(st, Unprotect(st, key))
  {
    if key in st.addresses && !st.addresses[key].deleting {
      assert Unprotect(st, key).addresses == st.addresses[key := st.addresses[key].(protect := false)];
    }
  }

  lemma DeleteSame(st: Store, key: Key)
    ensures SameGateways(st, DeleteAddress(st, key))
  {
    if key in st.addresses && st.addresses[key].protect {
      assert DeleteAddress(st, key).addresses == st.addresses[key := st.addresses[key].(deleting := true)];
    }
  }

  lemma EarlyFits(cfg: Config, fam: Families, st: Store, key: Key, c: Claim, pc: Pc, reply: Reply)
    requires StoreFits(cfg, fam, st) && PcFits(cfg, fam, pc)
    requires pc.Fetching? || pc.Getting? || pc.Finding? || pc.CheckingField? || pc.Resolving? || pc.LookingUpIDs? || pc.Polling?
    ensures FitsOn(cfg, fam, st, Step(cfg, st, key, c, pc, reply))
  {
    match pc
    case Getting(pool) => GettingFits(cfg, fam, st, key, c, pool, reply); hide Step;
    case Finding(pool, existing, base) => FindingFits(cfg, fam, st, key, c, pool, existing, base, reply); hide Step;
    case LookingUpIDs(pool, existing, base, mode) =>
      hide WithGateway, ResolveIDs;
      WithGatewayFits(cfg, fam, st, key, c, pool, existing, base, [], mode);
    case Fetching => FetchingFits(cfg, fam, st, key, c, reply); hide Step;
    case _ => PlainFits(cfg, fam, st, key, c, pc, reply); hide Step;
  }

  lemma FetchingFits(cfg: Config, fam: Families, st: Store, key: Key, c: Claim, reply: Reply)
    requires StoreFits(cfg, fam, st)
    ensures FitsOn(cfg, fam, st, StepFetching(st, key, c, reply))
  {
    hide PoolKeyOf, AddressFits, HonestTable, EntriesFit;
  }

  lemma PlainFits(cfg: Config, fam: Families, st: Store, key: Key, c: Claim, pc: Pc, reply: Reply)
    requires (pc.CheckingField? || pc.Resolving? || pc.Polling?) && PcFits(cfg, fam, pc)
    ensures FitsOn(cfg, fam, st, Step(cfg, st, key, c, pc, reply))
  {
    hide ResolveIDs, MetadataOk, AddressFits, EntriesFit;
  }

  lemma GettingFits(cfg: Config, fam: Families, st: Store, key: Key, c: Claim, pool: Pool, reply: Reply)
    requires StoreFits(cfg, fam, st) && EntriesFit(cfg, fam, pool.status.details)
    ensures FitsOn(cfg, fam, st, StepGetting(st, key, c, pool, reply))
  {
    if key in st.addresses {
      ToWriteFits(cfg, fam, st, key, c, pool, Some(st.addresses[key]), st.addresses[key]);
    }
    hide ToWrite, EntriesFit, HonestTable, AddressFits;
  }

  lemma FindingFits(cfg: Config, fam: Families, st: Store, key: Key, c: Claim, pool: Pool, existing: Option<Address>, base: Address, reply: Reply)
    requires EntriesFit(cfg, fam, pool.status.details)
    ensures FitsOn(cfg, fam, st, StepFinding(cfg, st, key, c, pool, existing, base, reply))
  {
    hide LookUpGateway, MapIPAddress, EntriesFit;
    if reply.Found? && reply.id in st.records {
      LookUpGatewayFits(cfg, fam, st, key, c, pool, existing, WithText(base, st.records[reply.id].text), pool.status.resolved, ByAddress);
    }
  }

  lemma CallFits(cfg: Config, fam: Families, s: State, reply: Reply)
    requires Sound(cfg) && OutcomeFits(cfg, fam, Outcome(s.store, s.worker)) && s.worker.Busy?
    requires HonestNetBox(cfg, fam, s, Call(reply))
    ensures OutcomeFits(cfg, fam, Step(cfg, s.store, s.worker.key, s.worker.c, s.worker.pc, reply))
  {
    var st, key, c, pc := s.store, s.worker.key, s.worker.c, s.worker.pc;
    var o := Step(cfg, st, key, c, pc, reply);
    if ReleasePc(pc) {
      ReleaseFits(cfg, fam, st, key, c, pc, reply);
      hide Step;
      SameGatewaysFit(cfg, fam, st, o.store);
    } else {
      hide StoreFits, AddressFits, EntriesFit, InPrefix, ModeFits, StepAllocating, StepWriting, StepLookingUpDetails, StepFetching, StepGetting,
        StepFinding, StepCheckingField, StepResolving, StepLookingUpIDs, StepPolling;
      match pc
      case Allocating(pool, existing, base, ids, i) =>
        TableFits(cfg, fam, st);
        AllocatingFits(cfg, fam, st, key, c, pool, existing, base, ids, i, reply);
      case Writing(existing, next) => WritingFits(cfg, fam, st, key, c, existing, next, reply);
      case LookingUpDetails(pool, existing, base, ids, mode) =>
        TableFits(cfg, fam, st);
        LookingUpDetailsFits(cfg, fam, st, key, c, pool, existing, base, ids, mode, reply);
        FitsOnFits(cfg, fam, st, o);
      case _ =>
        EarlyFits(cfg, fam, st, key, c, pc, reply);
        FitsOnFits(cfg, fam, st, o);
    }
  }

  lemma TableFits(cfg: Config, fam: Families, st: Store)
    requires StoreFits(cfg, fam, st)
    ensures HonestTable(cfg, fam, st.prefixes)
  {
  }

  /** The live lookup of the machine, when its calls succeed, is `LiveEntries` on the prefix table of the moment:
      from the known IDs in one step, and from none in two. */
  lemma LiveStepsGiveLiveEntries(cfg: Config, st: Store, key: Key, c: Claim, pool: Pool, existing: Option<Address>, base: Address,
                                 ids: seq<int>, mode: Mode)
    requires pool.status.details == []
    ensures var spec := pool.spec.gateways;
      var found := WithGateway(cfg, st, key, c, pool, existing, base, LiveEntries(cfg.ip, spec, st.prefixes, ids), mode);
      if ids != [] then
        && LookUpGateway(cfg, st, key, c, pool, existing, base, ids, mode) == At(st, key, c, LookingUpDetails(pool, existing, base, ids, mode))
        && StepLookingUpDetails(cfg, st, key, c, pool, existing, base, ids, mode, Done) == found
      else
        && LookUpGateway(cfg, st, key, c, pool, existing, base, ids, mode) == At(st, key, c, LookingUpIDs(pool, existing, base, mode))
        && var first := StepLookingUpIDs(cfg, st, key, c, pool, existing, base, mode, Done);
           if ResolveIDs(st.prefixes, spec.prefixes).Err? then first == found
           else
             && first.worker == Busy(key, c, LookingUpDetails(pool, existing, base, ResolveIDs(st.prefixes, spec.prefixes).value, mode))
             && StepLookingUpDetails(cfg, st, key, c, pool, existing, base, ResolveIDs(st.prefixes, spec.prefixes).value, mode, Done) == found
  {
    hide WithGateway, Build, DetailsOf, GatewayChoice, ResolveIDs;
  }

  // ---- Pool passes ----

  lemma ConcludeKeepsDetails(snap: Pool, next: Pool, users: nat, resolved: bool)
    ensures var w := Conclude(snap, next, users, resolved);
      w.PoolPatching? && w.snap == snap && w.next.status.details == next.status.details
  {
  }

  lemma PoolStepFits(cfg: Config, fam: Families, st: Store, pk: PoolKey, w: PoolWorker, reply: Reply)
    requires Lawful(cfg.ip) && HonestTable(cfg, fam, st.prefixes) && PassFits(cfg, fam, w)
    ensures var o := PoolStep(cfg, st, pk, w, reply);
      o.worker.Some? ==> PassFits(cfg, fam, o.worker.value)
  {
    hide EntriesFit, HonestTable, Conclude, ResolveIDs, GatewayChoice, DetailsOf, Build, SafeAllocatedCount, PatchPool, Listing;
    forall snap: Pool, n: Pool, users: nat, ok: bool
      ensures var w := Conclude(snap, n, users, ok);
        w.PoolPatching? && w.snap == snap && w.next.status.details == n.status.details
    {
      ConcludeKeepsDetails(snap, n, users, ok);
    }
    if w.ResolvingDetails? && Build(GatewayChoice(cfg.ip, w.snap.spec.gateways), w.ids, DetailsOf(st.prefixes, w.ids)).Ok? {
      BuiltEntriesFit(cfg, fam, w.snap.spec.gateways, w.ids, st.prefixes);
    }
  }

  lemma PatchFits(cfg: Config, fam: Families, pools: map<PoolKey, Pool>, pk: PoolKey, snap: Pool, next: Pool, meta: bool, status: bool)
    requires forall k :: k in pools ==> EntriesFit(cfg, fam, pools[k].status.details)
    requires EntriesFit(cfg, fam, next.status.details)
    ensures var pools' := PatchPool(pools, pk, snap, next, meta, status);
      forall k :: k in pools' ==> EntriesFit(cfg, fam, pools'[k].status.details)
  {
    hide EntriesFit, PatchedFinalizer;
  }

  lemma PoolCallFits(cfg: Config, fam: Families, s: State, pk: PoolKey, reply: Reply)
    requires Sound(cfg) && FitInv(cfg, fam, s) && Legal(cfg, s, PoolCall(pk, reply))
    ensures FitInv(cfg, fam, Apply(cfg, s, PoolCall(pk, reply)))
  {
    var w := s.poolWorkers[pk];
    TableFits(cfg, fam, s.store);
    PoolStepFits(cfg, fam, s.store, pk, w, reply);
    PoolStepPools(cfg, s.store, pk, w, reply);
    if w.PoolPatching? && reply.Wrote? {
      PatchFits(cfg, fam, s.store.pools, pk, w.snap, w.next, reply.meta, reply.status);
    }
    hide PoolStep, PatchPool, PassFits, PcFits, EntriesFit, HonestTable, AddressFits;
  }

  // ---- Every event ----

  lemma ActionFits(cfg: Config, fam: Families, s: State, a: Action)
    requires StoreFits(cfg, fam, s.store) && LegalAction(cfg, s, a) && HonestNetBox(cfg, fam, s, Event.Other(a))
    ensures StoreFits(cfg, fam, Act(s.store, a))
  {
    var st, st' := s.store, Act(s.store, a);
    if a.CreatePool? {
      assert EntriesFit(cfg, fam, a.pool.status.details);
      hide EntriesFit, HonestTable, AddressFits;
    } else if a.EditPrefixes? {
      hide EntriesFit, HonestTable, AddressFits;
    } else {
      ActionKeepsPools(st, a);
      if a.MarkAddress? {
        DeleteSame(st, a.key);
        hide DeleteAddress;
      } else {
        ActionKeepsAddresses(st, a);
      }
      ActionKeepsPrefixes(st, a);
      hide Act, EntriesFit, HonestTable;
    }
  }

  lemma ActionKeepsPrefixes(st: Store, a: Action)
    requires !a.EditPrefixes?
    ensures Act(st, a).prefixes == st.prefixes
  {
    hide StorePool, NextGeneration;
  }

  lemma EventFits(cfg: Config, fam: Families, s: State, e: Event)
    requires Sound(cfg) && FitInv(cfg, fam, s) && Legal(cfg, s, e) && HonestNetBox(cfg, fam, s, e)
    ensures FitInv(cfg, fam, Apply(cfg, s, e))
  {
    hide StoreFits, LegalReply;
    match e
    case Begin(key, reply) =>
      assert Start(s.store, key, reply).store == s.store;
    case Call(reply) =>
      CallFits(cfg, fam, s, reply);
      hide Step, PcFits, PassFits, HonestNetBox;
    case PoolBegin(pk) =>
      if pk in s.store.pools {
        PoolHasFits(cfg, fam, s.store, pk);
        hide EntriesFit, PcFits;
      }
    case PoolCall(pk, reply) => PoolCallFits(cfg, fam, s, pk, reply);
    case Crash => hide EntriesFit, PcFits;
    case Other(a) =>
      ActionFits(cfg, fam, s, a);
      hide Act, PcFits, PassFits, HonestNetBox;
  }

  lemma PoolHasFits(cfg: Config, fam: Families, st: Store, pk: PoolKey)
    requires StoreFits(cfg, fam, st) && pk in st.pools
    ensures EntriesFit(cfg, fam, st.pools[pk].status.details)
  {
  }

  lemma {:induction false} RunFits(cfg: Config, fam: Families, s: State, run: seq<Event>)
    requires Sound(cfg) && FitInv(cfg, fam, s) && LegalRun(cfg, s, run)
    requires Along(cfg, s, run, (x, e) => HonestNetBox(cfg, fam, x, e))
    ensures FitInv(cfg, fam, Final(cfg, s, run))
    decreases |run|
  {
    hide FitInv, Legal, Apply, HonestNetBox;
    if run != [] {
      EventFits(cfg, fam, s, run[0]);
      RunFits(cfg, fam, Apply(cfg, s, run[0]), run[1..]);
    }
  }

  // ---- The theorem ----

  /** Every gateway in an `IPAddress` is an address of the same family as the address itself, on the fresh path
      and on the reuse path, from the cache and from live lookups. */
  lemma GatewayHasAddressFamily(cfg: Config, fam: Families, s0: State, run: seq<Event>, key: Key)
    requires Sound(cfg) && Init(cfg, s0) && LegalRun(cfg, s0, run)
    requires HonestTable(cfg, fam, s0.store.prefixes) && Along(cfg, s0, run, (x, e) => HonestNetBox(cfg, fam, x, e))
    requires key in Final(cfg, s0, run).store.addresses && Final(cfg, s0, run).store.addresses[key].gateway != ""
    ensures var a := Final(cfg, s0, run).store.addresses[key];
      && cfg.ip.parseAddr(a.gateway).Some? && cfg.ip.parseAddr(a.text).Some?
      && cfg.ip.parseAddr(a.gateway).value.family == cfg.ip.parseAddr(a.text).value.family
  {
    assert FitInv(cfg, fam, s0);
    RunFits(cfg, fam, s0, run);
    assert AddressFits(cfg, Final(cfg, s0, run).store.addresses[key]);
  }
}
