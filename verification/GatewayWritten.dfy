/** Which gateway a pass writes into the `IPAddress`: that of the prefix that granted the address or, for an address
    that is reused, that of the first block around it (internal/controller/ipaddressclaim_controller.go:126-301). */
module GatewayWritten {
  import opened Wrappers
  import opened Text
  import opened Cidr
  import opened Gateway
  import opened Prefixes
  import opened AddressText
  import opened Owners
  import opened Model
  import opened Protocol
  import opened Frames
  import opened System
  import opened ClaimSafety
  import opened ReleaseSafety
  import opened PoolSafety
  import opened Progress

  // ---- The entry that decides ----

  predicate FirstWithID(entries: seq<ResolvedPrefix>, id: int, i: int) {
    0 <= i < |entries| && entries[i].id == id && forall j :: 0 <= j < i ==> entries[j].id != id
  }

  /** The gateway is that of the first entry with this ID, or empty if there is none. */
  ghost predicate GatewayOfID(entries: seq<ResolvedPrefix>, id: int, gateway: string) {
    && (forall i :: FirstWithID(entries, id, i) ==> gateway == entries[i].gateway)
    && ((forall i :: 0 <= i < |entries| ==> entries[i].id != id) ==> gateway == "")
  }

  /** The entry has a gateway, and its block contains the address. */
  predicate Around(ip: Netip, d: ResolvedPrefix, text: string) {
    && d.gateway != "" && ip.parseAddr(text).Some? && ip.parsePrefix(d.cidr).Some?
    && Contains(ip.parsePrefix(d.cidr).value, ip.parseAddr(text).value)
  }

  predicate FirstAround(ip: Netip, entries: seq<ResolvedPrefix>, text: string, i: int) {
    0 <= i < |entries| && Around(ip, entries[i], text) && forall j :: 0 <= j < i ==> !Around(ip, entries[j], text)
  }

  /** The gateway is that of the first entry with a gateway whose block contains the address, or empty if there is
      none. */
  ghost predicate GatewayAround(ip: Netip, entries: seq<ResolvedPrefix>, text: string, gateway: string) {
    && (forall i :: FirstAround(ip, entries, text, i) ==> gateway == entries[i].gateway)
    && ((forall i :: 0 <= i < |entries| ==> !Around(ip, entries[i], text)) ==> gateway == "")
  }

  ghost predicate Chosen(ip: Netip, entries: seq<ResolvedPrefix>, mode: Mode, text: string, gateway: string) {
    match mode
    case ByPrefix(id) => GatewayOfID(entries, id, gateway)
    case ByAddress => GatewayAround(ip, entries, text, gateway)
  }

  lemma {:induction false} LookupByID(entries: seq<ResolvedPrefix>, id: int)
    ensures GatewayOfID(entries, id, GatewayForPrefixID(entries, id))
  {
    forall i | FirstWithID(entries, id, i)
      ensures GatewayForPrefixID(entries, id) == entries[i].gateway
    {
      GatewayForPrefixIDIsFirst(entries, i);
    }
    if forall i :: 0 <= i < |entries| ==> entries[i].id != id {
      NoneWithID(entries, id);
    }
  }

  lemma {:induction false} NoneWithID(entries: seq<ResolvedPrefix>, id: int)
    requires forall i :: 0 <= i < |entries| ==> entries[i].id != id
    ensures GatewayForPrefixID(entries, id) == ""
  {
    if entries != [] {
      NoneWithID(entries[1..], id);
    }
  }

  lemma LookupAround(ip: Netip, entries: seq<ResolvedPrefix>, text: string)
    requires Lawful(ip)
    ensures GatewayAround(ip, entries, text, GatewayForAddress(ip, entries, text))
  {
    if ip.parseAddr(text).Some? {
      var a := ip.parseAddr(text).value;
      forall d: ResolvedPrefix
        ensures Around(ip, d, text) <==> Serves(ip, d, a)
      {
        assert ip.parsePrefix("") == None;
      }
    }
  }

  lemma LookupChoosesIt(cfg: Config, entries: seq<ResolvedPrefix>, base: Address, mode: Mode)
    requires Lawful(cfg.ip)
    ensures Chosen(cfg.ip, entries, mode, base.text, GatewayFrom(cfg, entries, base, mode))
  {
    hide GatewayOfID, GatewayAround;
    match mode
    case ByPrefix(id) => LookupByID(entries, id);
    case ByAddress => LookupAround(cfg.ip, entries, base.text);
  }

  // ---- One step ----

  /** The next call writes an address with this text, and the gateway is the one chosen from the entries. */
  ghost predicate WritesChosen(ip: Netip, o: Outcome, entries: seq<ResolvedPrefix>, mode: Mode, text: string) {
    && o.worker.Busy? && o.worker.pc.Writing?
    && o.worker.pc.next.text == text && Chosen(ip, entries, mode, text, o.worker.pc.next.gateway)
  }

  lemma WithGatewayWrites(cfg: Config, st: Store, key: Key, c: Claim, pool: Pool, base: Address, entries: seq<ResolvedPrefix>, mode: Mode)
    requires Lawful(cfg.ip)
    ensures WritesChosen(cfg.ip, WithGateway(cfg, st, key, c, pool, None, base, entries, mode), entries, mode, base.text)
  {
    LookupChoosesIt(cfg, entries, base, mode);
    hide Chosen, GatewayFrom, Ensured;
  }

  /** A grant from `ids[i]` goes on with the gateway of the first cached entry of that prefix. */
  lemma GrantWrites(cfg: Config, st: Store, key: Key, c: Claim, pool: Pool, base: Address, ids: seq<int>, i: nat, id: int, text: string)
    requires Lawful(cfg.ip) && i < |ids| && MetadataOk(cfg, c, pool) && pool.status.details != []
    ensures var o := StepAllocating(cfg, st, key, c, pool, None, base, ids, i, Granted(id, text));
      && o.worker.Busy? && o.worker.pc.Writing?
      && o.worker.pc.next.text == MapIPAddress(text).address && o.worker.pc.next.prefix == Some(MapIPAddress(text).prefix)
      && GatewayOfID(pool.status.details, ids[i], o.worker.pc.next.gateway)
  {
    hide AddRecord, MapIPAddress, MetadataOk, GatewayOfID, Ensured;
    LookupByID(pool.status.details, ids[i]);
    hide GatewayForPrefixID;
  }

  /** A record that is found again goes on with the gateway of the first cached block around its address. */
  lemma ReuseWrites(cfg: Config, st: Store, key: Key, c: Claim, pool: Pool, base: Address, id: int)
    requires Lawful(cfg.ip) && id in st.records && pool.status.details != []
    ensures var o := StepFinding(cfg, st, key, c, pool, None, base, Found(id));
      && o.worker.Busy? && o.worker.pc.Writing?
      && var m := MapIPAddress(st.records[id].text);
      && o.worker.pc.next.text == m.address && o.worker.pc.next.prefix == Some(m.prefix)
      && GatewayAround(cfg.ip, pool.status.details, m.address, o.worker.pc.next.gateway)
  {
    hide MapIPAddress, GatewayAround, Ensured;
    LookupAround(cfg.ip, pool.status.details, MapIPAddress(st.records[id].text).address);
    hide GatewayForAddress;
  }

  predicate WritesNone(o: Outcome, text: string) {
    o.worker.Busy? && o.worker.pc.Writing? && o.worker.pc.next.text == text && o.worker.pc.next.gateway == ""
  }

  /** A live lookup that fails goes on without a gateway. */
  lemma FailedLookupWritesNone(cfg: Config, st: Store, key: Key, c: Claim, pool: Pool, base: Address, ids: seq<int>, mode: Mode)
    requires Lawful(cfg.ip)
    ensures WritesNone(StepLookingUpIDs(cfg, st, key, c, pool, None, base, mode, Failed), base.text)
    ensures WritesNone(StepLookingUpDetails(cfg, st, key, c, pool, None, base, ids, mode, Failed), base.text)
  {
    WithGatewayWrites(cfg, st, key, c, pool, base, [], mode);
    hide WithGateway, ResolveIDs, Build, DetailsOf, GatewayChoice;
  }

  // ---- The pass ----

  /** What the pass finds: an `IPAddress` with this gateway, or only a record, or neither. */
  datatype Way = Keeps(gateway: string) | Reuses | Allocates

  /** The entries that a pass uses in which no call fails. */
  function EntriesNow(cfg: Config, table: seq<Row>, pool: Pool): seq<ResolvedPrefix> {
    if pool.status.details != [] then pool.status.details
    else LiveEntries(cfg.ip, pool.spec.gateways, table, pool.status.resolved)
  }

  predicate FirstRoom(room: Room, ids: seq<int>, k: int) {
    0 <= k < |ids| && ids[k] in room && forall j :: 0 <= j < k ==> ids[j] !in room
  }

  /** The prefixes of the pool, as an allocation goes through them. */
  function PoolIDs(table: seq<Row>, pool: Pool): seq<int> {
    var ids := if pool.status.resolved != [] then Ok(pool.status.resolved) else ResolveIDs(table, pool.spec.gateways.prefixes);
    if ids.Ok? then ids.value else []
  }

  ghost predicate ModeRight(room: Room, table: seq<Row>, pool: Pool, way: Way, mode: Mode) {
    match mode
    case ByAddress => way.Reuses?
    case ByPrefix(id) => way.Allocates? && exists k :: FirstRoom(room, PoolIDs(table, pool), k) && PoolIDs(table, pool)[k] == id
  }

  ghost predicate GatewayRight(cfg: Config, room: Room, table: seq<Row>, pool: Pool, way: Way, text: string, gateway: string) {
    match way
    case Keeps(before) => gateway == before
    case Reuses => GatewayAround(cfg.ip, EntriesNow(cfg, table, pool), text, gateway)
    case Allocates =>
      exists k :: FirstRoom(room, PoolIDs(table, pool), k) && GatewayOfID(EntriesNow(cfg, table, pool), PoolIDs(table, pool)[k], gateway)
  }

  /** What the pass finds is there. */
  predicate Starts(cfg: Config, st: Store, key: Key, c: Claim, way: Way) {
    if way.Keeps? then key in st.addresses && st.addresses[key].gateway == way.gateway
    else key !in st.addresses && (HasRecord(cfg, st, c.uid) <==> way.Reuses?)
  }

  ghost predicate Stored(cfg: Config, room: Room, st: Store, key: Key, pool: Pool, way: Way) {
    key in st.addresses && GatewayRight(cfg, room, st.prefixes, pool, way, st.addresses[key].text, st.addresses[key].gateway)
  }

  /** The pass is on the way to the right gateway. */
  ghost predicate Heading(cfg: Config, room: Room, st: Store, key: Key, c: Claim, pc: Pc, pool: Pool, way: Way) {
    match pc
    case Fetching => PoolAt(st, key, c) == Some(pool) && Starts(cfg, st, key, c, way)
    case Getting(p) => p == pool && Starts(cfg, st, key, c, way)
    case Finding(p, existing, _) => p == pool && existing.None? && !way.Keeps? && Starts(cfg, st, key, c, way)
    case CheckingField(p, existing, _) => p == pool && existing.None? && way.Allocates?
    case Resolving(p, existing, _) => p == pool && existing.None? && way.Allocates?
    case Allocating(p, existing, _, ids, i) =>
      p == pool && existing.None? && way.Allocates? && KnownIDs(st, pool) == Ok(ids) && forall j :: 0 <= j < i && j < |ids| ==> ids[j] !in room
    case LookingUpIDs(p, existing, _, mode) =>
      p == pool && existing.None? && pool.status.details == [] && pool.status.resolved == [] && ModeRight(room, st.prefixes, pool, way, mode)
    case LookingUpDetails(p, existing, _, ids, mode) =>
      p == pool && existing.None? && pool.status.details == [] && KnownIDs(st, pool) == Ok(ids) && ModeRight(room, st.prefixes, pool, way, mode)
    case Writing(_, next) => GatewayRight(cfg, room, st.prefixes, pool, way, next.text, next.gateway)
    case Polling(_) => Stored(cfg, room, st, key, pool, way)
    case Patching(_, _) => Stored(cfg, room, st, key, pool, way)
    case _ => false
  }

  ghost predicate HeadingOn(cfg: Config, room: Room, o: Outcome, key: Key, c: Claim, pool: Pool, way: Way) {
    o.worker.Busy? && Heading(cfg, room, o.store, key, c, o.worker.pc, pool, way)
  }

  lemma ChosenIsRight(cfg: Config, room: Room, table: seq<Row>, pool: Pool, way: Way, mode: Mode, text: string, gateway: string)
    requires ModeRight(room, table, pool, way, mode) && Chosen(cfg.ip, EntriesNow(cfg, table, pool), mode, text, gateway)
    ensures GatewayRight(cfg, room, table, pool, way, text, gateway)
  {
    hide GatewayOfID, GatewayAround, EntriesNow, PoolIDs, FirstRoom;
  }

  lemma WithGatewayHeads(cfg: Config, room: Room, st: Store, key: Key, c: Claim, pool: Pool, base: Address,
                         entries: seq<ResolvedPrefix>, mode: Mode, way: Way)
    requires Lawful(cfg.ip) && ModeRight(room, st.prefixes, pool, way, mode) && entries == EntriesNow(cfg, st.prefixes, pool)
    ensures HeadingOn(cfg, room, WithGateway(cfg, st, key, c, pool, None, base, entries, mode), key, c, pool, way)
  {
    WithGatewayWrites(cfg, st, key, c, pool, base, entries, mode);
    var o := WithGateway(cfg, st, key, c, pool, None, base, entries, mode);
    assert o.store == st by {
      hide Finish, GatewayFrom;
    }
    hide WithGateway, Chosen, EntriesNow, ModeRight, GatewayRight;
    ChosenIsRight(cfg, room, st.prefixes, pool, way, mode, base.text, o.worker.pc.next.gateway);
  }

  lemma LookUpHeads(cfg: Config, room: Room, st: Store, key: Key, c: Claim, pool: Pool, base: Address, ids: seq<int>, mode: Mode, way: Way)
    requires Lawful(cfg.ip) && ModeRight(room, st.prefixes, pool, way, mode)
    requires ids == if mode.ByAddress? then pool.status.resolved else PoolIDs(st.prefixes, pool)
    ensures HeadingOn(cfg, room, LookUpGateway(cfg, st, key, c, pool, None, base, ids, mode), key, c, pool, way)
  {
    if pool.status.details != [] {
      WithGatewayHeads(cfg, room, st, key, c, pool, base, pool.status.details, mode, way);
    }
    hide WithGateway, ResolveIDs;
  }

  lemma LookingUpIDsHeads(cfg: Config, room: Room, st: Store, key: Key, c: Claim, pc: Pc, pool: Pool, way: Way)
    requires Lawful(cfg.ip) && pc.LookingUpIDs? && Heading(cfg, room, st, key, c, pc, pool, way)
    ensures HeadingOn(cfg, room, Step(cfg, st, key, c, pc, Done), key, c, pool, way)
  {
    if ResolveIDs(st.prefixes, pool.spec.gateways.prefixes).Err? {
      WithGatewayHeads(cfg, room, st, key, c, pool, pc.base, [], pc.mode, way);
    }
    hide WithGateway, ResolveIDs, ModeRight;
  }

  /** Building from the IDs is the live lookup. */
  lemma LookingUpDetailsHeads(cfg: Config, room: Room, st: Store, key: Key, c: Claim, pc: Pc, pool: Pool, way: Way)
    requires Lawful(cfg.ip) && pc.LookingUpDetails? && Heading(cfg, room, st, key, c, pc, pool, way)
    ensures HeadingOn(cfg, room, Step(cfg, st, key, c, pc, Done), key, c, pool, way)
  {
    hide Build, DetailsOf, GatewayChoice, ResolveIDs, WithGateway;
    var built := Build(GatewayChoice(cfg.ip, pool.spec.gateways), pc.ids, DetailsOf(st.prefixes, pc.ids));
    var entries := if built.Ok? then built.value.entries else [];
    WithGatewayHeads(cfg, room, st, key, c, pool, pc.base, entries, pc.mode, way);
  }

  lemma FetchingHeads(cfg: Config, room: Room, st: Store, key: Key, c: Claim, pool: Pool, way: Way)
    requires OnTrack(cfg, room, st, key, c, Fetching) && Heading(cfg, room, st, key, c, Fetching, pool, way)
    ensures HeadingOn(cfg, room, Step(cfg, st, key, c, Fetching, Done), key, c, pool, way)
  {
    hide Servable, PoolKeyOf, HasRecord;
  }

  lemma GettingHeads(cfg: Config, room: Room, st: Store, key: Key, c: Claim, pool: Pool, way: Way)
    requires Named(cfg, st) && Heading(cfg, room, st, key, c, Getting(pool), pool, way)
    ensures HeadingOn(cfg, room, Step(cfg, st, key, c, Getting(pool), Done), key, c, pool, way)
  {
    hide HasRecord, Ensured;
  }

  lemma FindingHeads(cfg: Config, room: Room, st: Store, key: Key, c: Claim, pc: Pc, reply: Reply, pool: Pool, way: Way)
    requires Lawful(cfg.ip) && pc.Finding? && Heading(cfg, room, st, key, c, pc, pool, way) && Calm(cfg, room, st, c, pc, reply)
    ensures HeadingOn(cfg, room, Step(cfg, st, key, c, pc, reply), key, c, pool, way)
  {
    hide Carries, MapIPAddress;
    if reply.Found? {
      LookUpHeads(cfg, room, st, key, c, pool, WithText(pc.base, st.records[reply.id].text), pool.status.resolved, ByAddress, way);
      hide LookUpGateway, Heading;
    }
  }

  lemma CheckingHeads(cfg: Config, room: Room, st: Store, key: Key, c: Claim, pc: Pc, pool: Pool, way: Way)
    requires pc.CheckingField? || pc.Resolving?
    requires OnTrack(cfg, room, st, key, c, pc) && Heading(cfg, room, st, key, c, pc, pool, way)
    ensures HeadingOn(cfg, room, Step(cfg, st, key, c, pc, Done), key, c, pool, way)
  {
    hide PoolAt, ResolveIDs, MetadataOk;
  }

  lemma AllocatingHeads(cfg: Config, room: Room, st: Store, key: Key, c: Claim, pc: Pc, reply: Reply, pool: Pool, way: Way)
    requires Lawful(cfg.ip) && pc.Allocating? && OnTrack(cfg, room, st, key, c, pc)
    requires Heading(cfg, room, st, key, c, pc, pool, way) && Calm(cfg, room, st, c, pc, reply)
    ensures HeadingOn(cfg, room, Step(cfg, st, key, c, pc, reply), key, c, pool, way)
  {
    hide PoolAt, MetadataOk, MapIPAddress, ResolveIDs, NewRecord, Untouched;
    if reply.Granted? {
      var prefix := pc.ids[pc.i];
      assert FirstRoom(room, PoolIDs(st.prefixes, pool), pc.i);
      var st' := AddRecord(cfg, st, key, c, pool, prefix, reply.id, reply.text);
      AddIsRecords(cfg, st, key, c, pool, prefix, reply.id, reply.text);
      LookUpHeads(cfg, room, st', key, c, pool, WithText(pc.base, reply.text), pc.ids, ByPrefix(prefix), way);
      hide LookUpGateway, Heading, AddRecord;
    }
  }

  lemma WritesItsOwn(cfg: Config, room: Room, st: Store, key: Key, c: Claim, pc: Pc)
    requires pc.Writing? && OnTrack(cfg, room, st, key, c, pc)
    ensures pc.existing.Some? == (key in st.addresses)
  {
    hide Complete, PoolAt;
  }

  /** The write leaves the text and the gateway it was given. */
  lemma WriteStores(cfg: Config, st: Store, key: Key, c: Claim, existing: Option<Address>, next: Address)
    requires existing.Some? == (key in st.addresses)
    ensures var o := Step(cfg, st, key, c, Writing(existing, next), Done);
      && o.worker.Busy? && o.worker.pc == Polling(next)
      && o.store.prefixes == st.prefixes && key in o.store.addresses
      && o.store.addresses[key].text == next.text && o.store.addresses[key].gateway == next.gateway
  {
    WriteAddressKeepsRest(st, key, next);
    WriteIsAddresses(st, key, next);
    hide WriteAddress;
  }

  lemma WritingHeads(cfg: Config, room: Room, st: Store, key: Key, c: Claim, pc: Pc, pool: Pool, way: Way)
    requires pc.Writing? && OnTrack(cfg, room, st, key, c, pc) && Heading(cfg, room, st, key, c, pc, pool, way)
    ensures HeadingOn(cfg, room, Step(cfg, st, key, c, pc, Done), key, c, pool, way)
  {
    hide OnTrack, Step, GatewayRight;
    WritesItsOwn(cfg, room, st, key, c, pc);
    WriteStores(cfg, st, key, c, pc.existing, pc.next);
  }

  lemma PollingHeads(cfg: Config, room: Room, st: Store, key: Key, c: Claim, pc: Pc, pool: Pool, way: Way)
    requires pc.Polling? && Heading(cfg, room, st, key, c, pc, pool, way)
    ensures HeadingOn(cfg, room, Step(cfg, st, key, c, pc, Done), key, c, pool, way)
  {
    hide GatewayRight;
  }

  lemma PatchStores(cfg: Config, room: Room, st: Store, key: Key, c: Claim, pc: Pc, pool: Pool, way: Way)
    requires pc.Patching? && Heading(cfg, room, st, key, c, pc, pool, way)
    ensures Stored(cfg, room, Step(cfg, st, key, c, pc, Wrote(true, true)).store, key, pool, way)
  {
    StepFrame(cfg, st, key, c, pc, Wrote(true, true));
    hide Step, GatewayRight;
  }

  lemma StepHeads(cfg: Config, room: Room, st: Store, key: Key, c: Claim, pc: Pc, reply: Reply, pool: Pool, way: Way)
    requires Sound(cfg) && Named(cfg, st) && OnTrack(cfg, room, st, key, c, pc) && Calm(cfg, room, st, c, pc, reply)
    requires Heading(cfg, room, st, key, c, pc, pool, way) && !pc.Patching?
    ensures HeadingOn(cfg, room, Step(cfg, st, key, c, pc, reply), key, c, pool, way)
  {
    hide Step, HeadingOn, OnTrack, Named, GatewayRight, ModeRight, Stored, Starts;
    match pc
    case Fetching => FetchingHeads(cfg, room, st, key, c, pool, way);
    case Getting(p) => GettingHeads(cfg, room, st, key, c, pool, way);
    case Finding(_, _, _) => FindingHeads(cfg, room, st, key, c, pc, reply, pool, way);
    case CheckingField(_, _, _) => CheckingHeads(cfg, room, st, key, c, pc, pool, way);
    case Resolving(_, _, _) => CheckingHeads(cfg, room, st, key, c, pc, pool, way);
    case Allocating(_, _, _, _, _) => AllocatingHeads(cfg, room, st, key, c, pc, reply, pool, way);
    case LookingUpIDs(_, _, _, _) => LookingUpIDsHeads(cfg, room, st, key, c, pc, pool, way);
    case LookingUpDetails(_, _, _, _, _) => LookingUpDetailsHeads(cfg, room, st, key, c, pc, pool, way);
    case Writing(_, _) => WritingHeads(cfg, room, st, key, c, pc, pool, way);
    case Polling(_) => PollingHeads(cfg, room, st, key, c, pc, pool, way);
    case _ =>
  }

  // ---- A whole pass ----

  ghost predicate HeadingState(cfg: Config, room: Room, s: State, pool: Pool, way: Way) {
    s.worker.Busy? && Heading(cfg, room, s.store, s.worker.key, s.worker.c, s.worker.pc, pool, way)
  }

  lemma CalmCallHeads(cfg: Config, room: Room, s: State, e: Event, pool: Pool, way: Way)
    requires Sound(cfg) && Going(cfg, room, s) && Legal(cfg, s, e) && CalmCall(cfg, room, s, e)
    requires HeadingState(cfg, room, s, pool, way)
    ensures var s' := Apply(cfg, s, e);
      && s'.store.prefixes == s.store.prefixes
      && (if s'.worker.Busy? then HeadingState(cfg, room, s', pool, way) else Stored(cfg, room, s'.store, s.worker.key, pool, way))
  {
    SaneParts(cfg, s);
    var st, key, c, pc := s.store, s.worker.key, s.worker.c, s.worker.pc;
    StepFrame(cfg, st, key, c, pc, e.reply);
    hide Sane, Inv, Step, OnTrack, Heading, Stored;
    if pc.Patching? {
      CalmAnswers(cfg, room, st, c, pc, e.reply);
      PatchStores(cfg, room, st, key, c, pc, pool, way);
      PatchEnds(cfg, s);
    } else {
      StepOnTrack(cfg, room, st, key, c, pc, e.reply);
      StepHeads(cfg, room, st, key, c, pc, e.reply, pool, way);
    }
  }

  lemma {:induction false} CalmCallsHead(cfg: Config, room: Room, s: State, run: seq<Event>, pool: Pool, way: Way)
    requires Sound(cfg) && Going(cfg, room, s) && LegalRun(cfg, s, run) && HeadingState(cfg, room, s, pool, way)
    requires Along(cfg, s, run, (x, e) => CalmCall(cfg, room, x, e)) && Final(cfg, s, run).worker.Idle?
    ensures var st := Final(cfg, s, run).store;
      st.prefixes == s.store.prefixes && Stored(cfg, room, st, s.worker.key, pool, way)
    decreases |run|
  {
    hide Going, Sane, CallsLeft, CalmCall, Legal, Apply, HeadingState, Stored, Settled;
    SaneGoing(cfg, room, s);
    var s' := Apply(cfg, s, run[0]);
    CalmCallGoesOn(cfg, room, s, run[0]);
    CalmCallHeads(cfg, room, s, run[0], pool, way);
    if s'.worker.Busy? {
      CalmCallsHead(cfg, room, s', run[1..], pool, way);
    } else if run[1..] != [] {
      IdleCallsNothing(cfg, room, s', run[1..][0]);
    }
  }

  lemma PassStores(cfg: Config, room: Room, s: State, key: Key, pass: seq<Event>, pool: Pool, way: Way)
    requires Sound(cfg) && Resting(cfg, s) && Startable(cfg, room, s.store, key) && s.store.claims[key].finalizer
    requires WholePass(cfg, room, s, key, pass)
    requires PoolAt(s.store, key, s.store.claims[key]) == Some(pool) && Starts(cfg, s.store, key, s.store.claims[key], way)
    ensures var st := Final(cfg, s, pass).store;
      st.prefixes == s.store.prefixes && Stored(cfg, room, st, key, pool, way)
  {
    BeginGoes(cfg, room, s, key);
    var s' := Apply(cfg, s, Begin(key, Done));
    assert HeadingState(cfg, room, s', pool, way) by {
      hide Resting, Going, Servable, Starts, PoolAt;
    }
    hide Resting, Startable, Going, Sane, CalmCall, Legal, Apply, HeadingState, Stored, Starts, PoolAt;
    CalmCallsHead(cfg, room, s', pass[1..], pool, way);
  }

  /** From every reachable state a pass without failures of a registered claim leaves an `IPAddress` with the right
      gateway. One that was there keeps it. For a record found again it is that of the first entry whose block
      contains the address. For a new record it is that of the first entry of the first prefix with room. */
  lemma PassWritesGateway(cfg: Config, room: Room, s0: State, run: seq<Event>, key: Key, pass: seq<Event>)
    requires Sound(cfg) && Init(cfg, s0) && LegalRun(cfg, s0, run)
    requires Final(cfg, s0, run).worker.Idle? && Startable(cfg, room, Final(cfg, s0, run).store, key)
    requires Final(cfg, s0, run).store.claims[key].finalizer
    requires WholePass(cfg, room, Final(cfg, s0, run), key, pass)
    ensures var st, st' := Final(cfg, s0, run).store, Final(cfg, Final(cfg, s0, run), pass).store;
      var pool := PoolAt(st, key, st.claims[key]).value;
      var ids, entries := PoolIDs(st.prefixes, pool), EntriesNow(cfg, st.prefixes, pool);
      && key in st'.addresses
      && var a := st'.addresses[key];
      && (key in st.addresses ==> a.gateway == st.addresses[key].gateway)
      && (key !in st.addresses && HasRecord(cfg, st, st.claims[key].uid) ==> GatewayAround(cfg.ip, entries, a.text, a.gateway))
      && (key !in st.addresses && !HasRecord(cfg, st, st.claims[key].uid) ==>
            exists k :: FirstRoom(room, ids, k) && GatewayOfID(entries, ids[k], a.gateway))
  {
    var s := Final(cfg, s0, run);
    var st, c := s.store, s.store.claims[key];
    var pool := PoolAt(st, key, c).value;
    var way := if key in st.addresses then Keeps(st.addresses[key].gateway) else if HasRecord(cfg, st, c.uid) then Reuses else Allocates;
    assert Starts(cfg, st, key, c, way);
    ReachableIsSane(cfg, s0, run);
    RestingIf(cfg, s);
    hide Starts, HasRecord, PoolIDs, EntriesNow, FirstRoom, GatewayOfID, GatewayAround, WholePass, Sane, Resting, LegalRun, Final;
    PassStores(cfg, room, s, key, pass, pool, way);
  }

  // ---- What the entries stand for ----

  /** Where the entries come from: the cached resolution, or the pool's spec and the prefix table of now. */
  function DataSource(table: seq<Row>, pool: Pool): Origin {
    if pool.status.resolved != [] then pool.status.origin else Origin(pool.generation, pool.spec.gateways, table, table)
  }

  ghost predicate ResolvedFrom(cfg: Config, o: Origin, ids: seq<int>, entries: seq<ResolvedPrefix>) {
    o.Origin? && Resolves(cfg.ip, o.spec, o.idTable, o.detailTable, ids, entries)
  }

  /** The gateway at index `i` of a resolution: that of the ID's row and the reference at the same index. */
  ghost predicate GatewayOfRow(cfg: Config, o: Origin, ids: seq<int>, i: int, gateway: string) {
    && o.Origin? && 0 <= i < |ids| && i < |o.spec.prefixes|
    && (forall r :: LastRow(o.detailTable, ids[i], r) ==> GatewayFor(cfg.ip, o.spec, i, o.detailTable[r], gateway))
    && ((forall j :: 0 <= j < |o.detailTable| ==> o.detailTable[j].id != ids[i]) ==> gateway == "")
  }

  /** Some row of the resolution contains the address, and the gateway is that row's. */
  ghost predicate GatewayOfRowAround(cfg: Config, o: Origin, ids: seq<int>, text: string, gateway: string) {
    exists i, r ::
      && GatewayOfRow(cfg, o, ids, i, gateway) && LastRow(o.detailTable, ids[i], r)
      && Around(cfg.ip, ResolvedPrefix(ids[i], Trim(o.detailTable[r].prefix), gateway), text)
  }

  lemma EntryIsOfRow(cfg: Config, o: Origin, ids: seq<int>, entries: seq<ResolvedPrefix>, i: nat)
    requires Lawful(cfg.ip) && ResolvedFrom(cfg, o, ids, entries) && i < |ids|
    ensures |entries| == |ids| == |o.spec.prefixes| && entries[i].id == ids[i]
    ensures GatewayOfRow(cfg, o, ids, i, entries[i].gateway)
    ensures forall r :: LastRow(o.detailTable, ids[i], r) ==> entries[i].cidr == Trim(o.detailTable[r].prefix)
  {
    assert |ids| == |o.spec.prefixes|;
    hide Resolves, GatewayFor;
    forall r
      ensures LastRow(o.detailTable, ids[i], r) ==>
        entries[i].cidr == Trim(o.detailTable[r].prefix) && GatewayFor(cfg.ip, o.spec, i, o.detailTable[r], entries[i].gateway)
    {
      EntryOfResolution(cfg.ip, o.spec, o.idTable, o.detailTable, ids, entries, i, r);
    }
    EntryOfResolution(cfg.ip, o.spec, o.idTable, o.detailTable, ids, entries, i, 0);
  }

  /** The entry of the first prefix with room is its own. */
  lemma RoomGateway(cfg: Config, room: Room, o: Origin, ids: seq<int>, entries: seq<ResolvedPrefix>, k: int, gateway: string)
    requires Lawful(cfg.ip) && ResolvedFrom(cfg, o, ids, entries) && FirstRoom(room, ids, k) && GatewayOfID(entries, ids[k], gateway)
    ensures GatewayOfRow(cfg, o, ids, k, gateway)
  {
    hide ResolvedFrom, GatewayOfRow;
    forall j | 0 <= j <= k
      ensures |entries| == |ids| && entries[j].id == ids[j]
    {
      EntryIsOfRow(cfg, o, ids, entries, j);
    }
    EntryIsOfRow(cfg, o, ids, entries, k);
    assert FirstWithID(entries, ids[k], k);
  }

  lemma {:induction false} LastRowExists(table: seq<Row>, id: int) returns (r: int)
    requires exists j :: 0 <= j < |table| && table[j].id == id
    ensures LastRow(table, id, r)
  {
    var last := |table| - 1;
    if table[last].id == id {
      r := last;
    } else {
      var j :| 0 <= j < |table| && table[j].id == id;
      assert table[..last][j].id == id;
      r := LastRowExists(table[..last], id);
    }
  }

  lemma {:induction false} FirstAroundExists(ip: Netip, entries: seq<ResolvedPrefix>, text: string, i: int) returns (first: int)
    requires 0 <= i < |entries| && Around(ip, entries[i], text)
    ensures FirstAround(ip, entries, text, first)
  {
    hide Around;
    if j :| 0 <= j < i && Around(ip, entries[j], text) {
      first := FirstAroundExists(ip, entries, text, j);
    } else {
      first := i;
    }
  }

  /** A gateway found by the block around the address is that of the block's row. */
  lemma BlockGateway(cfg: Config, o: Origin, ids: seq<int>, entries: seq<ResolvedPrefix>, text: string, gateway: string)
    requires Lawful(cfg.ip) && ResolvedFrom(cfg, o, ids, entries) && GatewayAround(cfg.ip, entries, text, gateway)
    ensures gateway == "" || GatewayOfRowAround(cfg, o, ids, text, gateway)
  {
    hide ResolvedFrom, GatewayOfRow, Around;
    if gateway != "" {
      var some :| 0 <= some < |entries| && Around(cfg.ip, entries[some], text);
      var i := FirstAroundExists(cfg.ip, entries, text, some);
      ResolvedTogether(cfg, o, ids, entries);
      EntryIsOfRow(cfg, o, ids, entries, i);
      var r := RowWithGateway(cfg, o, ids, i, gateway);
      assert entries[i] == ResolvedPrefix(ids[i], Trim(o.detailTable[r].prefix), gateway);
    }
  }

  lemma ResolvedTogether(cfg: Config, o: Origin, ids: seq<int>, entries: seq<ResolvedPrefix>)
    requires ResolvedFrom(cfg, o, ids, entries)
    ensures o.Origin? && |entries| == |ids| == |o.spec.prefixes|
  {
  }

  lemma RowWithGateway(cfg: Config, o: Origin, ids: seq<int>, i: int, gateway: string) returns (r: int)
    requires GatewayOfRow(cfg, o, ids, i, gateway) && gateway != ""
    ensures o.Origin? && 0 <= i < |ids| && LastRow(o.detailTable, ids[i], r)
  {
    hide GatewayFor;
    r := LastRowExists(o.detailTable, ids[i]);
  }

  /** The entries of a pass are those of its source, or none if that does not resolve. */
  lemma EntriesOfSource(cfg: Config, table: seq<Row>, pool: Pool)
    requires StatusOk(cfg, pool.status, pool.log)
    ensures forall ids, entries :: ResolvedFrom(cfg, DataSource(table, pool), ids, entries) ==>
      ids == PoolIDs(table, pool) && entries == EntriesNow(cfg, table, pool)
    ensures (forall ids, entries :: !ResolvedFrom(cfg, DataSource(table, pool), ids, entries)) ==> EntriesNow(cfg, table, pool) == []
  {
    hide ResolveIDs, Build, DetailsOf, GatewayChoice;
    if pool.status.resolved != [] {
      assert ResolvedFrom(cfg, DataSource(table, pool), pool.status.resolved, pool.status.details);
    } else {
      var ids := ResolveIDs(table, pool.spec.gateways.prefixes);
      if ids.Ok? {
        var built := Build(GatewayChoice(cfg.ip, pool.spec.gateways), ids.value, DetailsOf(table, ids.value));
        if built.Ok? {
          assert ResolvedFrom(cfg, DataSource(table, pool), ids.value, built.value.entries);
        }
      }
    }
  }

  lemma CacheAtEnd(cfg: Config, s0: State, run: seq<Event>, pk: PoolKey)
    requires Init(cfg, s0) && LegalRun(cfg, s0, run) && pk in Final(cfg, s0, run).store.pools
    ensures var pool := Final(cfg, s0, run).store.pools[pk]; StatusOk(cfg, pool.status, pool.log)
  {
    RunKeepsCache(cfg, s0, run);
    PoolHolds(cfg, Final(cfg, s0, run), pk);
  }

  /** What such a pass writes for a claim without an `IPAddress` comes from NetBox's data and the pool's settings, as
      they were resolved for the cache or, with nothing cached, as they are now. After a grant it is the gateway of the
      granting prefix's own row and reference. For a record found again it is the gateway of a row around the address,
      if there is one. Where the settings do not resolve there is none. */
  lemma GatewayComesFromRow(cfg: Config, room: Room, s0: State, run: seq<Event>, key: Key, pass: seq<Event>)
    requires Sound(cfg) && Init(cfg, s0) && LegalRun(cfg, s0, run)
    requires Final(cfg, s0, run).worker.Idle? && Startable(cfg, room, Final(cfg, s0, run).store, key)
    requires Final(cfg, s0, run).store.claims[key].finalizer && key !in Final(cfg, s0, run).store.addresses
    requires WholePass(cfg, room, Final(cfg, s0, run), key, pass)
    ensures var st, st' := Final(cfg, s0, run).store, Final(cfg, Final(cfg, s0, run), pass).store;
      var o := DataSource(st.prefixes, PoolAt(st, key, st.claims[key]).value);
      && key in st'.addresses
      && var a := st'.addresses[key];
      && (forall ids, entries :: ResolvedFrom(cfg, o, ids, entries) ==>
            if HasRecord(cfg, st, st.claims[key].uid) then a.gateway == "" || GatewayOfRowAround(cfg, o, ids, a.text, a.gateway)
            else exists k :: FirstRoom(room, ids, k) && GatewayOfRow(cfg, o, ids, k, a.gateway))
      && ((forall ids, entries :: !ResolvedFrom(cfg, o, ids, entries)) ==> a.gateway == "")
  {
    var s := Final(cfg, s0, run);
    var st, c := s.store, s.store.claims[key];
    var pool := PoolAt(st, key, c).value;
    CacheAtEnd(cfg, s0, run, PoolKeyOf(key.namespace, c.poolRef).value);
    PassWritesGateway(cfg, room, s0, run, key, pass);
    hide LegalRun, Final, WholePass, HasRecord, ResolvedFrom, DataSource, GatewayOfRow, GatewayOfRowAround, FirstRoom;
    EntriesOfSource(cfg, st.prefixes, pool);
    var o := DataSource(st.prefixes, pool);
    var a := Final(cfg, s, pass).store.addresses[key];
    hide StatusOk, PoolIDs, EntriesNow, Startable, PoolAt, Init;
    forall ids, entries | ResolvedFrom(cfg, o, ids, entries)
      ensures if HasRecord(cfg, st, c.uid) then a.gateway == "" || GatewayOfRowAround(cfg, o, ids, a.text, a.gateway)
              else exists k :: FirstRoom(room, ids, k) && GatewayOfRow(cfg, o, ids, k, a.gateway)
    {
      if HasRecord(cfg, st, c.uid) {
        BlockGateway(cfg, o, ids, entries, a.text, a.gateway);
      } else {
        hide GatewayOfID, GatewayAround;
        var k :| FirstRoom(room, ids, k) && GatewayOfID(entries, ids[k], a.gateway);
        RoomGateway(cfg, room, o, ids, entries, k, a.gateway);
      }
    }
  }
}
