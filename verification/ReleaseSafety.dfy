/** Runs in which no pass stops between deleting a claim's NetBox record and deleting its address: every address
    is backed by its own record, and release never needs the lookup by address. */
module ReleaseSafety {
  import opened Wrappers
  import opened Gateway
  import opened Prefixes
  import opened Owners
  import opened Annotations
  import opened AddressText
  import opened Model
  import opened Protocol
  import opened Frames
  import opened PoolProtocol
  import opened System
  import opened ClaimSafety

  // ---- The hypothesis ----

  /** The record is deleted and the address is about to be. */
  predicate Gap(w: Worker, key: Key) {
    && w.Busy? && w.key == key
    && (w.pc.DeleteGetting? || w.pc.DeleteUnprotecting? || w.pc.DeleteDeleting?)
    && w.pc.withPool
  }

  /** The event ends a pass between the deletion of a claim's record and that of its address: a crash or a failed
      or lost call in the gap, or a lost response to the deletion of the record. The response may be lost once the
      address is gone with the call: after its own deletion, or after the unprotection of an address that is
      marked as deleted. */
  predicate StopsInGap(s: State, e: Event) {
    && s.worker.Busy? && s.worker.key in s.store.addresses
    && ((Gap(s.worker, s.worker.key) && (e.Crash? || (e.Call? && (e.reply.Failed? || (e.reply.Lost? && !GoesWithCall(s))))))
        || (s.worker.pc.ReleaseDeleting? && e.Call? && e.reply.Lost?))
  }

  /** The next call removes the address. */
  predicate GoesWithCall(s: State)
    requires s.worker.Busy? && s.worker.key in s.store.addresses
  {
    s.worker.pc.DeleteDeleting? || (s.worker.pc.DeleteUnprotecting? && s.store.addresses[s.worker.key].deleting)
  }

  predicate NoStopInGap(s: State, e: Event) {
    !StopsInGap(s, e)
  }

  // ---- The invariant ----

  predicate HasRecord(cfg: Config, st: Store, uid: Uid) {
    !NoRecord(cfg, st, uid)
  }

  /** The address and the length are those of the record. */
  predicate Names(text: string, prefix: Option<int>, r: Record) {
    text == MapIPAddress(r.text).address && prefix == Some(MapIPAddress(r.text).prefix)
  }

  /** A record of the claim has this address and this length. */
  ghost predicate HasOwn(cfg: Config, st: Store, uid: Uid, text: string, prefix: Option<int>) {
    exists i :: i in st.records && Carries(cfg, st.records[i], uid) && Names(text, prefix, st.records[i])
  }

  ghost predicate OwnIn(cfg: Config, st: Store, k: Key)
    requires k in st.addresses && k in st.claims
  {
    HasOwn(cfg, st, st.claims[k].uid, st.addresses[k].text, st.addresses[k].prefix)
  }

  /** Every address is backed by a record of its claim, except in the gap. */
  ghost predicate Backed(cfg: Config, st: Store, w: Worker) {
    forall k :: k in st.addresses ==> k in st.claims && (Gap(w, k) || OwnIn(cfg, st, k))
  }

  /** Addresses and stamped records have an address text. */
  ghost predicate Named(cfg: Config, st: Store) {
    && (forall k :: k in st.addresses ==> st.addresses[k].text != "")
    && (forall i, u: Uid :: i in st.records && Carries(cfg, st.records[i], u) ==> MapIPAddress(st.records[i].text).address != "")
  }

  ghost predicate PcBacked(cfg: Config, st: Store, c: Claim, pc: Pc) {
    match pc
    case LookingUpIDs(_, _, base, _) => HasOwn(cfg, st, c.uid, base.text, base.prefix) && base.text != ""
    case LookingUpDetails(_, _, base, _, _) => HasOwn(cfg, st, c.uid, base.text, base.prefix) && base.text != ""
    case Writing(_, next) => HasOwn(cfg, st, c.uid, next.text, next.prefix) && next.text != ""
    case Polling(next) => HasOwn(cfg, st, c.uid, next.text, next.prefix) && next.text != ""
    case ReleaseFinding(found) => found.Some? ==> HasRecord(cfg, st, c.uid)
    case ReleaseTrying(_) => false
    case ReleaseDeleting(id) => id in st.records && Carries(cfg, st.records[id], c.uid)
    case _ => true
  }

  ghost predicate BackedOutcome(cfg: Config, o: Outcome) {
    && Backed(cfg, o.store, o.worker) && Named(cfg, o.store)
    && (o.worker.Busy? ==> PcBacked(cfg, o.store, o.worker.c, o.worker.pc))
  }

  ghost predicate BackedInv(cfg: Config, s: State) {
    Inv(cfg, s) && BackedOutcome(cfg, Outcome(s.store, s.worker))
  }

  // ---- Steps that only read ----

  /** Outside the gap every address is backed, whatever the worker does next. */
  ghost predicate AllBacked(cfg: Config, st: Store) {
    forall k :: k in st.addresses ==> k in st.claims && OwnIn(cfg, st, k)
  }

  /** The store is as before and the next step is backed. */
  ghost predicate Reads(cfg: Config, st: Store, c: Claim, o: Outcome) {
    o.store == st && (o.worker.Busy? ==> o.worker.c == c && PcBacked(cfg, st, c, o.worker.pc))
  }

  lemma ReadsIsBacked(cfg: Config, st: Store, c: Claim, o: Outcome)
    requires AllBacked(cfg, st) && Named(cfg, st) && Reads(cfg, st, c, o)
    ensures BackedOutcome(cfg, o)
  {
    hide HasOwn, NoRecord;
  }

  lemma ToWriteReads(cfg: Config, st: Store, key: Key, c: Claim, pool: Pool, existing: Option<Address>, base: Address)
    requires base.text != "" && HasOwn(cfg, st, c.uid, base.text, base.prefix)
    ensures Reads(cfg, st, c, ToWrite(st, key, c, pool, existing, base))
  {
    hide Ensured, HasOwn;
    assert Finish(base, key, c, pool).text == base.text && Finish(base, key, c, pool).prefix == base.prefix;
  }

  lemma WithGatewayReads(cfg: Config, st: Store, key: Key, c: Claim, pool: Pool, existing: Option<Address>, base: Address,
                         entries: seq<ResolvedPrefix>, mode: Mode)
    requires base.text != "" && HasOwn(cfg, st, c.uid, base.text, base.prefix)
    ensures Reads(cfg, st, c, WithGateway(cfg, st, key, c, pool, existing, base, entries, mode))
  {
    hide ToWrite, GatewayFrom;
    ToWriteReads(cfg, st, key, c, pool, existing, base.(gateway := GatewayFrom(cfg, entries, base, mode)));
  }

  lemma LookUpGatewayReads(cfg: Config, st: Store, key: Key, c: Claim, pool: Pool, existing: Option<Address>, base: Address,
                           ids: seq<int>, mode: Mode)
    requires base.text != "" && HasOwn(cfg, st, c.uid, base.text, base.prefix)
    ensures Reads(cfg, st, c, LookUpGateway(cfg, st, key, c, pool, existing, base, ids, mode))
  {
    hide WithGateway, HasOwn;
    WithGatewayReads(cfg, st, key, c, pool, existing, base, pool.status.details, mode);
  }

  lemma StartAllocatingReads(cfg: Config, st: Store, key: Key, c: Claim)
    ensures forall pool, existing, base, ids ::
      Reads(cfg, st, c, StartAllocating(cfg, st, key, c, pool, existing, base, ids))
  {
    hide MetadataOk, HasRecord, HasOwn;
  }

  lemma GettingReads(cfg: Config, st: Store, key: Key, c: Claim, pool: Pool, reply: Reply)
    requires AllBacked(cfg, st) && Named(cfg, st) && Tracks(st, key, c)
    ensures Reads(cfg, st, c, StepGetting(st, key, c, pool, reply))
  {
    hide ToWrite, HasOwn;
    if key in st.addresses {
      ToWriteReads(cfg, st, key, c, pool, Some(st.addresses[key]), st.addresses[key]);
    }
  }

  lemma FindingReads(cfg: Config, st: Store, key: Key, c: Claim, pool: Pool, existing: Option<Address>, base: Address, reply: Reply)
    requires Named(cfg, st) && LegalByUID(cfg, st, c.uid, reply)
    ensures Reads(cfg, st, c, StepFinding(cfg, st, key, c, pool, existing, base, reply))
  {
    hide LookUpGateway, MapIPAddress, Carries;
    if reply.Found? {
      LookUpGatewayReads(cfg, st, key, c, pool, existing, WithText(base, st.records[reply.id].text), pool.status.resolved, ByAddress);
    }
  }

  lemma LookingUpReads(cfg: Config, st: Store, key: Key, c: Claim, pool: Pool, existing: Option<Address>, base: Address, ids: seq<int>, mode: Mode, reply: Reply)
    requires base.text != "" && HasOwn(cfg, st, c.uid, base.text, base.prefix)
    ensures Reads(cfg, st, c, StepLookingUpIDs(cfg, st, key, c, pool, existing, base, mode, reply))
    ensures Reads(cfg, st, c, StepLookingUpDetails(cfg, st, key, c, pool, existing, base, ids, mode, reply))
  {
    hide WithGateway, ResolveIDs, Build, DetailsOf, GatewayChoice, HasOwn;
    forall entries: seq<ResolvedPrefix>
      ensures Reads(cfg, st, c, WithGateway(cfg, st, key, c, pool, existing, base, entries, mode))
    {
      WithGatewayReads(cfg, st, key, c, pool, existing, base, entries, mode);
    }
  }

  /** Steps that neither touch the record nor the address. */
  lemma PlainReads(cfg: Config, st: Store, key: Key, c: Claim, pc: Pc, reply: Reply)
    requires PcBacked(cfg, st, c, pc)
    requires pc.Fetching? || pc.CheckingField? || pc.Resolving? || pc.Polling?
    ensures Reads(cfg, st, c, Step(cfg, st, key, c, pc, reply))
  {
    hide StartAllocating, ResolveIDs, PoolKeyOf, NoRecord, HasOwn;
    StartAllocatingReads(cfg, st, key, c);
  }

  /** With a record in place the lookup by UID finds it, and the lookup by address is not reached. */
  lemma ReleaseReads(cfg: Config, st: Store, key: Key, c: Claim, pc: Pc, reply: Reply)
    requires AllBacked(cfg, st) && Tracks(st, key, c) && PcBacked(cfg, st, c, pc)
    requires LegalReply(cfg, st, c, pc, reply)
    requires pc.ReleaseGetting? || pc.ReleaseFinding?
    ensures Reads(cfg, st, c, Step(cfg, st, key, c, pc, reply))
  {
    hide Candidates, Carries;
  }

  // ---- Steps that write ----

  lemma AddRecordBacks(cfg: Config, st: Store, key: Key, c: Claim, pool: Pool, prefix: int, id: int, text: string)
    requires Sound(cfg) && AllBacked(cfg, st) && Named(cfg, st) && id !in st.records && MetadataOk(cfg, c, pool)
    requires MapIPAddress(text).address != ""
    ensures var st' := AddRecord(cfg, st, key, c, pool, prefix, id, text);
      AllBacked(cfg, st') && Named(cfg, st')
      && HasOwn(cfg, st', c.uid, MapIPAddress(text).address, Some(MapIPAddress(text).prefix))
  {
    hide NewRecord, Effective, Carries, MapIPAddress;
    NewRecordCarries(cfg, key, c, pool, prefix, text, c.uid);
    var st' := AddRecord(cfg, st, key, c, pool, prefix, id, text);
    NewRecordText(cfg, key, c, pool, prefix, text);
    assert st'.records[id] == NewRecord(cfg, key, c, pool, prefix, text);
    assert Carries(cfg, st'.records[id], c.uid) && Names(MapIPAddress(text).address, Some(MapIPAddress(text).prefix), st'.records[id]);
    assert AllBacked(cfg, st') by {
      forall k | k in st'.addresses
        ensures k in st'.claims && OwnIn(cfg, st', k)
      {
        assert OwnIn(cfg, st, k);
        OwnStays(cfg, st, st', st.claims[k].uid, st.addresses[k].text, st.addresses[k].prefix);
      }
    }
  }

  /** A record that stays goes on naming the address. */
  lemma OwnStays(cfg: Config, st: Store, st': Store, uid: Uid, text: string, prefix: Option<int>)
    requires HasOwn(cfg, st, uid, text, prefix)
    requires forall i :: i in st.records && Carries(cfg, st.records[i], uid) ==> i in st'.records && st'.records[i] == st.records[i]
    ensures HasOwn(cfg, st', uid, text, prefix)
  {
    hide Carries, Names;
    var i :| i in st.records && Carries(cfg, st.records[i], uid) && Names(text, prefix, st.records[i]);
    assert Carries(cfg, st'.records[i], uid) && Names(text, prefix, st'.records[i]);
  }

  lemma NewRecordText(cfg: Config, key: Key, c: Claim, pool: Pool, prefix: int, text: string)
    requires MetadataOk(cfg, c, pool)
    ensures NewRecord(cfg, key, c, pool, prefix, text).text == text
  {
    hide Effective;
  }

  lemma AllocatingBacked(cfg: Config, st: Store, key: Key, c: Claim, pool: Pool, existing: Option<Address>, base: Address, ids: seq<int>, i: nat, reply: Reply)
    requires Sound(cfg) && AllBacked(cfg, st) && Named(cfg, st)
    requires LegalReply(cfg, st, c, Allocating(pool, existing, base, ids, i), reply)
    ensures BackedOutcome(cfg, StepAllocating(cfg, st, key, c, pool, existing, base, ids, i, reply))
  {
    hide LookUpGateway, MapIPAddress, MetadataOk, AddRecord, HasOwn, Named, AllBacked;
    var o := StepAllocating(cfg, st, key, c, pool, existing, base, ids, i, reply);
    if i < |ids| && MetadataOk(cfg, c, pool) && (reply.Granted? || reply.GrantLost?) {
      AddRecordBacks(cfg, st, key, c, pool, ids[i], reply.id, reply.text);
      var st' := AddRecord(cfg, st, key, c, pool, ids[i], reply.id, reply.text);
      LookUpGatewayReads(cfg, st', key, c, pool, existing, WithText(base, reply.text), ids, ByPrefix(ids[i]));
      ReadsIsBacked(cfg, st', c, o);
    } else {
      ReadsIsBacked(cfg, st, c, o);
    }
  }

  lemma WriteAddressBacks(cfg: Config, st: Store, key: Key, c: Claim, next: Address)
    requires AllBacked(cfg, st) && Named(cfg, st) && Tracks(st, key, c) && HasOwn(cfg, st, c.uid, next.text, next.prefix) && next.text != ""
    ensures var st' := WriteAddress(st, key, next);
      AllBacked(cfg, st') && Named(cfg, st') && HasOwn(cfg, st', c.uid, next.text, next.prefix)
  {
    hide Carries, PoolGuards, MapIPAddress, Names;
    var st' := WriteAddress(st, key, next);
    assert st'.records == st.records && st'.claims == st.claims;
    assert st'.addresses[key].text == next.text && st'.addresses[key].prefix == next.prefix;
    assert forall k :: k in st'.addresses && k != key ==> k in st.addresses && st'.addresses[k] == st.addresses[k];
    hide WriteAddress;
    forall k | k in st'.addresses
      ensures OwnIn(cfg, st', k)
    {
      assert k != key ==> OwnIn(cfg, st, k);
    }
  }

  lemma WritingBacked(cfg: Config, st: Store, key: Key, c: Claim, existing: Option<Address>, next: Address, reply: Reply)
    requires AllBacked(cfg, st) && Named(cfg, st) && Tracks(st, key, c) && HasOwn(cfg, st, c.uid, next.text, next.prefix) && next.text != ""
    ensures BackedOutcome(cfg, StepWriting(st, key, c, existing, next, reply))
  {
    hide WriteAddress, HasOwn, Named, AllBacked, BackedOutcome, Tracks;
    var o := StepWriting(st, key, c, existing, next, reply);
    if existing.Some? == (key in st.addresses) && (reply.Done? || reply.Lost?) {
      WriteAddressBacks(cfg, st, key, c, next);
      ReadsIsBacked(cfg, WriteAddress(st, key, next), c, o);
    } else {
      ReadsIsBacked(cfg, st, c, o);
    }
  }

  /** Deleting a claim's record takes the backing from its own address only. */
  lemma RecordGone(cfg: Config, st: Store, key: Key, c: Claim, id: int)
    requires Identity(st) && AllBacked(cfg, st) && Tracks(st, key, c)
    requires id in st.records && Carries(cfg, st.records[id], c.uid)
    ensures forall k :: k in st.addresses && k != key ==>
      k in st.claims && OwnIn(cfg, st.(records := st.records - {id}), k)
  {
    var gone := st.(records := st.records - {id});
    forall k | k in st.addresses && k != key
      ensures OwnIn(cfg, gone, k)
    {
      var u := st.claims[k].uid;
      assert OwnIn(cfg, st, k) && u != c.uid;
      OtherRecordsStay(cfg, st, id, c.uid, u);
      hide Carries, HasOwn;
      OwnStays(cfg, st, gone, u, st.addresses[k].text, st.addresses[k].prefix);
    }
  }

  /** The record of another claim is another one. */
  lemma OtherRecordsStay(cfg: Config, st: Store, id: int, uid: Uid, other: Uid)
    requires id in st.records && Carries(cfg, st.records[id], uid) && other != uid
    ensures var records := st.records - {id};
      forall i :: i in st.records && Carries(cfg, st.records[i], other) ==> i in records && records[i] == st.records[i]
  {
  }

  lemma ReleaseDeletingBacked(cfg: Config, st: Store, key: Key, c: Claim, id: int, reply: Reply)
    requires Identity(st) && AllBacked(cfg, st) && Named(cfg, st) && Tracks(st, key, c)
    requires id in st.records && Carries(cfg, st.records[id], c.uid)
    requires key in st.addresses ==> !reply.Lost?
    ensures BackedOutcome(cfg, StepReleaseDeleting(st, key, c, id, reply))
  {
    var gone := st.(records := st.records - {id});
    RecordGone(cfg, st, key, c, id);
    GoneNamed(cfg, st, id);
    hide Named, OwnIn, Carries, Tracks, Identity;
    assert Backed(cfg, gone, Busy(key, c, DeleteGetting(true)));
    if reply.Lost? {
      assert Backed(cfg, gone, Busy(key, c, Patching(c, Kept)));
    }
    assert Backed(cfg, st, Busy(key, c, Patching(c, Kept)));
    hide Backed, AllBacked;
  }

  lemma GoneNamed(cfg: Config, st: Store, id: int)
    requires Named(cfg, st)
    ensures Named(cfg, st.(records := st.records - {id}))
  {
    hide Carries, MapIPAddress;
  }

  /** In the gap, or in a pass without the pool, only the claim's own address goes. */
  lemma OwnAddressGoes(cfg: Config, st: Store, st': Store, w: Worker, key: Key)
    requires Backed(cfg, st, w) && Named(cfg, st) && FewerAddresses(st, st')
    requires w.Busy? && w.key == key
    ensures Named(cfg, st')
    ensures forall w' :: (key in st'.addresses ==> Gap(w, key) ==> Gap(w', key)) ==> Backed(cfg, st', w')
  {
    hide Carries, MapIPAddress;
    assert st'.records == st.records && st'.claims == st.claims;
    assert forall u: Uid, t, l :: HasOwn(cfg, st', u, t, l) == HasOwn(cfg, st, u, t, l);
    hide HasOwn;
  }

  /** Only addresses go away, or lose their protection. */
  ghost predicate FewerAddresses(st: Store, st': Store) {
    && st'.claims == st.claims && st'.records == st.records
    && forall k :: k in st'.addresses ==> k in st.addresses && st'.addresses[k].text == st.addresses[k].text && st'.addresses[k].prefix == st.addresses[k].prefix
  }

  lemma DeleteGettingBacked(cfg: Config, st: Store, key: Key, c: Claim, withPool: bool, reply: Reply)
    requires Backed(cfg, st, Busy(key, c, DeleteGetting(withPool))) && Named(cfg, st)
    requires key in st.addresses && withPool ==> !reply.Failed?
    ensures BackedOutcome(cfg, StepDeleteGetting(st, key, c, withPool, reply))
  {
    hide Carries, MapIPAddress;
    OwnAddressGoes(cfg, st, st, Busy(key, c, DeleteGetting(withPool)), key);
    hide Backed, Named;
  }

  lemma UnprotectIsFewer(st: Store, key: Key)
    ensures FewerAddresses(st, Unprotect(st, key))
  {
    var st' := Unprotect(st, key);
    assert st'.claims == st.claims && st'.records == st.records;
    forall k | k in st'.addresses
      ensures k in st.addresses && st'.addresses[k].text == st.addresses[k].text && st'.addresses[k].prefix == st.addresses[k].prefix
    {
    }
  }

  lemma UnprotectingBacked(cfg: Config, st: Store, key: Key, c: Claim, withPool: bool, reply: Reply)
    requires Backed(cfg, st, Busy(key, c, DeleteUnprotecting(withPool))) && Named(cfg, st)
    requires key in st.addresses && withPool ==> reply.Done? || (reply.Lost? && st.addresses[key].deleting)
    ensures BackedOutcome(cfg, StepDeleteUnprotecting(st, key, c, withPool, reply))
  {
    hide Unprotect, Backed, Named, FewerAddresses;
    var w := Busy(key, c, DeleteUnprotecting(withPool));
    if reply.Done? || reply.Lost? {
      UnprotectIsFewer(st, key);
      UnprotectHas(st, key);
      OwnAddressGoes(cfg, st, Unprotect(st, key), w, key);
    } else {
      assert FewerAddresses(st, st) by {
        SameIsFewer(st);
      }
      OwnAddressGoes(cfg, st, st, w, key);
    }
  }

  lemma SameIsFewer(st: Store)
    ensures FewerAddresses(st, st)
  {
  }

  lemma UnprotectHas(st: Store, key: Key)
    ensures key in Unprotect(st, key).addresses <==> key in st.addresses && !st.addresses[key].deleting
  {
  }

  lemma DeletingBacked(cfg: Config, st: Store, key: Key, c: Claim, withPool: bool, reply: Reply)
    requires Backed(cfg, st, Busy(key, c, DeleteDeleting(withPool))) && Named(cfg, st)
    requires key in st.addresses ==> !st.addresses[key].protect
    requires key in st.addresses && withPool ==> reply.Done? || reply.Lost?
    ensures BackedOutcome(cfg, StepDeleteDeleting(st, key, c, withPool, reply))
  {
    var st' := DeleteAddress(st, key);
    assert FewerAddresses(st, st') && FewerAddresses(st, st);
    assert key !in st'.addresses;
    hide Carries, MapIPAddress, DeleteAddress;
    OwnAddressGoes(cfg, st, st', Busy(key, c, DeleteDeleting(withPool)), key);
    OwnAddressGoes(cfg, st, st, Busy(key, c, DeleteDeleting(withPool)), key);
    hide Backed, Named, FewerAddresses;
  }

  lemma PatchingBacked(cfg: Config, s: State, reply: Reply)
    requires BackedInv(cfg, s) && s.worker.Busy? && s.worker.pc.Patching? && reply.Wrote?
    ensures BackedOutcome(cfg, Step(cfg, s.store, s.worker.key, s.worker.c, s.worker.pc, reply))
  {
    var st, key, c, pc := s.store, s.worker.key, s.worker.c, s.worker.pc;
    var st' := PatchClaim(st, key, c, pc.update, pc.exit, reply.meta, reply.status);
    if key in st.claims {
      assert key in st.addresses ==> FinalizerAfter(st, key, c, pc.update, reply.meta) by {
        if key in st.addresses {
          AddressKeepsFinalizer(cfg, s, reply.meta);
        }
      }
      hide BackedInv, PatchClaim, BackedOutcome, OneClaim, OnlyClaims, FinalizerAfter;
      PatchIsOnlyClaims(st, key, c, pc.update, pc.exit, reply.meta, reply.status);
      PatchIsOneClaim(st, key, c, pc.update, pc.exit, reply.meta, reply.status);
      OneClaimBacked(cfg, s, st', key, FinalizerAfter(st, key, c, pc.update, reply.meta));
      IdleBacked(cfg, st', s.worker);
    } else {
      BackedParts(cfg, s);
      hide BackedInv;
      IdleBacked(cfg, st, s.worker);
      assert st' == st;
    }
  }

  /** The closing patch takes no finalizer while the address exists. */
  lemma AddressKeepsFinalizer(cfg: Config, s: State, meta: bool)
    requires Inv(cfg, s) && s.worker.Busy? && s.worker.pc.Patching? && s.worker.key in s.store.claims && s.worker.key in s.store.addresses
    ensures FinalizerAfter(s.store, s.worker.key, s.worker.c, s.worker.pc.update, meta)
  {
    InvIsGood(cfg, s);
    assert Addresses(s.store);
    hide StoreInv;
  }

  lemma IdleBacked(cfg: Config, st: Store, w: Worker)
    requires Named(cfg, st) && Backed(cfg, st, w) && w.Busy? && w.pc.Patching?
    ensures BackedOutcome(cfg, Outcome(st, Idle))
  {
    hide Named, OwnIn;
  }

  /** A claim that stays or that has no address can change. */
  lemma OneClaimBacked(cfg: Config, s: State, st': Store, key: Key, fin: bool)
    requires BackedInv(cfg, s) && OneClaim(s.store, st', key, fin) && OnlyClaims(s.store, st')
    requires key in s.store.addresses ==> fin
    ensures Named(cfg, st') && Backed(cfg, st', s.worker)
    ensures s.worker.Busy? ==> PcBacked(cfg, st', s.worker.c, s.worker.pc)
  {
    hide Carries, MapIPAddress;
  }

  // ---- Every event keeps the invariant ----

  lemma OutsideGapAllBacked(cfg: Config, st: Store, w: Worker)
    requires Backed(cfg, st, w) && forall k :: !Gap(w, k)
    ensures AllBacked(cfg, st)
  {
  }

  lemma CallBacked(cfg: Config, s: State, reply: Reply)
    requires Sound(cfg) && BackedInv(cfg, s) && Legal(cfg, s, Call(reply)) && NoStopInGap(s, Call(reply))
    ensures BackedOutcome(cfg, Step(cfg, s.store, s.worker.key, s.worker.c, s.worker.pc, reply))
  {
    if s.worker.pc.Patching? {
      PatchingBacked(cfg, s, reply);
    } else if Gap(s.worker, s.worker.key) || s.worker.pc.DeleteGetting? || s.worker.pc.DeleteUnprotecting? || s.worker.pc.DeleteDeleting? {
      DeleteCallBacked(cfg, s, reply);
    } else {
      OutsideGapCallBacked(cfg, s, reply);
    }
  }

  lemma DeleteCallBacked(cfg: Config, s: State, reply: Reply)
    requires BackedInv(cfg, s) && Legal(cfg, s, Call(reply)) && NoStopInGap(s, Call(reply))
    requires s.worker.pc.DeleteGetting? || s.worker.pc.DeleteUnprotecting? || s.worker.pc.DeleteDeleting?
    ensures BackedOutcome(cfg, Step(cfg, s.store, s.worker.key, s.worker.c, s.worker.pc, reply))
  {
    InvIsGood(cfg, s);
    hide Backed, Named, StoreInv, BackedOutcome, StepDeleteGetting, StepDeleteUnprotecting, StepDeleteDeleting, HasOwn;
    var st, key, c := s.store, s.worker.key, s.worker.c;
    assert Backed(cfg, st, s.worker) && Named(cfg, st) by {
      BackedParts(cfg, s);
    }
    match s.worker.pc
    case DeleteGetting(withPool) => DeleteGettingBacked(cfg, st, key, c, withPool, reply);
    case DeleteUnprotecting(withPool) => UnprotectingBacked(cfg, st, key, c, withPool, reply);
    case DeleteDeleting(withPool) => DeletingBacked(cfg, st, key, c, withPool, reply);
  }

  lemma BackedParts(cfg: Config, s: State)
    requires BackedInv(cfg, s)
    ensures Inv(cfg, s) && Backed(cfg, s.store, s.worker) && Named(cfg, s.store)
    ensures s.worker.Busy? ==> PcBacked(cfg, s.store, s.worker.c, s.worker.pc)
  {
  }

  lemma OutsideGapCallBacked(cfg: Config, s: State, reply: Reply)
    requires Sound(cfg) && BackedInv(cfg, s) && Legal(cfg, s, Call(reply)) && NoStopInGap(s, Call(reply))
    requires !s.worker.pc.Patching? && !s.worker.pc.DeleteGetting? && !s.worker.pc.DeleteUnprotecting? && !s.worker.pc.DeleteDeleting?
    ensures BackedOutcome(cfg, Step(cfg, s.store, s.worker.key, s.worker.c, s.worker.pc, reply))
  {
    InvIsGood(cfg, s);
    BackedParts(cfg, s);
    OutsideGapAllBacked(cfg, s.store, s.worker);
    assert Identity(s.store);
    hide BackedInv, Inv, StoreInv, AllBacked, Named, Backed, Identity, HasOwn, NoRecord, PcInv, Carries, BackedOutcome, Reads,
      StepFetching, StepGetting, StepFinding, StepCheckingField, StepResolving, StepAllocating, StepLookingUpIDs,
      StepLookingUpDetails, StepWriting, StepPolling, StepReleaseGetting, StepReleaseFinding, StepReleaseDeleting;
    var st, key, c, pc := s.store, s.worker.key, s.worker.c, s.worker.pc;
    var o := Step(cfg, st, key, c, pc, reply);
    match pc
    case Getting(pool) =>
      GettingReads(cfg, st, key, c, pool, reply);
      ReadsIsBacked(cfg, st, c, o);
    case Finding(pool, existing, base) =>
      FindingReads(cfg, st, key, c, pool, existing, base, reply);
      ReadsIsBacked(cfg, st, c, o);
    case Allocating(pool, existing, base, ids, i) => AllocatingBacked(cfg, st, key, c, pool, existing, base, ids, i, reply);
    case LookingUpIDs(pool, existing, base, mode) =>
      LookingUpReads(cfg, st, key, c, pool, existing, base, [], mode, reply);
      ReadsIsBacked(cfg, st, c, o);
    case LookingUpDetails(pool, existing, base, ids, mode) =>
      LookingUpReads(cfg, st, key, c, pool, existing, base, ids, mode, reply);
      ReadsIsBacked(cfg, st, c, o);
    case Writing(existing, next) => WritingBacked(cfg, st, key, c, existing, next, reply);
    case ReleaseGetting(_) =>
      ReleaseReads(cfg, st, key, c, pc, reply);
      ReadsIsBacked(cfg, st, c, o);
    case ReleaseFinding(_) =>
      ReleaseReads(cfg, st, key, c, pc, reply);
      ReadsIsBacked(cfg, st, c, o);
    case ReleaseDeleting(id) => ReleaseDeletingBacked(cfg, st, key, c, id, reply);
    case _ =>
      PlainReads(cfg, st, key, c, pc, reply);
      ReadsIsBacked(cfg, st, c, o);
  }

  /** Nothing that a record, an address or a claim's identity depends on changes for the worse. */
  ghost predicate Unharmed(cfg: Config, st: Store, st': Store) {
    && (forall k :: k in st'.addresses ==> k in st.addresses && st'.addresses[k].text == st.addresses[k].text && st'.addresses[k].prefix == st.addresses[k].prefix)
    && (forall k :: k in st.addresses && k in st.claims ==> k in st'.claims && st'.claims[k].uid == st.claims[k].uid)
    && SameTagged(cfg, st, st')
  }

  lemma UnharmedBacked(cfg: Config, st: Store, st': Store, w: Worker)
    requires BackedOutcome(cfg, Outcome(st, w)) && Unharmed(cfg, st, st')
    ensures BackedOutcome(cfg, Outcome(st', w))
  {
    UnharmedNamed(cfg, st, st');
    UnharmedRecords(cfg, st, st');
    hide Carries, NoRecord, HasOwn, Unharmed, Named, MapIPAddress;
    assert Backed(cfg, st', w) by {
      UnharmedKeys(cfg, st, st');
    }
    if w.Busy? {
      assert PcBacked(cfg, st', w.c, w.pc) by {
        if w.pc.ReleaseDeleting? {
          UnharmedRecord(cfg, st, st', w.pc.id, w.c.uid);
        }
      }
    }
  }

  lemma UnharmedNamed(cfg: Config, st: Store, st': Store)
    requires Named(cfg, st) && Unharmed(cfg, st, st')
    ensures Named(cfg, st')
  {
    hide MapIPAddress;
  }

  lemma UnharmedRecords(cfg: Config, st: Store, st': Store)
    requires Unharmed(cfg, st, st')
    ensures forall u: Uid :: HasRecord(cfg, st, u) ==> HasRecord(cfg, st', u)
    ensures forall u: Uid, t, l :: HasOwn(cfg, st, u, t, l) ==> HasOwn(cfg, st', u, t, l)
  {
    hide MapIPAddress;
    forall u: Uid, t, l | HasOwn(cfg, st, u, t, l)
      ensures HasOwn(cfg, st', u, t, l)
    {
      OwnStays(cfg, st, st', u, t, l);
    }
    hide HasOwn;
  }

  lemma UnharmedKeys(cfg: Config, st: Store, st': Store)
    requires Unharmed(cfg, st, st')
    ensures forall k :: k in st'.addresses ==>
      k in st.addresses && st'.addresses[k].text == st.addresses[k].text && st'.addresses[k].prefix == st.addresses[k].prefix
    ensures forall k :: k in st.addresses && k in st.claims ==> k in st'.claims && st'.claims[k].uid == st.claims[k].uid
  {
  }

  lemma UnharmedRecord(cfg: Config, st: Store, st': Store, id: int, uid: Uid)
    requires Unharmed(cfg, st, st') && id in st.records && Carries(cfg, st.records[id], uid)
    ensures id in st'.records && Carries(cfg, st'.records[id], uid)
  {
  }

  lemma ActionUnharmed(cfg: Config, s: State, a: Action)
    requires Inv(cfg, s) && LegalAction(cfg, s, a)
    ensures Unharmed(cfg, s.store, Act(s.store, a))
  {
    assert Addresses(s.store);
    hide Inv;
    var st := s.store;
    match a
    case CreateClaim(key, claim) =>
    case EditClaim(key, annotations, clusterLabel) =>
      UpdateUnharmed(cfg, st, key, (c: Claim) => c.(annotations := annotations, clusterLabel := clusterLabel));
    case DeleteClaim(key) => UpdateUnharmed(cfg, st, key, (c: Claim) => c.(deleting := true));
    case ReleaseClaim(key) => UpdateUnharmed(cfg, st, key, (c: Claim) => c.(held := false));
    case MarkAddress(key) => MarkUnharmed(cfg, st, key);
    case _ =>
      OtherActionSameCore(cfg, s, a);
      OtherActionUnharmed(cfg, s, a);
  }

  lemma MarkUnharmed(cfg: Config, st: Store, key: Key)
    ensures Unharmed(cfg, st, DeleteAddress(st, key))
  {
    DeleteIsAddresses(st, key);
    DeleteIsFewer(st, key);
    hide DeleteAddress;
  }

  lemma DeleteIsFewer(st: Store, key: Key)
    ensures FewerAddresses(st, DeleteAddress(st, key))
  {
    DeleteIsAddresses(st, key);
    if key in st.addresses && st.addresses[key].protect {
      assert DeleteAddress(st, key).addresses == st.addresses[key := st.addresses[key].(deleting := true)];
    }
  }

  lemma OtherActionUnharmed(cfg: Config, s: State, a: Action)
    requires LegalAction(cfg, s, a) && SameCore(cfg, s.store, Act(s.store, a))
    requires !a.CreateClaim? && !a.EditClaim? && !a.DeleteClaim? && !a.ReleaseClaim? && !a.MarkAddress?
    ensures Unharmed(cfg, s.store, Act(s.store, a))
  {
    hide StorePool, NextGeneration;
    if a.AddForeign? || a.RemoveForeign? {
    } else {
      assert Act(s.store, a).records == s.store.records;
    }
  }

  lemma UpdateUnharmed(cfg: Config, st: Store, key: Key, f: Claim -> Claim)
    requires Addresses(st)
    requires forall c :: Kin(c, f(c)) && f(c).finalizer == c.finalizer
    ensures Unharmed(cfg, st, UpdateClaim(st, key, f))
  {
    assert key in st.claims ==> Kin(st.claims[key], f(st.claims[key]));
  }

  lemma EventBacked(cfg: Config, s: State, e: Event)
    requires Sound(cfg) && BackedInv(cfg, s) && Legal(cfg, s, e) && NoStopInGap(s, e)
    ensures BackedInv(cfg, Apply(cfg, s, e))
  {
    hide Inv, HasOwn, NoRecord, Carries, Names, LegalReply, LegalAction, StopsInGap;
    EventKeeps(cfg, s, e);
    BackedParts(cfg, s);
    var s' := Apply(cfg, s, e);
    match e
    case Begin(key, reply) => BeginBacked(cfg, s, key, reply);
    case Call(reply) =>
      CallBacked(cfg, s, reply);
      hide BackedOutcome, Step;
    case Crash => CrashBacked(cfg, s);
    case PoolBegin(_) => hide BackedOutcome;
    case PoolCall(pk, reply) =>
      hide PoolStep, BackedOutcome;
      UnharmedBacked(cfg, s.store, s'.store, s.worker);
    case Other(a) =>
      ActionUnharmed(cfg, s, a);
      hide Act, BackedOutcome, Unharmed;
      UnharmedBacked(cfg, s.store, s'.store, s.worker);
  }

  lemma BeginBacked(cfg: Config, s: State, key: Key, reply: Reply)
    requires BackedInv(cfg, s) && Legal(cfg, s, Begin(key, reply))
    ensures BackedOutcome(cfg, Start(s.store, key, reply))
  {
    BackedParts(cfg, s);
    OutsideGapAllBacked(cfg, s.store, s.worker);
    hide Inv, HasOwn, NoRecord, Named;
  }

  lemma CrashBacked(cfg: Config, s: State)
    requires BackedInv(cfg, s) && NoStopInGap(s, Crash)
    ensures BackedOutcome(cfg, Outcome(s.store, Idle))
  {
  }

  lemma InitBacked(cfg: Config, s: State)
    requires Init(cfg, s)
    ensures BackedInv(cfg, s)
  {
    InitHolds(cfg, s);
  }

  lemma {:induction false} RunBacked(cfg: Config, s: State, run: seq<Event>)
    requires Sound(cfg) && BackedInv(cfg, s) && LegalRun(cfg, s, run) && Along(cfg, s, run, NoStopInGap)
    ensures BackedInv(cfg, Final(cfg, s, run))
    decreases |run|
  {
    hide BackedInv, Legal, Apply, NoStopInGap;
    if run != [] {
      EventBacked(cfg, s, run[0]);
      RunBacked(cfg, Apply(cfg, s, run[0]), run[1..]);
    }
  }

  // ---- The exact condition ----

  /** The worker's facts in the gap, and right before it. */
  lemma GapParts(cfg: Config, s: State)
    requires Inv(cfg, s) && s.worker.Busy?
    requires Gap(s.worker, s.worker.key) || s.worker.pc.ReleaseDeleting?
    ensures s.worker.key in s.store.claims && s.store.claims[s.worker.key].uid == s.worker.c.uid
    ensures Gap(s.worker, s.worker.key) ==> NoRecord(cfg, s.store, s.worker.c.uid)
    ensures s.worker.pc.ReleaseDeleting? ==>
      forall i :: i in s.store.records && i != s.worker.pc.id ==> !Carries(cfg, s.store.records[i], s.worker.c.uid)
  {
    InvIsGood(cfg, s);
    hide StoreInv, Carries;
  }

  /** An address without a record outside the gap is not backed. */
  lemma Unbacked(cfg: Config, s: State, key: Key)
    requires key in s.store.addresses && !Gap(s.worker, key)
    requires key in s.store.claims ==> NoRecord(cfg, s.store, s.store.claims[key].uid)
    ensures !BackedInv(cfg, s)
  {
    hide Inv, Carries, Named;
    assert key in s.store.claims ==> !OwnIn(cfg, s.store, key);
  }

  /** The pass ends and leaves the claim, its address and no record of it behind. */
  lemma StopLeavesAddress(cfg: Config, st: Store, key: Key, c: Claim, pc: Pc, reply: Reply)
    requires key in st.addresses && (reply.Failed? || reply.Lost?)
    requires
      || (pc.ReleaseDeleting? && reply.Lost?)
      || (pc.DeleteGetting? && reply.Failed?)
      || (pc.DeleteUnprotecting? && (reply.Lost? ==> !st.addresses[key].deleting))
      || (pc.DeleteDeleting? && reply.Failed?)
    ensures var o := Step(cfg, st, key, c, pc, reply);
      && o.worker == Busy(key, c, Patching(c, Kept)) && key in o.store.addresses && o.store.claims == st.claims
      && o.store.records == if pc.ReleaseDeleting? then st.records - {pc.id} else st.records
  {
    UnprotectHas(st, key);
    UnprotectIsFewer(st, key);
    hide Unprotect, DeleteAddress;
  }

  lemma StopLosesBacking(cfg: Config, s: State, e: Event)
    requires BackedInv(cfg, s) && Legal(cfg, s, e) && StopsInGap(s, e)
    ensures !BackedInv(cfg, Apply(cfg, s, e))
  {
    var s' := Apply(cfg, s, e);
    var key := s.worker.key;
    assert !Gap(s'.worker, key) && key in s'.store.addresses && (key in s'.store.claims ==> s'.store.claims == s.store.claims)
      && s'.store.records == (if s.worker.pc.ReleaseDeleting? then s.store.records - {s.worker.pc.id} else s.store.records) by {
      if e.Call? {
        StopLeavesAddress(cfg, s.store, key, s.worker.c, s.worker.pc, e.reply);
        hide Step;
      }
      hide BackedInv;
    }
    assert StopsInGap(s, e) ==> s.worker.Busy? && (Gap(s.worker, key) || s.worker.pc.ReleaseDeleting?);
    hide BackedInv, Legal, Apply, StopsInGap, Gap;
    BackedParts(cfg, s);
    hide Inv, Carries;
    GapParts(cfg, s);
    Unbacked(cfg, s', key);
  }

  /** An event keeps every address backed if and only if it is not a stop in the gap with the address still there. */
  lemma BackedUnlessStopped(cfg: Config, s: State, e: Event)
    requires Sound(cfg) && BackedInv(cfg, s) && Legal(cfg, s, e)
    ensures BackedInv(cfg, Apply(cfg, s, e)) <==> !StopsInGap(s, e)
  {
    hide BackedInv, Legal, Apply, StopsInGap;
    if StopsInGap(s, e) {
      StopLosesBacking(cfg, s, e);
    } else {
      assert NoStopInGap(s, e);
      EventBacked(cfg, s, e);
    }
  }

  // ---- The theorem ----

  /** In every run without a stop in the gap, a release only ever deletes the record that carries the releasing
      claim's own UID, and it never gets to the lookup by address. */
  lemma ReleaseDeletesOwnRecord(cfg: Config, s0: State, run: seq<Event>)
    requires Sound(cfg) && Init(cfg, s0) && LegalRun(cfg, s0, run) && Along(cfg, s0, run, NoStopInGap)
    ensures var s := Final(cfg, s0, run);
      s.worker.Busy? ==>
        && !s.worker.pc.ReleaseTrying?
        && (s.worker.pc.ReleaseDeleting? ==>
              s.worker.pc.id in s.store.records && Carries(cfg, s.store.records[s.worker.pc.id], s.worker.c.uid))
  {
    InitBacked(cfg, s0);
    RunBacked(cfg, s0, run);
    BackedParts(cfg, Final(cfg, s0, run));
  }

  /** In the same runs every address has a text and, except while it is being deleted itself, exactly one record
      carries its claim's UID, and that record is where the address and its length come from. */
  lemma EveryAddressIsBacked(cfg: Config, s0: State, run: seq<Event>, key: Key)
    requires Sound(cfg) && Init(cfg, s0) && LegalRun(cfg, s0, run) && Along(cfg, s0, run, NoStopInGap)
    requires key in Final(cfg, s0, run).store.addresses && !Gap(Final(cfg, s0, run).worker, key)
    ensures var st := Final(cfg, s0, run).store;
      && st.addresses[key].text != "" && key in st.claims && Registered(st, key, st.claims[key].uid)
      && exists i :: i in st.records && Carries(cfg, st.records[i], st.claims[key].uid)
                     && Names(st.addresses[key].text, st.addresses[key].prefix, st.records[i])
                     && forall j :: j in st.records && Carries(cfg, st.records[j], st.claims[key].uid) ==> j == i
  {
    InitBacked(cfg, s0);
    RunBacked(cfg, s0, run);
    var st := Final(cfg, s0, run).store;
    assert OwnIn(cfg, st, key);
    var i :| i in st.records && Carries(cfg, st.records[i], st.claims[key].uid)
             && Names(st.addresses[key].text, st.addresses[key].prefix, st.records[i]);
    assert UniqueRecords(cfg, st);
  }
}
