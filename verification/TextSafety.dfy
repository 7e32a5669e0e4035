/** In every reachable state addresses and stamped records have an address text, and records with the ownership
    tag only come from grants. */
module TextSafety {
  import opened Wrappers
  import opened Prefixes
  import opened AddressText
  import opened Owners
  import opened Model
  import opened Protocol
  import opened Frames
  import opened PoolProtocol
  import opened System
  import opened ClaimSafety
  import opened ReleaseSafety
  import opened PoolGuard

  // ---- The invariant ----

  /** An address on its way to the write has a text. */
  predicate PcNamed(pc: Pc) {
    match pc
    case LookingUpIDs(_, _, base, _) => base.text != ""
    case LookingUpDetails(_, _, base, _, _) => base.text != ""
    case Writing(_, next) => next.text != ""
    case _ => true
  }

  ghost predicate NamedOutcome(cfg: Config, o: Outcome) {
    Named(cfg, o.store) && (o.worker.Busy? ==> PcNamed(o.worker.pc))
  }

  ghost predicate TextInv(cfg: Config, s: State) {
    NamedOutcome(cfg, Outcome(s.store, s.worker))
  }

  // ---- What a step does to records and addresses ----

  predicate Grants(pc: Pc, reply: Reply) {
    pc.Allocating? && (reply.Granted? || reply.GrantLost?)
  }

  /** A record after a step was there before, or is the one just granted. */
  lemma StepRecords(cfg: Config, st: Store, key: Key, c: Claim, pc: Pc, reply: Reply)
    ensures var records := Step(cfg, st, key, c, pc, reply).store.records;
      forall i :: i in records ==>
        (i in st.records && records[i] == st.records[i]) || (Grants(pc, reply) && i == reply.id && records[i].text == reply.text)
  {
    if Grants(pc, reply) && pc.i < |pc.ids| && MetadataOk(cfg, c, pc.pool) {
      GrantRecords(cfg, st, key, c, pc, reply);
      hide Step;
    } else {
      OtherRecords(cfg, st, key, c, pc, reply);
      hide Step;
    }
  }

  lemma GrantRecords(cfg: Config, st: Store, key: Key, c: Claim, pc: Pc, reply: Reply)
    requires Grants(pc, reply) && pc.i < |pc.ids| && MetadataOk(cfg, c, pc.pool)
    ensures var records := Step(cfg, st, key, c, pc, reply).store.records;
      records == st.records[reply.id := NewRecord(cfg, key, c, pc.pool, pc.ids[pc.i], reply.text)] && records[reply.id].text == reply.text
  {
    NewRecordText(cfg, key, c, pc.pool, pc.ids[pc.i], reply.text);
    AllocatingStore(cfg, st, key, c, pc, reply);
    AddIsRecords(cfg, st, key, c, pc.pool, pc.ids[pc.i], reply.id, reply.text);
    hide Step, NewRecord, MetadataOk, AddRecord;
  }

  lemma OtherRecords(cfg: Config, st: Store, key: Key, c: Claim, pc: Pc, reply: Reply)
    requires Grants(pc, reply) ==> pc.i >= |pc.ids| || !MetadataOk(cfg, c, pc.pool)
    ensures var records := Step(cfg, st, key, c, pc, reply).store.records;
      forall i :: i in records ==> i in st.records && records[i] == st.records[i]
  {
    if pc.Allocating? {
      AllocatingStore(cfg, st, key, c, pc, reply);
      hide Step, MetadataOk;
    } else if !pc.ReleaseDeleting? {
      StepFrame(cfg, st, key, c, pc, reply);
      hide Step;
    }
  }

  lemma RecordsStayNamed(cfg: Config, st: Store, st': Store, granted: string)
    requires Named(cfg, st)
    requires forall i :: i in st'.records ==>
      (i in st.records && st'.records[i] == st.records[i]) || (st'.records[i].text == granted && MapIPAddress(granted).address != "")
    requires forall k :: k in st'.addresses ==> st'.addresses[k].text != ""
    ensures Named(cfg, st')
  {
    hide Carries, MapIPAddress;
  }

  /** Only texts that the pass has found or read are written. */
  lemma StepTexts(cfg: Config, st: Store, key: Key, c: Claim, pc: Pc, reply: Reply)
    requires Named(cfg, st) && PcNamed(pc)
    ensures var addresses := Step(cfg, st, key, c, pc, reply).store.addresses;
      forall k :: k in addresses ==> addresses[k].text != ""
  {
    hide Carries, MapIPAddress;
    if pc.DeleteUnprotecting? {
      UnprotectIsFewer(st, key);
      hide Unprotect;
    } else if pc.DeleteDeleting? {
      DeleteIsFewer(st, key);
      hide DeleteAddress;
    } else if pc.Writing? {
      WrittenText(st, key, pc.next);
      hide WriteAddress;
    } else {
      StepFrame(cfg, st, key, c, pc, reply);
      hide Step;
    }
  }

  lemma WrittenText(st: Store, key: Key, next: Address)
    ensures var addresses := WriteAddress(st, key, next).addresses;
      forall k :: k in addresses ==> addresses[k].text == if k == key then next.text else if k in st.addresses then st.addresses[k].text else ""
    ensures forall k :: k in WriteAddress(st, key, next).addresses ==> k == key || k in st.addresses
  {
    hide PoolGuards;
  }

  // ---- What a step goes on with ----

  ghost predicate GoesNamed(o: Outcome) {
    o.worker.Busy? ==> PcNamed(o.worker.pc)
  }

  lemma ToWriteNamed(st: Store, key: Key, c: Claim, pool: Pool, existing: Option<Address>, base: Address)
    requires base.text != ""
    ensures GoesNamed(ToWrite(st, key, c, pool, existing, base))
  {
    hide Ensured;
    assert Finish(base, key, c, pool).text == base.text;
  }

  lemma LookUpGatewayNamed(cfg: Config, st: Store, key: Key, c: Claim, pool: Pool, existing: Option<Address>, base: Address, ids: seq<int>, mode: Mode)
    requires base.text != ""
    ensures GoesNamed(LookUpGateway(cfg, st, key, c, pool, existing, base, ids, mode))
  {
    hide ToWrite, GatewayFrom;
    ToWriteNamed(st, key, c, pool, existing, base.(gateway := GatewayFrom(cfg, pool.status.details, base, mode)));
  }

  lemma LookingUpNamed(cfg: Config, st: Store, key: Key, c: Claim, pc: Pc, reply: Reply)
    requires (pc.LookingUpIDs? || pc.LookingUpDetails?) && PcNamed(pc)
    ensures GoesNamed(Step(cfg, st, key, c, pc, reply))
  {
    hide ToWrite, GatewayFrom, ResolveIDs, Build, DetailsOf, GatewayChoice;
    forall pool, existing, base: Address | base.text != ""
      ensures GoesNamed(ToWrite(st, key, c, pool, existing, base))
    {
      ToWriteNamed(st, key, c, pool, existing, base);
    }
  }

  lemma FoundNamed(cfg: Config, st: Store, key: Key, c: Claim, pc: Pc, reply: Reply)
    requires Named(cfg, st) && LegalReply(cfg, st, c, pc, reply)
    requires pc.Finding? || pc.Allocating?
    ensures GoesNamed(Step(cfg, st, key, c, pc, reply))
  {
    hide LookUpGateway, Carries, MapIPAddress, MetadataOk, AddRecord;
    forall st', pool, existing, base: Address, ids, mode | base.text != ""
      ensures GoesNamed(LookUpGateway(cfg, st', key, c, pool, existing, base, ids, mode))
    {
      LookUpGatewayNamed(cfg, st', key, c, pool, existing, base, ids, mode);
    }
  }

  lemma GettingNamed(cfg: Config, st: Store, key: Key, c: Claim, pool: Pool, reply: Reply)
    ensures GoesNamed(StepGetting(st, key, c, pool, reply))
  {
    hide ToWrite;
    if key in st.addresses && st.addresses[key].text != "" {
      ToWriteNamed(st, key, c, pool, Some(st.addresses[key]), st.addresses[key]);
    }
  }

  lemma OtherNamed(cfg: Config, st: Store, key: Key, c: Claim, pc: Pc, reply: Reply)
    requires !pc.Getting? && !pc.Finding? && !pc.Allocating? && !pc.LookingUpIDs? && !pc.LookingUpDetails?
    ensures GoesNamed(Step(cfg, st, key, c, pc, reply))
  {
    hide MetadataOk, ResolveIDs, PoolKeyOf, Candidates, WriteAddress, Unprotect, DeleteAddress, PatchClaim;
  }

  lemma StepGoesNamed(cfg: Config, st: Store, key: Key, c: Claim, pc: Pc, reply: Reply)
    requires Named(cfg, st) && PcNamed(pc) && LegalReply(cfg, st, c, pc, reply)
    ensures GoesNamed(Step(cfg, st, key, c, pc, reply))
  {
    hide Named, LegalReply, GoesNamed, StepGetting;
    match pc
    case Getting(pool) => GettingNamed(cfg, st, key, c, pool, reply);
    case Finding(_, _, _) => FoundNamed(cfg, st, key, c, pc, reply);
    case Allocating(_, _, _, _, _) => FoundNamed(cfg, st, key, c, pc, reply);
    case LookingUpIDs(_, _, _, _) => LookingUpNamed(cfg, st, key, c, pc, reply);
    case LookingUpDetails(_, _, _, _, _) => LookingUpNamed(cfg, st, key, c, pc, reply);
    case _ => OtherNamed(cfg, st, key, c, pc, reply);
  }

  // ---- Every event ----

  lemma CallNamed(cfg: Config, st: Store, key: Key, c: Claim, pc: Pc, reply: Reply)
    requires Named(cfg, st) && PcNamed(pc) && LegalReply(cfg, st, c, pc, reply)
    ensures NamedOutcome(cfg, Step(cfg, st, key, c, pc, reply))
  {
    assert Grants(pc, reply) ==> MapIPAddress(reply.text).address != "";
    hide LegalReply, Step, Named, PcNamed, MapIPAddress;
    StepGoesNamed(cfg, st, key, c, pc, reply);
    StepTexts(cfg, st, key, c, pc, reply);
    StepRecords(cfg, st, key, c, pc, reply);
    RecordsStayNamed(cfg, st, Step(cfg, st, key, c, pc, reply).store, if Grants(pc, reply) then reply.text else "");
  }

  lemma ActionNamed(cfg: Config, s: State, a: Action)
    requires LegalAction(cfg, s, a) && Named(cfg, s.store)
    ensures Named(cfg, Act(s.store, a))
  {
    ActionKeepsTagged(cfg, s, a);
    if a.MarkAddress? {
      DeleteIsFewer(s.store, a.key);
    } else {
      ActionKeepsAddresses(s.store, a);
    }
    hide Act, DeleteAddress, MapIPAddress;
  }

  lemma EventNamed(cfg: Config, s: State, e: Event)
    requires TextInv(cfg, s) && Legal(cfg, s, e)
    ensures TextInv(cfg, Apply(cfg, s, e))
  {
    hide LegalAction, Named;
    match e
    case Begin(key, reply) =>
    case Call(reply) => CallNamed(cfg, s.store, s.worker.key, s.worker.c, s.worker.pc, reply); hide Step, PcNamed;
    case PoolBegin(_) =>
    case PoolCall(pk, reply) => PoolsNamed(cfg, s.store, PoolStep(cfg, s.store, pk, s.poolWorkers[pk], reply).pools); hide PoolStep;
    case Crash =>
    case Other(a) => ActionNamed(cfg, s, a); hide Act;
  }

  lemma PoolsNamed(cfg: Config, st: Store, pools: map<PoolKey, Pool>)
    requires Named(cfg, st)
    ensures Named(cfg, st.(pools := pools))
  {
    hide Carries, MapIPAddress;
  }

  lemma {:induction false} RunNamed(cfg: Config, s: State, run: seq<Event>)
    requires TextInv(cfg, s) && LegalRun(cfg, s, run)
    ensures TextInv(cfg, Final(cfg, s, run))
    decreases |run|
  {
    hide TextInv, Legal, Apply;
    if run != [] {
      EventNamed(cfg, s, run[0]);
      RunNamed(cfg, Apply(cfg, s, run[0]), run[1..]);
    }
  }

  lemma InitNamed(cfg: Config, s: State)
    requires Init(cfg, s)
    ensures TextInv(cfg, s)
  {
    hide MapIPAddress;
  }
}
