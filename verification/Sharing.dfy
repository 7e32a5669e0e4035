/** Two `IPAddress` objects never share an address when NetBox grants unused ones. */
module Sharing {
  import opened AddressText
  import opened Model
  import opened Protocol
  import opened PoolProtocol
  import opened System
  import opened ClaimSafety
  import opened ReleaseSafety
  import opened TextSafety

  /** The record carries some claim's UID. */
  predicate Stamped(cfg: Config, r: Record) {
    cfg.tag in r.tags && cfg.field in r.fields
  }

  /** The granted address is that of no stamped record. */
  predicate GrantsUnused(cfg: Config, s: State, e: Event) {
    e.Call? && s.worker.Busy? && Grants(s.worker.pc, e.reply) ==>
      forall i :: i in s.store.records && Stamped(cfg, s.store.records[i]) ==>
        MapIPAddress(s.store.records[i].text).address != MapIPAddress(e.reply.text).address
  }

  ghost predicate DistinctTexts(cfg: Config, records: map<int, Record>) {
    forall i, j :: i in records && j in records && i != j && Stamped(cfg, records[i]) && Stamped(cfg, records[j]) ==>
      MapIPAddress(records[i].text).address != MapIPAddress(records[j].text).address
  }

  lemma CallKeepsDistinct(cfg: Config, s: State, reply: Reply)
    requires DistinctTexts(cfg, s.store.records) && Legal(cfg, s, Call(reply)) && GrantsUnused(cfg, s, Call(reply))
    ensures DistinctTexts(cfg, Apply(cfg, s, Call(reply)).store.records)
  {
    StepRecords(cfg, s.store, s.worker.key, s.worker.c, s.worker.pc, reply);
    hide Step, MapIPAddress, Stamped, LegalReply;
  }

  lemma EventKeepsDistinct(cfg: Config, s: State, e: Event)
    requires DistinctTexts(cfg, s.store.records) && Legal(cfg, s, e) && GrantsUnused(cfg, s, e)
    ensures DistinctTexts(cfg, Apply(cfg, s, e).store.records)
  {
    match e
    case Call(reply) => CallKeepsDistinct(cfg, s, reply); hide Apply, DistinctTexts;
    case Other(a) =>
      ActionKeepsTagged(cfg, s, a);
      hide Act, MapIPAddress;
    case _ => hide PoolStep, DistinctTexts;
  }

  lemma {:induction false} RunKeepsDistinct(cfg: Config, s: State, run: seq<Event>)
    requires DistinctTexts(cfg, s.store.records) && LegalRun(cfg, s, run) && Along(cfg, s, run, (x, e) => GrantsUnused(cfg, x, e))
    ensures DistinctTexts(cfg, Final(cfg, s, run).store.records)
    decreases |run|
  {
    hide DistinctTexts, Legal, Apply, GrantsUnused;
    if run != [] {
      EventKeepsDistinct(cfg, s, run[0]);
      RunKeepsDistinct(cfg, Apply(cfg, s, run[0]), run[1..]);
    }
  }

  /** Backed addresses of different claims repeat different records. */
  lemma BackedAreDistinct(cfg: Config, st: Store, k: Key, l: Key)
    requires Identity(st) && DistinctTexts(cfg, st.records) && k != l
    requires k in st.addresses && l in st.addresses && k in st.claims && l in st.claims && OwnIn(cfg, st, k) && OwnIn(cfg, st, l)
    ensures st.addresses[k].text != st.addresses[l].text
  {
    hide MapIPAddress;
    var i :| i in st.records && Carries(cfg, st.records[i], st.claims[k].uid)
             && Names(st.addresses[k].text, st.addresses[k].prefix, st.records[i]);
    var j :| j in st.records && Carries(cfg, st.records[j], st.claims[l].uid)
             && Names(st.addresses[l].text, st.addresses[l].prefix, st.records[j]);
    assert st.claims[k].uid != st.claims[l].uid;
    assert i != j;
  }

  /** If NetBox only grants addresses that no stamped record has, and no pass stops in the gap, no two addresses have
      the same text, except perhaps for one that is being deleted. */
  lemma NoSharedAddress(cfg: Config, s0: State, run: seq<Event>, k: Key, l: Key)
    requires Sound(cfg) && Init(cfg, s0) && LegalRun(cfg, s0, run)
    requires Along(cfg, s0, run, NoStopInGap) && Along(cfg, s0, run, (x, e) => GrantsUnused(cfg, x, e))
    requires k in Final(cfg, s0, run).store.addresses && l in Final(cfg, s0, run).store.addresses && k != l
    requires !Gap(Final(cfg, s0, run).worker, k) && !Gap(Final(cfg, s0, run).worker, l)
    ensures Final(cfg, s0, run).store.addresses[k].text != Final(cfg, s0, run).store.addresses[l].text
  {
    NoneAtFirst(cfg, s0);
    hide LegalRun, Final, Along, Init, DistinctTexts, GrantsUnused, BackedInv, OwnIn, Identity, Gap;
    InitBacked(cfg, s0);
    RunBacked(cfg, s0, run);
    RunKeepsDistinct(cfg, s0, run);
    var s := Final(cfg, s0, run);
    OwnOf(cfg, s, k);
    OwnOf(cfg, s, l);
    BackedAreDistinct(cfg, s.store, k, l);
  }

  lemma NoneAtFirst(cfg: Config, s: State)
    requires Init(cfg, s)
    ensures DistinctTexts(cfg, s.store.records)
  {
    hide MapIPAddress;
  }

  lemma OwnOf(cfg: Config, s: State, k: Key)
    requires BackedInv(cfg, s) && k in s.store.addresses && !Gap(s.worker, k)
    ensures k in s.store.claims && OwnIn(cfg, s.store, k) && Identity(s.store)
  {
  }
}
