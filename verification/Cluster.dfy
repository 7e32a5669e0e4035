/** The external calls of a claim pass as methods on an object that holds both stores. Each call takes the next
    answer from outside, whatever that is, and shows its caller no more than the client libraries do. Ghost
    state follows along with the step machine. */
module Cluster {
  import opened Wrappers
  import opened Prefixes
  import opened Annotations
  import opened AddressText
  import opened Model
  import opened Protocol
  import opened Frames
  import opened PoolProtocol
  import opened System
  import opened ClaimSafety

  /** What a read of the pool shows. */
  datatype Fetch = Fetched(pool: Pool) | NotFound | FetchFailed

  /** What an allocation shows. */
  datatype Grant = Given(text: string) | Full | GrantFailed

  datatype Hit = Hit(id: int, text: string)

  /** The second log is the first one and further calls. */
  ghost predicate Continues(log: seq<Event>, log': seq<Event>) {
    && |log| <= |log'| && log'[..|log|] == log
    && forall k :: |log| <= k < |log'| ==> log'[k].Call?
  }

  lemma ContinuesSame(log: seq<Event>)
    ensures Continues(log, log)
  {
  }

  lemma OneCallMore(a: seq<Event>, b: seq<Event>, e: Event)
    requires Continues(a, b) && e.Call?
    ensures Continues(a, b + [e])
  {
  }

  /** What follows the beginning of a pass. */
  lemma LogAfter(before: seq<Event>, begun: seq<Event>, log: seq<Event>, e: Event)
    requires begun == before + [e] && Continues(begun, log)
    ensures |log| > |before| && log[..|before|] == before && log[|before|] == e && log[..|before| + 1] == begun
  {
    assert log[..|before|] == log[..|begun|][..|before|];
  }

  lemma {:induction false} OneMore(cfg: Config, s: State, run: seq<Event>, e: Event)
    requires LegalRun(cfg, s, run) && Legal(cfg, Final(cfg, s, run), e)
    ensures LegalRun(cfg, s, run + [e]) && Final(cfg, s, run + [e]) == Apply(cfg, Final(cfg, s, run), e)
    decreases |run|
  {
    hide Legal, Apply;
    if run != [] {
      OneMore(cfg, Apply(cfg, s, run[0]), run[1..], e);
      assert (run + [e])[1..] == run[1..] + [e];
    } else {
      assert (run + [e])[1..] == [];
    }
  }

  /** What a lookup shows. */
  function SeenHit(st: Store, reply: Reply): Result<Option<Hit>> {
    match reply
    case Found(id) => if id in st.records then Ok(Some(Hit(id, st.records[id].text))) else Err
    case Missing => Ok(None)
    case _ => Err
  }

  class Stores {
    const cfg: Config
    const answers: nat -> Reply
    ghost const start: State
    var store: Store
    var clock: nat
    ghost var worker: Worker
    ghost var log: seq<Event>

    ghost function Now(): State
      reads this
    {
      State(store, worker, start.poolWorkers)
    }

    /** What has happened is a run of the machine. */
    ghost predicate Valid()
      reads this
    {
      LegalRun(cfg, start, log) && Final(cfg, start, log) == Now()
    }

    constructor (cfg: Config, store: Store, answers: nat -> Reply, ghost poolWorkers: map<PoolKey, PoolWorker>)
      ensures Valid() && this.cfg == cfg && this.store == store && worker == Idle && log == []
      ensures start == State(store, Idle, poolWorkers)
    {
      this.cfg, this.answers, this.store, clock := cfg, answers, store, 0;
      start, worker, log := State(store, Idle, poolWorkers), Idle, [];
    }

    method Next() returns (reply: Reply)
      modifies this`clock
      ensures Valid() == old(Valid())
    {
      reply := answers(clock);
      clock := clock + 1;
    }

    /** The machine is in a pass for the claim, at this call. */
    ghost predicate At(key: Key, c: Claim, pc: Pc)
      reads this
    {
      worker == Busy(key, c, pc)
    }

    /** The claim and its cluster; nothing if either read fails or the cluster is paused. */
    method GetClaim(key: Key) returns (r: Option<Claim>, ghost reply: Reply)
      requires Valid() && worker == Idle
      modifies this
      ensures Valid() && log == old(log) + [Begin(key, reply)]
      ensures Outcome(store, worker) == Start(old(store), key, reply)
      ensures r == if reply.Done? then Lookup(store.claims, key) else None
    {
      hide LegalRun, Final, Step;
      var raw := Next();
      reply := if raw.Done? || raw.Skip? then raw else Failed;
      r := if raw.Done? then Lookup(store.claims, key) else None;
      OneMore(cfg, start, log, Begin(key, reply));
      worker := Start(store, key, reply).worker;
      log := log + [Begin(key, reply)];
    }

    /** The machine has taken one step with this answer. */
    ghost predicate Took(reply: Reply, store0: Store, worker0: Worker, log0: seq<Event>)
      reads this
    {
      && Valid() && worker0.Busy? && log == log0 + [Call(reply)]
      && LegalReply(cfg, store0, worker0.c, worker0.pc, reply)
      && Outcome(store, worker) == Step(cfg, store0, worker0.key, worker0.c, worker0.pc, reply)
    }

    /** The machine takes the step that the store has already taken. */
    ghost method Follow(before: Store, reply: Reply)
      requires worker.Busy? && LegalReply(cfg, before, worker.c, worker.pc, reply)
      requires LegalRun(cfg, start, log) && Final(cfg, start, log) == State(before, worker, start.poolWorkers)
      requires store == Step(cfg, before, worker.key, worker.c, worker.pc, reply).store
      modifies this`worker, this`log
      ensures Took(reply, before, old(worker), old(log))
    {
      hide LegalRun, Final, Step, LegalReply;
      OneMore(cfg, start, log, Call(reply));
      worker := Step(cfg, before, worker.key, worker.c, worker.pc, reply).worker;
      log := log + [Call(reply)];
    }

    /** The pool object; there is no call for a kind that is not supported. */
    method GetPool(pk: Option<PoolKey>) returns (r: Fetch, ghost reply: Reply)
      requires Valid() && worker.Busy? && worker.pc.Fetching? && pk == PoolKeyOf(worker.key.namespace, worker.c.poolRef)
      modifies this
      ensures Took(reply, old(store), old(worker), old(log))
      ensures store == old(store) && reply.Failed? == r.FetchFailed?
      ensures r.NotFound? ==> pk.Some? && pk.value !in store.pools
      ensures r.Fetched? ==> pk.Some? && pk.value in store.pools && store.pools[pk.value] == r.pool
    {
      hide Legal, Apply, LegalRun, Final;
      ghost var before := store;
      var raw := Next();
      var answer := if pk.Some? && raw.Done? then raw else Failed;
      r := if answer.Failed? then FetchFailed else if pk.value in store.pools then Fetched(store.pools[pk.value]) else NotFound;
      reply := answer;
      Follow(before, reply);
    }

    /** The `IPAddress` object. */
    method GetAddress(key: Key) returns (r: Result<Option<Address>>, ghost reply: Reply)
      requires Valid() && worker.Busy? && key == worker.key && (worker.pc.Getting? || worker.pc.ReleaseGetting? || worker.pc.DeleteGetting?)
      modifies this
      ensures Took(reply, old(store), old(worker), old(log))
      ensures store == old(store)
      ensures r == if reply.Failed? then Err else Ok(Lookup(store.addresses, key))
    {
      hide Legal, Apply, LegalRun, Final;
      ghost var before := store;
      var raw := Next();
      var answer := if raw.Done? then raw else Failed;
      r := if answer.Failed? then Err else Ok(Lookup(store.addresses, key));
      reply := answer;
      Follow(before, reply);
    }

    /** The record that carries the UID, with its ID and its text. */
    method FindByClaimUID(uid: Uid) returns (r: Result<Option<Hit>>, ghost reply: Reply)
      requires Valid() && worker.Busy? && uid == worker.c.uid && (worker.pc.Finding? || worker.pc.ReleaseFinding?)
      modifies this
      ensures Took(reply, old(store), old(worker), old(log))
      ensures store == old(store)
      ensures r == SeenHit(store, reply)
      ensures r.Err? ==> reply.Failed?
    {
      hide Legal, Apply, LegalRun, Final;
      ghost var before := store;
      var raw := Next();
      var answer := if LegalByUID(cfg, store, uid, raw) then raw else Failed;
      r := SeenHit(store, answer);
      reply := answer;
      Follow(before, reply);
    }

    /** The record that answers the text. */
    method FindByAddress(query: string) returns (r: Result<Option<Hit>>, ghost reply: Reply)
      requires Valid() && worker.Busy? && worker.pc.ReleaseTrying? && worker.pc.candidates != [] && query == worker.pc.candidates[0]
      modifies this
      ensures Took(reply, old(store), old(worker), old(log))
      ensures store == old(store)
      ensures r == SeenHit(store, reply)
      ensures r.Err? ==> reply.Failed?
    {
      hide Legal, Apply, LegalRun, Final, Answering, Carries;
      ghost var before := store;
      var raw := Next();
      var answer := if (raw.Found? && raw.id in store.records && Answering(cfg, store.records[raw.id], query))
                       || (raw.Missing? && forall id :: id in store.records ==> !Answering(cfg, store.records[id], query))
                    then raw else Failed;
      r := SeenHit(store, answer);
      reply := answer;
      Follow(before, reply);
    }

    /** Does the custom field exist? */
    method CheckField() returns (ok: bool, ghost reply: Reply)
      requires Valid() && worker.Busy? && worker.pc.CheckingField?
      modifies this
      ensures Took(reply, old(store), old(worker), old(log))
      ensures store == old(store) && ok == reply.Done?
    {
      hide Legal, Apply, LegalRun, Final;
      ghost var before := store;
      var raw := Next();
      var answer := if raw.Done? then raw else Failed;
      ok := answer.Done?;
      reply := answer;
      Follow(before, reply);
    }

    /** The IDs of a pool's prefix references. */
    method ResolveReferences(refs: seq<PrefixRef>) returns (r: Result<seq<int>>, ghost reply: Reply)
      requires Valid() && worker.Busy? && (worker.pc.Resolving? || worker.pc.LookingUpIDs?)
      modifies this
      ensures Took(reply, old(store), old(worker), old(log))
      ensures store == old(store)
      ensures r == if reply.Done? then ResolveIDs(store.prefixes, refs) else Err
    {
      hide Legal, Apply, LegalRun, Final;
      ghost var before := store;
      var raw := Next();
      var answer := if raw.Done? then raw else Failed;
      r := if answer.Done? then ResolveIDs(store.prefixes, refs) else Err;
      reply := answer;
      Follow(before, reply);
    }

    /** The details of the prefixes. */
    method GetDetails(ids: seq<int>) returns (r: Result<seq<PrefixDetail>>, ghost reply: Reply)
      requires Valid() && worker.Busy? && worker.pc.LookingUpDetails?
      modifies this
      ensures Took(reply, old(store), old(worker), old(log))
      ensures store == old(store)
      ensures r == if reply.Done? then Ok(DetailsOf(store.prefixes, ids)) else Err
    {
      hide Legal, Apply, LegalRun, Final;
      ghost var before := store;
      var raw := Next();
      var answer := if raw.Done? then raw else Failed;
      r := if answer.Done? then Ok(DetailsOf(store.prefixes, ids)) else Err;
      reply := answer;
      Follow(before, reply);
    }

    /** A new record from the prefix. A lost response looks like any other error. */
    method Allocate(prefix: int, key: Key, claim: Claim, pool: Pool, metadata: Metadata) returns (r: Grant, ghost reply: Reply)
      requires Valid() && worker.Busy? && worker.pc.Allocating? && worker.pc.i < |worker.pc.ids| && prefix == worker.pc.ids[worker.pc.i]
      requires key == worker.key && claim == worker.c && pool == worker.pc.pool
      requires Effective(cfg.parse, pool.spec.defaults, claim.annotations) == Ok(metadata)
      modifies this
      ensures Took(reply, old(store), old(worker), old(log))
      ensures r == (if reply.Granted? then Given(reply.text) else if reply.NoRoom? then Full else GrantFailed)
    {
      hide Legal, Apply, LegalRun, Final, Effective, MapIPAddress, StepAllocating, AddRecord;
      ghost var before := store;
      var raw := Next();
      var answer := if raw.NoRoom? || ((raw.Granted? || raw.GrantLost?) && raw.id !in store.records && MapIPAddress(raw.text).address != "")
                    then raw else Failed;
      if answer.Granted? || answer.GrantLost? {
        store := AddRecord(cfg, store, key, claim, pool, prefix, answer.id, answer.text);
      }
      r := if answer.Granted? then Given(answer.text) else if answer.NoRoom? then Full else GrantFailed;
      reply := answer;
      AllocatingStore(cfg, before, key, claim, worker.pc, answer);
      Follow(before, reply);
    }

    /** Creates or patches the `IPAddress`. */
    method WriteIPAddress(key: Key, existing: Option<Address>, next: Address) returns (ok: bool, ghost reply: Reply)
      requires Valid() && worker.Busy? && key == worker.key && worker.pc == Writing(existing, next)
      modifies this
      ensures Took(reply, old(store), old(worker), old(log))
      ensures ok == (reply.Done? && existing.Some? == (key in old(store.addresses)))
    {
      hide Legal, Apply, LegalRun, Final;
      ghost var before := store;
      var raw := Next();
      var answer := if raw.Done? || raw.Lost? then raw else Failed;
      var possible := existing.Some? == (key in store.addresses);
      if possible && !answer.Failed? {
        store := WriteAddress(store, key, next);
      }
      ok := possible && answer.Done?;
      reply := answer;
      Follow(before, reply);
    }

    /** Waits until the `IPAddress` is visible. */
    method PollIPAddress(key: Key) returns (ok: bool, ghost reply: Reply)
      requires Valid() && worker.Busy? && key == worker.key && worker.pc.Polling?
      modifies this
      ensures Took(reply, old(store), old(worker), old(log))
      ensures store == old(store) && ok == (reply.Done? && key in store.addresses)
    {
      hide Legal, Apply, LegalRun, Final;
      ghost var before := store;
      var raw := Next();
      var answer := if raw.Done? then raw else Failed;
      ok := answer.Done? && key in store.addresses;
      reply := answer;
      Follow(before, reply);
    }

    /** Deletes the record; one that is gone already is fine. */
    method DeleteRecord(id: int) returns (ok: bool, ghost reply: Reply)
      requires Valid() && worker.Busy? && worker.pc == ReleaseDeleting(id)
      modifies this
      ensures Took(reply, old(store), old(worker), old(log))
      ensures ok == reply.Done?
    {
      hide Legal, Apply, LegalRun, Final;
      ghost var before := store;
      var raw := Next();
      var answer := if raw.Done? || raw.Lost? then raw else Failed;
      if !answer.Failed? {
        store := store.(records := store.records - {id});
      }
      ok := answer.Done?;
      reply := answer;
      Follow(before, reply);
    }

    /** Takes the protection from the `IPAddress`. */
    method RemoveProtection(key: Key) returns (ok: bool, ghost reply: Reply)
      requires Valid() && worker.Busy? && key == worker.key && worker.pc.DeleteUnprotecting?
      modifies this
      ensures Took(reply, old(store), old(worker), old(log))
      ensures ok == reply.Done?
    {
      hide Legal, Apply, LegalRun, Final;
      ghost var before := store;
      var raw := Next();
      var answer := if raw.Done? || raw.Lost? then raw else Failed;
      if !answer.Failed? {
        store := Unprotect(store, key);
      }
      ok := answer.Done?;
      reply := answer;
      Follow(before, reply);
    }

    /** Deletes the `IPAddress`. */
    method DeleteIPAddress(key: Key) returns (ok: bool, ghost reply: Reply)
      requires Valid() && worker.Busy? && key == worker.key && worker.pc.DeleteDeleting?
      modifies this
      ensures Took(reply, old(store), old(worker), old(log))
      ensures ok == reply.Done?
    {
      hide Legal, Apply, LegalRun, Final;
      ghost var before := store;
      var raw := Next();
      var answer := if raw.Done? || raw.Lost? then raw else Failed;
      if !answer.Failed? {
        store := DeleteAddress(store, key);
      }
      ok := answer.Done?;
      reply := answer;
      Follow(before, reply);
    }

    /** The closing patch, of which either part may fail. */
    method ClosingPatch(key: Key, was: Claim, now: Claim, exit: Exit) returns (ghost reply: Reply)
      requires Valid() && worker.Busy? && worker == Busy(key, was, Patching(now, exit))
      modifies this
      ensures Took(reply, old(store), old(worker), old(log))
      ensures worker == Idle
    {
      hide Legal, Apply, LegalRun, Final;
      ghost var before := store;
      var raw := Next();
      var answer := if raw.Wrote? then raw else Wrote(false, false);
      store := PatchClaim(store, key, was, now, exit, answer.meta, answer.status);
      reply := answer;
      Follow(before, reply);
    }
  }
}
