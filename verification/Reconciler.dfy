/** The code of a claim pass, call by call, against the step machine: every pass is a run of the machine
    (pkg/ipamutil/reconciler.go:126-374; internal/controller/ipaddressclaim_controller.go:101-379). */
module Reconciler {
  import opened Wrappers
  import opened Gateway
  import opened Prefixes
  import opened Annotations
  import opened AddressText
  import opened Owners
  import opened Model
  import opened Protocol
  import opened Frames
  import opened System
  import opened ClaimSafety
  import opened Cluster

  /** The claim object that the parts of a pass share. */
  class ClaimObject {
    var it: Claim

    constructor (claim: Claim)
      ensures it == claim
    {
      it := claim;
    }
  }

  /** The `IPAddress` object in the making. */
  class AddressObject {
    var it: Address

    constructor (address: Address)
      ensures it == address
    {
      it := address;
    }
  }

  datatype Ensure = Filled | Exhausted | EnsureFailed

  class ClaimHandler {
    const stores: Stores
    const key: Key
    const claim: ClaimObject
    var pool: Option<Pool>

    constructor (stores: Stores, key: Key, claim: ClaimObject)
      ensures this.stores == stores && this.key == key && this.claim == claim && pool == None
    {
      this.stores, this.key, this.claim, pool := stores, key, claim, None;
    }

    /** The machine stands at `o` with the stores as they are. */
    ghost predicate Reached(o: Outcome)
      reads stores
    {
      stores.Valid() && o == Outcome(stores.store, stores.worker)
    }

    method FetchPool() returns (r: Fetch)
      requires stores.Valid() && stores.worker == Busy(key, claim.it, Fetching)
      modifies stores, this`pool
      ensures stores.Valid() && Continues(old(stores.log), stores.log) && stores.store == old(stores.store)
      ensures r.Fetched? ==> pool == Some(r.pool)
      ensures !r.Fetched? ==> pool == old(pool)
      ensures stores.worker == AfterFetch(key, claim.it, r)
    {
      hide LegalRun, Final, LegalReply;
      ghost var reply;
      var pk := PoolKeyOf(key.namespace, claim.it.poolRef);
      r, reply := stores.GetPool(pk);
      if r.Fetched? {
        pool := Some(r.pool);
      }
    }

    /** The details to find a gateway in: the cached ones, else those of a live lookup, else none. */
    method GatewayDetails(known: seq<int>, ghost existing: Option<Address>, ghost base: Address, ghost mode: Mode)
        returns (details: seq<ResolvedPrefix>)
      requires pool.Some?
      requires Reached(LookUpGateway(stores.cfg, stores.store, key, claim.it, pool.value, existing, base, known, mode))
      modifies stores
      ensures Continues(old(stores.log), stores.log)
      ensures Reached(WithGateway(stores.cfg, stores.store, key, claim.it, pool.value, existing, base, details, mode))
    {
      hide LegalRun, Final, LegalReply, WithGateway, GatewayChoice, DetailsOf, Build;
      var p := pool.value;
      if |p.status.details| > 0 {
        return p.status.details;
      }
      details := LiveDetails(known, existing, base, mode);
    }

    /** The live lookup; any failure in it means no details. */
    method LiveDetails(known: seq<int>, ghost existing: Option<Address>, ghost base: Address, ghost mode: Mode)
        returns (details: seq<ResolvedPrefix>)
      requires pool.Some?
      requires Reached(At(stores.store, key, claim.it,
        if known == [] then LookingUpIDs(pool.value, existing, base, mode) else LookingUpDetails(pool.value, existing, base, known, mode)))
      modifies stores
      ensures Continues(old(stores.log), stores.log)
      ensures Reached(WithGateway(stores.cfg, stores.store, key, claim.it, pool.value, existing, base, details, mode))
    {
      hide LegalRun, Final, LegalReply, WithGateway, GatewayChoice, DetailsOf, Build, ResolveIDs;
      ghost var reply;
      var ids := known;
      if |ids| == 0 {
        var resolved;
        resolved, reply := stores.ResolveReferences(pool.value.spec.gateways.prefixes);
        if resolved.Err? {
          return [];
        }
        ids := resolved.value;
      }
      var fetched;
      fetched, reply := stores.GetDetails(ids);
      if fetched.Err? {
        return [];
      }
      var built := BuildResolvedPrefixes(stores.cfg.ip, pool.value.spec.gateways, ids, fetched.value);
      if built.Err? {
        return [];
      }
      return built.value.entries;
    }

    /** Where the machine stands after the address was asked for. */
    ghost predicate EnsuredAt(r: Ensure, existing: Option<Address>, address: Address)
      requires pool.Some?
      reads this, claim, stores
    {
      match r
      case Filled => Reached(ToWrite(stores.store, key, claim.it, pool.value, existing, address))
      case Exhausted => Reached(Report(stores.store, key, claim.it, PoolExhausted))
      case EnsureFailed => Reached(Fail(stores.store, key, claim.it))
    }

    /** An address with a text stays; else the claim's record is reused, or the first prefix with room gives one. */
    method EnsureAddress(address: AddressObject, ghost existing: Option<Address>) returns (r: Ensure)
      requires pool.Some?
      requires address.it.text != "" ==> Reached(ToWrite(stores.store, key, claim.it, pool.value, existing, address.it))
      requires address.it.text == "" ==> Reached(At(stores.store, key, claim.it, Finding(pool.value, existing, address.it)))
      modifies stores, address
      ensures Continues(old(stores.log), stores.log)
      ensures EnsuredAt(r, existing, address.it)
    {
      hide LegalRun, Final, LegalReply, ToWrite, MapIPAddress, GatewayFrom, LookUpGateway, Effective;
      if address.it.text != "" {
        return Filled;
      }
      var p := pool.value;
      ghost var reply;
      var found;
      found, reply := stores.FindByClaimUID(claim.it.uid);
      if found.Err? {
        return EnsureFailed;
      }
      if found.value.Some? {
        r := FillFromRecord(address, existing, found.value.value.text);
        return;
      }
      r := AllocateNew(address, existing);
    }

    /** The way to a new record: the field, the prefixes and the metadata first. */
    method AllocateNew(address: AddressObject, ghost existing: Option<Address>) returns (r: Ensure)
      requires pool.Some?
      requires Reached(At(stores.store, key, claim.it, CheckingField(pool.value, existing, address.it)))
      modifies stores, address
      ensures Continues(old(stores.log), stores.log)
      ensures EnsuredAt(r, existing, address.it)
    {
      hide LegalRun, Final, LegalReply, ToWrite, ResolveIDs, Effective;
      var p := pool.value;
      ghost var reply;
      var ok;
      ok, reply := stores.CheckField();
      if !ok {
        return EnsureFailed;
      }
      var ids := p.status.resolved;
      if |ids| == 0 {
        var resolved;
        resolved, reply := stores.ResolveReferences(p.spec.gateways.prefixes);
        if resolved.Err? {
          return EnsureFailed;
        }
        ids := resolved.value;
      }
      var metadata := EffectivePoolMetadata(stores.cfg.parse, p.spec.defaults, claim.it.annotations);
      if metadata.Err? {
        return EnsureFailed;
      }
      r := AllocateFromFirst(address, existing, ids, metadata.value);
    }

    method FillFromRecord(address: AddressObject, ghost existing: Option<Address>, text: string) returns (r: Ensure)
      requires pool.Some?
      requires Reached(LookUpGateway(stores.cfg, stores.store, key, claim.it, pool.value, existing, WithText(address.it, text),
                                     pool.value.status.resolved, ByAddress))
      modifies stores, address
      ensures Continues(old(stores.log), stores.log)
      ensures EnsuredAt(r, existing, address.it)
    {
      hide LegalRun, Final, LegalReply, ToWrite, MapIPAddress, LookUpGateway;
      var mapped := MapIPAddress(text);
      address.it := address.it.(text := mapped.address, prefix := Some(mapped.prefix));
      var details := GatewayDetails(pool.value.status.resolved, existing, address.it, ByAddress);
      address.it := address.it.(gateway := GatewayForAddress(stores.cfg.ip, details, address.it.text));
      return Filled;
    }

    /** The loop over the prefixes. */
    method AllocateFromFirst(address: AddressObject, ghost existing: Option<Address>, ids: seq<int>, metadata: Metadata)
        returns (r: Ensure)
      requires pool.Some? && Effective(stores.cfg.parse, pool.value.spec.defaults, claim.it.annotations) == Ok(metadata)
      requires Reached(NextPrefix(stores.store, key, claim.it, pool.value, existing, address.it, ids, 0))
      modifies stores, address
      ensures Continues(old(stores.log), stores.log)
      ensures EnsuredAt(r, existing, address.it)
    {
      hide LegalRun, Final, LegalReply, ToWrite, MapIPAddress, LookUpGateway, Effective, AddRecord;
      ghost var reply;
      for i := 0 to |ids|
        invariant Continues(old(stores.log), stores.log) && address.it == old(address.it)
        invariant Reached(NextPrefix(stores.store, key, claim.it, pool.value, existing, address.it, ids, i))
      {
        var grant;
        ghost var before := stores.store;
        grant, reply := stores.Allocate(ids[i], key, claim.it, pool.value, metadata);
        match grant
        case Full =>
        case GrantFailed => return EnsureFailed;
        case Given(text) =>
          LookUpKeepsStore(stores.cfg, AddRecord(stores.cfg, before, key, claim.it, pool.value, ids[i], reply.id, text),
                           key, claim.it, pool.value, existing, WithText(address.it, text), ids, ByPrefix(ids[i]));
          var mapped := MapIPAddress(text);
          address.it := address.it.(text := mapped.address, prefix := Some(mapped.prefix));
          var details := GatewayDetails(ids, existing, address.it, ByPrefix(ids[i]));
          address.it := address.it.(gateway := GatewayForPrefixID(details, ids[i]));
          return Filled;
      }
      return Exhausted;
    }

    /** The record to release: by the claim's UID, else by the texts of the address. */
    method FindExisting(address: Option<Address>) returns (r: Result<Option<int>>)
      requires stores.Valid() && stores.worker == Busy(key, claim.it, ReleaseFinding(address))
      modifies stores
      ensures stores.Valid() && Continues(old(stores.log), stores.log)
      ensures stores.worker == Busy(key, claim.it,
        if r.Ok? && r.value.Some? then ReleaseDeleting(r.value.value)
        else if r.Ok? && address.None? then DeleteGetting(true)
        else Patching(claim.it, Kept))
    {
      hide LegalRun, Final, LegalReply, MapIPAddress, Candidates;
      ghost var reply;
      var hit;
      hit, reply := stores.FindByClaimUID(claim.it.uid);
      if hit.Err? {
        return Err;
      }
      if hit.value.Some? {
        return Ok(Some(hit.value.value.id));
      }
      if address.None? {
        return Ok(None);
      }
      r := TryInTurn(Candidates(address.value.text, address.value.prefix));
    }

    /** The lookups by address, most specific text first. */
    method TryInTurn(candidates: seq<string>) returns (r: Result<Option<int>>)
      requires Reached(TryCandidates(stores.store, key, claim.it, candidates))
      modifies stores
      ensures stores.Valid() && Continues(old(stores.log), stores.log)
      ensures stores.worker == Busy(key, claim.it,
        if r.Ok? && r.value.Some? then ReleaseDeleting(r.value.value) else Patching(claim.it, Kept))
    {
      hide LegalRun, Final, LegalReply;
      for i := 0 to |candidates|
        invariant Continues(old(stores.log), stores.log)
        invariant Reached(TryCandidates(stores.store, key, claim.it, candidates[i..]))
      {
        var hit;
        ghost var reply;
        hit, reply := stores.FindByAddress(candidates[i]);
        if hit.Err? {
          return Err;
        }
        if hit.value.Some? {
          return Ok(Some(hit.value.value.id));
        }
        assert candidates[i..][1..] == candidates[i + 1..];
      }
      return Ok(None);
    }

    method ReleaseAddress() returns (ok: bool)
      requires stores.Valid()
      requires stores.worker == Busy(key, claim.it, if pool.Some? then ReleaseGetting(pool.value) else DeleteGetting(false))
      modifies stores
      ensures stores.Valid() && Continues(old(stores.log), stores.log)
      ensures stores.worker == Busy(key, claim.it, if ok then DeleteGetting(pool.Some?) else Patching(claim.it, Kept))
    {
      hide LegalRun, Final, LegalReply;
      if pool.None? {
        return true;
      }
      ghost var reply;
      var got;
      got, reply := stores.GetAddress(key);
      if got.Err? {
        return false;
      }
      var found := FindExisting(got.value);
      if found.Err? {
        return false;
      }
      if found.value.None? {
        return got.value.None?;
      }
      ok, reply := stores.DeleteRecord(found.value.value);
    }
  }

  /** Where the machine stands after the pool was fetched. */
  function AfterFetch(key: Key, c: Claim, r: Fetch): Worker {
    match r
    case FetchFailed => Busy(key, c, Patching(c.(ready := NotReady(AllocationFailed)), Kept))
    case NotFound =>
      if c.deleting then Busy(key, c, DeleteGetting(false)) else Busy(key, c, Patching(c.(ready := NotReady(PoolNotFound)), Kept))
    case Fetched(pool) =>
      if pool.paused then Busy(key, c, Patching(c.(ready := NotReady(PoolPaused)), Kept))
      else Busy(key, c, if c.deleting then ReleaseGetting(pool) else Getting(pool))
  }

  /** How the closing patch ends the claim's registration. */
  function ExitOf(was: Claim, now: Claim, withPool: bool): Exit {
    if was.finalizer && !now.finalizer then (if withPool then Released else Abandoned) else Kept
  }

  class ClaimReconciler {
    const stores: Stores

    constructor (stores: Stores)
      ensures this.stores == stores
    {
      this.stores := stores;
    }

    /** One whole pass. Whatever the calls answer, it is a run of the machine that begins and ends idle, so the
        stores keep the invariant of all runs. */
    method Reconcile(key: Key)
      requires Sound(stores.cfg) && stores.Valid() && stores.worker == Idle
      modifies stores
      ensures stores.Valid() && stores.worker == Idle
      ensures |stores.log| > |old(stores.log)| && Continues(stores.log[..|old(stores.log)| + 1], stores.log)
      ensures stores.log[..|old(stores.log)|] == old(stores.log)
      ensures stores.log[|old(stores.log)|].Begin? && stores.log[|old(stores.log)|].key == key
      ensures Inv(stores.cfg, stores.start) ==> Inv(stores.cfg, stores.Now())
    {
      hide LegalRun, Final, LegalReply, Inv, Continues;
      ghost var reply;
      var got;
      ghost var before := stores.log;
      got, reply := stores.GetClaim(key);
      ghost var begun, first := stores.log, Begin(key, reply);
      ContinuesSame(begun);
      if got.Some? {
        var claim := new ClaimObject(got.value);
        var handler := new ClaimHandler(stores, key, claim);
        if !claim.it.finalizer {
          claim.it := claim.it.(finalizer := true);
        } else {
          ReconcileClaimAddress(handler);
        }
        ghost var ending := stores.log;
        reply := stores.ClosingPatch(key, got.value, claim.it, ExitOf(got.value, claim.it, handler.pool.Some?));
        OneCallMore(begun, ending, Call(reply));
      }
      LogAfter(before, begun, stores.log, first);
      if Inv(stores.cfg, stores.start) {
        ReachesInv(stores);
      }
    }

    /** The invariant of the runs carries over. */
    ghost method ReachesInv(stores: Stores)
      requires Sound(stores.cfg) && stores.Valid() && Inv(stores.cfg, stores.start)
      ensures Inv(stores.cfg, stores.Now())
    {
      RunKeeps(stores.cfg, stores.start, stores.log);
    }

    method ReconcileClaimAddress(handler: ClaimHandler)
      requires handler.stores == stores && handler.pool.None? && handler.claim.it.finalizer
      requires stores.Valid() && stores.worker == Busy(handler.key, handler.claim.it, Fetching)
      modifies stores, handler`pool, handler.claim
      ensures stores.Valid() && Continues(old(stores.log), stores.log)
      ensures stores.worker == Busy(handler.key, old(handler.claim.it),
        Patching(handler.claim.it, ExitOf(old(handler.claim.it), handler.claim.it, handler.pool.Some?)))
    {
      hide LegalRun, Final, LegalReply;
      var claim := handler.claim;
      var fetched := handler.FetchPool();
      match fetched
      case FetchFailed => SetClaimReady(claim, NotReady(AllocationFailed));
      case NotFound =>
        if claim.it.deleting {
          ReconcileDelete(handler);
        } else {
          SetClaimReady(claim, NotReady(PoolNotFound));
        }
      case Fetched(pool) =>
        if pool.paused {
          SetClaimReady(claim, NotReady(PoolPaused));
        } else if claim.it.deleting {
          ReconcileDelete(handler);
        } else {
          var address := EnsureIPAddress(handler);
          if address.Some? {
            claim.it := claim.it.(addressRef := handler.key.name);
            SetClaimReady(claim, IsReady(address.value.text));
          }
        }
    }

    method SetClaimReady(claim: ClaimObject, ready: Ready)
      modifies claim
      ensures claim.it == old(claim.it).(ready := ready)
    {
      claim.it := claim.it.(ready := ready);
    }

    /** Creates or patches the `IPAddress` and waits until it is visible; the address, unless something failed. */
    method EnsureIPAddress(handler: ClaimHandler) returns (r: Option<Address>)
      requires handler.stores == stores && handler.pool.Some?
      requires stores.Valid() && stores.worker == Busy(handler.key, handler.claim.it, Getting(handler.pool.value))
      modifies stores, handler.claim
      ensures stores.Valid() && Continues(old(stores.log), stores.log)
      ensures r.Some? ==> handler.claim.it == old(handler.claim.it) && stores.worker == Busy(handler.key, handler.claim.it,
        Patching(handler.claim.it.(addressRef := handler.key.name, ready := IsReady(r.value.text)), Kept))
      ensures r.None? ==> handler.claim.it.finalizer == old(handler.claim.it).finalizer
      ensures r.None? ==> stores.worker == Busy(handler.key, old(handler.claim.it), Patching(handler.claim.it, Kept))
    {
      hide LegalRun, Final, LegalReply, Ensured;
      var claim, pool, key := handler.claim, handler.pool.value, handler.key;
      ghost var reply;
      var existing;
      existing, reply := stores.GetAddress(key);
      if existing.Err? {
        SetClaimReady(claim, NotReady(AllocationFailed));
        return None;
      }
      var address := new AddressObject(if existing.value.Some? then existing.value.value else NewIPAddress(key, claim.it));
      var ensured := handler.EnsureAddress(address, existing.value);
      if !ensured.Filled? {
        SetClaimReady(claim, NotReady(if ensured.Exhausted? then PoolExhausted else AllocationFailed));
        return None;
      }
      ghost var base := address.it;
      Mutate(address, key, claim.it, pool);
      assert address.it == Finish(base, key, claim.it, pool);
      hide Finish;
      var visible := WriteAndWait(key, claim.it, existing.value, address.it);
      if !visible {
        SetClaimReady(claim, NotReady(AllocationFailed));
        return None;
      }
      return Some(address.it);
    }

    /** Writes only what differs, then waits. */
    method WriteAndWait(key: Key, ghost c: Claim, existing: Option<Address>, next: Address) returns (ok: bool)
      requires stores.Valid()
      requires stores.worker == Busy(key, c, if existing == Some(next) then Polling(next) else Writing(existing, next))
      modifies stores
      ensures stores.Valid() && Continues(old(stores.log), stores.log)
      ensures stores.worker == Busy(key, c,
        Patching(if ok then c.(addressRef := key.name, ready := IsReady(next.text)) else c.(ready := NotReady(AllocationFailed)), Kept))
    {
      hide LegalRun, Final, LegalReply, WriteAddress;
      ghost var reply;
      if existing != Some(next) {
        ok, reply := stores.WriteIPAddress(key, existing, next);
        if !ok {
          return;
        }
      }
      ok, reply := stores.PollIPAddress(key);
    }

    /** The part of the mutation that follows the address itself. */
    method Mutate(address: AddressObject, key: Key, claim: Claim, pool: Pool)
      modifies address
      ensures address.it == Finish(old(address.it), key, claim, pool)
    {
      var owners := EnsureOwnerReferences(address.it.owners, ClaimOwner(key, claim), PoolOwner(claim.poolRef, pool));
      hide Ensured;
      address.it := address.it.(owners := owners);
      if claim.clusterLabel.Some? {
        address.it := address.it.(clusterLabel := claim.clusterLabel);
      }
      address.it := address.it.(protect := true);
    }

    /** Releases the record, then deletes the `IPAddress`, then drops the claim's finalizer. */
    method ReconcileDelete(handler: ClaimHandler)
      requires handler.stores == stores && handler.claim.it.finalizer && stores.Valid()
      requires stores.worker == Busy(handler.key, handler.claim.it,
        if handler.pool.Some? then ReleaseGetting(handler.pool.value) else DeleteGetting(false))
      modifies stores, handler.claim
      ensures stores.Valid() && Continues(old(stores.log), stores.log)
      ensures stores.worker == Busy(handler.key, old(handler.claim.it),
        Patching(handler.claim.it, ExitOf(old(handler.claim.it), handler.claim.it, handler.pool.Some?)))
    {
      hide LegalRun, Final, LegalReply;
      var claim := handler.claim;
      var ok := handler.ReleaseAddress();
      if ok {
        ok := RemoveIPAddress(handler.key, claim.it, handler.pool.Some?);
        if ok {
          claim.it := claim.it.(finalizer := false);
        }
      }
    }

    method RemoveIPAddress(key: Key, ghost c: Claim, ghost withPool: bool) returns (ok: bool)
      requires stores.Valid() && stores.worker == Busy(key, c, DeleteGetting(withPool))
      modifies stores
      ensures stores.Valid() && Continues(old(stores.log), stores.log)
      ensures ok ==> stores.worker == Busy(key, c, Patching(c.(finalizer := false), if withPool then Released else Abandoned))
      ensures !ok ==> stores.worker == Busy(key, c, Patching(c, Kept))
    {
      hide LegalRun, Final, LegalReply, Unprotect, DeleteAddress;
      ghost var reply;
      var address;
      address, reply := stores.GetAddress(key);
      if address.Err? {
        return false;
      }
      if address.value.Some? {
        ok := DeleteAnyway(key, c, withPool, address.value.value.protect);
        return;
      }
      return true;
    }

    /** Takes the protection away if there is any, and deletes. */
    method DeleteAnyway(key: Key, ghost c: Claim, ghost withPool: bool, protect: bool) returns (ok: bool)
      requires stores.Valid()
      requires stores.worker == Busy(key, c, if protect then DeleteUnprotecting(withPool) else DeleteDeleting(withPool))
      modifies stores
      ensures stores.Valid() && Continues(old(stores.log), stores.log)
      ensures ok ==> stores.worker == Busy(key, c, Patching(c.(finalizer := false), if withPool then Released else Abandoned))
      ensures !ok ==> stores.worker == Busy(key, c, Patching(c, Kept))
    {
      hide LegalRun, Final, LegalReply, Unprotect, DeleteAddress;
      ghost var reply;
      if protect {
        ok, reply := stores.RemoveProtection(key);
        if !ok {
          return;
        }
      }
      ok, reply := stores.DeleteIPAddress(key);
    }
  }
}
