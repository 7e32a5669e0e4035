/** What one step of the claim worker leaves alone. */
module Frames {
  import opened Wrappers
  import opened Gateway
  import opened Prefixes
  import opened AddressText
  import opened Owners
  import opened Model
  import opened Protocol

  /** The call behind the step may change a store. */
  predicate MayWrite(pc: Pc) {
    pc.Allocating? || pc.Writing? || pc.ReleaseDeleting? || pc.DeleteUnprotecting? || pc.DeleteDeleting? || pc.Patching?
  }

  lemma LookUpKeepsStore(cfg: Config, st: Store, key: Key, c: Claim, pool: Pool, existing: Option<Address>, base: Address, ids: seq<int>, mode: Mode)
    ensures LookUpGateway(cfg, st, key, c, pool, existing, base, ids, mode).store == st
  {
    hide Finish, GatewayFrom;
  }

  lemma ReadKeepsStore(cfg: Config, st: Store, key: Key, c: Claim, pc: Pc, reply: Reply)
    requires !MayWrite(pc)
    ensures Step(cfg, st, key, c, pc, reply).store == st
  {
    if pc.Finding? {
      hide LookUpGateway, MapIPAddress;
      forall base, ids, mode
        ensures LookUpGateway(cfg, st, key, c, pc.pool, pc.existing, base, ids, mode).store == st
      {
        LookUpKeepsStore(cfg, st, key, c, pc.pool, pc.existing, base, ids, mode);
      }
    } else {
      hide Finish, MetadataOk, Build, DetailsOf, GatewayChoice, ResolveIDs, GatewayFrom, Candidates, PoolKeyOf;
    }
  }

  /** Only a grant changes the store. */
  lemma AllocatingStore(cfg: Config, st: Store, key: Key, c: Claim, pc: Pc, reply: Reply)
    requires pc.Allocating?
    ensures Step(cfg, st, key, c, pc, reply).store ==
      if pc.i < |pc.ids| && MetadataOk(cfg, c, pc.pool) && (reply.Granted? || reply.GrantLost?)
      then AddRecord(cfg, st, key, c, pc.pool, pc.ids[pc.i], reply.id, reply.text) else st
  {
    hide LookUpGateway, AddRecord, MapIPAddress, MetadataOk;
    if pc.i < |pc.ids| && MetadataOk(cfg, c, pc.pool) && reply.Granted? {
      LookUpKeepsStore(cfg, AddRecord(cfg, st, key, c, pc.pool, pc.ids[pc.i], reply.id, reply.text), key, c, pc.pool, pc.existing,
                       WithText(pc.base, reply.text), pc.ids, ByPrefix(pc.ids[pc.i]));
    }
  }

  lemma AddIsRecords(cfg: Config, st: Store, key: Key, c: Claim, pool: Pool, prefix: int, id: int, text: string)
    requires MetadataOk(cfg, c, pool)
    ensures var st' := AddRecord(cfg, st, key, c, pool, prefix, id, text);
      st' == st.(records := st.records[id := NewRecord(cfg, key, c, pool, prefix, text)])
  {
    hide NewRecord;
  }

  lemma WriteIsAddresses(st: Store, key: Key, next: Address)
    ensures WriteAddress(st, key, next) == st.(addresses := WriteAddress(st, key, next).addresses)
  {
    hide PoolGuards;
  }

  lemma UnprotectIsAddresses(st: Store, key: Key)
    ensures Unprotect(st, key) == st.(addresses := Unprotect(st, key).addresses)
  {
  }

  lemma DeleteIsAddresses(st: Store, key: Key)
    ensures DeleteAddress(st, key) == st.(addresses := DeleteAddress(st, key).addresses)
  {
  }

  lemma PatchIsClaims(st: Store, key: Key, was: Claim, now: Claim, exit: Exit, meta: bool, status: bool)
    ensures var st' := PatchClaim(st, key, was, now, exit, meta, status);
      st' == st.(claims := st'.claims, released := st'.released, abandoned := st'.abandoned)
      && st.released <= st'.released
      && (exit.Kept? ==> st'.released == st.released && st'.abandoned == st.abandoned)
  {
    hide PatchedClaim;
  }

  /** Which parts of the stores a step may change. */
  ghost predicate Framed(st: Store, st': Store, pc: Pc) {
    && st'.pools == st.pools && st'.prefixes == st.prefixes && st'.born == st.born
    && (!pc.Patching? ==> st'.claims == st.claims && st'.released == st.released && st'.abandoned == st.abandoned)
    && (!pc.Allocating? && !pc.ReleaseDeleting? ==> st'.records == st.records)
    && (!pc.Writing? && !pc.DeleteUnprotecting? && !pc.DeleteDeleting? ==> st'.addresses == st.addresses)
    && st.released <= st'.released
  }

  lemma StepFrame(cfg: Config, st: Store, key: Key, c: Claim, pc: Pc, reply: Reply)
    ensures Framed(st, Step(cfg, st, key, c, pc, reply).store, pc)
  {
    hide AddRecord, WriteAddress, Unprotect, DeleteAddress, PatchClaim, StepAllocating, MetadataOk;
    if !MayWrite(pc) {
      ReadKeepsStore(cfg, st, key, c, pc, reply);
      hide Step;
    } else if pc.Allocating? {
      AllocatingStore(cfg, st, key, c, pc, reply);
      hide Step;
      if pc.i < |pc.ids| && MetadataOk(cfg, c, pc.pool) && (reply.Granted? || reply.GrantLost?) {
        AddIsRecords(cfg, st, key, c, pc.pool, pc.ids[pc.i], reply.id, reply.text);
      }
    } else if pc.Writing? {
      WriteIsAddresses(st, key, pc.next);
    } else if pc.Patching? {
      if reply.Wrote? {
        PatchIsClaims(st, key, c, pc.update, pc.exit, reply.meta, reply.status);
      }
    } else {
      UnprotectIsAddresses(st, key);
      DeleteIsAddresses(st, key);
    }
  }
}
