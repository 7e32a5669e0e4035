/** Owner references of an `IPAddress` (pkg/ipamutil/address.go:51-83). The two library setters are upserts on
    group, kind and name. */
module Owners {
  import opened Wrappers
  import opened Paging

  datatype Owner = Owner(
    group: string, version: string, kind: string, name: string, uid: string,
    controller: Option<bool>, blockOwnerDeletion: Option<bool>)

  predicate SameObject(a: Owner, b: Owner) {
    a.group == b.group && a.kind == b.kind && a.name == b.name
  }

  /** The first reference to the same object. */
  function IndexOf(owners: seq<Owner>, ref: Owner): (r: Option<nat>)
    ensures r.Some? ==> r.value < |owners| && SameObject(owners[r.value], ref)
    ensures r.Some? ==> forall j :: 0 <= j < r.value ==> !SameObject(owners[j], ref)
    ensures r.None? ==> forall j :: 0 <= j < |owners| ==> !SameObject(owners[j], ref)
  {
    FirstMatch(owners, o => SameObject(o, ref))
  }

  /** Replace the first reference to the same object, or append. */
  function Upsert(owners: seq<Owner>, ref: Owner): seq<Owner> {
    match IndexOf(owners, ref)
    case Some(i) => owners[i := ref]
    case None => owners + [ref]
  }

  function ControllerAt(owners: seq<Owner>): (r: Option<nat>)
    ensures r.Some? ==> r.value < |owners| && owners[r.value].controller == Some(true)
    ensures r.Some? ==> forall j :: 0 <= j < r.value ==> owners[j].controller != Some(true)
    ensures r.None? ==> forall j :: 0 <= j < |owners| ==> owners[j].controller != Some(true)
  {
    FirstMatch(owners, (o: Owner) => o.controller == Some(true))
  }

  function ControllerOf(owners: seq<Owner>): Option<Owner> {
    match ControllerAt(owners)
    case Some(i) => Some(owners[i])
    case None => None
  }

  /** `SetControllerReference`; a foreign controller makes the code skip the step. */
  function SetController(owners: seq<Owner>, claim: Owner): seq<Owner> {
    var current := ControllerOf(owners);
    if current.Some? && !SameObject(current.value, claim) then owners else Upsert(owners, claim)
  }

  predicate Refers(owner: Owner, pool: Owner) {
    owner.group == pool.group && owner.version == pool.version && owner.kind == pool.kind && owner.name == pool.name
  }

  /** The last reference to the pool, or 0. */
  function LastReference(owners: seq<Owner>, pool: Owner): (r: nat)
    ensures owners != [] ==> r < |owners|
    ensures (exists i :: 0 <= i < |owners| && Refers(owners[i], pool)) ==>
      Refers(owners[r], pool) && forall j :: r < j < |owners| ==> !Refers(owners[j], pool)
  {
    if owners == [] then 0
    else
      var last := |owners| - 1;
      if Refers(owners[last], pool) then last
      else LastReference(owners[..last], pool)
  }

  function Flag(owners: seq<Owner>, i: nat): seq<Owner>
    requires i < |owners|
  {
    owners[i := owners[i].(controller := Some(false), blockOwnerDeletion := Some(true))]
  }

  /** Where an upsert leaves the reference. */
  function Slot(owners: seq<Owner>, ref: Owner): nat {
    match IndexOf(owners, ref)
    case Some(i) => i
    case None => |owners|
  }

  lemma UpsertSlot(owners: seq<Owner>, ref: Owner)
    ensures var r := Upsert(owners, ref);
      && |owners| <= |r| && Slot(owners, ref) < |r|
      && r[Slot(owners, ref)] == ref && Refers(ref, ref)
      && (forall j :: 0 <= j < |owners| && j != Slot(owners, ref) ==> r[j] == owners[j])
      && IndexOf(r, ref) == Some(Slot(owners, ref))
      && Upsert(r, ref) == r
  {
  }

  /** The claim as controller, and the pool as a plain owner that blocks deletion. */
  function Ensured(owners: seq<Owner>, claim: Owner, pool: Owner): seq<Owner> {
    var withPool := Upsert(SetController(owners, claim), pool);
    Flag(withPool, LastReference(withPool, pool))
  }

  method EnsureOwnerReferences(owners: seq<Owner>, claim: Owner, pool: Owner) returns (r: seq<Owner>)
    ensures r == Ensured(owners, claim, pool)
  {
    r := owners;
    var current := ControllerOf(r);
    if !(current.Some? && !SameObject(current.value, claim)) {
      r := Upsert(r, claim);
    }
    assert r == SetController(owners, claim);
    UpsertSlot(r, pool);
    r := Upsert(r, pool);
    hide SetController, Upsert, ControllerOf, Slot;
    r := FlagLastReference(r, pool);
  }

  /** The scan for the pool's reference, and the overwriting of its flags. */
  method FlagLastReference(owners: seq<Owner>, pool: Owner) returns (r: seq<Owner>)
    requires owners != []
    ensures r == Flag(owners, LastReference(owners, pool))
  {
    var idx := 0;
    for i := 0 to |owners|
      invariant idx == LastReference(owners[..i], pool)
    {
      assert owners[..i + 1][..i] == owners[..i];
      if Refers(owners[i], pool) {
        idx := i;
      }
    }
    assert owners[..|owners|] == owners;
    r := owners[idx := owners[idx].(controller := Some(false), blockOwnerDeletion := Some(true))];
  }

  /** Controllers of an `IPAddress` are never its pool. */
  predicate NotControlledBy(owners: seq<Owner>, pool: Owner) {
    ControllerOf(owners).Some? ==> !SameObject(ControllerOf(owners).value, pool)
  }

  /** No controller other than the claim. */
  predicate Controllable(owners: seq<Owner>, claim: Owner) {
    ControllerOf(owners).Some? ==> SameObject(ControllerOf(owners).value, claim)
  }

  /** What each entry is after ensuring. */
  lemma EnsuredEntries(owners: seq<Owner>, claim: Owner, pool: Owner)
    ensures var first := SetController(owners, claim);
      var second := Upsert(first, pool);
      var k := LastReference(second, pool);
      var r := Ensured(owners, claim, pool);
      && k < |r| == |second|
      && Refers(second[k], pool)
      && r[k] == second[k].(controller := Some(false), blockOwnerDeletion := Some(true))
      && (forall j :: 0 <= j < |r| && j != k ==> r[j] == second[j])
      && (forall j :: 0 <= j < |first| && !SameObject(first[j], pool) ==> r[j] == first[j])
  {
    var first := SetController(owners, claim);
    UpsertSlot(first, pool);
    assert Refers(Upsert(first, pool)[Slot(first, pool)], pool);
  }

  /** The pool ends up as an owner that does not control but blocks deletion, and the claim as an owner unless
      another controller was there already. */
  lemma EnsuredOwners(owners: seq<Owner>, claim: Owner, pool: Owner)
    requires !SameObject(claim, pool)
    ensures exists o :: o in Ensured(owners, claim, pool) && Refers(o, pool) && o.controller == Some(false) && o.blockOwnerDeletion == Some(true)
    ensures Controllable(owners, claim) ==> claim in Ensured(owners, claim, pool)
  {
    var r := Ensured(owners, claim, pool);
    EnsuredEntries(owners, claim, pool);
    UpsertSlot(owners, claim);
    assert r[LastReference(Upsert(SetController(owners, claim), pool), pool)] in r;
    if Controllable(owners, claim) {
      assert r[Slot(owners, claim)] == claim;
    }
  }

  /** An upsert leaves the references to other objects. */
  lemma UpsertOthers(owners: seq<Owner>, ref: Owner, o: Owner)
    requires !SameObject(o, ref)
    ensures o in Upsert(owners, ref) <==> o in owners
  {
    UpsertSlot(owners, ref);
    var r, slot := Upsert(owners, ref), Slot(owners, ref);
    if o in owners {
      var j :| 0 <= j < |owners| && owners[j] == o;
      assert r[j] == o;
    }
    if o in r {
      var j :| 0 <= j < |r| && r[j] == o;
      assert j != slot && owners[j] == o;
    }
  }

  lemma FlagOthers(owners: seq<Owner>, i: nat, pool: Owner, o: Owner)
    requires i < |owners| && SameObject(owners[i], pool) && !SameObject(o, pool)
    ensures o in Flag(owners, i) <==> o in owners
  {
    var r := Flag(owners, i);
    if o in owners {
      var j :| 0 <= j < |owners| && owners[j] == o;
      assert r[j] == o;
    }
    if o in r {
      var j :| 0 <= j < |r| && r[j] == o;
      assert owners[j] == o;
    }
  }

  /** Owners that are neither this claim nor this pool are left alone, and the pool is referred to by its UID. */
  lemma OtherOwnersStay(owners: seq<Owner>, claim: Owner, pool: Owner)
    ensures forall o :: !SameObject(o, claim) && !SameObject(o, pool) ==> (o in Ensured(owners, claim, pool) <==> o in owners)
    ensures exists o :: o in Ensured(owners, claim, pool) && SameObject(o, pool) && o.uid == pool.uid
  {
    var first := SetController(owners, claim);
    var second := Upsert(first, pool);
    EnsuredEntries(owners, claim, pool);
    UpsertSlot(first, pool);
    assert Ensured(owners, claim, pool)[Slot(first, pool)] in Ensured(owners, claim, pool);
    forall o | !SameObject(o, claim) && !SameObject(o, pool)
      ensures o in Ensured(owners, claim, pool) <==> o in owners
    {
      UpsertOthers(owners, claim, o);
      UpsertOthers(first, pool, o);
      FlagOthers(second, LastReference(second, pool), pool, o);
    }
  }

  lemma ControllerIs(owners: seq<Owner>, i: nat)
    requires i < |owners| && owners[i].controller == Some(true)
    requires forall j :: 0 <= j < i ==> owners[j].controller != Some(true)
    ensures ControllerOf(owners) == Some(owners[i])
  {
  }

  /** The controller after ensuring is the one there was, or the claim. */
  lemma ControllerStays(owners: seq<Owner>, claim: Owner, pool: Owner)
    requires !SameObject(claim, pool) && claim.controller == Some(true) && pool.controller == None
    requires NotControlledBy(owners, pool)
    ensures var r := Ensured(owners, claim, pool);
      && ControllerOf(r).Some?
      && SameObject(ControllerOf(r).value, if ControllerOf(owners).Some? then ControllerOf(owners).value else claim)
      && (Controllable(owners, claim) ==> ControllerOf(r) == Some(claim))
  {
    var r := Ensured(owners, claim, pool);
    var first := SetController(owners, claim);
    EnsuredEntries(owners, claim, pool);
    UpsertSlot(owners, claim);
    UpsertSlot(first, pool);
    var at := ControllerAt(owners);
    var i := if at.Some? && !SameObject(owners[at.value], claim) then at.value else Slot(owners, claim);
    assert r[i] == first[i] && r[i].controller == Some(true);
    forall j | 0 <= j < i
      ensures r[j].controller != Some(true)
    {
      assert owners[j].controller != Some(true) && first[j] == owners[j];
    }
    ControllerIs(r, i);
  }

  /** Ensuring the references again changes nothing, provided the pool is not the controller already. */
  lemma EnsuredIdempotent(owners: seq<Owner>, claim: Owner, pool: Owner)
    requires !SameObject(claim, pool) && claim.controller == Some(true) && pool.controller == None
    requires NotControlledBy(owners, pool)
    ensures Ensured(Ensured(owners, claim, pool), claim, pool) == Ensured(owners, claim, pool)
    ensures NotControlledBy(Ensured(owners, claim, pool), pool)
  {
    var first := SetController(owners, claim);
    var second := Upsert(first, pool);
    var third := Ensured(owners, claim, pool);
    ControllerStays(owners, claim, pool);
    EnsuredEntries(owners, claim, pool);
    ClaimStepStable(owners, claim, pool);
    UpsertSlot(first, pool);
    UpsertSlot(third, pool);
    hide SetController, ControllerOf, IndexOf;
    FlagTwice(first, second, third, pool);
  }

  lemma SameSlots(a: seq<Owner>, b: seq<Owner>, ref: Owner)
    requires |a| == |b| && forall j :: 0 <= j < |a| ==> SameObject(a[j], ref) == SameObject(b[j], ref)
    ensures IndexOf(a, ref) == IndexOf(b, ref)
  {
  }

  lemma IndexIs(owners: seq<Owner>, ref: Owner, i: nat)
    requires i < |owners| && SameObject(owners[i], ref) && forall j :: 0 <= j < i ==> !SameObject(owners[j], ref)
    ensures IndexOf(owners, ref) == Some(i)
  {
  }

  /** Upserting the pool again moves nothing, and flags the same entry. */
  lemma FlagTwice(first: seq<Owner>, second: seq<Owner>, third: seq<Owner>, pool: Owner)
    requires second == Upsert(first, pool) && third == Flag(second, LastReference(second, pool))
    ensures Flag(Upsert(third, pool), LastReference(Upsert(third, pool), pool)) == third
  {
    UpsertSlot(first, pool);
    UpsertSlot(third, pool);
    SameSlots(second, third, pool);
    hide Upsert, Slot, IndexOf;
    var again := Upsert(third, pool);
    SameReferences(second, again, pool);
  }

  lemma {:induction false} SameReferences(a: seq<Owner>, b: seq<Owner>, pool: Owner)
    requires |a| == |b| && forall j :: 0 <= j < |a| ==> Refers(a[j], pool) == Refers(b[j], pool)
    ensures LastReference(a, pool) == LastReference(b, pool)
  {
    if a != [] {
      var last := |a| - 1;
      assert forall j :: 0 <= j < last ==> a[..last][j] == a[j] && b[..last][j] == b[j];
      SameReferences(a[..last], b[..last], pool);
    }
  }

  lemma ClaimStepStable(owners: seq<Owner>, claim: Owner, pool: Owner)
    requires !SameObject(claim, pool) && claim.controller == Some(true) && pool.controller == None
    requires NotControlledBy(owners, pool)
    ensures SetController(Ensured(owners, claim, pool), claim) == Ensured(owners, claim, pool)
  {
    var third := Ensured(owners, claim, pool);
    var first := SetController(owners, claim);
    ControllerStays(owners, claim, pool);
    EnsuredEntries(owners, claim, pool);
    UpsertSlot(owners, claim);
    UpsertSlot(first, pool);
    if SameObject(ControllerOf(third).value, claim) {
      var k := Slot(owners, claim);
      hide ControllerOf, Ensured;
      assert third[k] == claim;
      IndexIs(third, claim, k);
    }
  }

  // ---- Exactly when it is stable ----

  /** One reference for each object and one controller at most, as the API server and the setters keep them. */
  predicate WellFormed(owners: seq<Owner>) {
    && (forall i, j :: 0 <= i < j < |owners| ==> !SameObject(owners[i], owners[j]))
    && (forall i, j :: 0 <= i < j < |owners| && owners[i].controller == Some(true) ==> owners[j].controller != Some(true))
  }

  /** A pool that controlled the address loses control, and nobody takes it. */
  lemma PoolLosesControl(owners: seq<Owner>, claim: Owner, pool: Owner)
    requires !SameObject(claim, pool) && pool.controller == None
    requires WellFormed(owners) && !NotControlledBy(owners, pool)
    ensures ControllerOf(Ensured(owners, claim, pool)) == None
  {
    var i := ControllerAt(owners).value;
    assert SetController(owners, claim) == owners;
    assert IndexOf(owners, pool) == Some(i) by {
      IndexIs(owners, pool, i);
    }
    EnsuredEntries(owners, claim, pool);
    var r := Ensured(owners, claim, pool);
    assert forall j :: 0 <= j < |r| ==> r[j].controller != Some(true);
  }

  /** The controller afterwards, for every well-formed list: the one before or the claim, and none if it was the
      pool. */
  lemma ControllerAfter(owners: seq<Owner>, claim: Owner, pool: Owner)
    requires !SameObject(claim, pool) && claim.controller == Some(true) && pool.controller == None
    requires WellFormed(owners)
    ensures var before, after := ControllerOf(owners), ControllerOf(Ensured(owners, claim, pool));
      if before.Some? && SameObject(before.value, pool) then after == None
      else after.Some? && SameObject(after.value, if before.Some? then before.value else claim)
  {
    hide ControllerOf, Ensured, WellFormed;
    if NotControlledBy(owners, pool) {
      ControllerStays(owners, claim, pool);
    } else {
      PoolLosesControl(owners, claim, pool);
    }
  }

  /** Where nobody controls, the claim takes control. */
  lemma ClaimTakesControl(owners: seq<Owner>, claim: Owner, pool: Owner)
    requires !SameObject(claim, pool) && claim.controller == Some(true) && pool.controller == None
    requires ControllerOf(owners) == None
    ensures Ensured(owners, claim, pool) != owners
  {
    ControllerStays(owners, claim, pool);
    hide Ensured;
  }

  /** For well-formed lists, ensuring the references again changes nothing if and only if the pool did not control
      the address. */
  lemma EnsuredIdempotentIff(owners: seq<Owner>, claim: Owner, pool: Owner)
    requires !SameObject(claim, pool) && claim.controller == Some(true) && pool.controller == None
    requires WellFormed(owners)
    ensures Ensured(Ensured(owners, claim, pool), claim, pool) == Ensured(owners, claim, pool) <==> NotControlledBy(owners, pool)
  {
    hide Ensured, ControllerOf, WellFormed;
    if NotControlledBy(owners, pool) {
      EnsuredIdempotent(owners, claim, pool);
    } else {
      PoolLosesControl(owners, claim, pool);
      ClaimTakesControl(Ensured(owners, claim, pool), claim, pool);
    }
  }

  /** A pool that already is the controller makes the result depend on the pass: the first one only takes the
      flag away, the next one adds the claim. */
  lemma PoolAsControllerIsNotStable(claim: Owner, pool: Owner)
    requires !SameObject(claim, pool)
    ensures var owners := [pool.(controller := Some(true))];
      var once := Ensured(owners, claim, pool);
      claim !in once && claim in Ensured(once, claim, pool)
  {
    var owners := [pool.(controller := Some(true))];
    var once := Ensured(owners, claim, pool);
    assert once == [pool.(controller := Some(false), blockOwnerDeletion := Some(true))];
    EnsuredOwners(once, claim, pool);
  }
}
