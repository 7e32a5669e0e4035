/** A delete pass without failures releases the claim if and only if its record can be located or its address is
    not there. */
module Releasing {
  import opened Wrappers
  import opened Prefixes
  import opened Owners
  import opened AddressText
  import opened Model
  import opened Protocol
  import opened Frames
  import opened System
  import opened ClaimSafety
  import opened ReleaseSafety
  import opened OwnerSafety
  import opened Progress

  /** One of the texts is answered by a record. */
  ghost predicate Answered(cfg: Config, st: Store, candidates: seq<string>) {
    exists q, id :: q in candidates && id in st.records && Answering(cfg, st.records[id], q)
  }

  /** The claim has no address, or its record is found by UID or by the texts of the address. */
  ghost predicate Locatable(cfg: Config, st: Store, key: Key, uid: Uid) {
    || key !in st.addresses || HasRecord(cfg, st, uid)
    || Answered(cfg, st, Candidates(st.addresses[key].text, st.addresses[key].prefix))
  }

  /** A registered claim that is being deleted and whose pool is open. */
  predicate Deletable(st: Store, key: Key) {
    key in st.claims && st.claims[key].deleting && st.claims[key].finalizer && Open(st, key, st.claims[key])
  }

  // ---- On the way ----

  ghost predicate PcReleasing(cfg: Config, st: Store, key: Key, c: Claim, pc: Pc) {
    match pc
    case Fetching => Open(st, key, c) && Locatable(cfg, st, key, c.uid)
    case ReleaseGetting(_) => Locatable(cfg, st, key, c.uid)
    case ReleaseFinding(found) => found == Lookup(st.addresses, key) && Locatable(cfg, st, key, c.uid)
    case ReleaseTrying(candidates) => Answered(cfg, st, candidates) && |candidates| <= 2
    case ReleaseDeleting(_) => true
    case DeleteGetting(withPool) => withPool
    case DeleteUnprotecting(withPool) => withPool
    case DeleteDeleting(withPool) => withPool
    case Patching(update, exit) => update == c.(finalizer := false) && exit.Released?
    case _ => false
  }

  ghost predicate OnRelease(cfg: Config, st: Store, key: Key, c: Claim, pc: Pc) {
    key in st.claims && st.claims[key] == c && c.deleting && c.finalizer && PcReleasing(cfg, st, key, c, pc)
  }

  function ReleaseCallsLeft(pc: Pc): (n: nat)
    ensures n > 0
  {
    match pc
    case Fetching => 10
    case ReleaseGetting(_) => 9
    case ReleaseFinding(_) => 8
    case ReleaseTrying(candidates) => 5 + |candidates|
    case ReleaseDeleting(_) => 5
    case DeleteGetting(_) => 4
    case DeleteUnprotecting(_) => 3
    case DeleteDeleting(_) => 2
    case _ => 1
  }

  ghost predicate NextRelease(cfg: Config, key: Key, c: Claim, o: Outcome, left: nat) {
    && o.worker.Busy? && o.worker.key == key && o.worker.c == c
    && OnRelease(cfg, o.store, key, c, o.worker.pc) && ReleaseCallsLeft(o.worker.pc) < left
  }

  lemma LookUpReleases(cfg: Config, room: Room, st: Store, key: Key, c: Claim, pc: Pc, reply: Reply)
    requires pc.Fetching? || pc.ReleaseGetting? || pc.ReleaseFinding? || pc.ReleaseTrying?
    requires OnRelease(cfg, st, key, c, pc) && Calm(cfg, room, st, c, pc, reply)
    ensures NextRelease(cfg, key, c, Step(cfg, st, key, c, pc, reply), ReleaseCallsLeft(pc))
  {
    match pc
    case Fetching => hide Locatable, PoolKeyOf;
    case ReleaseGetting(_) => hide Locatable;
    case ReleaseFinding(found) => FindingReleases(cfg, st, key, c, found, reply); hide Step, NextRelease;
    case ReleaseTrying(candidates) => TryingReleases(cfg, st, key, c, candidates, reply); hide Step, NextRelease;
  }

  lemma FindingReleases(cfg: Config, st: Store, key: Key, c: Claim, found: Option<Address>, reply: Reply)
    requires OnRelease(cfg, st, key, c, ReleaseFinding(found)) && LegalByUID(cfg, st, c.uid, reply) && !reply.Failed?
    ensures NextRelease(cfg, key, c, StepReleaseFinding(st, key, c, found, reply), 8)
  {
    if found.Some? {
      AtMostTwo(found.value.text, found.value.prefix);
    }
    hide Candidates, Carries, Answering;
  }

  lemma TryingReleases(cfg: Config, st: Store, key: Key, c: Claim, candidates: seq<string>, reply: Reply)
    requires OnRelease(cfg, st, key, c, ReleaseTrying(candidates)) && !reply.Failed?
    requires LegalReply(cfg, st, c, ReleaseTrying(candidates), reply)
    ensures NextRelease(cfg, key, c, StepReleaseTrying(st, key, c, candidates, reply), 5 + |candidates|)
  {
    hide Answering;
    if reply.Missing? {
      var q, id :| q in candidates && id in st.records && Answering(cfg, st.records[id], q);
      assert q != candidates[0] && q in candidates[1..];
    }
  }

  lemma AtMostTwo(text: string, prefix: Option<int>)
    ensures |Candidates(text, prefix)| <= 2
  {
  }

  lemma DeleteReleases(cfg: Config, room: Room, st: Store, key: Key, c: Claim, pc: Pc, reply: Reply)
    requires pc.ReleaseDeleting? || pc.DeleteGetting? || pc.DeleteUnprotecting? || pc.DeleteDeleting?
    requires OnRelease(cfg, st, key, c, pc) && reply.Done?
    ensures NextRelease(cfg, key, c, Step(cfg, st, key, c, pc, reply), ReleaseCallsLeft(pc))
  {
    UnprotectIsFewer(st, key);
    DeleteIsFewer(st, key);
    hide Unprotect, DeleteAddress, Locatable;
  }

  /** The closing patch records the release. */
  lemma PatchReleases(cfg: Config, st: Store, key: Key, c: Claim, update: Claim)
    requires OnRelease(cfg, st, key, c, Patching(update, Released))
    ensures c.uid in StepPatching(st, key, c, update, Released, Wrote(true, true)).store.released
  {
    PatchHistory(st, key, c, update, Released, true, true);
    hide PatchClaim;
  }

  ghost predicate ReleaseGoing(cfg: Config, s: State, uid: Uid) {
    Sane(cfg, s) && s.worker.Busy? && s.worker.c.uid == uid && OnRelease(cfg, s.store, s.worker.key, s.worker.c, s.worker.pc)
  }

  lemma ReleaseCall(cfg: Config, room: Room, s: State, uid: Uid, e: Event)
    requires Sound(cfg) && ReleaseGoing(cfg, s, uid) && Legal(cfg, s, e) && CalmCall(cfg, room, s, e)
    ensures var s' := Apply(cfg, s, e);
      && Sane(cfg, s')
      && (s'.worker.Idle? ==> uid in s'.store.released)
      && (s'.worker.Busy? ==> ReleaseGoing(cfg, s', uid) && ReleaseCallsLeft(s'.worker.pc) < ReleaseCallsLeft(s.worker.pc))
  {
    EventSane(cfg, s, e);
    var st, key, c, pc := s.store, s.worker.key, s.worker.c, s.worker.pc;
    hide Sane;
    if pc.Patching? {
      PatchReleases(cfg, st, key, c, pc.update);
      hide StepPatching, OnRelease;
    } else {
      ReleaseStep(cfg, room, st, key, c, pc, e.reply);
      hide Step, OnRelease;
    }
  }

  lemma ReleaseStep(cfg: Config, room: Room, st: Store, key: Key, c: Claim, pc: Pc, reply: Reply)
    requires OnRelease(cfg, st, key, c, pc) && Calm(cfg, room, st, c, pc, reply) && !pc.Patching?
    ensures NextRelease(cfg, key, c, Step(cfg, st, key, c, pc, reply), ReleaseCallsLeft(pc))
  {
    if pc.Fetching? || pc.ReleaseGetting? || pc.ReleaseFinding? || pc.ReleaseTrying? {
      LookUpReleases(cfg, room, st, key, c, pc, reply);
      hide Step, NextRelease;
    } else {
      DeleteReleases(cfg, room, st, key, c, pc, reply);
      hide Step, NextRelease;
    }
  }

  lemma {:induction false} ReleaseCallsEnd(cfg: Config, room: Room, s: State, uid: Uid, run: seq<Event>)
    requires Sound(cfg) && ReleaseGoing(cfg, s, uid) && LegalRun(cfg, s, run)
    requires Along(cfg, s, run, (x, e) => CalmCall(cfg, room, x, e))
    ensures var f := Final(cfg, s, run);
      && Sane(cfg, f)
      && (if f.worker.Idle? then uid in f.store.released
          else ReleaseGoing(cfg, f, uid) && |run| + ReleaseCallsLeft(f.worker.pc) <= ReleaseCallsLeft(s.worker.pc))
    decreases |run|
  {
    hide ReleaseGoing, Sane, CalmCall, Legal, Apply, ReleaseCallsLeft;
    GoingIsSane(cfg, s, uid);
    if run != [] {
      var s' := Apply(cfg, s, run[0]);
      ReleaseCall(cfg, room, s, uid, run[0]);
      if s'.worker.Busy? {
        ReleaseCallsEnd(cfg, room, s', uid, run[1..]);
      } else if run[1..] != [] {
        IdleCallsNothing(cfg, room, s', run[1..][0]);
      }
    }
  }

  lemma GoingIsSane(cfg: Config, s: State, uid: Uid)
    requires ReleaseGoing(cfg, s, uid)
    ensures Sane(cfg, s) && s.worker.Busy?
  {
  }

  /** The pass is never stuck. */
  lemma ReleaseReplyExists(cfg: Config, room: Room, s: State, uid: Uid) returns (reply: Reply)
    requires ReleaseGoing(cfg, s, uid)
    ensures Calm(cfg, room, s.store, s.worker.c, s.worker.pc, reply)
  {
    var st, c, pc := s.store, s.worker.c, s.worker.pc;
    assert PcReleasing(cfg, st, s.worker.key, c, pc);
    hide ReleaseGoing, Carries, Answering, Locatable, Open;
    match pc
    case ReleaseFinding(_) =>
      if id :| id in st.records && Carries(cfg, st.records[id], c.uid) {
        reply := Found(id);
      } else {
        reply := Missing;
      }
    case ReleaseTrying(candidates) =>
      assert candidates != [];
      if id :| id in st.records && Answering(cfg, st.records[id], candidates[0]) {
        reply := Found(id);
      } else {
        reply := Missing;
      }
    case Patching(_, _) => reply := Wrote(true, true);
    case _ => reply := Done;
  }

  lemma {:induction false} ReleaseCallsExist(cfg: Config, room: Room, s: State, uid: Uid) returns (run: seq<Event>)
    requires Sound(cfg) && ReleaseGoing(cfg, s, uid)
    ensures LegalRun(cfg, s, run) && Along(cfg, s, run, (x, e) => CalmCall(cfg, room, x, e)) && Final(cfg, s, run).worker.Idle?
    decreases ReleaseCallsLeft(s.worker.pc)
  {
    hide ReleaseGoing, CalmCall, Legal, Apply, Sane, ReleaseCallsLeft, Calm;
    GoingIsSane(cfg, s, uid);
    var reply := ReleaseReplyExists(cfg, room, s, uid);
    CalmIsLegal(cfg, room, s, reply);
    var s' := Apply(cfg, s, Call(reply));
    ReleaseCall(cfg, room, s, uid, Call(reply));
    var rest: seq<Event> := [];
    if s'.worker.Busy? {
      rest := ReleaseCallsExist(cfg, room, s', uid);
    }
    run := [Call(reply)] + rest;
    assert run[1..] == rest && run[0] == Call(reply);
  }

  // ---- The end ----

  /** Nothing of the claim is left but, perhaps, its object under somebody else's finalizer. */
  ghost predicate Gone(cfg: Config, st: Store, key: Key, uid: Uid) {
    && NoRecord(cfg, st, uid) && key !in st.addresses
    && (key in st.claims ==> !st.claims[key].finalizer)
  }

  /** A claim of that name whose registration has ended, if it is still there, has neither address nor record. */
  lemma ReleasedIsGone(cfg: Config, s: State, key: Key, uid: Uid)
    requires Inv(cfg, s) && uid in s.store.released && s.store.born[uid] == key
    requires key in s.store.claims ==> s.store.claims[key].uid == uid
    ensures Gone(cfg, s.store, key, uid)
  {
    ReleasedHasNoRecord(cfg, s, uid);
    hide Carries, NoRecord;
    assert Finished(s.store, uid);
    assert Addresses(s.store);
  }

  /** Calls do not create claims, nor change whom a name belongs to. */
  lemma CallKeepsNames(cfg: Config, s: State, e: Event)
    requires Legal(cfg, s, e) && e.Call?
    ensures var s' := Apply(cfg, s, e);
      && s'.store.born == s.store.born
      && forall k :: k in s'.store.claims ==> k in s.store.claims && s'.store.claims[k].uid == s.store.claims[k].uid
  {
    StepKeepsNames(cfg, s.store, s.worker.key, s.worker.c, s.worker.pc, e.reply);
    hide Step;
  }

  lemma StepKeepsNames(cfg: Config, st: Store, key: Key, c: Claim, pc: Pc, reply: Reply)
    ensures var st' := Step(cfg, st, key, c, pc, reply).store;
      && st'.born == st.born
      && forall k :: k in st'.claims ==> k in st.claims && st'.claims[k].uid == st.claims[k].uid
  {
    StepFrame(cfg, st, key, c, pc, reply);
    if pc.Patching? {
      PatchKeepsNames(st, key, c, pc.update, pc.exit, reply);
      hide StepPatching;
    } else {
      StepFrame(cfg, st, key, c, pc, reply);
      hide Step;
    }
  }

  lemma PatchKeepsNames(st: Store, key: Key, c: Claim, update: Claim, exit: Exit, reply: Reply)
    ensures var st' := StepPatching(st, key, c, update, exit, reply).store;
      forall k :: k in st'.claims ==> k in st.claims && st'.claims[k].uid == st.claims[k].uid
  {
    if key in st.claims && reply.Wrote? {
      PatchIsOneClaim(st, key, c, update, exit, reply.meta, reply.status);
      hide PatchClaim;
    }
  }

  lemma {:induction false} CallsKeepNames(cfg: Config, room: Room, s: State, run: seq<Event>)
    requires LegalRun(cfg, s, run) && Along(cfg, s, run, (x, e) => CalmCall(cfg, room, x, e))
    ensures var st := Final(cfg, s, run).store;
      && st.born == s.store.born
      && forall k :: k in st.claims ==> k in s.store.claims && st.claims[k].uid == s.store.claims[k].uid
    decreases |run|
  {
    hide Legal, Apply;
    if run != [] {
      CallKeepsNames(cfg, s, run[0]);
      CallsKeepNames(cfg, room, Apply(cfg, s, run[0]), run[1..]);
    }
  }

  lemma BeginsRelease(cfg: Config, s: State, key: Key)
    requires Sound(cfg) && Resting(cfg, s) && Deletable(s.store, key) && Locatable(cfg, s.store, key, s.store.claims[key].uid)
    ensures Legal(cfg, s, Begin(key, Done))
    ensures var s' := Apply(cfg, s, Begin(key, Done));
      ReleaseGoing(cfg, s', s.store.claims[key].uid) && s'.store == s.store && s'.worker.pc.Fetching?
  {
    BeginSane(cfg, s, key);
    hide Sane, Locatable, Open;
  }

  /** A pass without failures over a locatable claim can be completed. */
  lemma ReleasePassExists(cfg: Config, room: Room, s: State, key: Key) returns (run: seq<Event>)
    requires Sound(cfg) && Resting(cfg, s) && Deletable(s.store, key) && Locatable(cfg, s.store, key, s.store.claims[key].uid)
    ensures WholePass(cfg, room, s, key, run)
  {
    BeginsRelease(cfg, s, key);
    var s' := Apply(cfg, s, Begin(key, Done));
    hide Resting, Deletable, Locatable, ReleaseGoing, CalmCall, Legal, Apply;
    var rest := ReleaseCallsExist(cfg, room, s', s.store.claims[key].uid);
    run := [Begin(key, Done)] + rest;
    assert run[1..] == rest;
  }

  /** A locatable claim is released: record, address and finalizer are gone. */
  lemma LocatableIsReleased(cfg: Config, room: Room, s: State, key: Key, run: seq<Event>)
    requires Sound(cfg) && Resting(cfg, s) && Deletable(s.store, key) && Locatable(cfg, s.store, key, s.store.claims[key].uid)
    requires WholePass(cfg, room, s, key, run)
    ensures Gone(cfg, Final(cfg, s, run).store, key, s.store.claims[key].uid)
  {
    var uid := s.store.claims[key].uid;
    var s' := Apply(cfg, s, Begin(key, Done));
    var f := Final(cfg, s', run[1..]);
    assert f == Final(cfg, s, run) && f.worker.Idle?;
    assert s.store.born[uid] == key by {
      RestingBorn(cfg, s, key);
    }
    hide WholePass, Legal, Apply, Resting, Deletable, Locatable, CalmCall, Gone, ReleaseGoing, Sane;
    BeginsRelease(cfg, s, key);
    ReleaseCallsEnd(cfg, room, s', uid, run[1..]);
    CallsKeepNames(cfg, room, s', run[1..]);
    SaneParts(cfg, f);
    ReleasedIsGone(cfg, f, key, uid);
  }

  lemma RestingBorn(cfg: Config, s: State, key: Key)
    requires Resting(cfg, s) && key in s.store.claims
    ensures s.store.claims[key].uid in s.store.born && s.store.born[s.store.claims[key].uid] == key
  {
    assert Identity(s.store);
  }

  /** One that cannot be located keeps its finalizer. */
  lemma UnlocatableStays(cfg: Config, room: Room, s: State, key: Key, run: seq<Event>)
    requires Sound(cfg) && Resting(cfg, s) && Deletable(s.store, key) && !Locatable(cfg, s.store, key, s.store.claims[key].uid)
    requires WholePass(cfg, room, s, key, run)
    ensures var st := Final(cfg, s, run).store; key in st.claims && st.claims[key].finalizer
  {
    NotLocatable(cfg, s.store, key, s.store.claims[key].uid);
    hide Apply, Legal, CalmCall, Open, PoolAt, Candidates, Unlocatable, Locatable, LegalRun, Final, Along, Resting;
    var s2 := StartsRelease(cfg, room, s, key, run);
    hide WholePass;
    SearchingPassStays(cfg, s2, key, run[2..]);
  }

  lemma SearchingPassStays(cfg: Config, s: State, key: Key, run: seq<Event>)
    requires s.worker.Busy? && s.worker.key == key && s.worker.pc.ReleaseGetting? && key in s.store.addresses
    requires key in s.store.claims && s.store.claims[key].finalizer
    requires Unlocatable(cfg, s.store, s.worker.c.uid, Candidates(s.store.addresses[key].text, s.store.addresses[key].prefix))
    requires LegalRun(cfg, s, run) && forall k :: 0 <= k < |run| ==> run[k].Call?
    ensures var st := Final(cfg, s, run).store; key in st.claims && st.claims[key].finalizer
  {
    hide LegalRun, Final, Unlocatable, Candidates;
    NoDropWithoutRecord(cfg, s, key, s.worker.c, s.worker.pc.pool, run);
  }

  lemma NotLocatable(cfg: Config, st: Store, key: Key, uid: Uid)
    requires !Locatable(cfg, st, key, uid)
    ensures key in st.addresses
    ensures Unlocatable(cfg, st, uid, Candidates(st.addresses[key].text, st.addresses[key].prefix))
  {
    hide Candidates, Carries, Answering;
  }

  /** The pass reads its pool first. */
  lemma StartsRelease(cfg: Config, room: Room, s: State, key: Key, run: seq<Event>) returns (s2: State)
    requires s.worker.Idle? && Deletable(s.store, key) && WholePass(cfg, room, s, key, run)
    ensures |run| > 2 && s2.store == s.store
    ensures s2.worker == Busy(key, s.store.claims[key], ReleaseGetting(PoolAt(s.store, key, s.store.claims[key]).value))
    ensures LegalRun(cfg, s2, run[2..]) && Final(cfg, s2, run[2..]) == Final(cfg, s, run)
    ensures forall k :: 0 <= k < |run[2..]| ==> run[2..][k].Call?
  {
    var c := s.store.claims[key];
    var s1 := Apply(cfg, s, Begin(key, Done));
    assert s1.worker == Busy(key, c, Fetching) && s1.store == s.store;
    FirstCall(cfg, room, s1, run[1..]);
    s2 := Apply(cfg, s1, run[1..][0]);
    assert s2.store == s.store && s2.worker == Busy(key, c, ReleaseGetting(PoolAt(s.store, key, c).value)) by {
      hide PoolKeyOf;
    }
    hide Apply, Legal, CalmCall;
    assert run[1..][1..] == run[2..];
    FirstCall(cfg, room, s2, run[2..]);
    OnlyCalls(cfg, room, s2, run[2..]);
  }

  /** A pass that is not idle yet goes on with a call. */
  lemma FirstCall(cfg: Config, room: Room, s: State, run: seq<Event>)
    requires s.worker.Busy? && LegalRun(cfg, s, run) && Along(cfg, s, run, (x, e) => CalmCall(cfg, room, x, e))
    requires Final(cfg, s, run).worker.Idle?
    ensures run != [] && Legal(cfg, s, run[0]) && CalmCall(cfg, room, s, run[0])
    ensures var s' := Apply(cfg, s, run[0]);
      && LegalRun(cfg, s', run[1..]) && Along(cfg, s', run[1..], (x, e) => CalmCall(cfg, room, x, e))
      && Final(cfg, s', run[1..]) == Final(cfg, s, run)
  {
    hide Apply, Legal, CalmCall;
  }

  lemma {:induction false} OnlyCalls(cfg: Config, room: Room, s: State, run: seq<Event>)
    requires LegalRun(cfg, s, run) && Along(cfg, s, run, (x, e) => CalmCall(cfg, room, x, e))
    ensures forall k :: 0 <= k < |run| ==> run[k].Call?
    decreases |run|
  {
    hide Legal, Apply;
    if run != [] {
      OnlyCalls(cfg, room, Apply(cfg, s, run[0]), run[1..]);
      assert forall k :: 1 <= k < |run| ==> run[k] == run[1..][k - 1];
    }
  }

  /** From every reachable state, a delete pass without failures over a registered claim with an open pool takes its
      record, its address and its finalizer, if the claim has no address or its record can be located by UID or by
      the texts of the address; and otherwise, and only then, the claim keeps its finalizer. */
  lemma ReleasesIffLocatable(cfg: Config, room: Room, s0: State, run: seq<Event>, key: Key, pass: seq<Event>)
    requires Sound(cfg) && Init(cfg, s0) && LegalRun(cfg, s0, run)
    requires Final(cfg, s0, run).worker.Idle? && Deletable(Final(cfg, s0, run).store, key)
    requires WholePass(cfg, room, Final(cfg, s0, run), key, pass)
    ensures var st, st' := Final(cfg, s0, run).store, Final(cfg, Final(cfg, s0, run), pass).store;
      Locatable(cfg, st, key, st.claims[key].uid) <==> Gone(cfg, st', key, st.claims[key].uid)
  {
    hide LegalRun, Final, WholePass, Sane, Resting, Locatable;
    var s := Final(cfg, s0, run);
    ReachableIsSane(cfg, s0, run);
    RestingIf(cfg, s);
    if Locatable(cfg, s.store, key, s.store.claims[key].uid) {
      LocatableIsReleased(cfg, room, s, key, pass);
    } else {
      UnlocatableStays(cfg, room, s, key, pass);
    }
  }
}
