/** The order in which a pass asks the prefixes for an address, and when it calls the pool exhausted. */
module Allocation {
  import opened Wrappers
  import opened Prefixes
  import opened AddressText
  import opened Model
  import opened Protocol
  import opened Frames
  import opened PoolProtocol
  import opened System
  import opened ClaimSafety
  import opened Progress

  /** The events from `s` on as long as the pass is allocating: its own calls, and what everybody else does in
      between. */
  predicate Allocates(cfg: Config, s: State, run: seq<Event>)
    decreases |run|
  {
    && s.worker.Busy?
    && if s.worker.pc.Allocating? then
         run != [] && !run[0].Crash? && Legal(cfg, s, run[0]) && Allocates(cfg, Apply(cfg, s, run[0]), run[1..])
       else run == []
  }

  /** What the pass's own calls are answered. */
  function Replies(run: seq<Event>): seq<Reply> {
    if run == [] then []
    else (if run[0].Call? then [run[0].reply] else []) + Replies(run[1..])
  }

  lemma {:induction false} AllocatesIsRun(cfg: Config, s: State, run: seq<Event>)
    requires Allocates(cfg, s, run)
    ensures LegalRun(cfg, s, run)
    decreases |run|
  {
    hide Legal, Apply;
    if s.worker.pc.Allocating? {
      AllocatesIsRun(cfg, Apply(cfg, s, run[0]), run[1..]);
    }
  }

  lemma Unfolded(cfg: Config, s: State, run: seq<Event>)
    requires Allocates(cfg, s, run) && s.worker.pc.Allocating?
    ensures run != [] && !run[0].Crash? && Legal(cfg, s, run[0]) && LegalRun(cfg, s, run)
    ensures var s' := Apply(cfg, s, run[0]);
      && s'.worker.Busy? && Allocates(cfg, s', run[1..]) && LegalRun(cfg, s', run[1..])
      && Final(cfg, s, run) == Final(cfg, s', run[1..])
      && Replies(run) == (if run[0].Call? then [run[0].reply] else []) + Replies(run[1..])
      && (!s'.worker.pc.Allocating? ==> run[1..] == [] && Final(cfg, s, run) == s' && Replies(run[1..]) == [])
  {
    hide Legal, Apply;
    AllocatesIsRun(cfg, s, run);
  }

  /** The pass is about to ask a prefix. */
  predicate Asking(cfg: Config, w: Worker) {
    w.Busy? && w.pc.Allocating? && w.pc.i < |w.pc.ids| && MetadataOk(cfg, w.c, w.pc.pool)
  }

  lemma AskingAllocates(cfg: Config, w: Worker)
    requires Asking(cfg, w)
    ensures w.Busy? && w.pc.Allocating? && w.pc.i < |w.pc.ids|
  {
  }

  predicate Exhausted(w: Worker) {
    w.Busy? && w.pc.Patching? && w.pc.update.ready == NotReady(PoolExhausted)
  }

  predicate Commits(reply: Reply) {
    reply.Granted? || reply.GrantLost?
  }

  /** The records with the ownership tag. */
  function Tagged(cfg: Config, records: map<int, Record>): map<int, Record> {
    map id | id in records && cfg.tag in records[id].tags :: records[id]
  }

  /** What an answer of the prefix adds to them. */
  function Added(cfg: Config, w: Worker, prefix: int, reply: Reply): map<int, Record>
    requires Asking(cfg, w)
  {
    if Commits(reply) then map[reply.id := NewRecord(cfg, w.key, w.c, w.pc.pool, prefix, reply.text)] else map[]
  }

  /** The same question to the prefix at `i`. */
  predicate SameQuestion(w: Worker, w': Worker, i: nat) {
    && w.Busy? && w.pc.Allocating? && w' == w.(pc := w.pc.(i := i))
  }

  lemma LookUpIsNeither(cfg: Config, st: Store, key: Key, c: Claim, pool: Pool, existing: Option<Address>, base: Address, ids: seq<int>, mode: Mode)
    ensures var o := LookUpGateway(cfg, st, key, c, pool, existing, base, ids, mode);
      o.store == st && o.worker.Busy? && !o.worker.pc.Allocating? && !o.worker.pc.Patching?
  {
    hide Finish, GatewayFrom;
  }

  lemma AddedIsTagged(cfg: Config, st: Store, w: Worker, prefix: int, reply: Reply)
    requires Sound(cfg) && Asking(cfg, w) && Commits(reply) && reply.id !in st.records
    ensures Tagged(cfg, AddRecord(cfg, st, w.key, w.c, w.pc.pool, prefix, reply.id, reply.text).records)
         == Tagged(cfg, st.records) + Added(cfg, w, prefix, reply)
  {
    var r := NewRecord(cfg, w.key, w.c, w.pc.pool, prefix, reply.text);
    assert cfg.tag in r.tags by {
      NewRecordCarries(cfg, w.key, w.c, w.pc.pool, prefix, reply.text, w.c.uid);
      hide NewRecord;
    }
    hide NewRecord, MetadataOk, Tagged;
    TaggedPlus(cfg, st.records, reply.id, r);
  }

  lemma TaggedPlus(cfg: Config, records: map<int, Record>, id: int, r: Record)
    requires id !in records && cfg.tag in r.tags
    ensures Tagged(cfg, records[id := r]) == Tagged(cfg, records) + map[id := r]
  {
    var a, b := Tagged(cfg, records[id := r]), Tagged(cfg, records) + map[id := r];
    assert forall k :: k in a <==> k in b;
  }

  /** One answer. */
  lemma OneAnswer(cfg: Config, st: Store, w: Worker, reply: Reply)
    requires Sound(cfg) && Asking(cfg, w) && LegalReply(cfg, st, w.c, w.pc, reply)
    ensures var o := Step(cfg, st, w.key, w.c, w.pc, reply);
      && Tagged(cfg, o.store.records) == Tagged(cfg, st.records) + Added(cfg, w, w.pc.ids[w.pc.i], reply)
      && o.worker.Busy?
      && (o.worker.pc.Allocating? <==> reply.NoRoom? && w.pc.i + 1 < |w.pc.ids|)
      && (o.worker.pc.Allocating? ==> SameQuestion(w, o.worker, w.pc.i + 1) && Asking(cfg, o.worker))
      && (Exhausted(o.worker) <==> reply.NoRoom? && w.pc.i + 1 == |w.pc.ids|)
  {
    hide MapIPAddress, Tagged, Added, MetadataOk;
    AnswerAdds(cfg, st, w, reply);
    AnswerGoesOn(cfg, st, w, reply);
    hide Step;
  }

  lemma AnswerAdds(cfg: Config, st: Store, w: Worker, reply: Reply)
    requires Sound(cfg) && Asking(cfg, w) && LegalReply(cfg, st, w.c, w.pc, reply)
    ensures Tagged(cfg, Step(cfg, st, w.key, w.c, w.pc, reply).store.records)
         == Tagged(cfg, st.records) + Added(cfg, w, w.pc.ids[w.pc.i], reply)
  {
    AllocatingStore(cfg, st, w.key, w.c, w.pc, reply);
    if Commits(reply) {
      AddedIsTagged(cfg, st, w, w.pc.ids[w.pc.i], reply);
      hide Step, Tagged, Added, MetadataOk, AddRecord;
    } else {
      hide Step, Tagged, MetadataOk, LegalReply;
      NothingAdded(Tagged(cfg, st.records));
    }
  }

  lemma NothingAdded(records: map<int, Record>)
    ensures records + map[] == records
  {
  }

  lemma AnswerGoesOn(cfg: Config, st: Store, w: Worker, reply: Reply)
    requires Asking(cfg, w) && LegalReply(cfg, st, w.c, w.pc, reply)
    ensures var o := Step(cfg, st, w.key, w.c, w.pc, reply);
      && o.worker.Busy?
      && (o.worker.pc.Allocating? <==> reply.NoRoom? && w.pc.i + 1 < |w.pc.ids|)
      && (o.worker.pc.Allocating? ==> SameQuestion(w, o.worker, w.pc.i + 1) && Asking(cfg, o.worker))
      && (Exhausted(o.worker) <==> reply.NoRoom? && w.pc.i + 1 == |w.pc.ids|)
  {
    hide LookUpGateway, MetadataOk, AddRecord, MapIPAddress;
    if reply.Granted? {
      LookUpIsNeither(cfg, AddRecord(cfg, st, w.key, w.c, w.pc.pool, w.pc.ids[w.pc.i], reply.id, reply.text),
                      w.key, w.c, w.pc.pool, w.pc.existing, WithText(w.pc.base, reply.text), w.pc.ids, ByPrefix(w.pc.ids[w.pc.i]));
    }
  }

  /** What everybody else does leaves the question and the tagged records alone. */
  lemma OthersDoNotAnswer(cfg: Config, s: State, e: Event)
    requires s.worker.Busy? && Legal(cfg, s, e) && !e.Call? && !e.Crash?
    ensures var s' := Apply(cfg, s, e); s'.worker == s.worker && Tagged(cfg, s'.store.records) == Tagged(cfg, s.store.records)
  {
    if e.Other? {
      ActionKeepsTagged(cfg, s, e.action);
      SameTaggedIsSame(cfg, s.store, Act(s.store, e.action));
      hide Act, Tagged;
    } else {
      hide PoolStep, Tagged;
    }
  }

  lemma SameTaggedIsSame(cfg: Config, st: Store, st': Store)
    requires SameTagged(cfg, st, st')
    ensures Tagged(cfg, st'.records) == Tagged(cfg, st.records)
  {
    var a, b := Tagged(cfg, st'.records), Tagged(cfg, st.records);
    assert forall id :: id in a <==> id in b;
    assert forall id :: id in a ==> a[id] == b[id];
    assert a == b;
  }

  function Last(answers: seq<Reply>): Reply
    requires answers != []
  {
    answers[|answers| - 1]
  }

  /** From index `i` on, one prefix answers after the other, all full but the last; if the last one is full too, the
      list is at its end. */
  predicate InOrder(ids: seq<int>, i: nat, answers: seq<Reply>) {
    && answers != [] && i + |answers| <= |ids|
    && (forall k :: 0 <= k < |answers| - 1 ==> answers[k].NoRoom?)
    && (Last(answers).NoRoom? ==> i + |answers| == |ids|)
  }

  lemma InOrderBefore(ids: seq<int>, i: nat, reply: Reply, answers: seq<Reply>)
    requires reply.NoRoom? && InOrder(ids, i + 1, answers)
    ensures InOrder(ids, i, [reply] + answers) && Last([reply] + answers) == Last(answers)
  {
  }

  /** Whatever others do in between: the prefixes are asked in order until one does not answer that it is full; the
      only record with the ownership tag that is created is that one's, and the pool counts as exhausted if and only
      if every prefix of the list has answered so. */
  lemma {:induction false} AllocatesInOrder(cfg: Config, s: State, run: seq<Event>)
    requires Sound(cfg) && Asking(cfg, s.worker) && Allocates(cfg, s, run)
    ensures LegalRun(cfg, s, run)
    ensures var ids, i, answers, f := s.worker.pc.ids, s.worker.pc.i, Replies(run), Final(cfg, s, run);
      && InOrder(ids, i, answers)
      && Tagged(cfg, f.store.records) == Tagged(cfg, s.store.records) + Added(cfg, s.worker, ids[i + |answers| - 1], Last(answers))
      && (Exhausted(f.worker) <==> Last(answers).NoRoom?)
    decreases |run|
  {
    hide Legal, Apply, Asking, SameQuestion, Exhausted, Allocates, LegalRun, Final, Added, Tagged, Replies;
    AskingAllocates(cfg, s.worker);
    Unfolded(cfg, s, run);
    var s' := Apply(cfg, s, run[0]);
    if run[0].Call? {
      var reply := run[0].reply;
      CallAnswers(cfg, s, reply);
      if s'.worker.pc.Allocating? {
        AllocatesInOrder(cfg, s', run[1..]);
        InOrderBefore(s.worker.pc.ids, s.worker.pc.i, reply, Replies(run[1..]));
        AddedLater(cfg, s, s', reply, s.worker.pc.ids[s.worker.pc.i + |Replies(run)| - 1], Last(Replies(run)));
      } else {
        assert Replies(run) == [reply];
      }
    } else {
      OthersDoNotAnswer(cfg, s, run[0]);
      AllocatesInOrder(cfg, s', run[1..]);
      assert Replies(run) == Replies(run[1..]);
    }
  }

  /** The call of a question, on the whole state. */
  lemma CallAnswers(cfg: Config, s: State, reply: Reply)
    requires Sound(cfg) && Asking(cfg, s.worker) && Legal(cfg, s, Call(reply))
    ensures var s' := Apply(cfg, s, Call(reply));
      var pc := s.worker.pc;
      && Tagged(cfg, s'.store.records) == Tagged(cfg, s.store.records) + Added(cfg, s.worker, pc.ids[pc.i], reply)
      && s'.worker.Busy?
      && (s'.worker.pc.Allocating? <==> reply.NoRoom? && pc.i + 1 < |pc.ids|)
      && (s'.worker.pc.Allocating? ==>
            SameQuestion(s.worker, s'.worker, pc.i + 1) && Asking(cfg, s'.worker) && s'.worker.pc.ids == pc.ids && s'.worker.pc.i == pc.i + 1)
      && (Exhausted(s'.worker) <==> reply.NoRoom? && pc.i + 1 == |pc.ids|)
      && (reply.NoRoom? ==> InOrder(pc.ids, pc.i, [reply]) || pc.i + 1 < |pc.ids|)
      && (!reply.NoRoom? ==> InOrder(pc.ids, pc.i, [reply]))
  {
    OneAnswer(cfg, s.store, s.worker, reply);
    hide Step, MetadataOk, Tagged, Added, LegalReply, Exhausted;
  }

  lemma AddedLater(cfg: Config, s: State, s': State, reply: Reply, prefix: int, last: Reply)
    requires Asking(cfg, s.worker) && Asking(cfg, s'.worker) && SameQuestion(s.worker, s'.worker, s.worker.pc.i + 1) && reply.NoRoom?
    ensures Added(cfg, s.worker, s.worker.pc.ids[s.worker.pc.i], reply) == map[]
    ensures Added(cfg, s'.worker, prefix, last) == Added(cfg, s.worker, prefix, last)
    ensures forall m: map<int, Record> :: m + map[] == m
  {
    hide NewRecord, MetadataOk;
  }

  /** The answers tell which prefixes have room. */
  predicate TellsRoom(room: Room, ids: seq<int>, i: nat, answers: seq<Reply>) {
    && i + |answers| <= |ids|
    && forall k :: 0 <= k < |answers| ==> Tells(room, ids[i + k], answers[k])
  }

  predicate Tells(room: Room, id: int, reply: Reply) {
    if id in room then reply.Granted? else reply.NoRoom?
  }

  lemma TellsRoomBefore(room: Room, ids: seq<int>, i: nat, reply: Reply, answers: seq<Reply>)
    requires i < |ids| && Tells(room, ids[i], reply) && TellsRoom(room, ids, i + 1, answers)
    ensures TellsRoom(room, ids, i, [reply] + answers)
  {
    hide Tells;
    forall k | 0 <= k < |answers| + 1
      ensures Tells(room, ids[i + k], ([reply] + answers)[k])
    {
      if k > 0 {
        assert Tells(room, ids[i + 1 + (k - 1)], answers[k - 1]);
      }
    }
  }

  /** The pass's own calls succeed where they can. */
  predicate CalmOrOther(cfg: Config, room: Room, s: State, e: Event) {
    e.Call? ==> CalmCall(cfg, room, s, e)
  }

  lemma CalmTells(cfg: Config, room: Room, s: State, e: Event)
    requires Asking(cfg, s.worker) && e.Call? && CalmOrOther(cfg, room, s, e)
    ensures Tells(room, s.worker.pc.ids[s.worker.pc.i], e.reply)
  {
    hide MetadataOk;
  }

  lemma {:induction false} RoomAnswers(cfg: Config, room: Room, s: State, run: seq<Event>)
    requires Sound(cfg) && Asking(cfg, s.worker) && Allocates(cfg, s, run)
    requires LegalRun(cfg, s, run) && Along(cfg, s, run, (x, e) => CalmOrOther(cfg, room, x, e))
    ensures TellsRoom(room, s.worker.pc.ids, s.worker.pc.i, Replies(run))
    decreases |run|
  {
    hide Legal, Apply, Asking, SameQuestion, Exhausted, CalmOrOther, Allocates, LegalRun, Final, Tells, TellsRoom, Tagged, Added, Replies;
    AskingAllocates(cfg, s.worker);
    Unfolded(cfg, s, run);
    var s' := Apply(cfg, s, run[0]);
    if run[0].Call? {
      CalmTells(cfg, room, s, run[0]);
      CallAnswers(cfg, s, run[0].reply);
      if s'.worker.pc.Allocating? {
        RoomAnswers(cfg, room, s', run[1..]);
      } else {
        NoneLeft(room, s.worker.pc.ids, s.worker.pc.i + 1);
      }
      TellsRoomBefore(room, s.worker.pc.ids, s.worker.pc.i, run[0].reply, Replies(run[1..]));
    } else {
      OthersDoNotAnswer(cfg, s, run[0]);
      RoomAnswers(cfg, room, s', run[1..]);
      assert Replies(run) == Replies(run[1..]);
    }
  }

  lemma NoneLeft(room: Room, ids: seq<int>, i: nat)
    requires i <= |ids|
    ensures TellsRoom(room, ids, i, [])
  {
  }

  /** Only full prefixes were asked before the last one, or all of them are full. */
  lemma FirstIsLast(room: Room, ids: seq<int>, answers: seq<Reply>)
    requires InOrder(ids, 0, answers) && TellsRoom(room, ids, 0, answers)
    ensures var first := |answers| - 1;
      if Last(answers).NoRoom? then forall k :: 0 <= k < |ids| ==> ids[k] !in room
      else Last(answers).Granted? && ids[first] in room && forall k :: 0 <= k < first ==> ids[k] !in room
  {
    forall k | 0 <= k < |answers|
      ensures ids[k] in room <==> answers[k].Granted?
    {
      assert Tells(room, ids[0 + k], answers[k]);
    }
  }

  /** If exactly the prefixes in `room` have an address left, the record comes from the first of them in the list,
      and the pool counts as exhausted if and only if none is. */
  lemma FirstWithRoom(cfg: Config, room: Room, s: State, run: seq<Event>)
    requires Sound(cfg) && Asking(cfg, s.worker) && s.worker.pc.i == 0 && Allocates(cfg, s, run)
    requires LegalRun(cfg, s, run) && Along(cfg, s, run, (x, e) => CalmOrOther(cfg, room, x, e))
    ensures var ids, f, first := s.worker.pc.ids, Final(cfg, s, run), |Replies(run)| - 1;
      && 0 <= first < |ids|
      && (Exhausted(f.worker) <==> forall k :: 0 <= k < |ids| ==> ids[k] !in room)
      && (Exhausted(f.worker) ==> Tagged(cfg, f.store.records) == Tagged(cfg, s.store.records))
      && (!Exhausted(f.worker) ==>
            && ids[first] in room && (forall k :: 0 <= k < first ==> ids[k] !in room)
            && Last(Replies(run)).Granted?
            && Tagged(cfg, f.store.records) == Tagged(cfg, s.store.records) + Added(cfg, s.worker, ids[first], Last(Replies(run))))
  {
    AllocatesInOrder(cfg, s, run);
    RoomAnswers(cfg, room, s, run);
    FirstIsLast(room, s.worker.pc.ids, Replies(run));
    hide Allocates, Along, LegalRun, Final, Exhausted, MetadataOk, NewRecord, TellsRoom, Replies;
  }

  /** Apart from the last answer of a prefix, only a pool without prefixes makes a claim count as out of room that
      did not before. */
  lemma OnlyAllocationExhausts(cfg: Config, st: Store, key: Key, c: Claim, pc: Pc, reply: Reply)
    requires !pc.Allocating? && c.ready != NotReady(PoolExhausted)
    requires pc.Resolving? ==> pc.pool.status.resolved == []
    ensures Exhausted(Step(cfg, st, key, c, pc, reply).worker) ==>
      pc.Resolving? && KnownIDs(st, pc.pool).Ok? && |KnownIDs(st, pc.pool).value| == 0
  {
    if pc.Getting? || pc.Finding? || pc.LookingUpIDs? || pc.LookingUpDetails? {
      WritesExhaustNothing(cfg, st, key, c, pc, reply);
      hide Step;
    } else {
      hide MetadataOk, Candidates, PoolKeyOf, WriteAddress, Unprotect, DeleteAddress, PatchClaim, ResolveIDs;
    }
  }

  lemma WritesExhaustNothing(cfg: Config, st: Store, key: Key, c: Claim, pc: Pc, reply: Reply)
    requires pc.Getting? || pc.Finding? || pc.LookingUpIDs? || pc.LookingUpDetails?
    ensures !Exhausted(Step(cfg, st, key, c, pc, reply).worker)
  {
    hide Finish, GatewayFrom, MapIPAddress, Build, DetailsOf, GatewayChoice, ResolveIDs;
  }
}
