/**
 * `PlanQueueOperations`: the plan queue, the running-plan slot and the plan
 * history kept in the store, together with the in-memory UID index. Each public
 * operation runs under one lock, so each is one atomic method here.
 */
module PlanQueueOps {
  import opened Basics
  import opened Plans
  import opened RedisList
  import opened UidIndex
  import opened QueuePositions

  /** The running slot as read from the store: `{}` (or a missing key) means no plan is running. */
  function SlotOf(stored: Plan): Option<Plan> {
    if |stored| == 0 then None else Some(stored)
  }

  /** The running slot as `_get_running_plan_info` hands it out: `{}` when no plan is running. */
  function SlotRecord(slot: Option<Plan>): Plan {
    if slot.Some? then slot.value else map[]
  }

  /**
   * Reading the slot and handing it out again gives back the stored record, and a
   * slot that holds no `{}` survives the opposite round trip.
   */
  lemma SlotRoundTrip(stored: Plan, slot: Option<Plan>)
    ensures SlotRecord(SlotOf(stored)) == stored
    ensures slot.None? || |slot.value| > 0 ==> SlotOf(SlotRecord(slot)) == slot
  {
    if |stored| == 0 {
      assert stored == map[];
    }
  }

  class PlanQueueOperations {
    /** The store list "plan_queue", front first. */
    var queue: seq<Plan>
    /** The store key "running_plan". */
    var running: Option<Plan>
    /** The store list "plan_history", oldest first. */
    var history: seq<Plan>
    /** `_uid_dict`: UID to plan record, for the queue and the running plan. */
    var index: map<string, Plan>
    /** Whether the connection was set up (`start` runs once). */
    var started: bool

    predicate Valid()
      reads this
    {
      Consistent(queue, running, index)
    }

    /** Connects to a store that already holds `storedQueue`, `storedRunning` and `storedHistory`; the index starts empty. */
    constructor(storedQueue: seq<Plan>, storedRunning: Plan, storedHistory: seq<Plan>)
      ensures queue == storedQueue && running == SlotOf(storedRunning) && history == storedHistory
      ensures index == map[] && !started
    {
      queue := storedQueue;
      running := SlotOf(storedRunning);
      history := storedHistory;
      index := map[];
      started := false;
    }

    /** `start`: on the first call cleans the store and builds the index; RuntimeError on a duplicate UID. */
    method Start() returns (r: Outcome<QueueError>)
      modifies this
      ensures old(started) ==> r == Pass && queue == old(queue) && running == old(running) && index == old(index)
      ensures !old(started) ==>
        && queue == WithUid(old(queue))
        && running == (if old(running).Some? && HasUid(old(running).value) then old(running) else None)
        && (r.Pass? <==> DistinctUids(queue) && (running.Some? ==> HasUid(running.value) && Uid(running.value) !in UidSet(queue)))
        && (r.Pass? ==> Valid())
        && (r.Fail? ==> r.error == RuntimeError && index.Keys <= UidSet(queue) + SlotUids(running))
      ensures history == old(history) && started
    {
      if started {
        return Pass;
      }
      started := true;
      QueueClean();
      r := UidDictInitialize();
    }

    /** `_queue_clean`: removes every queued record without a UID (LREM of each) and clears a running record without one. */
    method QueueClean()
      modifies this
      ensures queue == WithUid(old(queue))
      ensures running == (if old(running).Some? && HasUid(old(running).value) then old(running) else None)
      ensures history == old(history) && index == old(index) && started == old(started)
    {
      var toRemove := PlansWithoutUid(queue);
      ghost var q0 := queue;
      RemovePlans(toRemove);
      RemoveAllWithoutUid(q0, Elements(toRemove));
      if running.Some? && !HasUid(running.value) {
        running := None;
      }
    }

    /** The LREM loop of `_queue_clean`: removes every record equal to one of `toRemove`. */
    method RemovePlans(toRemove: seq<Plan>)
      modifies this
      ensures queue == RemoveAll(old(queue), Elements(toRemove))
      ensures running == old(running) && history == old(history) && index == old(index) && started == old(started)
    {
      ghost var q0 := queue;
      RemoveNothing(q0);
      assert Elements(toRemove[..0]) == {};
      for j := 0 to |toRemove|
        invariant running == old(running) && history == old(history) && index == old(index) && started == old(started)
        invariant queue == RemoveAll(q0, Elements(toRemove[..j]))
      {
        RemoveStep(q0, queue, toRemove, j);
        var _ := RemovePlan(toRemove[j], false);
      }
      assert toRemove[..|toRemove|] == toRemove;
    }

    /** `_uid_dict_initialize`: indexes the queued plans front to back, then the running plan; stops at the first duplicate UID. */
    method UidDictInitialize() returns (r: Outcome<QueueError>)
      requires AllHaveUid(queue) && (running.Some? ==> HasUid(running.value))
      modifies this
      ensures queue == old(queue) && running == old(running) && history == old(history) && started == old(started)
      ensures r.Pass? <==> DistinctUids(queue) && (running.Some? ==> Uid(running.value) !in UidSet(queue))
      ensures r.Pass? ==> Valid()
      ensures r.Fail? ==> r.error == RuntimeError && index.Keys <= UidSet(queue) + SlotUids(running)
    {
      index := map[];
      for i := 0 to |queue|
        invariant queue == old(queue) && running == old(running) && history == old(history) && started == old(started)
        invariant index.Keys == UidSet(queue[..i])
        invariant forall p :: p in queue[..i] ==> HasUid(p) && Uid(p) in index && index[Uid(p)] == p
        invariant DistinctUids(queue[..i])
      {
        assert queue[..i + 1] == queue[..i] + [queue[i]];
        UidSetConcat(queue[..i], [queue[i]]);
        DistinctSnoc(queue[..i], queue[i]);
        var added := UidDictAdd(queue[i]);
        if added.Fail? {
          UidSetPrefix(queue, i);
          DistinctPrefix(queue, i + 1);
          return added;
        }
      }
      assert queue[..|queue|] == queue;
      if running.Some? {
        var added := UidDictAdd(running.value);
        if added.Fail? {
          return added;
        }
      }
      return Pass;
    }

    /** `_uid_dict_add`: RuntimeError when the UID is already indexed, the index unchanged. */
    method UidDictAdd(plan: Plan) returns (r: Outcome<QueueError>)
      requires HasUid(plan)
      modifies this
      ensures r.Pass? <==> Uid(plan) !in old(index)
      ensures r.Pass? ==> index == old(index)[Uid(plan) := plan]
      ensures r.Fail? ==> r.error == RuntimeError && index == old(index)
      ensures queue == old(queue) && running == old(running) && history == old(history) && started == old(started)
    {
      if Uid(plan) in index {
        return Fail(RuntimeError);
      }
      index := index[Uid(plan) := plan];
      return Pass;
    }

    /** `_uid_dict_remove`: RuntimeError when the UID is not indexed, the index unchanged. */
    method UidDictRemove(uid: string) returns (r: Outcome<QueueError>)
      modifies this
      ensures r.Pass? <==> uid in old(index)
      ensures r.Pass? ==> index == old(index) - {uid}
      ensures r.Fail? ==> r.error == RuntimeError && index == old(index)
      ensures queue == old(queue) && running == old(running) && history == old(history) && started == old(started)
    {
      if uid !in index {
        return Fail(RuntimeError);
      }
      index := index - {uid};
      return Pass;
    }

    /** `_uid_dict_update`: replaces the entry of an indexed UID; RuntimeError when it is not indexed. */
    method UidDictUpdate(plan: Plan) returns (r: Outcome<QueueError>)
      requires HasUid(plan)
      modifies this
      ensures r.Pass? <==> Uid(plan) in old(index)
      ensures r.Pass? ==> index == old(index)[Uid(plan) := plan]
      ensures r.Fail? ==> r.error == RuntimeError && index == old(index)
      ensures queue == old(queue) && running == old(running) && history == old(history) && started == old(started)
    {
      if Uid(plan) !in index {
        return Fail(RuntimeError);
      }
      index := index[Uid(plan) := plan];
      return Pass;
    }

    /**
     * `_verify_plan`: a plan may enter the queue only with a UID that is neither
     * queued nor running.
     */
    function VerifyPlan(plan: Plan): (r: Outcome<QueueError>)
      reads this
      ensures r.Fail? <==> !HasUid(plan) || Uid(plan) in index
      ensures !HasUid(plan) ==> r == Fail(ValueError)
      ensures Valid() && HasUid(plan) ==>
        (r.Pass? <==> Uid(plan) !in UidSet(queue) && Uid(plan) !in SlotUids(running))
    {
      if !HasUid(plan) then Fail(ValueError)
      else if Uid(plan) in index then Fail(RuntimeError)
      else Pass
    }

    /** `_delete_pool_entries`: empties the three store entries and the index. */
    method DeletePoolEntries()
      modifies this
      ensures queue == [] && running == None && history == [] && index == map[]
      ensures Valid() && started == old(started)
    {
      running := None;
      queue := [];
      history := [];
      index := map[];
    }

    /** `_remove_plan`: LREM of every record equal to `plan`; with `single`, RuntimeError unless exactly one went. */
    method RemovePlan(plan: Plan, single: bool) returns (r: Outcome<QueueError>)
      modifies this
      ensures queue == LRem(old(queue), plan).0
      ensures r.Pass? <==> !single || multiset(old(queue))[plan] == 1
      ensures r.Fail? ==> r.error == RuntimeError
      ensures running == old(running) && history == old(history) && index == old(index) && started == old(started)
    {
      var removed := LRem(queue, plan);
      queue := removed.0;
      if removed.1 != 1 && single {
        return Fail(RuntimeError);
      }
      return Pass;
    }

    /** `_get_index_by_uid`: the first queue position holding the UID, IndexError when none does. */
    method GetIndexByUid(uid: string) returns (r: Result<nat, QueueError>)
      requires Valid()
      ensures uid in UidSet(queue) ==> r == Ok(IndexOfUid(queue, uid))
      ensures uid !in UidSet(queue) ==> r == Err(IndexError)
    {
      for n := 0 to |queue|
        invariant uid !in UidSet(queue[..n])
      {
        assert queue[n] in queue;
        if Uid(queue[n]) == uid {
          IndexOfUidAt(queue, n);
          return Ok(n);
        }
        assert queue[..n + 1] == queue[..n] + [queue[n]];
        UidSetConcat(queue[..n], [queue[n]]);
      }
      assert queue[..|queue|] == queue;
      return Err(IndexError);
    }

    /**
     * `_get_plan`: the plan a `pos`/`uid` pair designates, found through the index for
     * a UID (refused when it is the running plan's) and by LINDEX for a position.
     * It returns exactly the queued record that Locate designates.
     */
    function GetPlan(pos: Option<Pos>, uid: Option<string>): (r: Result<Plan, QueueError>)
      reads this
      requires Valid()
      ensures var k := Locate(queue, pos, uid, TypeError);
        && (r.Ok? <==> k.Ok?)
        && (r.Ok? ==> r.value == queue[k.value])
        && (r.Err? ==> r.error == k.error)
    {
      if pos.Some? && uid.Some? then Err(ValueError)
      else if uid.Some? then
        if uid.value !in index then Err(IndexError)
        else if running.Some? && Uid(running.value) == uid.value then Err(IndexError)
        else
          assert uid.value in UidSet(queue);
          var k := IndexOfUid(queue, uid.value);
          assert queue[k] in queue;
          Ok(index[uid.value])
      else
        var i := StoreIndex(if pos.Some? then pos.value else Back);
        if i.None? then Err(TypeError)
        else
          var found := LIndex(queue, i.value);
          if found.None? then Err(IndexError) else Ok(found.value)
    }

    /**
     * `_pop_plan_from_queue`: removes and returns the plan that Locate designates
     * (an unrecognised position is a ValueError here), with the new queue size;
     * its UID leaves the index and nothing else changes. "back" and "front" use
     * RPOP and LPOP; a UID pop removes the indexed record with LREM, an integer pop
     * the LINDEX record with LREM.
     */
    method PopPlanFromQueue(pos: Option<Pos>, uid: Option<string>) returns (r: Result<(Plan, nat), QueueError>)
      requires Valid()
      modifies this
      ensures Valid()
      ensures running == old(running) && history == old(history) && started == old(started)
      ensures var k := Locate(old(queue), pos, uid, ValueError);
        && (r.Ok? <==> k.Ok?)
        && (r.Err? ==> r.error == k.error && queue == old(queue) && index == old(index))
        && (r.Ok? ==> r.value.0 == old(queue)[k.value] && queue == RemoveAt(old(queue), k.value)
                      && index == old(index) - {Uid(r.value.0)} && r.value.1 == |queue|)
    {
      if pos.Some? && uid.Some? {
        return Err(ValueError);
      }
      var where := if pos.Some? then pos.value else Back;
      var plan: Plan;
      ghost var k: nat := 0;
      if uid.Some? {
        if uid.value !in index {
          return Err(IndexError);
        }
        if running.Some? && Uid(running.value) == uid.value {
          return Err(IndexError);
        }
        plan := index[uid.value];
        IndexedQueuedPlan(queue, running, index, uid.value);
        k := IndexOfUid(queue, uid.value);
        RemoveQueuedRecord(plan, k);
      } else if where.Back? {
        if |queue| == 0 {
          return Err(IndexError);
        }
        k := |queue| - 1;
        plan := queue[|queue| - 1];
        queue := queue[..|queue| - 1];
      } else if where.Front? {
        if |queue| == 0 {
          return Err(IndexError);
        }
        plan := queue[0];
        queue := queue[1..];
      } else if where.At? {
        var found := GetPlan(Some(where), None);
        if found.Err? {
          return Err(found.error);
        }
        plan := found.value;
        k := NormalIndex(|queue|, where.i).value;
        RemoveQueuedRecord(plan, k);
      } else {
        return Err(ValueError);
      }
      DropFromIndex(plan, old(queue), k);
      return Ok((plan, |queue|));
    }

    /** `_remove_plan(plan)` on a record stored once, at `k`: LREM takes out exactly that position. */
    method RemoveQueuedRecord(plan: Plan, ghost k: nat)
      requires Valid() && k < |queue| && plan == queue[k]
      modifies this
      ensures queue == RemoveAt(old(queue), k)
      ensures running == old(running) && history == old(history) && index == old(index) && started == old(started)
    {
      OccursOnce(queue, k);
      LRemSingle(queue, plan, k);
      var removed := RemovePlan(plan, true);
      assert removed.Pass?;
    }

    /** The `_uid_dict_remove` that follows a pop: with the plan at `k` gone from the store, its UID leaves the index. */
    method DropFromIndex(plan: Plan, ghost q0: seq<Plan>, ghost k: nat)
      requires k < |q0| && plan == q0[k] && Consistent(q0, running, index) && queue == RemoveAt(q0, k)
      modifies this
      ensures Valid() && index == old(index) - {Uid(plan)}
      ensures queue == old(queue) && running == old(running) && history == old(history) && started == old(started)
    {
      assert q0[k] in q0;
      var dropped := UidDictRemove(Uid(plan));
      assert dropped.Pass?;
      ConsistentRemove(q0, running, old(index), k);
    }

    /**
     * `_add_plan_to_queue`: a plan without a UID gets `freshUid`, one with a UID must
     * pass VerifyPlan; then the plan is placed where AddIndex says (LPUSH, RPUSH or
     * LINSERT next to the displaced record) and enters the index. On any error the
     * store and the index are unchanged.
     */
    method AddPlanToQueue(plan: Plan, pos: Option<Pos>, beforeUid: Option<string>, afterUid: Option<string>, freshUid: string)
      returns (r: Result<(Plan, nat), QueueError>)
      requires Valid()
      requires !HasUid(plan) ==> freshUid !in index
      modifies this
      ensures Valid()
      ensures running == old(running) && history == old(history) && started == old(started)
      ensures var p := if HasUid(plan) then plan else SetNewPlanUid(plan, freshUid);
        var k := if AddAmbiguous(pos, beforeUid, afterUid) then Err(ValueError)
                 else if HasUid(plan) && Uid(plan) in old(index) then Err(RuntimeError)
                 else AddIndex(old(queue), old(running), pos, beforeUid, afterUid);
        && (r.Ok? <==> k.Ok?)
        && (r.Err? ==> r.error == k.error && queue == old(queue) && index == old(index))
        && (r.Ok? ==> r.value.0 == p && queue == InsertAt(old(queue), k.value, p)
                      && index == old(index)[Uid(p) := p] && r.value.1 == |queue|)
    {
      if pos.Some? && (beforeUid.Some? || afterUid.Some?) {
        return Err(ValueError);
      }
      if beforeUid.Some? && afterUid.Some? {
        return Err(ValueError);
      }
      var where := if pos.Some? then pos.value else Back;
      var p := plan;
      if !HasUid(p) {
        p := SetNewPlanUid(p, freshUid);
      } else {
        var verified := VerifyPlan(p);
        if verified.Fail? {
          return Err(verified.error);
        }
      }
      ghost var q0 := queue;
      var placed: Outcome<QueueError>;
      ghost var k: nat;
      if beforeUid.Some? || afterUid.Some? {
        var u := if beforeUid.Some? then beforeUid.value else afterUid.value;
        placed, k := PlaceRelative(p, u, beforeUid.Some?);
      } else {
        placed, k := PlaceAtPosition(p, where);
      }
      if placed.Fail? {
        return Err(placed.error);
      }
      EnterIndex(p, q0, k);
      return Ok((p, |queue|));
    }

    /**
     * The UID-relative branch of `_add_plan_to_queue`: IndexError for an unknown
     * UID; relative to the running plan, after means LPUSH and before is refused;
     * otherwise LINSERT next to the indexed record.
     */
    method PlaceRelative(p: Plan, u: string, before: bool) returns (r: Outcome<QueueError>, ghost k: nat)
      requires Valid()
      modifies this
      ensures var e := AddIndex(old(queue), running, None, if before then Some(u) else None, if before then None else Some(u));
        && (r.Pass? <==> e.Ok?)
        && (r.Fail? ==> r.error == e.error && queue == old(queue))
        && (r.Pass? ==> k == e.value && queue == InsertAt(old(queue), k, p))
      ensures running == old(running) && history == old(history) && index == old(index) && started == old(started)
    {
      k := 0;
      IndexedQueuedPlan(queue, running, index, u);
      if u !in index {
        return Fail(IndexError), k;
      }
      if running.Some? && Uid(running.value) == u {
        if before {
          return Fail(IndexError), k;
        }
        assert [p] + queue == InsertAt(queue, 0, p);
        queue := [p] + queue;
      } else {
        var displaced := index[u];
        var at := IndexOfUid(queue, u);
        k := if before then at else at + 1;
        InsertNextTo(displaced, p, before, at);
      }
      return Pass, k;
    }

    /**
     * The positional branch of `_add_plan_to_queue`: RPUSH for "back" and integers at
     * or past the end, LPUSH for "front", 0 and integers at or before `-size`, LINSERT
     * before the LINDEX record for the other integers, ValueError for anything else.
     */
    method PlaceAtPosition(p: Plan, where: Pos) returns (r: Outcome<QueueError>, ghost k: nat)
      requires Valid()
      modifies this
      ensures var e := AddIndex(old(queue), running, Some(where), None, None);
        && (r.Pass? <==> e.Ok?)
        && (r.Fail? ==> r.error == e.error && queue == old(queue))
        && (r.Pass? ==> k == e.value && queue == InsertAt(old(queue), k, p))
      ensures running == old(running) && history == old(history) && index == old(index) && started == old(started)
    {
      k := 0;
      var qsize0 := |queue|;
      if where.Back? || (where.At? && where.i >= qsize0) {
        k := qsize0;
        assert queue + [p] == InsertAt(queue, k, p);
        queue := queue + [p];
      } else if where.Front? || (where.At? && (where.i == 0 || where.i <= -qsize0)) {
        assert [p] + queue == InsertAt(queue, 0, p);
        queue := [p] + queue;
      } else if where.At? {
        var displaced := GetPlan(Some(where), None);
        k := NormalIndex(qsize0, where.i).value;
        InsertNextTo(displaced.value, p, true, k);
      } else {
        return Fail(ValueError), k;
      }
      return Pass, k;
    }

    /** LINSERT next to the record stored once at `j`: the new plan lands at `j` (before) or `j + 1` (after). */
    method InsertNextTo(displaced: Plan, p: Plan, before: bool, ghost j: nat)
      requires Valid() && j < |queue| && displaced == queue[j]
      modifies this
      ensures queue == InsertAt(old(queue), if before then j else j + 1, p)
      ensures running == old(running) && history == old(history) && index == old(index) && started == old(started)
    {
      OccursOnce(queue, j);
      LInsertAtFirst(queue, displaced, p, before, j);
      var inserted := LInsert(queue, displaced, p, before);
      queue := inserted.value;
    }

    /** The `_uid_dict_add` that follows an insertion: with the plan stored at `k`, its fresh UID enters the index. */
    method EnterIndex(p: Plan, ghost q0: seq<Plan>, ghost k: nat)
      requires k <= |q0| && Consistent(q0, running, index) && queue == InsertAt(q0, k, p)
      requires HasUid(p) && Uid(p) !in index
      modifies this
      ensures Valid() && index == old(index)[Uid(p) := p]
      ensures queue == old(queue) && running == old(running) && history == old(history) && started == old(started)
    {
      var added := UidDictAdd(p);
      assert added.Pass?;
      ConsistentInsert(q0, running, old(index), k, p);
    }

    /**
     * `_move_plan`: resolves source and destination as ResolveMove does (with the
     * tie-break on normalised indices), then, unless both are the same plan, pops
     * the source by UID and adds it back before or after the destination's UID.
     * The index ends as it began.
     */
    method MovePlan(pos: Option<Pos>, uid: Option<string>, posDest: Option<Pos>, beforeUid: Option<string>, afterUid: Option<string>)
      returns (r: Result<(Plan, nat), QueueError>)
      requires Valid()
      modifies this
      ensures Valid()
      ensures running == old(running) && history == old(history) && index == old(index) && started == old(started)
      ensures var m := ResolveMove(old(queue), pos, uid, posDest, beforeUid, afterUid);
        && (r.Ok? <==> m.Ok?)
        && (r.Err? ==> r.error == m.error && queue == old(queue))
        && (r.Ok? ==> r.value.0 == old(queue)[m.value.src] && r.value.1 == |queue|
                      && queue == MovedQueue(old(queue), m.value.src, m.value.dest, m.value.before))
    {
      if pos.None? && uid.None? {
        return Err(ValueError);
      }
      if posDest.None? && beforeUid.None? && afterUid.None? {
        return Err(ValueError);
      }
      if pos.Some? && uid.Some? {
        return Err(ValueError);
      }
      if posDest.Some? && (beforeUid.Some? || afterUid.Some?) {
        return Err(ValueError);
      }
      if beforeUid.Some? && afterUid.Some? {
        return Err(ValueError);
      }
      var source := GetPlan(pos, uid);
      if source.Err? {
        return Err(IndexError);
      }
      ghost var s := Locate(queue, pos, uid, TypeError).value;
      assert queue[s] in queue;
      var dest, before := FindDestination(pos, uid, posDest, beforeUid, afterUid);
      if dest.Err? {
        return Err(IndexError);
      }
      ghost var m := ResolveMove(queue, pos, uid, posDest, beforeUid, afterUid);
      assert queue[m.value.dest] in queue;
      if Uid(source.value) != Uid(dest.value) {
        r := Relocate(source.value, dest.value, before, s, m.value.dest);
        return r;
      }
      assert m.value.dest == s;
      return Ok((dest.value, |queue|));
    }

    /** The destination half of `_move_plan`: the destination plan, and whether the source goes before it. */
    method FindDestination(pos: Option<Pos>, uid: Option<string>, posDest: Option<Pos>, beforeUid: Option<string>, afterUid: Option<string>)
      returns (dest: Result<Plan, QueueError>, before: bool)
      requires Valid() && (pos.Some? || uid.Some?) && !(pos.Some? && uid.Some?)
      requires (posDest.Some? || beforeUid.Some? || afterUid.Some?)
      requires !(posDest.Some? && (beforeUid.Some? || afterUid.Some?)) && !(beforeUid.Some? && afterUid.Some?)
      requires Locate(queue, pos, uid, TypeError).Ok?
      ensures var m := ResolveMove(queue, pos, uid, posDest, beforeUid, afterUid);
        && (dest.Ok? <==> m.Ok?)
        && (dest.Ok? ==> dest.value == queue[m.value.dest] && before == m.value.before && m.value.src == Locate(queue, pos, uid, TypeError).value)
        && (dest.Err? ==> m == Err(IndexError))
    {
      var queueSize := |queue|;
      before := true;
      if beforeUid.Some? || afterUid.Some? {
        var ref := DestRefUid(beforeUid, afterUid);
        before := ref == beforeUid;
        dest := GetPlan(None, ref);
        if dest.Err? {
          return;
        }
      } else {
        dest := GetPlan(posDest, None);
        if dest.Err? {
          return;
        }
        var srcIndex: int;
        if pos.Some? {
          srcIndex := match pos.value
            case Front => 0
            case Back => queueSize - 1
            case At(i) => i
            case Unrecognised => 0;
        } else {
          var found := GetIndexByUid(uid.value);
          srcIndex := found.value;
        }
        before := match posDest.value
          case Front => true
          case Back => false
          case At(i) => Normalised(queueSize, srcIndex) > Normalised(queueSize, i)
          case Unrecognised => true;
      }
    }

    /** The pop-then-add of `_move_plan`: the source plan leaves by UID and comes back next to the destination's UID. */
    method Relocate(source: Plan, dest: Plan, before: bool, ghost s: nat, ghost d: nat) returns (r: Result<(Plan, nat), QueueError>)
      requires Valid() && s < |queue| && d < |queue| && s != d && source == queue[s] && dest == queue[d]
      modifies this
      ensures Valid() && r == Ok((source, |queue|)) && queue == MovedQueue(old(queue), s, d, before)
      ensures running == old(running) && history == old(history) && index == old(index) && started == old(started)
    {
      ghost var q0 := queue;
      ghost var i0 := index;
      assert source in queue && dest in queue;
      assert Uid(source) in index && index[Uid(source)] == source;
      ReplaceWithSame(i0, Uid(source), source);
      DestinationAfterRemoval(queue, s, d);
      PopQueued(source, s);
      ghost var q1 := queue;
      ghost var t := MoveTarget(s, d, before);
      assert IndexOfUid(q1, Uid(dest)) == (if d < s then d else d - 1);
      assert t == IndexOfUid(q1, Uid(dest)) + (if before then 0 else 1);
      assert MovedQueue(q0, s, d, before) == InsertAt(q1, t, source);
      r := AddBeside(source, Uid(dest), before, t);
    }

    /** `_pop_plan_from_queue(uid=…)` of the queued plan at `s`. */
    method PopQueued(plan: Plan, ghost s: nat)
      requires Valid() && s < |queue| && plan == queue[s]
      modifies this
      ensures Valid() && queue == RemoveAt(old(queue), s) && index == old(index) - {Uid(plan)}
      ensures running == old(running) && history == old(history) && started == old(started)
    {
      assert plan in queue;
      IndexOfUidAt(queue, s);
      var popped := PopPlanFromQueue(None, Some(Uid(plan)));
      assert popped.Ok?;
    }

    /** `_add_plan_to_queue(plan, before_uid=u)` or `after_uid=u` for a plan whose UID is free and a queued `u`. */
    method AddBeside(plan: Plan, u: string, before: bool, ghost k: nat) returns (r: Result<(Plan, nat), QueueError>)
      requires Valid() && HasUid(plan) && Uid(plan) !in index && u in UidSet(queue)
      requires k == IndexOfUid(queue, u) + (if before then 0 else 1)
      modifies this
      ensures Valid() && r == Ok((plan, |queue|))
      ensures queue == InsertAt(old(queue), k, plan)
      ensures index == old(index)[Uid(plan) := plan]
      ensures running == old(running) && history == old(history) && started == old(started)
    {
      AddNextToQueued(queue, running, u, before);
      if before {
        r := AddPlanToQueue(plan, None, Some(u), None, "");
      } else {
        r := AddPlanToQueue(plan, None, None, Some(u), "");
      }
    }

    /** `_is_plan_running`: the running slot is not `{}`. */
    function IsPlanRunning(): (r: bool)
      reads this
      requires Valid()
      ensures r <==> running.Some? && |running.value| > 0
    {
      running.Some?
    }

    /** `_get_running_plan_info`: the running plan, or `{}` when there is none. */
    function RunningPlanInfo(): (r: Plan)
      reads this
      requires Valid()
      ensures |r| == 0 <==> running.None?
      ensures running.Some? ==> r == running.value && HasUid(r) && Uid(r) in index
    {
      SlotRecord(running)
    }

    /** `_add_plan_to_history`: RPUSH; returns the new history size. */
    method AddPlanToHistory(plan: Plan) returns (size: nat)
      modifies this
      ensures history == old(history) + [plan] && size == |history|
      ensures queue == old(queue) && running == old(running) && index == old(index) && started == old(started)
    {
      history := history + [plan];
      size := |history|;
    }

    /** `_get_plan_history_size`: LLEN of the history. */
    function PlanHistorySize(): nat
      reads this
    {
      |history|
    }

    /** `_clear_plan_history`: RPOP until the history is empty. */
    method ClearPlanHistory()
      modifies this
      ensures history == []
      ensures queue == old(queue) && running == old(running) && index == old(index) && started == old(started)
    {
      while PlanHistorySize() > 0
        invariant history == old(history)[..|history|]
        invariant queue == old(queue) && running == old(running) && index == old(index) && started == old(started)
        decreases |history|
      {
        history := history[..|history| - 1];
      }
    }

    /** `_clear_plan_queue`: pops from the back until the queue is empty; the running plan keeps its slot and its index entry. */
    method ClearPlanQueue()
      requires Valid()
      modifies this
      ensures Valid() && queue == [] && index.Keys == SlotUids(running)
      ensures running == old(running) && history == old(history) && started == old(started)
    {
      while |queue| > 0
        invariant Valid()
        invariant running == old(running) && history == old(history) && started == old(started)
        invariant queue == old(queue)[..|queue|]
        decreases |queue|
      {
        ghost var before := queue;
        var popped := PopPlanFromQueue(None, None);
        assert popped.Ok? && queue == before[..|before| - 1];
      }
    }

    /**
     * `_set_next_plan_as_running`: when the slot is free and the queue is not empty,
     * the front plan moves into the running slot and keeps its index entry; otherwise
     * nothing changes and `{}` is returned.
     */
    method SetNextPlanAsRunning() returns (r: Plan)
      requires Valid()
      modifies this
      ensures Valid() && index == old(index) && history == old(history) && started == old(started)
      ensures old(running).None? && |old(queue)| > 0 ==>
        r == old(queue)[0] && queue == old(queue)[1..] && running == Some(r) && HasUid(r)
      ensures !(old(running).None? && |old(queue)| > 0) ==>
        |r| == 0 && queue == old(queue) && running == old(running)
    {
      if !IsPlanRunning() {
        if |queue| > 0 {
          ConsistentStartNext(queue, index);
          r := queue[0];
          queue := queue[1..];
          running := Some(r);
          return;
        }
      }
      r := map[];
    }

    /**
     * `_set_processed_plan_as_completed`: the running plan, stamped with the exit
     * status, leaves the slot and the index and is appended to the history; with no
     * running plan nothing changes and `{}` is returned.
     */
    method SetProcessedPlanAsCompleted(exitStatus: string) returns (r: Plan)
      requires Valid()
      modifies this
      ensures Valid() && queue == old(queue) && running == None && started == old(started)
      ensures old(running).Some? ==>
        r == WithExitStatus(old(running).value, exitStatus) && history == old(history) + [r]
        && index == old(index) - {Uid(old(running).value)}
      ensures old(running).None? ==> |r| == 0 && history == old(history) && index == old(index)
    {
      if IsPlanRunning() {
        ghost var p := running.value;
        ConsistentComplete(queue, p, index);
        r := WithExitStatus(RunningPlanInfo(), exitStatus);
        running := None;
        var removed := UidDictRemove(Uid(r));
        assert removed.Pass?;
        var size := AddPlanToHistory(r);
      } else {
        r := map[];
      }
    }

    /**
     * `_set_processed_plan_as_stopped`: the running plan, stamped with the exit
     * status, goes back to the queue front (LPUSH), its index entry is replaced by
     * the stamped record, and a copy is appended to the history; with no running plan
     * nothing changes and `{}` is returned.
     */
    method SetProcessedPlanAsStopped(exitStatus: string) returns (r: Plan)
      requires Valid()
      modifies this
      ensures Valid() && running == None && started == old(started)
      ensures old(running).Some? ==>
        r == WithExitStatus(old(running).value, exitStatus) && queue == [r] + old(queue)
        && history == old(history) + [r] && index == old(index)[Uid(r) := r]
      ensures old(running).None? ==> |r| == 0 && queue == old(queue) && history == old(history) && index == old(index)
    {
      if IsPlanRunning() {
        ghost var p := running.value;
        r := WithExitStatus(RunningPlanInfo(), exitStatus);
        ConsistentStop(queue, p, index, r);
        running := None;
        queue := [r] + queue;
        var updated := UidDictUpdate(r);
        assert updated.Pass?;
        var size := AddPlanToHistory(r);
      } else {
        r := map[];
      }
    }
  }

  /** The scan of `_queue_clean`: the records of `l` that fail its check (no UID), in order. */
  method PlansWithoutUid(l: seq<Plan>) returns (bad: seq<Plan>)
    ensures forall p :: p in bad <==> p in l && !HasUid(p)
  {
    bad := [];
    for i := 0 to |l|
      invariant forall p :: p in bad <==> p in l[..i] && !HasUid(p)
    {
      assert l[..i + 1] == l[..i] + [l[i]];
      if !HasUid(l[i]) {
        bad := bad + [l[i]];
      }
    }
    assert l[..|l|] == l;
  }

  /** An integer position read as a queue index: negative values count from the back. */
  function Normalised(n: nat, i: int): (r: int)
    ensures NormalIndex(n, i).Some? ==> r == NormalIndex(n, i).value
  {
    if i < 0 then n + i else i
  }

  /** The integer a position argument stands for when read with LINDEX: "back" is -1, "front" is 0. */
  function StoreIndex(p: Pos): Option<int> {
    match p
    case Back => Some(-1)
    case Front => Some(0)
    case At(i) => Some(i)
    case Unrecognised => None
  }

  /** LINDEX finds a plan exactly where NormalIndex reads the integer, and that plan. */
  lemma LIndexIsNormalIndex(l: seq<Plan>, i: int)
    ensures LIndex(l, i).Some? <==> NormalIndex(|l|, i).Some?
    ensures LIndex(l, i).Some? ==> LIndex(l, i).value == l[NormalIndex(|l|, i).value]
  {
  }

  /**
   * Reading "front", "back" or an integer through LINDEX (as `_get_plan` does)
   * finds exactly the plan that Locate designates.
   */
  lemma StoreIndexDesignates(q: seq<Plan>, p: Pos)
    requires !p.Unrecognised?
    ensures var k := Locate(q, Some(p), None, TypeError);
      && StoreIndex(p).Some?
      && (LIndex(q, StoreIndex(p).value).Some? <==> k.Ok?)
      && (k.Ok? ==> LIndex(q, StoreIndex(p).value).value == q[k.value])
  {
    LIndexIsNormalIndex(q, StoreIndex(p).value);
  }
}
