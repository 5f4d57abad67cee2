/**
 * Position arithmetic of the plan queue, stated on plain sequences: which queue
 * index a `pos`/`uid` argument designates, where a newly added plan lands, and
 * what a move does to the order. The class in module PlanQueueOps is proved
 * against these definitions.
 */
module QueuePositions {
  import opened Basics
  import opened Plans
  import opened UidIndex

  /** A position argument: the strings "front" and "back", an integer, or any other value. */
  datatype Pos = Front | Back | At(i: int) | Unrecognised

  /** The queue with the plan at `k` cut out. */
  function RemoveAt(q: seq<Plan>, k: nat): (r: seq<Plan>)
    requires k < |q|
    ensures |r| == |q| - 1
  {
    q[..k] + q[k + 1..]
  }

  /** The queue with `p` placed so that it ends up at index `k`. */
  function InsertAt(q: seq<Plan>, k: nat, p: Plan): (r: seq<Plan>)
    requires k <= |q|
    ensures |r| == |q| + 1 && r[k] == p
  {
    q[..k] + [p] + q[k..]
  }

  /** The LINDEX reading of an integer index: negative values count from the back. */
  function NormalIndex(n: nat, i: int): (r: Option<nat>)
    ensures r.Some? <==> -(n as int) <= i < n
    ensures r.Some? ==> r.value < n && (r.value == i || r.value == n + i)
  {
    if 0 <= i < n then Some(i) else if -(n as int) <= i < 0 then Some(n + i) else None
  }

  /**
   * The queue index that a `pos`/`uid` pair designates, as `_get_plan` reads it:
   * both given is ambiguous; a UID must belong to a queued plan; a missing `pos`
   * means the back; an integer is read as LINDEX does; any other position value is
   * refused with `badPos` (TypeError when reading, ValueError when popping).
   */
  function Locate(q: seq<Plan>, pos: Option<Pos>, uid: Option<string>, badPos: QueueError): (r: Result<nat, QueueError>)
    ensures r.Ok? ==> r.value < |q|
    ensures pos.Some? && uid.Some? ==> r == Err(ValueError)
    ensures pos.None? && uid.Some? ==> (r.Ok? <==> uid.value in UidSet(q)) && (r.Err? ==> r.error == IndexError)
    ensures r.Ok? && uid.Some? ==> HasUid(q[r.value]) && Uid(q[r.value]) == uid.value
    ensures uid.None? && (pos.None? || pos.value.Back?) ==> (r.Ok? <==> |q| > 0) && (r.Ok? ==> r.value == |q| - 1)
    ensures uid.None? && pos == Some(Front) ==> (r.Ok? <==> |q| > 0) && (r.Ok? ==> r.value == 0)
    ensures uid.None? && pos.Some? && pos.value.At? ==> (r.Ok? <==> -|q| <= pos.value.i < |q|)
    ensures uid.None? && pos.Some? && pos.value.At? && r.Ok? ==> Some(r.value) == NormalIndex(|q|, pos.value.i)
    ensures uid.None? && pos != Some(Unrecognised) && r.Err? ==> r.error == IndexError
    ensures uid.None? && pos == Some(Unrecognised) ==> r == Err(badPos)
  {
    if pos.Some? && uid.Some? then Err(ValueError)
    else if uid.Some? then
      if uid.value in UidSet(q) then Ok(IndexOfUid(q, uid.value)) else Err(IndexError)
    else
      match (if pos.Some? then pos.value else Back)
      case Back => if |q| == 0 then Err(IndexError) else Ok(|q| - 1)
      case Front => if |q| == 0 then Err(IndexError) else Ok(0)
      case At(i) =>
        var k := NormalIndex(|q|, i);
        if k.Some? then Ok(k.value) else Err(IndexError)
      case Unrecognised => Err(badPos)
  }

  /** A position together with a reference UID, or a reference before and after at once. */
  predicate AddAmbiguous(pos: Option<Pos>, beforeUid: Option<string>, afterUid: Option<string>) {
    (pos.Some? && (beforeUid.Some? || afterUid.Some?)) || (beforeUid.Some? && afterUid.Some?)
  }

  /**
   * The index at which `_add_plan_to_queue` places a new plan in queue `q` while
   * `running` occupies the running slot. Relative to a reference UID: just before
   * or just after that plan; after the running plan means the front, before it is
   * refused. By position: the back by default and for every index at or past the
   * end, the front for 0 and every index at or before `-|q|`, otherwise the slot of
   * the plan the index designates.
   */
  function AddIndex(q: seq<Plan>, running: Option<Plan>, pos: Option<Pos>, beforeUid: Option<string>, afterUid: Option<string>): (r: Result<nat, QueueError>)
    ensures r.Ok? ==> r.value <= |q|
    ensures AddAmbiguous(pos, beforeUid, afterUid) ==> r == Err(ValueError)
    ensures beforeUid.None? && afterUid.None? && (pos.None? || pos == Some(Back)) ==> r == Ok(|q|)
    ensures beforeUid.None? && afterUid.None? && pos == Some(Front) ==> r == Ok(0)
    ensures beforeUid.None? && afterUid.None? && pos == Some(Unrecognised) ==> r == Err(ValueError)
    ensures beforeUid.None? && afterUid.None? && pos.Some? && pos.value.At? ==> r.Ok?
    ensures beforeUid.None? && afterUid.None? && pos.Some? && pos.value.At? && 0 <= pos.value.i <= |q| ==> r == Ok(pos.value.i)
    ensures beforeUid.None? && afterUid.None? && pos.Some? && pos.value.At? && pos.value.i >= |q| ==> r == Ok(|q|)
    ensures beforeUid.None? && afterUid.None? && pos.Some? && pos.value.At? && pos.value.i <= -|q| ==> r == Ok(0)
    ensures beforeUid.None? && afterUid.None? && pos.Some? && pos.value.At? && -|q| < pos.value.i < 0 ==>
      r.Ok? && Some(r.value) == NormalIndex(|q|, pos.value.i)
    ensures pos.None? && beforeUid.Some? && afterUid.None? ==>
      && (r.Ok? <==> beforeUid.value in UidSet(q) && beforeUid.value !in SlotUids(running))
      && (r.Err? ==> r.error == IndexError)
      && (r.Ok? ==> r.value == IndexOfUid(q, beforeUid.value))
    ensures pos.None? && beforeUid.None? && afterUid.Some? ==>
      && (r.Ok? <==> afterUid.value in UidSet(q) || afterUid.value in SlotUids(running))
      && (r.Err? ==> r.error == IndexError)
      && (afterUid.value in SlotUids(running) ==> r == Ok(0))
      && (r.Ok? && afterUid.value !in SlotUids(running) ==> r.value == IndexOfUid(q, afterUid.value) + 1)
    ensures afterUid.None? && beforeUid.Some? && r.Ok? ==> r.value < |q| && HasUid(q[r.value]) && Uid(q[r.value]) == beforeUid.value
    ensures beforeUid.None? && afterUid.Some? && r.Ok? ==>
      if r.value == 0 then running.Some? && HasUid(running.value) && Uid(running.value) == afterUid.value
      else HasUid(q[r.value - 1]) && Uid(q[r.value - 1]) == afterUid.value
  {
    if AddAmbiguous(pos, beforeUid, afterUid) then Err(ValueError)
    else if beforeUid.Some? || afterUid.Some? then
      var u := if beforeUid.Some? then beforeUid.value else afterUid.value;
      if running.Some? && HasUid(running.value) && Uid(running.value) == u then
        if beforeUid.Some? then Err(IndexError) else Ok(0)
      else if u in UidSet(q) then
        var k := IndexOfUid(q, u);
        Ok(if beforeUid.Some? then k else k + 1)
      else Err(IndexError)
    else
      match (if pos.Some? then pos.value else Back)
      case Back => Ok(|q|)
      case Front => Ok(0)
      case At(i) =>
        if i >= |q| then Ok(|q|)
        else if i == 0 || i <= -|q| then Ok(0)
        else Ok(if i > 0 then i else |q| + i)
      case Unrecognised => Err(ValueError)
  }

  /** A move: the source index, the destination index and whether to land before the destination plan. */
  datatype Move = Move(src: nat, dest: nat, before: bool)

  /** Where the moved plan ends up once it has been cut out and re-inserted next to the destination. */
  function MoveTarget(s: nat, d: nat, before: bool): (t: nat)
    requires s != d
    ensures t <= if s < d then d else s
  {
    (if d < s then d else d - 1) + (if before then 0 else 1)
  }

  /** The queue after the plan at `s` is moved before or after the plan at `d`; the same plan is a no-op. */
  function MovedQueue(q: seq<Plan>, s: nat, d: nat, before: bool): (r: seq<Plan>)
    requires s < |q| && d < |q|
    ensures |r| == |q|
  {
    if s == d then q
    else InsertAt(RemoveAt(q, s), MoveTarget(s, d, before), q[s])
  }

  /** A pop drops exactly the popped record. */
  lemma RemoveAtMultiset(q: seq<Plan>, k: nat)
    requires k < |q|
    ensures multiset(RemoveAt(q, k)) == multiset(q) - multiset{q[k]}
  {
    assert q == q[..k] + [q[k]] + q[k + 1..];
  }

  /** An insertion adds exactly the inserted record. */
  lemma InsertAtMultiset(q: seq<Plan>, k: nat, p: Plan)
    requires k <= |q|
    ensures multiset(InsertAt(q, k, p)) == multiset(q) + multiset{p}
  {
    assert q == q[..k] + q[k..];
  }

  /** A move is a permutation: the same records, as many times each. */
  lemma {:induction false} MovePermutes(q: seq<Plan>, s: nat, d: nat, before: bool)
    requires s < |q| && d < |q|
    ensures multiset(MovedQueue(q, s, d, before)) == multiset(q)
  {
    if s != d {
      var rest := RemoveAt(q, s);
      RemoveAtMultiset(q, s);
      InsertAtMultiset(rest, MoveTarget(s, d, before), q[s]);
      assert q[s] in multiset(q);
    }
  }

  /** The reference UID `_move_plan` reads: `before_uid` only when it is a non-empty string. */
  function DestRefUid(beforeUid: Option<string>, afterUid: Option<string>): Option<string> {
    if beforeUid.Some? && beforeUid.value != "" then beforeUid else afterUid
  }

  /**
   * Before or after the destination when it is given as a position: "front" always
   * before, "back" always after, an index before exactly when the source lies behind
   * the destination. Both indices are the normalised (non-negative) ones, so the
   * moved plan lands on the destination index (see MoveLandsAtDestination).
   */
  function DestBefore(posDest: Pos, s: nat, d: nat): bool {
    match posDest
    case Front => true
    case Back => false
    case _ => s > d
  }

  /**
   * The index `_move_plan` compares as written: the integer `pos` itself (possibly
   * negative), 0 for "front", `n - 1` for "back", the found index for a UID source.
   */
  function SourceIndexAsWritten(n: nat, pos: Option<Pos>, s: nat): int {
    match pos
    case Some(At(i)) => i
    case Some(Front) => 0
    case Some(Back) => n - 1
    case _ => s
  }

  /** The tie-break as written: the raw source index against the raw integer destination. */
  function DestBeforeAsWritten(n: nat, pos: Option<Pos>, s: nat, destIndex: int): bool {
    SourceIndexAsWritten(n, pos, s) > destIndex
  }

  /** The argument checks `_move_plan` makes before any lookup: a missing or an ambiguous selector. */
  predicate MoveArgsRejected(pos: Option<Pos>, uid: Option<string>, posDest: Option<Pos>,
                             beforeUid: Option<string>, afterUid: Option<string>) {
    || (pos.None? && uid.None?)
    || (posDest.None? && beforeUid.None? && afterUid.None?)
    || (pos.Some? && uid.Some?)
    || (posDest.Some? && (beforeUid.Some? || afterUid.Some?))
    || (beforeUid.Some? && afterUid.Some?)
  }

  /** The destination lookup of `_move_plan`: by the reference UID when one is given, else by `pos_dest`. */
  function MoveDestination(q: seq<Plan>, posDest: Option<Pos>, beforeUid: Option<string>, afterUid: Option<string>): Result<nat, QueueError> {
    if beforeUid.Some? || afterUid.Some? then Locate(q, None, DestRefUid(beforeUid, afterUid), TypeError)
    else Locate(q, posDest, None, TypeError)
  }

  /**
   * How `_move_plan` resolves its arguments (with the corrected tie-break): the
   * ambiguity and missing-argument checks give ValueError; a source or destination
   * that cannot be found gives IndexError whatever the lookup raised.
   */
  function ResolveMove(q: seq<Plan>, pos: Option<Pos>, uid: Option<string>, posDest: Option<Pos>,
                       beforeUid: Option<string>, afterUid: Option<string>): (r: Result<Move, QueueError>)
    ensures r.Ok? ==> r.value.src < |q| && r.value.dest < |q|
    ensures r.Ok? && uid.Some? ==> HasUid(q[r.value.src]) && Uid(q[r.value.src]) == uid.value
    ensures r.Ok? && beforeUid.Some? && beforeUid.value != "" ==>
      r.value.before && HasUid(q[r.value.dest]) && Uid(q[r.value.dest]) == beforeUid.value
    ensures r.Ok? && afterUid.Some? ==>
      !r.value.before && HasUid(q[r.value.dest]) && Uid(q[r.value.dest]) == afterUid.value
    ensures r.Ok? && posDest.Some? && posDest.value.At? ==>
      NormalIndex(|q|, posDest.value.i) == Some(r.value.dest) && (r.value.before <==> r.value.dest < r.value.src)
    ensures r == Err(ValueError) <==> MoveArgsRejected(pos, uid, posDest, beforeUid, afterUid)
    ensures !MoveArgsRejected(pos, uid, posDest, beforeUid, afterUid) ==>
      && (r.Ok? <==> Locate(q, pos, uid, TypeError).Ok? && MoveDestination(q, posDest, beforeUid, afterUid).Ok?)
      && (r.Err? ==> r.error == IndexError)
    ensures r.Ok? && uid.None? && pos.Some? && pos.value.At? ==> NormalIndex(|q|, pos.value.i) == Some(r.value.src)
    ensures r.Ok? && pos == Some(Front) ==> r.value.src == 0
    ensures r.Ok? && pos == Some(Back) ==> r.value.src == |q| - 1
    ensures r.Ok? && posDest == Some(Front) ==> r.value.dest == 0 && r.value.before
    ensures r.Ok? && posDest == Some(Back) ==> r.value.dest == |q| - 1 && !r.value.before
  {
    if pos.None? && uid.None? then Err(ValueError)
    else if posDest.None? && beforeUid.None? && afterUid.None? then Err(ValueError)
    else if pos.Some? && uid.Some? then Err(ValueError)
    else if posDest.Some? && (beforeUid.Some? || afterUid.Some?) then Err(ValueError)
    else if beforeUid.Some? && afterUid.Some? then Err(ValueError)
    else
      var src := Locate(q, pos, uid, TypeError);
      var dest := MoveDestination(q, posDest, beforeUid, afterUid);
      if src.Err? || dest.Err? then Err(IndexError)
      else if beforeUid.Some? || afterUid.Some? then
        Ok(Move(src.value, dest.value, DestRefUid(beforeUid, afterUid) == beforeUid))
      else
        Ok(Move(src.value, dest.value, DestBefore(posDest.value, src.value, dest.value)))
  }

  /** After the source is cut out, the destination's UID is found one place earlier when it lay behind the source. */
  lemma DestinationAfterRemoval(q: seq<Plan>, s: nat, d: nat)
    requires s < |q| && d < |q| && s != d && AllHaveUid(q) && DistinctUids(q)
    ensures var rest := RemoveAt(q, s);
      && AllHaveUid(rest) && DistinctUids(rest)
      && Uid(q[d]) in UidSet(rest)
      && IndexOfUid(rest, Uid(q[d])) == if d < s then d else d - 1
  {
    var rest := RemoveAt(q, s);
    DistinctRemove(q, s);
    assert forall p :: p in rest ==> p in q by {
      assert rest == q[..s] + q[s + 1..];
    }
    var dr := if d < s then d else d - 1;
    assert rest[dr] == q[d];
    IndexOfUidAt(rest, dr);
  }

  /** Adding next to a queued plan's UID lands just before or just after it. */
  lemma AddNextToQueued(q: seq<Plan>, running: Option<Plan>, u: string, before: bool)
    requires u in UidSet(q)
    requires running.Some? ==> HasUid(running.value) && Uid(running.value) !in UidSet(q)
    ensures AddIndex(q, running, None, if before then Some(u) else None, if before then None else Some(u))
      == Ok(IndexOfUid(q, u) + if before then 0 else 1)
  {
  }

  /** The moved plan sits at MoveTarget, right next to the destination plan on the requested side. */
  lemma MoveAdjacent(q: seq<Plan>, s: nat, d: nat, before: bool)
    requires s < |q| && d < |q| && s != d
    ensures var r, t := MovedQueue(q, s, d, before), MoveTarget(s, d, before);
      && r[t] == q[s]
      && (before ==> t + 1 < |r| && r[t + 1] == q[d])
      && (!before ==> 0 < t && r[t - 1] == q[d])
  {
    var rest := RemoveAt(q, s);
    var dr := if d < s then d else d - 1;
    var t := MoveTarget(s, d, before);
    RemoveAtIndex(q, s, dr);
    assert MovedQueue(q, s, d, before) == InsertAt(rest, t, q[s]);
    InsertAtIndex(rest, t, q[s], t);
    if before {
      InsertAtIndex(rest, t, q[s], t + 1);
    } else {
      InsertAtIndex(rest, t, q[s], t - 1);
    }
  }

  /** The element at `j` once the plan at `s` is cut out. */
  lemma RemoveAtIndex(q: seq<Plan>, s: nat, j: nat)
    requires s < |q| && j < |q| - 1
    ensures RemoveAt(q, s)[j] == if j < s then q[j] else q[j + 1]
  {
  }

  /** The element at `j` once `p` is placed at `k`. */
  lemma InsertAtIndex(q: seq<Plan>, k: nat, p: Plan, j: nat)
    requires k <= |q| && j <= |q|
    ensures InsertAt(q, k, p)[j] == if j < k then q[j] else if j == k then p else q[j - 1]
  {
  }

  /** Apart from the moved plan, the queue keeps its order. */
  lemma MoveKeepsOthersInOrder(q: seq<Plan>, s: nat, d: nat, before: bool)
    requires s < |q| && d < |q| && s != d
    ensures RemoveAt(MovedQueue(q, s, d, before), MoveTarget(s, d, before)) == RemoveAt(q, s)
  {
    var rest := RemoveAt(q, s);
    var t := MoveTarget(s, d, before);
    var r := InsertAt(rest, t, q[s]);
    assert RemoveAt(r, t) == rest;
  }

  /**
   * With the tie-break of DestBefore a move to an integer destination leaves the
   * plan exactly at the destination index, and the other plans in their order.
   */
  lemma MoveLandsAtDestination(q: seq<Plan>, s: nat, d: nat, i: int)
    requires s < |q| && d < |q| && NormalIndex(|q|, i) == Some(d)
    ensures MovedQueue(q, s, d, DestBefore(At(i), s, d))[d] == q[s]
    ensures s != d ==> MoveTarget(s, d, DestBefore(At(i), s, d)) == d
  {
    if s != d {
      MoveAdjacent(q, s, d, DestBefore(At(i), s, d));
    }
  }

  /** Moving the front plan to the back and then the back plan to the front restores the queue. */
  lemma {:induction false} FrontToBackRoundTrip(q: seq<Plan>)
    requires |q| >= 2
    ensures var n := |q|;
      MovedQueue(MovedQueue(q, 0, n - 1, DestBefore(Back, 0, n - 1)), n - 1, 0, DestBefore(Front, n - 1, 0)) == q
  {
    var n := |q|;
    MoveFrontToBack(q);
    var once := q[1..] + [q[0]];
    assert MovedQueue(q, 0, n - 1, DestBefore(Back, 0, n - 1)) == once;
    MoveBackToFront(once);
    RotateBack(q);
  }

  /** Rotating left by one and then right by one gives back the queue. */
  lemma RotateBack(q: seq<Plan>)
    requires |q| >= 1
    ensures var once := q[1..] + [q[0]];
      [once[|once| - 1]] + once[..|once| - 1] == q
  {
    var once := q[1..] + [q[0]];
    assert once[..|once| - 1] == q[1..];
  }

  /** Moving the front plan after the back plan rotates the queue left by one. */
  lemma MoveFrontToBack(q: seq<Plan>)
    requires |q| >= 2
    ensures MovedQueue(q, 0, |q| - 1, false) == q[1..] + [q[0]]
  {
    var n := |q|;
    assert RemoveAt(q, 0) == q[1..];
    assert MoveTarget(0, n - 1, false) == n - 1;
    assert InsertAt(q[1..], n - 1, q[0]) == q[1..] + [q[0]];
  }

  /** Moving the back plan before the front plan rotates the queue right by one. */
  lemma MoveBackToFront(q: seq<Plan>)
    requires |q| >= 2
    ensures MovedQueue(q, |q| - 1, 0, true) == [q[|q| - 1]] + q[..|q| - 1]
  {
    var n := |q|;
    assert RemoveAt(q, n - 1) == q[..n - 1];
    assert MoveTarget(n - 1, 0, true) == 0;
    assert InsertAt(q[..n - 1], 0, q[n - 1]) == [q[n - 1]] + q[..n - 1];
  }

  /** Adding by position and then popping that same index gives back the queue. */
  lemma AddThenPopRestores(q: seq<Plan>, running: Option<Plan>, pos: Option<Pos>, p: Plan)
    requires AddIndex(q, running, pos, None, None).Ok?
    ensures var k := AddIndex(q, running, pos, None, None).value;
      var q' := InsertAt(q, k, p);
      Locate(q', Some(At(k)), None, ValueError) == Ok(k) && q'[k] == p && RemoveAt(q', k) == q
  {
    var k := AddIndex(q, running, pos, None, None).value;
    var q' := InsertAt(q, k, p);
    assert NormalIndex(|q'|, k) == Some(k);
    assert q'[..k] == q[..k] && q'[k + 1..] == q[k..];
    assert q == q[..k] + q[k..];
  }

  /** Adding to the back with the default position and popping with the default position gives back the queue. */
  lemma AddBackPopBack(q: seq<Plan>, running: Option<Plan>, p: Plan)
    ensures var k := AddIndex(q, running, None, None, None).value;
      k == |q| && Locate(InsertAt(q, k, p), None, None, ValueError) == Ok(k)
      && RemoveAt(InsertAt(q, k, p), k) == q
  {
    var q' := InsertAt(q, |q|, p);
    assert RemoveAt(q', |q|) == q;
  }

  /** The tie-break as written agrees with the corrected one when both indices are given non-negative. */
  lemma TieBreakAgreesOnNonNegative(q: seq<Plan>, pos: Option<Pos>, s: nat, d: nat, i: int)
    requires s < |q| && d < |q| && NormalIndex(|q|, i) == Some(d) && 0 <= i
    requires pos.None? || pos == Some(At(s)) || (pos == Some(Front) && s == 0) || (pos == Some(Back) && s == |q| - 1)
    ensures DestBeforeAsWritten(|q|, pos, s, i) == DestBefore(At(i), s, d)
  {
  }

  /**
   * The corrected tie-break departs from the code only for negative integers: when
   * `pos_dest` is a non-negative integer and `pos` is not a negative one, the side
   * ResolveMove picks is the code's `src_index > pos_dest`.
   */
  lemma ResolveMoveAgreesAsWritten(q: seq<Plan>, pos: Option<Pos>, uid: Option<string>, posDest: Option<Pos>,
                                   beforeUid: Option<string>, afterUid: Option<string>)
    requires ResolveMove(q, pos, uid, posDest, beforeUid, afterUid).Ok?
    requires posDest.Some? && posDest.value.At? && posDest.value.i >= 0
    requires !(pos.Some? && pos.value.At? && pos.value.i < 0)
    ensures var m := ResolveMove(q, pos, uid, posDest, beforeUid, afterUid).value;
      m.before == DestBeforeAsWritten(|q|, pos, m.src, posDest.value.i)
  {
    var m := ResolveMove(q, pos, uid, posDest, beforeUid, afterUid).value;
    TieBreakAgreesOnNonNegative(q, pos, m.src, m.dest, posDest.value.i);
  }

  /**
   * A counterexample to the tie-break as written: in [A, B, C], moving `pos=-1` to
   * `pos_dest=0` compares -1 > 0, inserts C after A and gives [A, C, B]; C does not
   * reach the front. The corrected tie-break gives [C, A, B].
   */
  lemma MoveFromNegativeIndexAsWritten(a: Plan, b: Plan, c: Plan)
    requires a != c
    ensures NormalIndex(3, -1) == Some(2)
    ensures !DestBeforeAsWritten(3, Some(At(-1)), 2, 0)
    ensures MovedQueue([a, b, c], 2, 0, false) == [a, c, b]
    ensures MovedQueue([a, b, c], 2, 0, false)[0] != c
    ensures DestBefore(At(0), 2, 0) && MovedQueue([a, b, c], 2, 0, true) == [c, a, b]
  {
    TieBreakAsWrittenFromBack();
    MoveBackAfterFront(a, b, c);
    MoveBackBeforeFront(a, b, c);
  }

  /** In a queue of three, `pos=-1` designates index 2, and the tie-break as written compares -1 > 0. */
  lemma TieBreakAsWrittenFromBack()
    ensures NormalIndex(3, -1) == Some(2)
    ensures !DestBeforeAsWritten(3, Some(At(-1)), 2, 0)
  {
  }

  lemma MoveBackAfterFront(a: Plan, b: Plan, c: Plan)
    ensures MovedQueue([a, b, c], 2, 0, false) == [a, c, b]
  {
    var q := [a, b, c];
    assert q[..2] + q[3..] == [a, b];
    assert MoveTarget(2, 0, false) == 1;
    assert [a, b][..1] + [c] + [a, b][1..] == [a, c, b];
  }

  lemma MoveBackBeforeFront(a: Plan, b: Plan, c: Plan)
    ensures MovedQueue([a, b, c], 2, 0, true) == [c, a, b]
  {
    var q := [a, b, c];
    assert q[..2] + q[3..] == [a, b];
    assert MoveTarget(2, 0, true) == 0;
    assert [a, b][..0] + [c] + [a, b][0..] == [c, a, b];
  }
}
