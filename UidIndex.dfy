/**
 * The in-memory identity index (`_uid_dict`): a map from UID to plan record that
 * mirrors exactly the plans of the queue plus the plan in the running slot.
 * `Consistent` is that mirror property; the lemmas say which store updates keep it.
 */
module UidIndex {
  import opened Basics
  import opened Plans
  import opened RedisList

  predicate AllHaveUid(s: seq<Plan>) {
    forall p :: p in s ==> HasUid(p)
  }

  /** The UIDs carried by the plans of `s`. */
  function UidSet(s: seq<Plan>): set<string> {
    set p | p in s && HasUid(p) :: Uid(p)
  }

  /** No two positions of `s` carry the same UID. */
  predicate DistinctUids(s: seq<Plan>) {
    forall i, j :: 0 <= i < j < |s| && HasUid(s[i]) && HasUid(s[j]) ==> Uid(s[i]) != Uid(s[j])
  }

  /** The UID of the running slot's occupant, if any. */
  function SlotUids(running: Option<Plan>): set<string> {
    if running.Some? && HasUid(running.value) then {Uid(running.value)} else {}
  }

  /**
   * The index invariant: every queued plan and the running plan carry a UID, the
   * UIDs are unique across queue and slot, the index has exactly those UIDs as keys,
   * and each key maps to the very record that is stored (LREM and LINSERT match
   * records by value, so the index entry must equal the stored record).
   */
  predicate Consistent(q: seq<Plan>, running: Option<Plan>, index: map<string, Plan>) {
    && (forall p :: p in q ==> HasUid(p) && Uid(p) in index && index[Uid(p)] == p)
    && DistinctUids(q)
    && (running.Some? ==> HasUid(running.value) && Uid(running.value) !in UidSet(q))
    && (running.Some? ==> Uid(running.value) in index && index[Uid(running.value)] == running.value)
    && index.Keys == UidSet(q) + SlotUids(running)
  }

  /** The position of the first plan of `s` whose UID is `uid`. */
  function IndexOfUid(s: seq<Plan>, uid: string): (k: nat)
    requires uid in UidSet(s)
    ensures k < |s| && HasUid(s[k]) && Uid(s[k]) == uid
    ensures uid !in UidSet(s[..k])
  {
    assert s == [s[0]] + s[1..];
    if HasUid(s[0]) && Uid(s[0]) == uid then
      assert s[..0] == [];
      0
    else
      assert uid in UidSet(s[1..]);
      var k := IndexOfUid(s[1..], uid);
      assert s[..k + 1] == [s[0]] + s[1..][..k];
      k + 1
  }

  /** In a list with distinct UIDs a UID is found exactly where it is. */
  lemma IndexOfUidAt(s: seq<Plan>, k: nat)
    requires k < |s| && AllHaveUid(s) && DistinctUids(s)
    ensures Uid(s[k]) in UidSet(s) && IndexOfUid(s, Uid(s[k])) == k
  {
    assert s[k] in s;
    var j := IndexOfUid(s, Uid(s[k]));
    assert HasUid(s[j]) && HasUid(s[k]);
  }

  /** In a list with distinct UIDs a record occurs once: LREM and LINSERT on it touch exactly position `k`. */
  lemma OccursOnce(s: seq<Plan>, k: nat)
    requires k < |s| && AllHaveUid(s) && DistinctUids(s)
    ensures s[k] !in s[..k] && s[k] !in s[k + 1..]
  {
    OccursOnceUid(s, k);
    assert s[k] in s;
  }

  lemma UidSetConcat(a: seq<Plan>, b: seq<Plan>)
    ensures UidSet(a + b) == UidSet(a) + UidSet(b)
  {
    forall u | u in UidSet(a + b) ensures u in UidSet(a) + UidSet(b) {
      var p :| p in a + b && HasUid(p) && Uid(p) == u;
    }
  }

  /** Inserting a plan with a new UID anywhere keeps the UIDs distinct. */
  lemma DistinctInsert(s: seq<Plan>, k: nat, p: Plan)
    requires k <= |s| && AllHaveUid(s) && DistinctUids(s)
    requires HasUid(p) && Uid(p) !in UidSet(s)
    ensures DistinctUids(s[..k] + [p] + s[k..])
  {
    var t := s[..k] + [p] + s[k..];
    forall i, j | 0 <= i < j < |t| && HasUid(t[i]) && HasUid(t[j]) ensures Uid(t[i]) != Uid(t[j]) {
      var i' := if i < k then i else i - 1;
      var j' := if j <= k then j else j - 1;
      if i == k {
        assert t[j] == s[j'] && s[j'] in s;
      } else if j == k {
        assert t[i] == s[i'] && s[i'] in s;
      } else {
        assert t[i] == s[i'] && t[j] == s[j'];
        assert HasUid(s[i']) && HasUid(s[j']);
      }
    }
  }

  /** Cutting a plan out keeps the UIDs distinct and removes exactly its UID. */
  lemma DistinctRemove(s: seq<Plan>, k: nat)
    requires k < |s| && AllHaveUid(s) && DistinctUids(s)
    ensures DistinctUids(s[..k] + s[k + 1..])
    ensures UidSet(s[..k] + s[k + 1..]) == UidSet(s) - {Uid(s[k])}
  {
    var t := s[..k] + s[k + 1..];
    forall i | 0 <= i < |t| ensures t[i] == s[if i < k then i else i + 1] { }
    forall i, j | 0 <= i < j < |t| && HasUid(t[i]) && HasUid(t[j]) ensures Uid(t[i]) != Uid(t[j]) {
      var i' := if i < k then i else i + 1;
      var j' := if j < k then j else j + 1;
      assert HasUid(s[i']) && HasUid(s[j']);
    }
    assert s == s[..k] + [s[k]] + s[k + 1..];
    UidSetConcat(s[..k] + [s[k]], s[k + 1..]);
    UidSetConcat(s[..k], [s[k]]);
    UidSetConcat(s[..k], s[k + 1..]);
    OccursOnceUid(s, k);
  }

  /** The UID at `k` occurs nowhere else. */
  lemma OccursOnceUid(s: seq<Plan>, k: nat)
    requires k < |s| && AllHaveUid(s) && DistinctUids(s)
    ensures Uid(s[k]) !in UidSet(s[..k]) && Uid(s[k]) !in UidSet(s[k + 1..])
  {
    forall p | p in s[..k] && HasUid(p) ensures Uid(p) != Uid(s[k]) {
      var i :| 0 <= i < k && s[..k][i] == p;
      assert s[i] == p && HasUid(s[k]);
    }
    forall p | p in s[k + 1..] && HasUid(p) ensures Uid(p) != Uid(s[k]) {
      var i :| 0 <= i < |s| - k - 1 && s[k + 1..][i] == p;
      assert s[k + 1 + i] == p && HasUid(s[k]);
    }
  }

  /** Adding a plan with a fresh UID at any queue position keeps the index consistent. */
  lemma {:induction false} ConsistentInsert(q: seq<Plan>, running: Option<Plan>, index: map<string, Plan>, k: nat, p: Plan)
    requires Consistent(q, running, index)
    requires k <= |q| && HasUid(p) && Uid(p) !in index
    ensures Consistent(q[..k] + [p] + q[k..], running, index[Uid(p) := p])
  {
    var t := q[..k] + [p] + q[k..];
    assert q == q[..k] + q[k..];
    UidSetConcat(q[..k], q[k..]);
    UidSetConcat(q[..k] + [p], q[k..]);
    UidSetConcat(q[..k], [p]);
    assert UidSet([p]) == {Uid(p)};
    DistinctInsert(q, k, p);
    forall x | x in t ensures HasUid(x) && Uid(x) in index[Uid(p) := p] && index[Uid(p) := p][Uid(x)] == x {
      if x != p {
        assert x in q;
      }
    }
  }

  /** Removing the queued plan at `k` together with its index entry keeps the index consistent. */
  lemma {:induction false} ConsistentRemove(q: seq<Plan>, running: Option<Plan>, index: map<string, Plan>, k: nat)
    requires Consistent(q, running, index) && k < |q|
    ensures Consistent(q[..k] + q[k + 1..], running, index - {Uid(q[k])})
  {
    var t := q[..k] + q[k + 1..];
    DistinctRemove(q, k);
    forall x | x in t ensures x in q && Uid(x) != Uid(q[k]) {
      assert Uid(x) in UidSet(t);
    }
  }

  /** Moving the queue front into the empty running slot keeps the index as it is. */
  lemma {:induction false} ConsistentStartNext(q: seq<Plan>, index: map<string, Plan>)
    requires Consistent(q, None, index) && |q| > 0
    ensures Consistent(q[1..], Some(q[0]), index)
  {
    DistinctRemove(q, 0);
    assert q[..0] + q[1..] == q[1..];
  }

  /** Emptying the running slot and dropping its UID keeps the index consistent. */
  lemma {:induction false} ConsistentComplete(q: seq<Plan>, p: Plan, index: map<string, Plan>)
    requires Consistent(q, Some(p), index)
    ensures Consistent(q, None, index - {Uid(p)})
  {
    forall x | x in q ensures Uid(x) != Uid(p) {
      assert Uid(x) in UidSet(q);
    }
  }

  /** Pushing the (augmented) running plan back to the queue front keeps the index consistent once its entry is updated. */
  lemma {:induction false} ConsistentStop(q: seq<Plan>, p: Plan, index: map<string, Plan>, p': Plan)
    requires Consistent(q, Some(p), index)
    requires HasUid(p') && Uid(p') == Uid(p)
    ensures Consistent([p'] + q, None, index[Uid(p) := p'])
  {
    ConsistentComplete(q, p, index);
    ConsistentInsert(q, None, index - {Uid(p)}, 0, p');
    FrontInsert(q, p');
    RemoveThenSet(index, Uid(p), p');
  }

  lemma FrontInsert(q: seq<Plan>, p: Plan)
    ensures q[..0] + [p] + q[0..] == [p] + q
  {
  }

  lemma RemoveThenSet(index: map<string, Plan>, u: string, p: Plan)
    ensures (index - {u})[u := p] == index[u := p]
  {
  }

  lemma ReplaceWithSame(index: map<string, Plan>, u: string, p: Plan)
    requires u in index && index[u] == p
    ensures (index - {u})[u := p] == index
  {
    RemoveThenSet(index, u, p);
  }

  /** The plans of `l` that carry a UID, in their order: what startup cleaning keeps. */
  function WithUid(l: seq<Plan>): (r: seq<Plan>)
    ensures forall p :: p in r <==> p in l && HasUid(p)
    ensures AllHaveUid(r) && |r| <= |l|
  {
    if |l| == 0 then [] else (if HasUid(l[0]) then [l[0]] else []) + WithUid(l[1..])
  }

  /** Removing every record that lacks a UID, as the LREM loop of `_queue_clean` does, leaves `WithUid(l)`. */
  lemma {:induction false} RemoveAllWithoutUid(l: seq<Plan>, drop: set<Plan>)
    requires forall p :: p in l ==> (p in drop <==> !HasUid(p))
    ensures RemoveAll(l, drop) == WithUid(l)
  {
    if |l| > 0 {
      assert l == [l[0]] + l[1..];
      RemoveAllWithoutUid(l[1..], drop);
    }
  }

  /** A list with one more plan at the end has distinct UIDs exactly when the new UID is not yet there. */
  lemma DistinctSnoc(s: seq<Plan>, p: Plan)
    requires AllHaveUid(s) && HasUid(p)
    ensures DistinctUids(s + [p]) <==> DistinctUids(s) && Uid(p) !in UidSet(s)
  {
    var t := s + [p];
    if DistinctUids(t) {
      forall i, j | 0 <= i < j < |s| && HasUid(s[i]) && HasUid(s[j]) ensures Uid(s[i]) != Uid(s[j]) {
        assert t[i] == s[i] && t[j] == s[j];
      }
      forall x | x in s && HasUid(x) ensures Uid(x) != Uid(p) {
        var i :| 0 <= i < |s| && s[i] == x;
        assert t[i] == x && t[|s|] == p;
      }
    }
    if DistinctUids(s) && Uid(p) !in UidSet(s) {
      forall i, j | 0 <= i < j < |t| && HasUid(t[i]) && HasUid(t[j]) ensures Uid(t[i]) != Uid(t[j]) {
        if j == |s| {
          assert t[i] == s[i] && s[i] in s;
        } else {
          assert t[i] == s[i] && t[j] == s[j];
        }
      }
    }
  }

  /** A prefix of a list with distinct UIDs has distinct UIDs. */
  lemma DistinctPrefix(s: seq<Plan>, k: nat)
    requires k <= |s|
    ensures DistinctUids(s) ==> DistinctUids(s[..k])
  {
    if DistinctUids(s) {
      forall i, j | 0 <= i < j < k && HasUid(s[..k][i]) && HasUid(s[..k][j]) ensures Uid(s[..k][i]) != Uid(s[..k][j]) {
      assert s[..k][i] == s[i] && s[..k][j] == s[j];
      }
    }
  }

  /** The UIDs of a prefix are among the UIDs of the list. */
  lemma UidSetPrefix(s: seq<Plan>, k: nat)
    requires k <= |s|
    ensures UidSet(s[..k]) <= UidSet(s)
  {
    forall u | u in UidSet(s[..k]) ensures u in UidSet(s) {
      var p :| p in s[..k] && HasUid(p) && Uid(p) == u;
      assert p in s;
    }
  }

  /**
   * Under the invariant a UID is indexed and not the running plan's exactly when
   * a queued plan carries it, and the index then holds that very record.
   */
  lemma IndexedQueuedPlan(q: seq<Plan>, running: Option<Plan>, index: map<string, Plan>, u: string)
    requires Consistent(q, running, index)
    ensures (u in index && !(running.Some? && Uid(running.value) == u)) <==> u in UidSet(q)
    ensures u in UidSet(q) ==> index[u] == q[IndexOfUid(q, u)]
  {
    if u in UidSet(q) {
      var k := IndexOfUid(q, u);
      assert q[k] in q;
    }
  }
}
