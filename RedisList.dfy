/**
 * The list commands of the key-value store that the queue relies on, with the
 * store's semantics: elements are matched by exact equality of their encodings.
 */
module RedisList {
  import opened Basics
  import opened Plans

  /** The elements of `l` not in `drop`, in their original order. */
  function RemoveAll(l: seq<Plan>, drop: set<Plan>): (r: seq<Plan>)
    ensures forall x :: x in r <==> x in l && x !in drop
    ensures |r| <= |l|
  {
    if |l| == 0 then [] else (if l[0] in drop then [] else [l[0]]) + RemoveAll(l[1..], drop)
  }

  /** `LREM key 0 value`: removes every element equal to `v`; returns the new list and the count removed. */
  function LRem(l: seq<Plan>, v: Plan): (r: (seq<Plan>, nat))
    ensures r.1 == multiset(l)[v]
    ensures multiset(r.0) == multiset(l)[v := 0]
    ensures |r.0| + r.1 == |l|
  {
    if |l| == 0 then ([], 0)
    else
      var rest := LRem(l[1..], v);
      assert l == [l[0]] + l[1..];
      if l[0] == v then (rest.0, rest.1 + 1) else ([l[0]] + rest.0, rest.1)
  }

  /** `LINSERT key BEFORE|AFTER pivot value`: inserts next to the first element equal to `pivot`; `None` when there is none (the store answers -1). */
  function LInsert(l: seq<Plan>, pivot: Plan, v: Plan, before: bool): (r: Option<seq<Plan>>)
    ensures r.Some? <==> pivot in l
    ensures r.Some? ==> |r.value| == |l| + 1 && v in r.value
  {
    if |l| == 0 then None
    else
      assert l == [l[0]] + l[1..];
      if l[0] == pivot then Some(if before then [v] + l else [l[0], v] + l[1..])
      else
        var rest := LInsert(l[1..], pivot, v, before);
        if rest.None? then None else Some([l[0]] + rest.value)
  }

  /** `LINDEX key i`: negative indices count from the back; `None` (nil) outside `[-|l|, |l|-1]`. */
  function LIndex(l: seq<Plan>, i: int): Option<Plan> {
    if 0 <= i < |l| then Some(l[i])
    else if -|l| <= i < 0 then Some(l[|l| + i])
    else None
  }

  /** LREM removes exactly what `RemoveAll` with the one value drops. */
  lemma {:induction false} LRemIsRemoveAll(l: seq<Plan>, v: Plan)
    ensures LRem(l, v).0 == RemoveAll(l, {v})
  {
    if |l| > 0 {
      LRemIsRemoveAll(l[1..], v);
      assert RemoveAll(l, {v}) == (if l[0] in {v} then [] else [l[0]]) + RemoveAll(l[1..], {v});
    }
  }

  /** Removing `a` and then `b` drops the union. */
  lemma {:induction false} RemoveAllTwice(l: seq<Plan>, a: set<Plan>, b: set<Plan>)
    ensures RemoveAll(RemoveAll(l, a), b) == RemoveAll(l, a + b)
  {
    if |l| > 0 {
      var tail := RemoveAll(l[1..], a);
      RemoveAllTwice(l[1..], a, b);
      assert RemoveAll(l, a + b) == (if l[0] in a + b then [] else [l[0]]) + RemoveAll(l[1..], a + b);
      if l[0] in a {
        assert RemoveAll(l, a) == tail;
      } else {
        var once := [l[0]] + tail;
        assert RemoveAll(l, a) == once;
        assert once[0] == l[0] && once[1..] == tail;
        assert RemoveAll(once, b) == (if l[0] in b then [] else [l[0]]) + RemoveAll(tail, b);
      }
    }
  }

  /** When `v` occurs exactly once, at `k`, LREM removes that one element and nothing else. */
  lemma {:induction false} LRemSingle(l: seq<Plan>, v: Plan, k: nat)
    requires k < |l| && l[k] == v
    requires v !in l[..k] && v !in l[k + 1..]
    ensures LRem(l, v) == (l[..k] + l[k + 1..], 1)
  {
    var tail := l[1..];
    if k == 0 {
      assert tail == l[k + 1..];
      LRemAbsent(tail, v);
      assert l[..0] + l[1..] == tail;
    } else {
      assert l[0] in l[..k];
      assert tail[..k - 1] == l[1..k] && tail[k..] == l[k + 1..];
      assert v !in tail[..k - 1] by {
        assert forall x :: x in l[1..k] ==> x in l[..k];
      }
      LRemSingle(tail, v, k - 1);
      ConsCut(l, k);
    }
  }

  /** Cutting one element out of the tail of `l` and putting the head back cuts it out of `l`. */
  lemma ConsCut(l: seq<Plan>, k: nat)
    requires 0 < k < |l|
    ensures [l[0]] + (l[1..][..k - 1] + l[1..][k..]) == l[..k] + l[k + 1..]
  {
    assert l[1..][..k - 1] == l[1..k];
    assert l[1..][k..] == l[k + 1..];
    assert l[..k] == [l[0]] + l[1..k];
  }

  /** LREM of an absent value changes nothing and counts zero. */
  lemma {:induction false} LRemAbsent(l: seq<Plan>, v: Plan)
    requires v !in l
    ensures LRem(l, v) == (l, 0)
  {
    if |l| > 0 {
      assert v !in l[1..] by {
        forall x | x in l[1..] ensures x != v { }
      }
      LRemAbsent(l[1..], v);
      assert l == [l[0]] + l[1..];
    }
  }

  /** LINSERT places `v` right before (or right after) the first occurrence of the pivot. */
  lemma {:induction false} LInsertAtFirst(l: seq<Plan>, pivot: Plan, v: Plan, before: bool, k: nat)
    requires k < |l| && l[k] == pivot
    requires pivot !in l[..k]
    ensures var at := if before then k else k + 1;
            LInsert(l, pivot, v, before) == Some(l[..at] + [v] + l[at..])
  {
    var at := if before then k else k + 1;
    if k == 0 {
      if before {
        assert l[..0] + [v] + l[0..] == [v] + l;
      } else {
        assert l[..1] + [v] + l[1..] == [l[0], v] + l[1..];
      }
    } else {
      var tail := l[1..];
      assert l[0] in l[..k];
      assert tail[..k - 1] == l[1..k];
      assert pivot !in tail[..k - 1] by {
        assert forall x :: x in l[1..k] ==> x in l[..k];
      }
      LInsertAtFirst(tail, pivot, v, before, k - 1);
      assert l[0] != pivot;
      ConsSplice(l, at, v);
    }
  }

  /** Splicing into the tail of `l` and putting the head back splices into `l` one place later. */
  lemma ConsSplice(l: seq<Plan>, at: nat, v: Plan)
    requires 0 < at <= |l|
    ensures [l[0]] + (l[1..][..at - 1] + [v] + l[1..][at - 1..]) == l[..at] + [v] + l[at..]
  {
    assert l[1..][..at - 1] == l[1..at];
    assert l[1..][at - 1..] == l[at..];
    assert l[..at] == [l[0]] + l[1..at];
  }

  /** The set of records in a list. */
  function Elements(l: seq<Plan>): (r: set<Plan>)
    ensures forall x :: x in r <==> x in l
  {
    set x | x in l
  }

  /** Removing nothing keeps the list. */
  lemma {:induction false} RemoveNothing(l: seq<Plan>)
    ensures RemoveAll(l, {}) == l
  {
    if |l| > 0 {
      RemoveNothing(l[1..]);
      assert l == [l[0]] + l[1..];
    }
  }

  /** One more LREM extends the set of removed records by one. */
  lemma RemoveStep(l: seq<Plan>, current: seq<Plan>, xs: seq<Plan>, j: nat)
    requires j < |xs| && current == RemoveAll(l, Elements(xs[..j]))
    ensures LRem(current, xs[j]).0 == RemoveAll(l, Elements(xs[..j + 1]))
  {
    LRemIsRemoveAll(current, xs[j]);
    RemoveAllTwice(l, Elements(xs[..j]), {xs[j]});
    ElementsSnoc(xs, j);
  }

  lemma ElementsSnoc(xs: seq<Plan>, j: nat)
    requires j < |xs|
    ensures Elements(xs[..j + 1]) == Elements(xs[..j]) + {xs[j]}
  {
    assert xs[..j + 1] == xs[..j] + [xs[j]];
  }
}
