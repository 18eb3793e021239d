/** `Dedupe` of `slack/events.rs`: a FIFO-bounded set of event ids. */
module Dedupe {
  /** The last `capacity` of a sequence. */
  function Window<T>(s: seq<T>, capacity: nat): (w: seq<T>)
    ensures |w| <= capacity && |w| <= |s|
  {
    if |s| <= capacity then s else s[|s| - capacity..]
  }

  /** One `first_seen` on the ids kept so far. */
  function Next(order: seq<string>, capacity: nat, id: string): (r: (seq<string>, bool)) {
    if id in order then (order, false) else (Window(order + [id], capacity), true)
  }

  /** A window moves on by its own content alone. */
  lemma WindowAppend<T>(s: seq<T>, capacity: nat, x: T)
    ensures Window(s + [x], capacity) == Window(Window(s, capacity) + [x], capacity)
  {
  }

  ghost predicate Distinct(order: seq<string>) {
    forall i, j :: 0 <= i < j < |order| ==> order[i] != order[j]
  }

  lemma DistinctAppend(order: seq<string>, id: string)
    requires Distinct(order) && id !in order
    ensures Distinct(order + [id])
    ensures forall x :: x in order + [id] <==> x in order || x == id
  {
  }

  lemma DistinctTail(order: seq<string>)
    requires Distinct(order) && order != []
    ensures Distinct(order[1..])
    ensures forall x :: x in order[1..] <==> x in order && x != order[0]
  {
    assert order == [order[0]] + order[1..];
  }

  class Dedupe {
    var order: seq<string>
    var seen: set<string>
    const capacity: nat
    /** Every id accepted so far, oldest first. */
    ghost var accepted: seq<string>

    ghost predicate Valid()
      reads this
    {
      && order == Window(accepted, capacity)
      && (forall id :: id in seen <==> id in order)
      && Distinct(order)
    }

    constructor (capacity: nat)
      ensures Valid() && this.capacity == capacity && accepted == []
    {
      this.capacity := capacity;
      order, seen, accepted := [], {}, [];
    }

    /** True exactly when `id` is not among the last `capacity` accepted ids. */
    method FirstSeen(id: string) returns (isNew: bool)
      requires Valid()
      modifies this
      ensures Valid()
      ensures isNew <==> id !in Window(old(accepted), capacity)
      ensures accepted == if isNew then old(accepted) + [id] else old(accepted)
      ensures (order, isNew) == Next(old(order), capacity, id)
    {
      if id in seen {
        return false;
      }
      WindowAppend(accepted, capacity, id);
      DistinctAppend(order, id);
      seen := seen + {id};
      order := order + [id];
      accepted := accepted + [id];
      if |order| > capacity {
        DistinctTail(order);
        var oldest := order[0];
        order := order[1..];
        seen := seen - {oldest};
      }
      isNew := true;
    }
  }

  /** The ids accepted from a stream of deliveries. */
  function Accepted(ids: seq<string>, capacity: nat): (a: seq<string>) {
    if ids == [] then []
    else
      var before := Accepted(ids[..|ids| - 1], capacity);
      var id := ids[|ids| - 1];
      if id in Window(before, capacity) then before else before + [id]
  }

  /** No id returns within `capacity` accepted ones after it. */
  ghost predicate Spaced(accepted: seq<string>, capacity: nat) {
    forall i, j :: 0 <= i < j < |accepted| && j - i <= capacity ==> accepted[i] != accepted[j]
  }

  lemma SpacedAppend(accepted: seq<string>, capacity: nat, id: string)
    requires Spaced(accepted, capacity) && id !in Window(accepted, capacity)
    ensures Spaced(accepted + [id], capacity)
  {
    var n, w := |accepted|, Window(accepted, capacity);
    forall i | 0 <= i < n && n - i <= capacity
      ensures accepted[i] != id
    {
      assert accepted[i] == w[i - (n - |w|)];
    }
  }

  /** Any `capacity + 1` consecutive accepted ids are pairwise distinct. */
  lemma {:induction false} AcceptedSpaced(ids: seq<string>, capacity: nat)
    ensures Spaced(Accepted(ids, capacity), capacity)
  {
    if ids != [] {
      AcceptedSpaced(ids[..|ids| - 1], capacity);
      var before, id := Accepted(ids[..|ids| - 1], capacity), ids[|ids| - 1];
      if id !in Window(before, capacity) {
        SpacedAppend(before, capacity, id);
      }
    }
  }
}
