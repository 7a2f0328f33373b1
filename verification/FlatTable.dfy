/**
 The flat array that both projections use in place of a map: the first `count_`
 slots of `slots_`, searched from the front by name (`find`, `get`,
 `get_or_create` in include/PositionTracker.h and include/OrderManager.h).
 */
module FlatTable {
  import opened OrderEvents
  import opened Wrappers

  datatype Slot<+V> = Slot(key: Name, body: V)

  type Table<+V> = seq<Slot<V>>

  /** Index of the first slot named k, or |t|. */
  function Find<V>(t: Table<V>, k: Name): (i: nat)
    ensures i <= |t|
    ensures i < |t| ==> t[i].key == k
    ensures forall j :: 0 <= j < i ==> t[j].key != k
  {
    if t == [] || t[0].key == k then 0 else 1 + Find(t[1..], k)
  }

  predicate Has<V>(t: Table<V>, k: Name) {
    Find(t, k) < |t|
  }

  function Get<V>(t: Table<V>, k: Name): (found: Option<V>) {
    if Has(t, k) then Some(t[Find(t, k)].body) else None
  }

  /** No two slots share a name. */
  ghost predicate Distinct<V>(t: Table<V>) {
    forall i, j :: 0 <= i < j < |t| ==> t[i].key != t[j].key
  }

  /** `get_or_create` without its return value: a missing name gets a zeroed slot at the
      end, unless the table is full. */
  function Ensure<V>(t: Table<V>, k: Name, capacity: nat, zero: V): (u: Table<V>) {
    if Has(t, k) || |t| >= capacity then t else t + [Slot(k, zero)]
  }

  function Put<V>(t: Table<V>, k: Name, v: V): (u: Table<V>)
    requires Has(t, k)
  {
    t[Find(t, k) := Slot(k, v)]
  }

  lemma FindAt<V>(t: Table<V>, i: nat)
    requires Distinct(t) && i < |t|
    ensures Find(t, t[i].key) == i
  {
  }

  /** Writing one slot changes the lookup of its name and of no other, and moves nothing. */
  lemma PutGet<V>(t: Table<V>, k: Name, v: V, other: Name)
    requires Has(t, k)
    ensures Find(Put(t, k, v), other) == Find(t, other)
    ensures Get(Put(t, k, v), other) == if other == k then Some(v) else Get(t, other)
    ensures Distinct(t) ==> Distinct(Put(t, k, v))
  {
    var u := Put(t, k, v);
    assert forall j :: 0 <= j < |t| ==> u[j].key == t[j].key;
  }

  /** Creating a slot adds its zeroed name and leaves every other lookup as it was. */
  lemma EnsureGet<V>(t: Table<V>, k: Name, capacity: nat, zero: V, other: Name)
    ensures var u := Ensure(t, k, capacity, zero);
            && t <= u
            && (Has(u, k) <==> Has(t, k) || |t| < capacity)
            && Get(u, other) == (if other == k && !Has(t, k) && |t| < capacity then Some(zero) else Get(t, other))
            && (Distinct(t) ==> Distinct(u))
            && (|t| <= capacity ==> |u| <= capacity)
  {
    var u := Ensure(t, k, capacity, zero);
    if !Has(t, k) && |t| < capacity {
      assert u[|t|].key == k;
      assert u[..|t|] == t;
      assert Find(t, other) < |t| ==> u[Find(t, other)].key == other;
    }
  }

  // ---- Which names get a slot, and where ----

  function Keys<V>(t: Table<V>): (ks: seq<Name>)
    ensures |ks| == |t|
    ensures forall i :: 0 <= i < |t| ==> ks[i] == t[i].key
  {
    seq(|t|, i requires 0 <= i < |t| => t[i].key)
  }

  lemma HasIsMember<V>(t: Table<V>, k: Name)
    ensures Has(t, k) <==> k in Keys(t)
  {
    if Has(t, k) {
      assert Keys(t)[Find(t, k)] == k;
    }
  }

  /** The distinct elements of xs in the order in which they first appear. */
  function FirstDistinct(xs: seq<Name>): (ds: seq<Name>)
    ensures forall x :: x in ds <==> x in xs
    ensures forall i, j :: 0 <= i < j < |ds| ==> ds[i] != ds[j]
  {
    if xs == [] then []
    else
      var ds := FirstDistinct(xs[..|xs| - 1]);
      assert xs == xs[..|xs| - 1] + [xs[|xs| - 1]];
      if xs[|xs| - 1] in ds then ds else ds + [xs[|xs| - 1]]
  }

  /** The names that win a slot when xs are asked for in turn. */
  function Admitted(xs: seq<Name>, capacity: nat): (ks: seq<Name>)
    ensures |ks| <= capacity
    ensures forall i, j :: 0 <= i < j < |ks| ==> ks[i] != ks[j]
  {
    var ds := FirstDistinct(xs);
    if |ds| <= capacity then ds else ds[..capacity]
  }

  /** `get_or_create` of one more name keeps the names of the table those that came first. */
  lemma EnsureKeys<V>(t: Table<V>, xs: seq<Name>, k: Name, capacity: nat, zero: V)
    requires Keys(t) == Admitted(xs, capacity)
    ensures Keys(Ensure(t, k, capacity, zero)) == Admitted(xs + [k], capacity)
  {
    assert (xs + [k])[..|xs|] == xs;
    HasIsMember(t, k);
    var ds := FirstDistinct(xs);
    if Has(t, k) {
      assert k in ds;
    }
  }

  /** Tables whose names are distinct, as every table filled by `Ensure` is. */
  lemma DistinctKeys<V>(t: Table<V>, xs: seq<Name>, capacity: nat)
    requires Keys(t) == Admitted(xs, capacity)
    ensures Distinct(t) && |t| <= capacity
  {
    var ks := Keys(t);
    forall i, j | 0 <= i < j < |t|
      ensures t[i].key != t[j].key
    {
      assert ks[i] != ks[j];
    }
  }
}
