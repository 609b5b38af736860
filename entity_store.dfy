/**
 * The fallback-path entity store that `ProductService`, `SupplierService`
 * and `OrderService` each implement with the same code
 * (src/services/product.service.ts, supplier.services.ts, order.service.ts).
 *
 * A store holds two JavaScript arrays: the module-level fallback dataset
 * (`MOCK_*`) and the cache, the array its `BehaviorSubject` currently holds.
 * Both are heap objects here, so that the cache can be the very same array
 * as the fallback dataset, as it is after a failed initial load.
 * Publishing a snapshot (`subject.next([...xs])`) is assigning a fresh
 * array to `cache`; the outcome of each REST call is an argument.
 */
module EntityStore {
  import opened Wrappers
  import opened Seqs

  /** A JavaScript array: a mutable object that several owners may share. */
  class MutableList<T> {
    var items: seq<T>

    constructor (s: seq<T>)
      ensures items == s
    {
      items := s;
    }

    /** `xs.push(x)`. */
    method Push(x: T)
      modifies this
      ensures items == old(items) + [x]
    {
      items := items + [x];
    }

    /** `xs[i] = x`. */
    method Set(i: nat, x: T)
      requires i < |items|
      modifies this
      ensures items == old(items)[i := x]
    {
      items := items[i := x];
    }

    /** `xs.splice(i, 1)`. */
    method Splice(i: nat)
      requires i < |items|
      modifies this
      ensures items == old(items)[..i] + old(items)[i + 1..]
    {
      items := items[..i] + items[i + 1..];
    }
  }

  /** Some element of `s` carries identity `id`. */
  predicate HasId<T>(s: seq<T>, idOf: T -> int, id: int) {
    exists j :: 0 <= j < |s| && idOf(s[j]) == id
  }

  /** Position `j` holds the first element of `s` with identity `id`. */
  predicate IsFirstMatch<T>(s: seq<T>, idOf: T -> int, id: int, j: int) {
    0 <= j < |s| && idOf(s[j]) == id && forall k :: 0 <= k < j ==> idOf(s[k]) != id
  }

  /** `s.findIndex(x => x.id === id)`: the first matching position, or -1. */
  function FindIndex<T>(s: seq<T>, idOf: T -> int, id: int): (r: int)
    ensures -1 <= r < |s|
    ensures r >= 0 ==> IsFirstMatch(s, idOf, id, r)
    ensures r < 0 <==> !HasId(s, idOf, id)
  {
    if s == [] then -1
    else if idOf(s[0]) == id then 0
    else
      var k := FindIndex(s[1..], idOf, id);
      assert forall j :: 1 <= j < |s| ==> s[j] == s[1..][j - 1];
      if k < 0 then -1 else k + 1
  }

  /** There is only one first match. */
  lemma FirstMatchUnique<T>(s: seq<T>, idOf: T -> int, id: int, j: int)
    requires IsFirstMatch(s, idOf, id, j)
    ensures FindIndex(s, idOf, id) == j
  {
    assert HasId(s, idOf, id) by {
      assert idOf(s[j]) == id;
    }
  }

  /** `s.find(x => x.id === id)`: the first element with that identity, if any. */
  function Find<T>(s: seq<T>, idOf: T -> int, id: int): (r: Option<T>)
    ensures r.None? <==> !HasId(s, idOf, id)
    ensures r.Some? ==> exists j :: IsFirstMatch(s, idOf, id, j) && s[j] == r.value
  {
    var i := FindIndex(s, idOf, id);
    if i >= 0 then Some(s[i]) else None
  }

  /** `Math.max(...s.map(x => x.id), 0)`. */
  function MaxId<T>(s: seq<T>, idOf: T -> int): (m: int)
    ensures m >= 0
    ensures forall i :: 0 <= i < |s| ==> idOf(s[i]) <= m
    ensures m == 0 || exists i :: 0 <= i < |s| && idOf(s[i]) == m
  {
    if s == [] then 0
    else
      var rest := MaxId(s[1..], idOf);
      assert forall i :: 1 <= i < |s| ==> s[i] == s[1..][i - 1];
      if idOf(s[0]) > rest then idOf(s[0]) else rest
  }

  /** The identity a fallback create assigns: greater than every identity in `s`, and at least 1. */
  function NextId<T>(s: seq<T>, idOf: T -> int): (n: int)
    ensures n >= 1
    ensures forall i :: 0 <= i < |s| ==> idOf(s[i]) < n
    ensures n == 1 || exists i :: 0 <= i < |s| && idOf(s[i]) == n - 1
  {
    MaxId(s, idOf) + 1
  }

  /** `xs[xs.findIndex(..)] = x` when there is a match: only the first match is replaced. */
  function ReplaceFirst<T>(s: seq<T>, idOf: T -> int, id: int, x: T): (r: seq<T>)
    ensures |r| == |s|
    ensures forall j :: 0 <= j < |s| && IsFirstMatch(s, idOf, id, j) ==> r[j] == x
    ensures forall j :: 0 <= j < |s| && !IsFirstMatch(s, idOf, id, j) ==> r[j] == s[j]
    ensures !HasId(s, idOf, id) ==> r == s
  {
    var i := FindIndex(s, idOf, id);
    if i >= 0 then
      assert forall j :: IsFirstMatch(s, idOf, id, j) ==> j == i by {
        forall j | IsFirstMatch(s, idOf, id, j) ensures j == i { FirstMatchUnique(s, idOf, id, j); }
      }
      s[i := x]
    else s
  }

  /** `xs.splice(xs.findIndex(..), 1)` when there is a match: at most the first match goes. */
  function RemoveFirst<T>(s: seq<T>, idOf: T -> int, id: int): (r: seq<T>)
    ensures !HasId(s, idOf, id) ==> r == s
    ensures HasId(s, idOf, id) ==>
      |r| == |s| - 1 && exists j :: IsFirstMatch(s, idOf, id, j) && r == s[..j] + s[j + 1..]
  {
    var i := FindIndex(s, idOf, id);
    if i >= 0 then s[..i] + s[i + 1..] else s
  }

  /** `xs.filter(x => x.id !== id)`: every element with identity `id` goes, the rest stay. */
  function WithoutId<T>(s: seq<T>, idOf: T -> int, id: int): (r: seq<T>)
    ensures !HasId(r, idOf, id)
    ensures forall i :: 0 <= i < |r| ==> r[i] in s
    ensures forall i :: 0 <= i < |s| && idOf(s[i]) != id ==> s[i] in r
  {
    Filter(x => idOf(x) != id, s)
  }

  /** Removing by identity keeps the others in their relative order. */
  lemma WithoutIdKeepsOrder<T>(s: seq<T>, idOf: T -> int, id: int)
    ensures IsSubsequence(WithoutId(s, idOf, id), s)
  {
    FilterIsSubsequence(x => idOf(x) != id, s);
  }

  /** Deleting the same identity a second time changes nothing. */
  lemma WithoutIdIdempotent<T>(s: seq<T>, idOf: T -> int, id: int)
    ensures WithoutId(WithoutId(s, idOf, id), idOf, id) == WithoutId(s, idOf, id)
  {
    FilterIdempotent(x => idOf(x) != id, s);
  }

  /** Splicing out the first match before filtering makes no difference to the filter. */
  lemma WithoutIdAfterRemoveFirst<T>(s: seq<T>, idOf: T -> int, id: int)
    ensures WithoutId(RemoveFirst(s, idOf, id), idOf, id) == WithoutId(s, idOf, id)
  {
    var i := FindIndex(s, idOf, id);
    if i >= 0 {
      var keep := x => idOf(x) != id;
      var before, hit, after := s[..i], [s[i]], s[i + 1..];
      assert RemoveFirst(s, idOf, id) == before + after;
      assert s == (before + hit) + after;
      FilterAppend(keep, before + hit, after);
      FilterAppend(keep, before, hit);
      FilterAppend(keep, before, after);
      assert Filter(keep, hit) == [];
      assert Filter(keep, before) + [] == Filter(keep, before);
    }
  }

  /** Writing an element that carries the searched identity over the first match, twice, is writing it once. */
  lemma ReplaceFirstTwice<T>(s: seq<T>, idOf: T -> int, id: int, x: T)
    requires idOf(x) == id
    ensures ReplaceFirst(ReplaceFirst(s, idOf, id, x), idOf, id, x) == ReplaceFirst(s, idOf, id, x)
  {
    var i := FindIndex(s, idOf, id);
    if i >= 0 {
      var t := ReplaceFirst(s, idOf, id, x);
      assert t == s[i := x];
      assert IsFirstMatch(t, idOf, id, i);
      FirstMatchUnique(t, idOf, id, i);
    }
  }

  /** An element appended with an identity above all others is the one `find` returns for it. */
  lemma FindAppendedFresh<T>(s: seq<T>, idOf: T -> int, x: T)
    requires forall i :: 0 <= i < |s| ==> idOf(s[i]) < idOf(x)
    ensures Find(s + [x], idOf, idOf(x)) == Some(x)
  {
    var t := s + [x];
    assert IsFirstMatch(t, idOf, idOf(x), |s|) by {
      forall k | 0 <= k < |s| ensures idOf(t[k]) != idOf(x) { assert t[k] == s[k]; }
    }
    FirstMatchUnique(t, idOf, idOf(x), |s|);
  }

  /** An element already present keeps `findIndex` where it was, whatever is appended. */
  lemma {:induction false} FindIndexAppend<T>(s: seq<T>, t: seq<T>, idOf: T -> int, id: int)
    requires HasId(s, idOf, id)
    ensures FindIndex(s + t, idOf, id) == FindIndex(s, idOf, id)
  {
    var j :| 0 <= j < |s| && idOf(s[j]) == id;
    if idOf(s[0]) != id {
      assert j > 0 && s[1..][j - 1] == s[j];
      FindIndexAppend(s[1..], t, idOf, id);
      assert (s + t)[1..] == s[1..] + t;
    }
  }

  /**
   * One entity store. `idOf` reads an entity's `id`; `withId(e, n)` is
   * `{ ...e, id: n }`.
   */
  class Store<T(!new)> {
    const idOf: T -> int
    const withId: (T, int) -> T
    /** The `MOCK_*` array. */
    const fallback: MutableList<T>
    /** The array the subject currently publishes. */
    var cache: MutableList<T>

    /** `withId` sets exactly the identity it is given. */
    ghost predicate Valid() {
      forall e, n :: idOf(withId(e, n)) == n
    }

    /** The fallback dataset's current contents. */
    function Fallback(): seq<T>
      reads fallback
    {
      fallback.items
    }

    /** The current published snapshot. */
    function Cache(): seq<T>
      reads this, cache
    {
      cache.items
    }

    /** The cache is the fallback array itself, not a copy. */
    predicate Aliased()
      reads this
    {
      cache == fallback
    }

    /**
     * The service's constructor: it seeds the fallback array and runs
     * `loadX()`. On a failed `getAll` the subject publishes `MOCK_*` itself.
     */
    constructor Load(seed: seq<T>, load: Remote<seq<T>>, idOf: T -> int, withId: (T, int) -> T)
      requires forall e, n :: idOf(withId(e, n)) == n
      ensures Valid() && this.idOf == idOf && this.withId == withId
      ensures fresh(fallback) && Fallback() == seed
      ensures load.Failed? ==> Aliased()
      ensures load.Succeeded? ==> fresh(cache) && !Aliased() && Cache() == load.value
    {
      this.idOf := idOf;
      this.withId := withId;
      var f := new MutableList(seed);
      fallback := f;
      match load
      case Succeeded(items) =>
        cache := new MutableList(items);
      case Failed =>
        cache := f;
    }

    /** `getAll()`: the server's array, or on failure the fallback array itself. */
    method GetAll(remote: Remote<seq<T>>) returns (a: MutableList<T>)
      ensures remote.Failed? ==> a == fallback
      ensures remote.Succeeded? ==> fresh(a) && a.items == remote.value
    {
      match remote
      case Succeeded(items) =>
        a := new MutableList(items);
      case Failed =>
        a := fallback;
    }

    /** `getById(id)`: on failure, the first fallback entity with that identity, or undefined. */
    method GetById(id: int, remote: Remote<T>) returns (r: Option<T>)
      ensures remote.Succeeded? ==> r == Some(remote.value)
      ensures remote.Failed? ==> r == Find(Fallback(), idOf, id)
      ensures remote.Failed? && !HasId(Fallback(), idOf, id) ==> r == None
      ensures remote.Failed? && r.Some? ==>
        idOf(r.value) == id && exists j :: IsFirstMatch(Fallback(), idOf, id, j) && Fallback()[j] == r.value
    {
      match remote
      case Succeeded(v) =>
        r := Some(v);
      case Failed =>
        r := Find(fallback.items, idOf, id);
    }

    /**
     * `create(e)`. On success the server's entity is appended to the cache.
     * On failure the entity gets the next identity, is pushed onto the
     * fallback array, and is appended to the cache; when the cache is the
     * fallback array, the push has already appended it once.
     */
    method Create(e: T, remote: Remote<T>) returns (r: T)
      requires Valid()
      modifies this, fallback
      ensures fresh(cache) && !Aliased()
      ensures remote.Succeeded? ==>
        r == remote.value && Fallback() == old(Fallback()) && Cache() == old(Cache()) + [r]
      ensures remote.Failed? ==>
        && r == withId(e, NextId(old(Fallback()), idOf))
        && (forall i :: 0 <= i < |old(Fallback())| ==> idOf(old(Fallback())[i]) < idOf(r))
        && Fallback() == old(Fallback()) + [r]
        && Cache() == old(Cache()) + (if old(Aliased()) then [r, r] else [r])
    {
      match remote
      case Succeeded(v) =>
        r := v;
        cache := new MutableList(cache.items + [r]);
      case Failed =>
        var newId := NextId(fallback.items, idOf);
        r := withId(e, newId);
        fallback.Push(r);
        cache := new MutableList(cache.items + [r]);
    }

    /**
     * `update(id, e)`. Whichever path runs, the first cache entry with
     * identity `id` is overwritten in place and a copy is published; with
     * no such entry nothing is published. The failure path first overwrites
     * the first fallback match with `e` as given, whatever identity `e`
     * carries, so when the cache is the fallback array the second search
     * runs over the already overwritten array.
     */
    method Update(id: int, e: T, remote: Remote<T>) returns (r: T)
      modifies this, fallback, cache
      ensures r == if remote.Succeeded? then remote.value else e
      ensures remote.Succeeded? ==>
        && Cache() == ReplaceFirst(old(Cache()), idOf, id, r)
        && Fallback() == (if old(Aliased()) then ReplaceFirst(old(Fallback()), idOf, id, r) else old(Fallback()))
        && (if HasId(old(Cache()), idOf, id) then fresh(cache) && !Aliased() else cache == old(cache))
      ensures remote.Failed? && !old(Aliased()) ==>
        && Fallback() == ReplaceFirst(old(Fallback()), idOf, id, e)
        && Cache() == ReplaceFirst(old(Cache()), idOf, id, e)
        && (if HasId(old(Cache()), idOf, id) then fresh(cache) else cache == old(cache))
      ensures remote.Failed? && old(Aliased()) ==>
        var once := ReplaceFirst(old(Fallback()), idOf, id, e);
        && Fallback() == ReplaceFirst(once, idOf, id, e)
        && Cache() == Fallback()
        && (if HasId(once, idOf, id) then fresh(cache) else Aliased())
      ensures remote.Failed? && old(Aliased()) && idOf(e) == id ==>
        Fallback() == ReplaceFirst(old(Fallback()), idOf, id, e)
      ensures !(remote.Failed? && old(Aliased())) && HasId(old(Cache()), idOf, id) ==>
        old(cache).items == ReplaceFirst(old(Cache()), idOf, id, r)
    {
      match remote
      case Succeeded(updated) =>
        r := updated;
        var index := FindIndex(cache.items, idOf, id);
        if index >= 0 {
          cache.Set(index, updated);
          cache := new MutableList(cache.items);
        }
      case Failed =>
        r := e;
        if idOf(e) == id {
          ReplaceFirstTwice(fallback.items, idOf, id, e);
        }
        var index := FindIndex(fallback.items, idOf, id);
        if index >= 0 {
          fallback.Set(index, e);
        }
        var currentIndex := FindIndex(cache.items, idOf, id);
        if currentIndex >= 0 {
          cache.Set(currentIndex, e);
          cache := new MutableList(cache.items);
        }
    }

    /**
     * `delete(id)`. Every cache entry with identity `id` goes; on the
     * failure path the first fallback entry with it is spliced out as well.
     */
    method Delete(id: int, remote: Remote<()>)
      modifies this, fallback
      ensures fresh(cache) && !Aliased()
      ensures Cache() == WithoutId(old(Cache()), idOf, id)
      ensures Fallback() == if remote.Succeeded? then old(Fallback()) else RemoveFirst(old(Fallback()), idOf, id)
    {
      match remote
      case Succeeded(_) =>
        cache := new MutableList(WithoutId(cache.items, idOf, id));
      case Failed =>
        var mockIndex := FindIndex(fallback.items, idOf, id);
        if mockIndex >= 0 {
          fallback.Splice(mockIndex);
        }
        var current := cache.items;
        WithoutIdAfterRemoveFirst(old(fallback.items), idOf, id);
        cache := new MutableList(WithoutId(current, idOf, id));
    }
  }
}
