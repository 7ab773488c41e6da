/**
  The cache as cache/lru builds it: a map from keys to elements of a doubly linked ring
  (the shape of Go's container/list), both updated in place.
 */
module LruCache {
  import opened Wrappers
  import opened LruSpec

  class Element<T> {
    var entry: Option<T>  // None only in the sentinel
    var next: Element?<T>
    var prev: Element?<T>

    constructor (entry: Option<T>)
      ensures this.entry == entry
    {
      this.entry, next, prev := entry, null, null;
    }
  }

  /** A sequence without its k-th element. */
  ghost function Cut<T>(s: seq<T>, k: nat): (r: seq<T>)
    requires k < |s|
    ensures |r| == |s| - 1
    ensures forall i :: 0 <= i < |r| ==> r[i] == s[Shift(i, k)]
    ensures forall x :: x in r ==> x in s
  {
    s[..k] + s[k + 1..]
  }

  /** Where position i of Cut(s, k) is in s. */
  ghost function Shift(i: nat, k: nat): nat {
    if i < k then i else i + 1
  }

  lemma {:induction false} CutFront<T>(s: seq<T>)
    requires s != []
    ensures [s[0]] + Cut(s, 0) == s
  {
  }

  /** A ring of elements around a sentinel; `elems` is the ring without it, front first. */
  class List<T> {
    const root: Element<T>
    var len: nat
    ghost var elems: seq<Element<T>>
    ghost var contents: seq<T>

    ghost function Repr(): set<object>
      reads this
    {
      {this, root} + set i | 0 <= i < |elems| :: elems[i]
    }

    /** Position -1 and position |elems| are both the sentinel. */
    ghost function At(i: int): Element<T>
      reads this
    {
      if 0 <= i < |elems| then elems[i] else root
    }

    ghost predicate Linked()
      reads this, root, elems
    {
      forall i, j :: 0 <= i <= |elems| && j == i - 1 ==> At(j).next == At(i) && At(i).prev == At(j)
    }

    ghost predicate Valid()
      reads this, root, elems
    {
      && len == |elems| == |contents|
      && root !in elems
      && (forall i, j :: 0 <= i < j < |elems| ==> elems[i] != elems[j])
      && (forall i :: 0 <= i < |elems| ==> elems[i].entry == Some(contents[i]))
      && Linked()
    }

    constructor ()
      ensures Valid() && elems == [] && fresh(Repr())
    {
      root := new Element<T>(None);
      len, elems, contents := 0, [], [];
      new;
      root.next, root.prev := root, root;
    }

    /** Forgets every element. */
    method Init()
      requires Valid()
      modifies this, root
      ensures Valid() && elems == []
    {
      root.next, root.prev := root, root;
      len, elems, contents := 0, [], [];
    }

    method InsertFront(e: Element<T>)
      requires Valid() && e != root && e !in elems && e.entry.Some?
      modifies this, root, elems, e
      ensures Valid()
      ensures elems == [e] + old(elems) && contents == [old(e.entry.value)] + old(contents)
      ensures forall x :: x in elems ==> x.entry == old(x.entry)
    {
      var first := root.next;
      assert At(-1) == root && first == At(0);
      e.prev, e.next := root, first;
      root.next := e;
      first.prev := e;
      len, elems, contents := len + 1, [e] + elems, [e.entry.value] + contents;
      assert forall i :: 1 <= i <= |elems| ==> At(i) == old(At(i - 1));
    }

    method PushFront(t: T) returns (e: Element<T>)
      requires Valid()
      modifies this, root, elems
      ensures Valid() && fresh(e)
      ensures elems == [e] + old(elems) && contents == [t] + old(contents)
    {
      e := new Element<T>(Some(t));
      InsertFront(e);
    }

    /** Takes an element out of the ring; its neighbours point at each other. */
    method Unlink(e: Element<T>, ghost k: nat)
      requires Valid() && k < |elems| && elems[k] == e
      modifies this`elems, root, elems
      ensures elems == Cut(old(elems), k) && Linked()
      ensures forall i :: 0 <= i < |old(elems)| ==> old(elems)[i].entry == old(elems[i].entry)
    {
      var p, n := e.prev, e.next;
      assert At(k) == e && p == At(k - 1) && n == At(k + 1);
      p.next := n;
      n.prev := p;
      e.next, e.prev := null, null;
      elems := Cut(elems, k);
      forall i, j | 0 <= i <= |elems| && j == i - 1
        ensures At(j).next == At(i) && At(i).prev == At(j)
      {
        assert At(i) == old(At(if i < k then i else i + 1));
        assert At(j) == old(At(if j < k then j else j + 1));
        assert old(At(k - 1).next == At(k) && At(k).prev == At(k - 1));
      }
    }

    method Remove(e: Element<T>, ghost k: nat)
      requires Valid() && k < |elems| && elems[k] == e
      modifies this, root, elems
      ensures Valid()
      ensures elems == Cut(old(elems), k)
      ensures contents == Cut(old(contents), k)
      ensures e !in elems && e.entry == old(e.entry)
    {
      Unlink(e, k);
      label unlinked:
      len, contents := len - 1, Cut(contents, k);
      assert forall i :: At(i) == old@unlinked(At(i));
    }

    method MoveToFront(e: Element<T>, ghost k: nat)
      requires Valid() && k < |elems| && elems[k] == e
      modifies this, root, elems
      ensures Valid()
      ensures elems == [e] + Cut(old(elems), k)
      ensures contents == [old(contents)[k]] + Cut(old(contents), k)
    {
      if root.next == e {
        assert At(-1) == root && At(0) == e;
        assert k == 0;
        CutFront(elems);
        CutFront(contents);
        return;
      }
      Remove(e, k);
      InsertFront(e);
    }

    /** Writes the entry an element holds, in place. */
    method Update(e: Element<T>, t: T, ghost k: nat)
      requires Valid() && k < |elems| && elems[k] == e
      modifies this`contents, e`entry
      ensures Valid()
      ensures contents == old(contents)[k := t]
    {
      e.entry := Some(t);
      contents := contents[k := t];
      assert forall i :: At(i) == old(At(i));
    }

    /** The least recently used element, or nil. */
    method Back() returns (e: Element?<T>)
      requires Valid()
      ensures if elems == [] then e == null else e == elems[|elems| - 1]
    {
      if len == 0 { return null; }
      assert At(|elems|) == root;
      e := root.prev;
      assert e == At(|elems| - 1);
    }
  }

  lemma {:induction false} FindAt<K, V>(s: seq<Item<K, V>>, k: nat)
    requires Distinct(s) && k < |s|
    ensures Find(s, s[k].key) == Some(s[k])
  {
    if k > 0 { FindAt(s[1..], k - 1); }
  }

  lemma {:induction false} WithoutAt<K, V>(s: seq<Item<K, V>>, k: nat)
    requires Distinct(s) && k < |s|
    ensures Without(s, s[k].key) == Cut(s, k)
  {
    var rest, key := s[1..], s[k].key;
    if k == 0 {
      assert Without(s, key) == rest by { WithoutAbsent(rest, key); }
      assert Cut(s, 0) == rest;
    } else {
      assert Without(rest, key) == Cut(rest, k - 1) by { WithoutAt(rest, k - 1); }
      assert [s[0]] + Cut(rest, k - 1) == Cut(s, k);
    }
  }

  type Node<K, V> = Element<Item<K, V>>

  /** The map sends the key of each entry to that entry's element, and has no other key. */
  ghost predicate Indexed<K, V>(ttl: int, items: map<K, Node<K, V>>, elems: seq<Node<K, V>>, s: seq<Item<K, V>>) {
    && |elems| == |s|
    && Distinct(s)
    && (forall i :: 0 <= i < |s| ==> s[i].key in items && items[s[i].key] == elems[i])
    && (forall k :: k in items ==> exists i :: 0 <= i < |s| && s[i].key == k)
    && (ttl <= 0 ==> forall i :: 0 <= i < |s| ==> s[i].expireAt == 0)
  }

  lemma {:induction false} IndexedAfterRemove<K, V>(
      ttl: int, items: map<K, Node<K, V>>, elems: seq<Node<K, V>>, s: seq<Item<K, V>>, k: nat)
    requires Indexed(ttl, items, elems, s) && k < |s|
    ensures Indexed(ttl, items - {s[k].key}, Cut(elems, k), Cut(s, k))
  {
    var t := Cut(s, k);
    forall key | key in items - {s[k].key} ensures exists i :: 0 <= i < |t| && t[i].key == key {
      var i :| 0 <= i < |s| && s[i].key == key;
      assert t[if i < k then i else i - 1] == s[i];
    }
  }

  lemma {:induction false} IndexedAfterPush<K, V>(
      ttl: int, items: map<K, Node<K, V>>, elems: seq<Node<K, V>>, s: seq<Item<K, V>>, e: Node<K, V>, it: Item<K, V>)
    requires Indexed(ttl, items, elems, s) && it.key !in items && (ttl <= 0 ==> it.expireAt == 0)
    ensures Indexed(ttl, items[it.key := e], [e] + elems, [it] + s)
  {
    var t, items' := [it] + s, items[it.key := e];
    forall key | key in items' ensures exists i :: 0 <= i < |t| && t[i].key == key {
      if key == it.key {
        assert t[0].key == key;
      } else {
        var i :| 0 <= i < |s| && s[i].key == key;
        assert t[i + 1].key == key;
      }
    }
  }

  /** Moving an entry to the front keeps the index. */
  lemma {:induction false} IndexedAfterPromote<K, V>(
      ttl: int, items: map<K, Node<K, V>>, elems: seq<Node<K, V>>, s: seq<Item<K, V>>, k: nat)
    requires Indexed(ttl, items, elems, s) && k < |s|
    ensures Indexed(ttl, items, [elems[k]] + Cut(elems, k), [s[k]] + Cut(s, k))
  {
    var it := s[k];
    IndexedAfterRemove(ttl, items, elems, s, k);
    IndexedAfterPush(ttl, items - {it.key}, Cut(elems, k), Cut(s, k), elems[k], it);
    assert items == (items - {it.key})[it.key := elems[k]];
  }

  /** Where a key of the map sits in the ring. */
  lemma {:induction false} Position<K, V>(
      ttl: int, items: map<K, Node<K, V>>, elems: seq<Node<K, V>>, s: seq<Item<K, V>>, key: K) returns (i: nat)
    requires Indexed(ttl, items, elems, s) && key in items
    ensures i < |s| && items[key] == elems[i] && s[i].key == key
  {
    i :| 0 <= i < |s| && s[i].key == key;
  }

  // The specification, computed at the position the map gives.

  lemma {:induction false} SetOfPresent<K, V>(cap: nat, ttl: int, s: seq<Item<K, V>>, i: nat, value: V, now: nat)
    requires Distinct(s) && i < |s| <= cap
    ensures AfterSet(cap, ttl, s, s[i].key, value, now) ==
            [Item(s[i].key, value, Stamp(ttl, now))] + Cut(s, i)
  {
    WithoutAt(s, i);
  }

  lemma {:induction false} SetOfAbsent<K, V>(cap: nat, ttl: int, s: seq<Item<K, V>>, key: K, value: V, now: nat)
    requires Distinct(s) && forall i :: 0 <= i < |s| ==> s[i].key != key
    ensures AfterSet(cap, ttl, s, key, value, now) == EvictOver(cap, [Item(key, value, Stamp(ttl, now))] + s)
  {
    WithoutDistinct(s, key);
  }

  lemma {:induction false} GetOfPresent<K, V>(ttl: int, s: seq<Item<K, V>>, i: nat, now: nat)
    requires Distinct(s) && i < |s|
    ensures AfterGet(ttl, s, s[i].key, now) ==
            if Expired(s[i], ttl, now) then (Cut(s, i), Miss)
            else ([s[i]] + Cut(s, i), Hit(s[i].value))
  {
    FindAt(s, i);
    WithoutAt(s, i);
  }

  class Cache<K(==), V> {
    const capacity: nat
    const ttl: int
    const ll: List<Item<K, V>>
    var items: map<K, Element<Item<K, V>>>

    /** The map and the ring hold the same entries, and the ring is within capacity. */
    ghost predicate Valid()
      reads this, ll, ll.root, ll.elems
    {
      Consistent() && capacity > 0 && |ll.contents| <= capacity
    }

    ghost predicate Consistent()
      reads this, ll, ll.root, ll.elems
    {
      ll.Valid() && Indexed(ttl, items, ll.elems, ll.contents)
    }

    /** The recency-ordered sequence the heap represents. */
    ghost function Contents(): seq<Item<K, V>>
      reads this, ll
    {
      ll.contents
    }

    constructor (capacity: int, ttl: int)
      ensures Valid() && Contents() == []
      ensures this.capacity == Clamp(capacity) && this.ttl == ttl
      ensures fresh(ll.Repr())
    {
      this.capacity := if capacity < 1 then 1 else capacity;
      this.ttl := ttl;
      ll := new List<Item<K, V>>();
      items := map[];
    }

    method Set(key: K, value: V, now: nat)
      requires Valid()
      modifies this, ll, ll.root, ll.elems
      ensures Valid()
      ensures Contents() == AfterSet(capacity, ttl, old(Contents()), key, value, now)
      ensures forall i :: 0 <= i < |ll.elems| ==> ll.elems[i] in old(ll.elems) || fresh(ll.elems[i])
    {
      if key in items {
        Replace(key, value, now);
      } else {
        Insert(key, value, now);
      }
    }

    method Replace(key: K, value: V, now: nat)
      requires Valid() && key in items
      modifies this, ll, ll.root, ll.elems
      ensures Valid()
      ensures Contents() == AfterSet(capacity, ttl, old(Contents()), key, value, now)
      ensures forall i :: 0 <= i < |ll.elems| ==> ll.elems[i] in old(ll.elems) || fresh(ll.elems[i])
    {
      ghost var was := Contents();
      ghost var i := Position(ttl, items, ll.elems, was, key);
      SetOfPresent(capacity, ttl, was, i, value, now);
      var el := items[key];
      var en := el.entry.value.(value := value);
      if ttl > 0 {
        en := en.(expireAt := now + ttl);
      }
      assert en == Item(key, value, Stamp(ttl, now));
      Refresh(el, en, i);
    }

    method Insert(key: K, value: V, now: nat)
      requires Valid() && key !in items
      modifies this, ll, ll.root, ll.elems
      ensures Valid()
      ensures Contents() == AfterSet(capacity, ttl, old(Contents()), key, value, now)
      ensures forall i :: 0 <= i < |ll.elems| ==> ll.elems[i] in old(ll.elems) || fresh(ll.elems[i])
    {
      SetOfAbsent(capacity, ttl, Contents(), key, value, now);
      var en := Item(key, value, 0);
      if ttl > 0 {
        en := en.(expireAt := now + ttl);
      }
      assert en == Item(key, value, Stamp(ttl, now));
      Add(en);
    }

    /** Adds an entry for a new key and evicts the oldest when that is one too many. */
    method Add(en: Item<K, V>)
      requires Valid() && en.key !in items
      requires ttl <= 0 ==> en.expireAt == 0
      modifies this, ll, ll.root, ll.elems
      ensures Valid()
      ensures Contents() == EvictOver(capacity, [en] + old(Contents()))
      ensures forall i :: 0 <= i < |ll.elems| ==> ll.elems[i] in old(ll.elems) || fresh(ll.elems[i])
    {
      Push(en);
      ghost var pushed := ll.elems;
      if ll.len > capacity {
        RemoveOldest();
      }
      forall i | 0 <= i < |ll.elems| ensures ll.elems[i] in old(ll.elems) || fresh(ll.elems[i]) {
        assert ll.elems[i] == pushed[i];
      }
    }

    method Get(key: K, now: nat) returns (r: Option<V>)
      requires Valid()
      modifies this, ll, ll.root, ll.elems
      ensures Valid()
      ensures var (after, outcome) := AfterGet(ttl, old(Contents()), key, now);
        && Contents() == after
        && r == Answer(outcome)
      ensures forall i :: 0 <= i < |ll.elems| ==> ll.elems[i] in old(ll.elems)
    {
      if key !in items {
        return None;
      }
      ghost var i := Position(ttl, items, ll.elems, ll.contents, key);
      GetOfPresent(ttl, ll.contents, i, now);
      var el := items[key];
      var en := el.entry.value;
      if ttl > 0 && en.expireAt != 0 && now > en.expireAt {
        Remove(el, i);
        return None;
      }
      Touch(el, i);
      return Some(en.value);
    }

    method Delete(key: K)
      requires Valid()
      modifies this, ll, ll.root, ll.elems
      ensures Valid() && Contents() == Without(old(Contents()), key)
      ensures forall i :: 0 <= i < |ll.elems| ==> ll.elems[i] in old(ll.elems)
    {
      if key in items {
        ghost var i := Position(ttl, items, ll.elems, ll.contents, key);
        WithoutAt(ll.contents, i);
        Remove(items[key], i);
      } else {
        WithoutDistinct(ll.contents, key);
      }
    }

    method Clear()
      requires Valid()
      modifies this, ll, ll.root
      ensures Valid() && Contents() == []
    {
      ll.Init();
      items := map[];
    }

    /** Stores a new value and expiry in an entry, in place, and moves it to the front. */
    method Refresh(el: Element<Item<K, V>>, en: Item<K, V>, ghost k: nat)
      requires Valid()
      requires k < |ll.elems| && ll.elems[k] == el && en.key == Contents()[k].key
      requires ttl <= 0 ==> en.expireAt == 0
      modifies ll, ll.root, ll.elems
      ensures Valid()
      ensures Contents() == [en] + Cut(old(Contents()), k)
      ensures forall i :: 0 <= i < |ll.elems| ==> ll.elems[i] in old(ll.elems)
    {
      Rewrite(el, en, k);
      assert Cut(Contents(), k) == Cut(old(Contents()), k);
      Touch(el, k);
    }

    /** Stores a new value and expiry in an entry, in place. */
    method Rewrite(el: Element<Item<K, V>>, en: Item<K, V>, ghost k: nat)
      requires Valid()
      requires k < |ll.elems| && ll.elems[k] == el && en.key == Contents()[k].key
      requires ttl <= 0 ==> en.expireAt == 0
      modifies ll`contents, el`entry
      ensures Valid()
      ensures Contents() == old(Contents())[k := en]
      ensures ll.elems == old(ll.elems)
    {
      ll.Update(el, en, k);
    }

    method Touch(el: Element<Item<K, V>>, ghost k: nat)
      requires Valid()
      requires k < |ll.elems| && ll.elems[k] == el
      modifies ll, ll.root, ll.elems
      ensures Valid()
      ensures Contents() == [old(Contents()[k])] + Cut(old(Contents()), k)
      ensures forall i :: 0 <= i < |ll.elems| ==> ll.elems[i] in old(ll.elems)
    {
      IndexedAfterPromote(ttl, items, ll.elems, ll.contents, k);
      ll.MoveToFront(el, k);
    }

    /** Adds an entry for a new key; the ring may now exceed capacity by one. */
    method Push(en: Item<K, V>)
      requires Valid() && en.key !in items
      requires ttl <= 0 ==> en.expireAt == 0
      modifies this, ll, ll.root, ll.elems
      ensures Consistent()
      ensures Contents() == [en] + old(Contents())
      ensures fresh(ll.elems[0]) && ll.elems == [ll.elems[0]] + old(ll.elems)
    {
      ghost var elems, was := ll.elems, ll.contents;
      var el := ll.PushFront(en);
      IndexedAfterPush(ttl, items, elems, was, el, en);
      items := items[en.key := el];
    }

    method RemoveOldest()
      requires Consistent()
      modifies this, ll, ll.root, ll.elems
      ensures Consistent()
      ensures old(Contents()) == [] ==> Contents() == []
      ensures old(Contents()) != [] ==> Contents() == old(Contents())[..|old(Contents())| - 1]
      ensures ll.elems <= old(ll.elems)
    {
      var el := ll.Back();
      if el != null {
        ghost var n := |ll.elems| - 1;
        assert Cut(ll.elems, n) == ll.elems[..n] && Cut(ll.contents, n) == ll.contents[..n];
        Remove(el, n);
      }
    }

    method Remove(el: Element<Item<K, V>>, ghost k: nat)
      requires Consistent()
      requires k < |ll.elems| && ll.elems[k] == el
      modifies this, ll, ll.root, ll.elems
      ensures Consistent()
      ensures Contents() == Cut(old(Contents()), k)
      ensures ll.elems == Cut(old(ll.elems), k)
      ensures forall i :: 0 <= i < |ll.elems| ==> ll.elems[i] in old(ll.elems)
    {
      IndexedAfterRemove(ttl, items, ll.elems, ll.contents, k);
      items := items - {el.entry.value.key};
      ll.Remove(el, k);
    }

    /** One call of a history, with the answer a Get gives. */
    method Perform(op: Op<K, V>) returns (r: Option<V>)
      requires Valid()
      modifies this, ll, ll.root, ll.elems
      ensures Valid()
      ensures Contents() == Step(capacity, ttl, old(Contents()), op).0
      ensures r == Answer(Step(capacity, ttl, old(Contents()), op).1)
      ensures forall i :: 0 <= i < |ll.elems| ==> ll.elems[i] in old(ll.elems) || fresh(ll.elems[i])
    {
      r := None;
      match op
      case Set(key, value, now) => Set(key, value, now);
      case Get(key, now) => r := Get(key, now);
      case Delete(key) => Delete(key);
      case Clear => Clear();
    }
  }

  function Answer<V>(o: Outcome<V>): Option<V> {
    if o.Hit? then Some(o.value) else None
  }

  ghost predicate Answered<K, V>(cap: nat, ttl: int, ops: seq<Op<K, V>>, answers: seq<Option<V>>) {
    && |answers| <= |ops|
    && forall i :: 0 <= i < |answers| ==> answers[i] == Answer(OutcomeAt(cap, ttl, ops, i))
  }

  lemma {:induction false} RunNext<K, V>(cap: nat, ttl: int, ops: seq<Op<K, V>>, n: nat)
    requires n < |ops|
    ensures Run(cap, ttl, ops[..n + 1]) == Step(cap, ttl, Run(cap, ttl, ops[..n]), ops[n]).0
    ensures OutcomeAt(cap, ttl, ops, n) == Step(cap, ttl, Run(cap, ttl, ops[..n]), ops[n]).1
  {
    assert ops[..n + 1][..n] == ops[..n];
  }

  /** Any history of calls on a new cache: the heap ends as the specification says, and so does every answer. */
  method Execute<K(==), V>(
      capacity: int, ttl: int, ops: seq<Op<K, V>>) returns (c: Cache<K, V>, answers: seq<Option<V>>)
    ensures c.Valid() && c.Contents() == Run(Clamp(capacity), ttl, ops)
    ensures |answers| == |ops|
    ensures forall i :: 0 <= i < |ops| ==> answers[i] == Answer(OutcomeAt(Clamp(capacity), ttl, ops, i))
    ensures fresh(c) && fresh(c.ll.Repr())
  {
    ghost var cap := Clamp(capacity);
    c := new Cache<K, V>(capacity, ttl);
    answers := [];
    for n := 0 to |ops|
      invariant c.Valid() && c.capacity == cap && c.ttl == ttl
      invariant fresh(c) && fresh(c.ll) && fresh(c.ll.root)
      invariant forall i :: 0 <= i < |c.ll.elems| ==> fresh(c.ll.elems[i])
      invariant c.Contents() == Run(cap, ttl, ops[..n])
      invariant |answers| == n && Answered(cap, ttl, ops, answers)
    {
      RunNext(cap, ttl, ops, n);
      var r := c.Perform(ops[n]);
      answers := answers + [r];
    }
    assert ops[..|ops|] == ops;
  }
}
