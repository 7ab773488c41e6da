/**
  What cache/lru promises, stated on one sequence of entries ordered from most to least
  recently used.  The heap model of the cache is in lru_cache.dfy and refines these functions.

  Instants are nanoseconds since the zero time; an entry whose expireAt is 0 never expires.
 */
module LruSpec {
  import opened Wrappers

  datatype Item<+K, +V> = Item(key: K, value: V, expireAt: nat)

  /** One call, with the clock reading it takes. */
  datatype Op<+K, +V> = Set(key: K, value: V, now: nat) | Get(key: K, now: nat) | Delete(key: K) | Clear

  datatype Outcome<+V> = Done | Hit(value: V) | Miss

  function Clamp(capacity: int): (r: nat) {
    if capacity < 1 then 1 else capacity
  }

  function Stamp(ttl: int, now: nat): nat {
    if ttl > 0 then now + ttl else 0
  }

  predicate Expired<K, V>(it: Item<K, V>, ttl: int, now: nat) {
    ttl > 0 && it.expireAt != 0 && now > it.expireAt
  }

  function Find<K(==), V>(s: seq<Item<K, V>>, k: K): (r: Option<Item<K, V>>)
    ensures r.None? <==> forall i :: 0 <= i < |s| ==> s[i].key != k
    ensures r.Some? ==> r.value in s && r.value.key == k
  {
    if s == [] then None else if s[0].key == k then Some(s[0]) else Find(s[1..], k)
  }

  function Without<K(==), V>(s: seq<Item<K, V>>, k: K): (r: seq<Item<K, V>>)
    ensures |r| <= |s|
    ensures forall it :: it in r ==> it in s && it.key != k
    ensures forall it :: it in s && it.key != k ==> it in r
  {
    if s == [] then []
    else if s[0].key == k then Without(s[1..], k)
    else [s[0]] + Without(s[1..], k)
  }

  function AfterSet<K(==), V>(cap: nat, ttl: int, s: seq<Item<K, V>>, k: K, v: V, now: nat): seq<Item<K, V>> {
    EvictOver(cap, [Item(k, v, Stamp(ttl, now))] + Without(s, k))
  }

  function EvictOver<K, V>(cap: nat, t: seq<Item<K, V>>): seq<Item<K, V>> {
    if |t| > cap then t[..|t| - 1] else t
  }

  function AfterGet<K(==), V>(ttl: int, s: seq<Item<K, V>>, k: K, now: nat): (seq<Item<K, V>>, Outcome<V>) {
    match Find(s, k)
    case None => (s, Miss)
    case Some(it) =>
      if Expired(it, ttl, now) then (Without(s, k), Miss)
      else ([it] + Without(s, k), Hit(it.value))
  }

  function Step<K(==), V>(cap: nat, ttl: int, s: seq<Item<K, V>>, op: Op<K, V>): (seq<Item<K, V>>, Outcome<V>) {
    match op
    case Set(k, v, now) => (AfterSet(cap, ttl, s, k, v, now), Done)
    case Get(k, now) => AfterGet(ttl, s, k, now)
    case Delete(k) => (Without(s, k), Done)
    case Clear => ([], Done)
  }

  /** The entries after a whole history of calls on a fresh cache. */
  function Run<K(==), V>(cap: nat, ttl: int, ops: seq<Op<K, V>>): seq<Item<K, V>> {
    if ops == [] then []
    else Step(cap, ttl, Run(cap, ttl, ops[..|ops| - 1]), ops[|ops| - 1]).0
  }

  /** What the i-th call of a history returns. */
  function OutcomeAt<K(==), V>(cap: nat, ttl: int, ops: seq<Op<K, V>>, i: nat): Outcome<V>
    requires i < |ops|
  {
    Step(cap, ttl, Run(cap, ttl, ops[..i]), ops[i]).1
  }

  // ----- the shape every reachable sequence has

  ghost predicate Distinct<K, V>(s: seq<Item<K, V>>) {
    forall i, j :: 0 <= i < j < |s| ==> s[i].key != s[j].key
  }

  lemma {:induction false} WithoutAbsent<K, V>(s: seq<Item<K, V>>, k: K)
    requires forall i :: 0 <= i < |s| ==> s[i].key != k
    ensures Without(s, k) == s
  {
    if s != [] {
      WithoutAbsent(s[1..], k);
    }
  }

  lemma {:induction false} WithoutDistinct<K, V>(s: seq<Item<K, V>>, k: K)
    requires Distinct(s)
    ensures Distinct(Without(s, k))
    ensures |Without(s, k)| == if Find(s, k).Some? then |s| - 1 else |s|
    ensures Find(s, k).None? ==> Without(s, k) == s
  {
    if s == [] {
    } else if s[0].key == k {
      WithoutAbsent(s[1..], k);
    } else {
      var rest := Without(s[1..], k);
      WithoutDistinct(s[1..], k);
      forall j | 0 <= j < |rest| ensures rest[j].key != s[0].key {
        assert rest[j] in s[1..];
      }
      assert Find(s, k) == Find(s[1..], k);
    }
  }

  lemma {:induction false} PushedDistinct<K, V>(s: seq<Item<K, V>>, x: Item<K, V>)
    requires Distinct(s)
    ensures Distinct([x] + Without(s, x.key))
    ensures |Without(s, x.key)| == if Find(s, x.key).Some? then |s| - 1 else |s|
  {
    WithoutDistinct(s, x.key);
    var rest := Without(s, x.key);
    forall j | 0 <= j < |rest| ensures rest[j].key != x.key {
      assert rest[j] in rest;
    }
  }

  lemma {:induction false} StepShape<K, V>(cap: nat, ttl: int, s: seq<Item<K, V>>, op: Op<K, V>)
    requires Distinct(s) && |s| <= cap && cap > 0
    ensures var t := Step(cap, ttl, s, op).0; Distinct(t) && |t| <= cap
  {
    match op
    case Set(k, v, now) => PushedDistinct(s, Item(k, v, Stamp(ttl, now)));
    case Get(k, now) =>
      WithoutDistinct(s, k);
      if Find(s, k).Some? { PushedDistinct(s, Find(s, k).value); }
    case Delete(k) => WithoutDistinct(s, k);
    case Clear =>
  }

  /** Every history leaves distinct keys, at most `cap` of them. */
  lemma {:induction false} RunShape<K, V>(cap: nat, ttl: int, ops: seq<Op<K, V>>)
    requires cap > 0
    ensures Distinct(Run(cap, ttl, ops)) && |Run(cap, ttl, ops)| <= cap
  {
    if ops != [] {
      var before := ops[..|ops| - 1];
      RunShape(cap, ttl, before);
      StepShape(cap, ttl, Run(cap, ttl, before), ops[|ops| - 1]);
    }
  }

  // ----- a hit returns the latest Set

  /** The index of the latest Set of k that no Delete of k and no Clear has followed. */
  ghost function Live<K, V>(ops: seq<Op<K, V>>, k: K): (r: Option<nat>)
    ensures r.Some? ==>
      && r.value < |ops| && ops[r.value].Set? && ops[r.value].key == k
      && forall j :: r.value < j < |ops| ==> !ops[j].Clear? && (ops[j].Get? || ops[j].key != k)
    ensures r.None? ==> forall i :: 0 <= i < |ops| && ops[i].Set? && ops[i].key == k ==>
      exists j :: i < j < |ops| && (ops[j].Clear? || (ops[j].Delete? && ops[j].key == k))
  {
    if ops == [] then None
    else
      var n := |ops| - 1;
      var r := Live(ops[..n], k);
      match ops[n]
      case Clear => None
      case Set(k', _, _) => if k' == k then Some(n) else r
      case Delete(k') => if k' == k then None else r
      case Get(_, _) => r
  }

  /** The entry is exactly what its key's latest Set stored. */
  ghost predicate FromLatestSet<K, V>(ttl: int, ops: seq<Op<K, V>>, it: Item<K, V>) {
    var i := Live(ops, it.key);
    i.Some? && ops[i.value].value == it.value && it.expireAt == Stamp(ttl, ops[i.value].now)
  }

  lemma {:induction false} EntriesComeFromLatestSets<K, V>(cap: nat, ttl: int, ops: seq<Op<K, V>>)
    ensures forall it :: it in Run(cap, ttl, ops) ==> FromLatestSet(ttl, ops, it)
  {
    if ops != [] {
      var before, op := ops[..|ops| - 1], ops[|ops| - 1];
      EntriesComeFromLatestSets(cap, ttl, before);
      forall it | it in Run(cap, ttl, ops) ensures FromLatestSet(ttl, ops, it) {
        if !(op.Set? && op.key == it.key) {
          assert it in Run(cap, ttl, before);
        }
      }
    }
  }

  /** A hit returns the value of the key's latest Set, and that Set is at most ttl old. */
  lemma {:induction false} HitIsLatestSet<K, V>(cap: nat, ttl: int, ops: seq<Op<K, V>>, i: nat)
    requires i < |ops| && OutcomeAt(cap, ttl, ops, i).Hit?
    ensures ops[i].Get?
    ensures var at := Live(ops[..i], ops[i].key);
      && at.Some?
      && ops[at.value].value == OutcomeAt(cap, ttl, ops, i).value
      && (ttl > 0 ==> ops[i].now <= ops[at.value].now + ttl)
  {
    EntriesComeFromLatestSets(cap, ttl, ops[..i]);
  }

  // ----- eviction takes the least recently used key

  /** The index of the last Set of k or Get of k that hit; -1 when there is none. */
  ghost function LastUse<K, V>(cap: nat, ttl: int, ops: seq<Op<K, V>>, k: K): (r: int)
    ensures -1 <= r < |ops|
  {
    if ops == [] then -1
    else
      var n := |ops| - 1;
      if (ops[n].Set? && ops[n].key == k)
         || (ops[n].Get? && ops[n].key == k && Step(cap, ttl, Run(cap, ttl, ops[..n]), ops[n]).1.Hit?)
      then n else LastUse(cap, ttl, ops[..n], k)
  }

  ghost predicate ByRecency<K, V>(s: seq<Item<K, V>>, use: K -> int) {
    forall i, j :: 0 <= i < j < |s| ==> use(s[i].key) > use(s[j].key)
  }

  lemma {:induction false} WithoutByRecency<K, V>(s: seq<Item<K, V>>, use: K -> int, k: K)
    requires ByRecency(s, use)
    ensures ByRecency(Without(s, k), use)
  {
    if s != [] {
      var rest := Without(s[1..], k);
      WithoutByRecency(s[1..], use, k);
      forall j | 0 <= j < |rest| ensures use(s[0].key) > use(rest[j].key) {
        assert rest[j] in s[1..];
      }
    }
  }

  /** Using k at instant n puts its entry in front of entries last used before n. */
  lemma {:induction false} PromotedByRecency<K, V>(
      s: seq<Item<K, V>>, use: K -> int, x: Item<K, V>, use': K -> int, n: int)
    requires ByRecency(s, use)
    requires use'(x.key) == n && forall it :: it in s && it.key != x.key ==> use'(it.key) == use(it.key) < n
    ensures ByRecency([x] + Without(s, x.key), use')
  {
    var rest := Without(s, x.key);
    WithoutByRecency(s, use, x.key);
    forall j | 0 <= j < |rest| ensures use'(rest[j].key) == use(rest[j].key) < n {
      assert rest[j] in rest;
    }
  }

  /** LastUse of a history, as a function of the key. */
  ghost function Uses<K, V>(cap: nat, ttl: int, ops: seq<Op<K, V>>): K -> int {
    k => LastUse(cap, ttl, ops, k)
  }

  /** A use of x.key at the end of a history moves that key, and no other, to the end of the order. */
  lemma {:induction false} UsedLast<K, V>(cap: nat, ttl: int, ops: seq<Op<K, V>>, x: Item<K, V>)
    requires ops != []
    requires var n, s := |ops| - 1, Run(cap, ttl, ops[..|ops| - 1]);
      && ByRecency(s, Uses(cap, ttl, ops[..n]))
      && LastUse(cap, ttl, ops, x.key) == n
      && !ops[n].Clear? && ops[n].key == x.key
    ensures ByRecency([x] + Without(Run(cap, ttl, ops[..|ops| - 1]), x.key), Uses(cap, ttl, ops))
  {
    var n := |ops| - 1;
    var s, use, use' := Run(cap, ttl, ops[..n]), Uses(cap, ttl, ops[..n]), Uses(cap, ttl, ops);
    forall it | it in s && it.key != x.key ensures use'(it.key) == use(it.key) < n {
      assert LastUse(cap, ttl, ops, it.key) == LastUse(cap, ttl, ops[..n], it.key);
    }
    PromotedByRecency(s, use, x, use', n);
  }

  /** An operation that uses no key leaves the order of what it keeps. */
  lemma {:induction false} NotUsed<K, V>(cap: nat, ttl: int, ops: seq<Op<K, V>>, t: seq<Item<K, V>>)
    requires ops != [] && ByRecency(t, Uses(cap, ttl, ops[..|ops| - 1]))
    requires var n := |ops| - 1;
      !ops[n].Set? && !Step(cap, ttl, Run(cap, ttl, ops[..n]), ops[n]).1.Hit?
    ensures ByRecency(t, Uses(cap, ttl, ops))
  {
    var n := |ops| - 1;
    var use, use' := Uses(cap, ttl, ops[..n]), Uses(cap, ttl, ops);
    forall i | 0 <= i < |t| ensures use'(t[i].key) == use(t[i].key) {
      assert LastUse(cap, ttl, ops, t[i].key) == LastUse(cap, ttl, ops[..n], t[i].key);
    }
  }

  /** After every history the sequence is in strictly decreasing order of last use. */
  lemma {:induction false} RunByRecency<K, V>(cap: nat, ttl: int, ops: seq<Op<K, V>>)
    requires cap > 0
    ensures ByRecency(Run(cap, ttl, ops), Uses(cap, ttl, ops))
  {
    if ops != [] {
      var n := |ops| - 1;
      RunByRecency(cap, ttl, ops[..n]);
      StepByRecency(cap, ttl, ops);
    }
  }

  lemma {:induction false} StepByRecency<K, V>(cap: nat, ttl: int, ops: seq<Op<K, V>>)
    requires cap > 0 && ops != []
    requires ByRecency(Run(cap, ttl, ops[..|ops| - 1]), Uses(cap, ttl, ops[..|ops| - 1]))
    ensures ByRecency(Run(cap, ttl, ops), Uses(cap, ttl, ops))
  {
    var n := |ops| - 1;
    var s, use := Run(cap, ttl, ops[..n]), Uses(cap, ttl, ops[..n]);
    match ops[n]
    case Clear =>
    case Set(k, v, now) => UsedLast(cap, ttl, ops, Item(k, v, Stamp(ttl, now)));
    case Delete(k) =>
      WithoutByRecency(s, use, k);
      NotUsed(cap, ttl, ops, Without(s, k));
    case Get(_, _) => GetByRecency(cap, ttl, ops);
  }

  lemma {:induction false} GetByRecency<K, V>(cap: nat, ttl: int, ops: seq<Op<K, V>>)
    requires ops != [] && ops[|ops| - 1].Get?
    requires ByRecency(Run(cap, ttl, ops[..|ops| - 1]), Uses(cap, ttl, ops[..|ops| - 1]))
    ensures ByRecency(Run(cap, ttl, ops), Uses(cap, ttl, ops))
  {
    var n := |ops| - 1;
    var s, use := Run(cap, ttl, ops[..n]), Uses(cap, ttl, ops[..n]);
    var k, r := ops[n].key, Find(s, ops[n].key);
    if r.None? {
      NotUsed(cap, ttl, ops, s);
    } else if Expired(r.value, ttl, ops[n].now) {
      WithoutByRecency(s, use, k);
      NotUsed(cap, ttl, ops, Without(s, k));
    } else {
      UsedLast(cap, ttl, ops, r.value);
    }
  }

  lemma {:induction false} FullSetDropsTheLast<K, V>(cap: nat, ttl: int, s: seq<Item<K, V>>, k: K, v: V, now: nat)
    requires cap > 0 && Distinct(s) && Find(s, k).None? && |s| == cap
    ensures AfterSet(cap, ttl, s, k, v, now) == [Item(k, v, Stamp(ttl, now))] + s[..cap - 1]
  {
    WithoutDistinct(s, k);
    var t := [Item(k, v, Stamp(ttl, now))] + s;
    assert t[..|t| - 1] == [Item(k, v, Stamp(ttl, now))] + s[..cap - 1];
  }

  /** A Set that evicts removes one entry, and every entry it keeps was used later than that one. */
  lemma {:induction false} EvictionTakesLeastRecentlyUsed<K, V>(
      cap: nat, ttl: int, ops: seq<Op<K, V>>, k: K, v: V, now: nat)
    requires cap > 0
    requires Find(Run(cap, ttl, ops), k).None? && |Run(cap, ttl, ops)| == cap
    ensures var s := Run(cap, ttl, ops);
      && AfterSet(cap, ttl, s, k, v, now) == [Item(k, v, Stamp(ttl, now))] + s[..cap - 1]
      && forall it :: it in s[..cap - 1] ==>
           && it.key != s[cap - 1].key
           && LastUse(cap, ttl, ops, it.key) > LastUse(cap, ttl, ops, s[cap - 1].key)
  {
    RunShape(cap, ttl, ops);
    RunByRecency(cap, ttl, ops);
    FullSetDropsTheLast(cap, ttl, Run(cap, ttl, ops), k, v, now);
  }

  // ----- more capacity never loses a hit

  /** s is obtained from l by leaving entries out. */
  ghost predicate Sub<K, V>(s: seq<Item<K, V>>, l: seq<Item<K, V>>) {
    s == [] || (l != [] && if s[0] == l[0] then Sub(s[1..], l[1..]) else Sub(s, l[1..]))
  }

  lemma {:induction false} SubTail<K, V>(s: seq<Item<K, V>>, l: seq<Item<K, V>>)
    requires Sub(s, l) && s != []
    ensures Sub(s[1..], l)
  {
    if s[0] == l[0] {
      if s[1..] != [] && s[1] == l[0] { SubTail(s[1..], l[1..]); }
    } else {
      SubTail(s, l[1..]);
      if s[1..] != [] && s[1] == l[0] { SubTail(s[1..], l[1..]); }
    }
  }

  lemma {:induction false} SubMore<K, V>(s: seq<Item<K, V>>, l: seq<Item<K, V>>, x: Item<K, V>)
    requires Sub(s, l)
    ensures Sub(s, [x] + l)
    ensures Sub([x] + s, [x] + l)
  {
    assert ([x] + s)[1..] == s && ([x] + l)[1..] == l;
    if s != [] { SubTail(s, l); }
  }

  lemma {:induction false} SubMember<K, V>(s: seq<Item<K, V>>, l: seq<Item<K, V>>, x: Item<K, V>)
    requires Sub(s, l) && x in s
    ensures x in l
  {
    if s[0] == l[0] {
      if x != s[0] { SubMember(s[1..], l[1..], x); }
    } else {
      SubMember(s, l[1..], x);
    }
  }

  lemma {:induction false} SubWithout<K, V>(s: seq<Item<K, V>>, l: seq<Item<K, V>>, k: K)
    requires Sub(s, l)
    ensures Sub(Without(s, k), Without(l, k))
  {
    if s == [] || l == [] {
    } else if s[0] == l[0] {
      SubWithout(s[1..], l[1..], k);
      SubMore(Without(s[1..], k), Without(l[1..], k), l[0]);
    } else {
      SubWithout(s, l[1..], k);
      SubMore(Without(s, k), Without(l[1..], k), l[0]);
    }
  }

  lemma {:induction false} SubDropLast<K, V>(s: seq<Item<K, V>>, l: seq<Item<K, V>>)
    requires Sub(s, l) && s != []
    ensures Sub(s[..|s| - 1], l)
  {
    if |s| > 1 {
      if s[0] == l[0] {
        SubDropLast(s[1..], l[1..]);
        assert s[..|s| - 1][1..] == s[1..][..|s| - 2];
      } else {
        SubDropLast(s, l[1..]);
      }
    }
  }

  /** Dropping the last entry of l costs s at most its own last entry. */
  lemma {:induction false} SubDropLastOfLarger<K, V>(s: seq<Item<K, V>>, l: seq<Item<K, V>>)
    requires Sub(s, l) && l != []
    ensures Sub(s, l[..|l| - 1]) || (s != [] && Sub(s[..|s| - 1], l[..|l| - 1]))
  {
    if s == [] || |l| == 1 {
    } else {
      assert l[..|l| - 1][1..] == l[1..][..|l| - 2];
      if s[0] == l[0] {
        SubDropLastOfLarger(s[1..], l[1..]);
        if s[1..] != [] {
          assert s[..|s| - 1][1..] == s[1..][..|s| - 2];
        }
      } else {
        SubDropLastOfLarger(s, l[1..]);
        if s != [] && Sub(s[..|s| - 1], l[1..][..|l| - 2]) {
          SubMore(s[..|s| - 1], l[1..][..|l| - 2], l[0]);
          assert [l[0]] + l[1..][..|l| - 2] == l[..|l| - 1];
        }
      }
    }
  }

  /** The relation between a smaller and a larger cache fed the same calls. */
  ghost predicate Covered<K, V>(c: nat, c': nat, s: seq<Item<K, V>>, l: seq<Item<K, V>>) {
    && Distinct(s) && Distinct(l) && |s| <= c && |l| <= c'
    && Sub(s, l)
    && |l| - |s| <= c' - c
  }

  lemma {:induction false} FindInLarger<K, V>(s: seq<Item<K, V>>, l: seq<Item<K, V>>, k: K)
    requires Distinct(l) && Sub(s, l) && Find(s, k).Some?
    ensures Find(l, k) == Find(s, k)
  {
    SubMember(s, l, Find(s, k).value);
  }

  lemma {:induction false} EvictionKeepsSub<K, V>(s: seq<Item<K, V>>, l: seq<Item<K, V>>)
    requires Sub(s, l) && s != [] && l != []
    ensures Sub(s[..|s| - 1], l[..|l| - 1])
  {
    SubDropLastOfLarger(s, l);
    if Sub(s, l[..|l| - 1]) { SubDropLast(s, l[..|l| - 1]); }
  }

  /** Both caches evict what is over capacity; the larger one only evicts when the smaller one does. */
  lemma {:induction false} EvictionKeepsCovered<K, V>(c: nat, c': nat, s: seq<Item<K, V>>, l: seq<Item<K, V>>)
    requires 0 < c <= c' && Distinct(s) && Distinct(l) && Sub(s, l) && s != [] && l != []
    requires |s| <= c + 1 && |l| <= c' + 1
    requires |l| - |s| <= c' - c || (|s| > c && |l| <= c')
    ensures Covered(c, c', EvictOver(c, s), EvictOver(c', l))
  {
    if |l| > c' {
      EvictionKeepsSub(s, l);
    } else if |s| > c {
      SubDropLast(s, l);
    }
  }

  lemma {:induction false} SetKeepsCovered<K, V>(
      c: nat, c': nat, ttl: int, s: seq<Item<K, V>>, l: seq<Item<K, V>>, k: K, v: V, now: nat)
    requires 0 < c <= c' && Covered(c, c', s, l)
    ensures Covered(c, c', AfterSet(c, ttl, s, k, v, now), AfterSet(c', ttl, l, k, v, now))
  {
    var x := Item(k, v, Stamp(ttl, now));
    PushedDistinct(s, x);
    PushedDistinct(l, x);
    SubWithout(s, l, k);
    SubMore(Without(s, k), Without(l, k), x);
    if Find(s, k).Some? { FindInLarger(s, l, k); }
    EvictionKeepsCovered(c, c', [x] + Without(s, k), [x] + Without(l, k));
  }

  lemma {:induction false} RemoveKeepsCovered<K, V>(c: nat, c': nat, s: seq<Item<K, V>>, l: seq<Item<K, V>>, k: K)
    requires 0 < c <= c' && Covered(c, c', s, l)
    ensures Covered(c, c', Without(s, k), Without(l, k))
    ensures Find(s, k).Some? ==> Find(l, k) == Find(s, k)
    ensures Find(s, k).None? ==> Without(s, k) == s
  {
    WithoutDistinct(s, k);
    WithoutDistinct(l, k);
    SubWithout(s, l, k);
    if Find(s, k).Some? { FindInLarger(s, l, k); }
  }

  lemma {:induction false} GetKeepsCovered<K, V>(
      c: nat, c': nat, ttl: int, s: seq<Item<K, V>>, l: seq<Item<K, V>>, k: K, now: nat)
    requires 0 < c <= c' && Covered(c, c', s, l)
    ensures Covered(c, c', AfterGet(ttl, s, k, now).0, AfterGet(ttl, l, k, now).0)
    ensures AfterGet(ttl, s, k, now).1.Hit? ==> AfterGet(ttl, l, k, now).1 == AfterGet(ttl, s, k, now).1
  {
    RemoveKeepsCovered(c, c', s, l, k);
    if Find(l, k).Some? {
      var it := Find(l, k).value;
      PushedDistinct(s, it);
      PushedDistinct(l, it);
      SubMore(Without(s, k), Without(l, k), it);
    }
  }

  lemma {:induction false} StepKeepsCovered<K, V>(
      c: nat, c': nat, ttl: int, s: seq<Item<K, V>>, l: seq<Item<K, V>>, op: Op<K, V>)
    requires 0 < c <= c' && Covered(c, c', s, l)
    ensures Covered(c, c', Step(c, ttl, s, op).0, Step(c', ttl, l, op).0)
    ensures Step(c, ttl, s, op).1.Hit? ==> Step(c', ttl, l, op).1 == Step(c, ttl, s, op).1
  {
    match op
    case Set(k, v, now) => SetKeepsCovered(c, c', ttl, s, l, k, v, now);
    case Get(k, now) => GetKeepsCovered(c, c', ttl, s, l, k, now);
    case Delete(k) => RemoveKeepsCovered(c, c', s, l, k);
    case Clear =>
  }

  lemma {:induction false} RunsStayCovered<K, V>(c: nat, c': nat, ttl: int, ops: seq<Op<K, V>>)
    requires 0 < c <= c'
    ensures Covered(c, c', Run(c, ttl, ops), Run(c', ttl, ops))
  {
    if ops != [] {
      var before := ops[..|ops| - 1];
      RunsStayCovered(c, c', ttl, before);
      StepKeepsCovered(c, c', ttl, Run(c, ttl, before), Run(c', ttl, before), ops[|ops| - 1]);
    }
  }

  /** No Belady anomaly: every hit of a cache is a hit, with the same value, of any larger cache. */
  lemma {:induction false} LargerCacheKeepsEveryHit<K, V>(
      capacity: int, larger: int, ttl: int, ops: seq<Op<K, V>>, i: nat)
    requires capacity <= larger && i < |ops|
    requires OutcomeAt(Clamp(capacity), ttl, ops, i).Hit?
    ensures OutcomeAt(Clamp(larger), ttl, ops, i) == OutcomeAt(Clamp(capacity), ttl, ops, i)
  {
    var c, c' := Clamp(capacity), Clamp(larger);
    RunsStayCovered(c, c', ttl, ops[..i]);
    StepKeepsCovered(c, c', ttl, Run(c, ttl, ops[..i]), Run(c', ttl, ops[..i]), ops[i]);
  }

  // ----- with room for every key, a Get hits exactly when the latest Set is still fresh

  ghost function SetKeys<K, V>(ops: seq<Op<K, V>>): set<K> {
    set i | 0 <= i < |ops| && ops[i].Set? :: ops[i].key
  }

  /** The clock readings of a history never go back. */
  ghost predicate ClockForward<K, V>(ops: seq<Op<K, V>>) {
    forall i, j :: 0 <= i < j < |ops| && (ops[i].Set? || ops[i].Get?) && (ops[j].Set? || ops[j].Get?) ==>
      ops[i].now <= ops[j].now
  }

  ghost predicate Fresh<K, V>(ttl: int, ops: seq<Op<K, V>>, k: K, now: nat) {
    var i := Live(ops, k);
    i.Some? && (ttl > 0 ==> now <= ops[i.value].now + ttl)
  }

  lemma {:induction false} DistinctFits<K, V>(s: seq<Item<K, V>>, keys: set<K>)
    requires Distinct(s) && forall it :: it in s ==> it.key in keys
    ensures |s| <= |keys|
  {
    if s != [] {
      forall it | it in s[1..] ensures it.key in keys - {s[0].key} {
        var j :| 1 <= j < |s| && s[j] == it;
      }
      DistinctFits(s[1..], keys - {s[0].key});
    }
  }

  lemma {:induction false} SetKeysGrow<K, V>(ops: seq<Op<K, V>>)
    requires ops != []
    ensures SetKeys(ops[..|ops| - 1]) <= SetKeys(ops)
    ensures |SetKeys(ops[..|ops| - 1])| <= |SetKeys(ops)|
  {
    var a, b := SetKeys(ops[..|ops| - 1]), SetKeys(ops);
    assert a <= b;
    assert b == a + (b - a);
  }

  lemma {:induction false} EntriesAreSet<K, V>(cap: nat, ttl: int, ops: seq<Op<K, V>>)
    ensures forall it :: it in Run(cap, ttl, ops) ==> it.key in SetKeys(ops)
  {
    EntriesComeFromLatestSets(cap, ttl, ops);
    forall it | it in Run(cap, ttl, ops) ensures it.key in SetKeys(ops) {
      assert FromLatestSet(ttl, ops, it);
      assert ops[Live(ops, it.key).value].key == it.key;
    }
  }

  lemma {:induction false} RoomySetKeepsAll<K, V>(cap: nat, ttl: int, ops: seq<Op<K, V>>)
    requires ops != [] && ops[|ops| - 1].Set? && cap > 0 && |SetKeys(ops)| <= cap
    ensures var op, s := ops[|ops| - 1], Run(cap, ttl, ops[..|ops| - 1]);
      Run(cap, ttl, ops) == [Item(op.key, op.value, Stamp(ttl, op.now))] + Without(s, op.key)
  {
    var before, op := ops[..|ops| - 1], ops[|ops| - 1];
    var s, keys := Run(cap, ttl, before), SetKeys(ops);
    var x := Item(op.key, op.value, Stamp(ttl, op.now));
    assert Distinct(s) by { RunShape(cap, ttl, before); }
    assert forall it :: it in s ==> it.key in keys by { EntriesAreSet(cap, ttl, before); SetKeysGrow(ops); }
    assert ops[|ops| - 1].key in keys;
    PushedFits(s, x, keys);
  }

  lemma {:induction false} PushedFits<K, V>(s: seq<Item<K, V>>, x: Item<K, V>, keys: set<K>)
    requires Distinct(s) && x.key in keys && forall it :: it in s ==> it.key in keys
    ensures |[x] + Without(s, x.key)| <= |keys|
  {
    PushedDistinct(s, x);
    DistinctFits([x] + Without(s, x.key), keys);
  }

  /** While nothing is evicted, every key whose latest Set is fresh at `now` has an entry. */
  lemma {:induction false} FreshKeysArePresent<K, V>(cap: nat, ttl: int, ops: seq<Op<K, V>>, k: K, now: nat)
    requires cap > 0 && |SetKeys(ops)| <= cap
    requires ClockForward(ops + [Get(k, now)])
    requires Fresh(ttl, ops, k, now)
    ensures Find(Run(cap, ttl, ops), k).Some?
  {
    if ops == [] { return; }
    var n := |ops| - 1;
    var before, op := ops[..n], ops[n];
    var s := Run(cap, ttl, before);
    if op.Set? { RoomySetKeepsAll(cap, ttl, ops); }
    if op.Set? && op.key == k { return; }
    SetKeysGrow(ops);
    forall i, j | 0 <= i < j < |before + [Get(k, now)]|
      && !(before + [Get(k, now)])[i].Delete? && !(before + [Get(k, now)])[i].Clear?
      && !(before + [Get(k, now)])[j].Delete? && !(before + [Get(k, now)])[j].Clear?
      ensures (before + [Get(k, now)])[i].now <= (before + [Get(k, now)])[j].now
    {
      var whole := ops + [Get(k, now)];
      assert (before + [Get(k, now)])[i] == whole[i];
      assert (before + [Get(k, now)])[j] == if j == n then whole[n + 1] else whole[j];
    }
    FreshKeysArePresent(cap, ttl, before, k, now);
    var it := Find(s, k).value;
    if op.Get? {
      var whole := ops + [Get(k, now)];
      assert whole[n] == op && whole[n + 1] == Get(k, now);
      EntriesComeFromLatestSets(cap, ttl, before);
      assert FromLatestSet(ttl, before, it);
      assert op.now <= now;
    }
    assert it in Run(cap, ttl, ops);
  }

  /** A cache that has room for every key it is given answers exactly from the latest Set. */
  lemma {:induction false} RoomyCacheIsExact<K, V>(cap: nat, ttl: int, ops: seq<Op<K, V>>, k: K, now: nat)
    requires cap > 0 && |SetKeys(ops)| <= cap
    requires ClockForward(ops + [Get(k, now)])
    ensures Step(cap, ttl, Run(cap, ttl, ops), Get(k, now)).1 ==
            if Fresh(ttl, ops, k, now) then Hit(ops[Live(ops, k).value].value) else Miss
  {
    EntriesComeFromLatestSets(cap, ttl, ops);
    if Fresh(ttl, ops, k, now) {
      FreshKeysArePresent(cap, ttl, ops, k, now);
    }
    var r := Find(Run(cap, ttl, ops), k);
    if r.Some? {
      assert FromLatestSet(ttl, ops, r.value);
    }
  }
}
