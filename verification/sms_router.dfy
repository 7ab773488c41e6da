/** Country-based provider selection of communication/router. */
module SmsRouter {
  import opened Wrappers

  datatype Rule = Rule(
    countryCode: string,
    providerCode: string,
    priority: int,
    isActive: bool,
    isFallback: bool,
    perSecond: int,
    perDay: int)

  // ----- stable sorting by priority

  /** The rules of one priority, in order. */
  function At(rs: seq<Rule>, p: int): seq<Rule> {
    if rs == [] then [] else (if rs[0].priority == p then [rs[0]] else []) + At(rs[1..], p)
  }

  ghost predicate Sorted(rs: seq<Rule>) {
    forall i, j :: 0 <= i < j < |rs| ==> rs[i].priority <= rs[j].priority
  }

  /** Same rules at every priority, in the same order: all a stable reordering may change is gone. */
  ghost predicate SameAtEach(a: seq<Rule>, b: seq<Rule>) {
    forall p :: At(a, p) == At(b, p)
  }

  /** Puts a rule after all rules of smaller or equal priority. */
  function Insert(rs: seq<Rule>, r: Rule): seq<Rule> {
    if rs == [] then [r]
    else if rs[0].priority > r.priority then [r] + rs
    else [rs[0]] + Insert(rs[1..], r)
  }

  function Sort(rs: seq<Rule>): seq<Rule> {
    if rs == [] then [] else Insert(Sort(rs[..|rs| - 1]), rs[|rs| - 1])
  }

  lemma {:induction false} AtConcat(a: seq<Rule>, b: seq<Rule>, p: int)
    ensures At(a + b, p) == At(a, p) + At(b, p)
  {
    if a == [] {
      assert a + b == b;
    } else {
      var head, x, y := if a[0].priority == p then [a[0]] else [], At(a[1..], p), At(b, p);
      assert At(a + b, p) == head + (x + y) by {
        AtConcat(a[1..], b, p);
        assert (a + b)[1..] == a[1..] + b;
      }
      assert head + (x + y) == (head + x) + y;
    }
  }

  lemma {:induction false} AtMembers(rs: seq<Rule>, p: int)
    ensures forall i :: 0 <= i < |At(rs, p)| ==> At(rs, p)[i] in rs && At(rs, p)[i].priority == p
  {
    if rs != [] { AtMembers(rs[1..], p); }
  }

  lemma {:induction false} AtNone(rs: seq<Rule>, p: int)
    requires forall i :: 0 <= i < |rs| ==> rs[i].priority != p
    ensures At(rs, p) == []
  {
    if rs != [] { AtNone(rs[1..], p); }
  }

  lemma {:induction false} InsertFacts(rs: seq<Rule>, r: Rule)
    requires Sorted(rs)
    ensures Sorted(Insert(rs, r)) && SameAtEach(Insert(rs, r), rs + [r])
    ensures forall x :: x in Insert(rs, r) <==> x in rs || x == r
  {
    if rs == [] {
      assert [] + [r] == [r];
    } else if rs[0].priority > r.priority {
      forall p ensures At([r] + rs, p) == At(rs + [r], p) {
        AtConcat(rs, [r], p);
        AtConcat([r], rs, p);
        if p == r.priority { AtNone(rs, p); }
      }
    } else {
      InsertFacts(rs[1..], r);
      forall p ensures At(Insert(rs, r), p) == At(rs + [r], p) {
        AtConcat([rs[0]], Insert(rs[1..], r), p);
        AtConcat([rs[0]], rs[1..] + [r], p);
        assert rs + [r] == [rs[0]] + (rs[1..] + [r]);
        assert At(Insert(rs[1..], r), p) == At(rs[1..] + [r], p);
      }
      var t := Insert(rs[1..], r);
      forall j | 0 <= j < |t| ensures rs[0].priority <= t[j].priority {
        assert t[j] in t;
      }
    }
  }

  lemma {:induction false} SortFacts(rs: seq<Rule>)
    ensures Sorted(Sort(rs)) && SameAtEach(Sort(rs), rs)
  {
    if rs != [] {
      var n := |rs| - 1;
      SortFacts(rs[..n]);
      InsertFacts(Sort(rs[..n]), rs[n]);
      forall p ensures At(Sort(rs), p) == At(rs, p) {
        AtConcat(Sort(rs[..n]), [rs[n]], p);
        AtConcat(rs[..n], [rs[n]], p);
        assert rs == rs[..n] + [rs[n]];
        assert At(Sort(rs[..n]), p) == At(rs[..n], p);
      }
    }
  }

  lemma {:induction false} SmallestFirst(a: seq<Rule>, b: seq<Rule>)
    requires Sorted(b) && SameAtEach(a, b) && a != [] && b != []
    ensures b[0].priority <= a[0].priority
  {
    var p := a[0].priority;
    assert At(a, p)[0] == a[0] && At(b, p) == At(a, p);
    AtMembers(b, p);
    assert At(b, p)[0] in b;
  }

  /** A sorted sequence is determined by its rules at each priority. */
  lemma {:induction false} SortedUnique(a: seq<Rule>, b: seq<Rule>)
    requires Sorted(a) && Sorted(b) && SameAtEach(a, b)
    ensures a == b
  {
    if a == [] || b == [] {
      var p := if a != [] then a[0].priority else if b != [] then b[0].priority else 0;
      assert At(a, p) == At(b, p);
    } else {
      SmallestFirst(a, b);
      SmallestFirst(b, a);
      var p := a[0].priority;
      assert At(a, p) == At(b, p) && At(a, p)[0] == a[0] && At(b, p)[0] == b[0];
      forall q ensures At(a[1..], q) == At(b[1..], q) {
        assert At(a, q) == At(b, q);
        if q == p {
          assert At(a, q)[1..] == At(a[1..], q) && At(b, q)[1..] == At(b[1..], q);
        } else {
          assert At(a, q) == At(a[1..], q) && At(b, q) == At(b[1..], q);
        }
      }
      SortedUnique(a[1..], b[1..]);
    }
  }

  function Swapped(s: seq<Rule>, j: nat): seq<Rule>
    requires j + 1 < |s|
  {
    s[j := s[j + 1]][j + 1 := s[j]]
  }

  lemma {:induction false} SwapKeeps(s: seq<Rule>, j: nat, was: seq<Rule>)
    requires j + 1 < |s| && s[j].priority != s[j + 1].priority && SameAtEach(s, was)
    ensures SameAtEach(Swapped(s, j), was)
  {
    var t, x, y := Swapped(s, j), s[..j], s[j + 2..];
    assert s == x + [s[j], s[j + 1]] + y && t == x + [s[j + 1], s[j]] + y;
    forall p ensures At(t, p) == At(was, p) {
      AtConcat(x + [s[j], s[j + 1]], y, p);
      AtConcat(x, [s[j], s[j + 1]], p);
      AtConcat(x + [s[j + 1], s[j]], y, p);
      AtConcat(x, [s[j + 1], s[j]], p);
      assert At(s, p) == At(was, p);
    }
  }

  /** The rules from n on are sorted and none of the first n exceeds them. */
  ghost predicate SortedFrom(s: seq<Rule>, n: nat) {
    forall i, j :: 0 <= i < j < |s| && j >= n ==> s[i].priority <= s[j].priority
  }

  /** One pass over the first n rules: the largest of them ends up last. */
  method BubblePass(rules: array<Rule>, n: nat)
    requires 1 <= n <= rules.Length && SortedFrom(rules[..], n)
    modifies rules
    ensures SameAtEach(rules[..], old(rules[..])) && SortedFrom(rules[..], n - 1)
  {
    for j := 0 to n - 1
      invariant SameAtEach(rules[..], old(rules[..])) && SortedFrom(rules[..], n)
      invariant forall k :: 0 <= k <= j ==> rules[k].priority <= rules[j].priority
    {
      if rules[j].priority > rules[j + 1].priority {
        ghost var s := rules[..];
        SwapKeeps(s, j, old(rules[..]));
        rules[j], rules[j + 1] := rules[j + 1], rules[j];
        assert rules[..] == Swapped(s, j);
      }
    }
  }

  /** sortRules: bubble sort in place is the stable sort. */
  method SortRules(rules: array<Rule>)
    modifies rules
    ensures rules[..] == Sort(old(rules[..]))
  {
    var i := 0;
    while i < rules.Length - 1
      invariant 0 <= i <= rules.Length && (rules.Length > 0 ==> i < rules.Length)
      invariant SameAtEach(rules[..], old(rules[..])) && SortedFrom(rules[..], rules.Length - i)
    {
      ghost var s := rules[..];
      BubblePass(rules, rules.Length - i);
      assert forall p :: At(rules[..], p) == At(s, p) == At(old(rules[..]), p);
      i := i + 1;
    }
    SortFacts(old(rules[..]));
    SortedUnique(rules[..], Sort(old(rules[..])));
  }

  // ----- sorting, filtering and appending commute

  lemma {:induction false} SortAppend(rs: seq<Rule>, r: Rule)
    ensures Sort(rs + [r]) == Insert(Sort(rs), r)
  {
    assert (rs + [r])[..|rs|] == rs;
  }

  /** Sorting an already sorted list changes nothing, so sorting after each arrival is sorting once. */
  lemma {:induction false} SortSortedAppend(rs: seq<Rule>, r: Rule)
    ensures Sort(Sort(rs) + [r]) == Sort(rs + [r])
  {
    SortFacts(rs);
    SortFacts(Sort(rs));
    SortedUnique(Sort(Sort(rs)), Sort(rs));
    SortAppend(Sort(rs), r);
    SortAppend(rs, r);
  }

  function Active(rs: seq<Rule>): seq<Rule> {
    if rs == [] then [] else (if rs[0].isActive then [rs[0]] else []) + Active(rs[1..])
  }

  lemma {:induction false} ActiveAt(rs: seq<Rule>, p: int)
    ensures At(Active(rs), p) == Active(At(rs, p))
  {
    if rs != [] {
      ActiveAt(rs[1..], p);
      if rs[0].isActive {
        assert Active(rs)[1..] == Active(rs[1..]);
      } else {
        assert Active(rs) == Active(rs[1..]);
      }
      if rs[0].priority == p {
        assert At(rs, p)[1..] == At(rs[1..], p);
      } else {
        assert At(rs, p) == At(rs[1..], p);
      }
    }
  }

  lemma {:induction false} ActiveSorted(rs: seq<Rule>)
    requires Sorted(rs)
    ensures Sorted(Active(rs)) && forall x :: x in Active(rs) ==> x in rs
  {
    if rs != [] {
      ActiveSorted(rs[1..]);
      var t := Active(rs[1..]);
      forall j | 0 <= j < |t| ensures rs[0].priority <= t[j].priority {
        assert t[j] in rs[1..];
      }
    }
  }

  /** Dropping inactive rules before or after sorting is the same. */
  lemma {:induction false} ActiveOfSort(rs: seq<Rule>)
    ensures Active(Sort(rs)) == Sort(Active(rs))
  {
    SortFacts(rs);
    SortFacts(Active(rs));
    ActiveSorted(Sort(rs));
    forall p ensures At(Active(Sort(rs)), p) == At(Sort(Active(rs)), p) {
      ActiveAt(Sort(rs), p);
      ActiveAt(rs, p);
      assert At(Sort(rs), p) == At(rs, p) && At(Sort(Active(rs)), p) == At(Active(rs), p);
    }
    SortedUnique(Active(Sort(rs)), Sort(Active(rs)));
  }

  // ----- the routing table

  type Routes = map<string, seq<Rule>>

  function Get(m: Routes, c: string): seq<Rule> {
    if c in m then m[c] else []
  }

  /** The rules of one country, in order of arrival. */
  function For(rs: seq<Rule>, c: string): seq<Rule> {
    if rs == [] then []
    else For(rs[..|rs| - 1], c) + if rs[|rs| - 1].countryCode == c then [rs[|rs| - 1]] else []
  }

  function AfterAdd(m: Routes, r: Rule): Routes {
    m[r.countryCode := Sort(Get(m, r.countryCode) + [r])]
  }

  /** A fresh table after AddRoute of each rule in turn. */
  function Added(rs: seq<Rule>): Routes {
    if rs == [] then map[] else AfterAdd(Added(rs[..|rs| - 1]), rs[|rs| - 1])
  }

  lemma {:induction false} AddedIs(rs: seq<Rule>, c: string)
    ensures Get(Added(rs), c) == Sort(For(rs, c))
  {
    if rs != [] {
      var before, r := rs[..|rs| - 1], rs[|rs| - 1];
      AddedIs(before, c);
      if r.countryCode == c {
        SortSortedAppend(For(before, c), r);
      } else {
        assert For(rs, c) == For(before, c);
      }
    }
  }

  lemma {:induction false} ActiveAppend(rs: seq<Rule>, r: Rule)
    ensures Active(rs + [r]) == Active(rs) + if r.isActive then [r] else []
  {
    if rs != [] {
      ActiveAppend(rs[1..], r);
      assert (rs + [r])[1..] == rs[1..] + [r];
    }
  }

  lemma {:induction false} ActiveOfFor(rs: seq<Rule>, c: string)
    ensures Active(For(rs, c)) == For(Active(rs), c)
  {
    if rs != [] {
      var before, r := rs[..|rs| - 1], rs[|rs| - 1];
      ActiveOfFor(before, c);
      ActiveAppend(before, r);
      assert rs == before + [r];
      ActiveAppend(For(before, c), r);
      if r.isActive {
        assert Active(rs)[..|Active(rs)| - 1] == Active(before);
      } else {
        assert Active(rs) == Active(before);
      }
      if r.countryCode != c { assert For(rs, c) == For(before, c); }
    }
  }

  lemma {:induction false} ActiveForAppend(rs: seq<Rule>, i: nat, c: string)
    requires i < |rs|
    ensures For(Active(rs[..i + 1]), c) ==
            For(Active(rs[..i]), c) + if rs[i].isActive && rs[i].countryCode == c then [rs[i]] else []
  {
    var was, r := Active(rs[..i]), rs[i];
    assert rs[..i + 1] == rs[..i] + [r];
    ActiveAppend(rs[..i], r);
    if r.isActive {
      assert (was + [r])[..|was|] == was;
    } else {
      assert was + [] == was;
    }
  }

  /** What LoadRoutes promises for each country. */
  ghost predicate IsLoaded(rs: seq<Rule>, m: Routes) {
    forall c :: Get(m, c) == Sort(For(Active(rs), c))
  }

  /** Adding rules one by one and loading them all at once give the same active rules in the same order. */
  lemma {:induction false} IncrementalEqualsBatch(rs: seq<Rule>, m: Routes, c: string)
    requires IsLoaded(rs, m)
    ensures Active(Get(Added(rs), c)) == Get(m, c)
  {
    AddedIs(rs, c);
    ActiveOfSort(For(rs, c));
    ActiveOfFor(rs, c);
  }

  // ----- which rule is chosen

  /** The registry answers Some(enabled) for the codes it knows as SMS providers. */
  type Registry = string -> Option<bool>

  predicate Usable(registry: Registry, r: Rule) {
    r.isActive && registry(r.providerCode) == Some(true)
  }

  function FirstUsable(registry: Registry, rs: seq<Rule>): Option<Rule> {
    if rs == [] then None else if Usable(registry, rs[0]) then Some(rs[0]) else FirstUsable(registry, rs[1..])
  }

  /** Scanning arrivals: a later usable rule wins only with a strictly smaller priority. */
  function Best(registry: Registry, rs: seq<Rule>): Option<Rule> {
    if rs == [] then None
    else
      var best, r := Best(registry, rs[..|rs| - 1]), rs[|rs| - 1];
      if Usable(registry, r) && (best.None? || r.priority < best.value.priority) then Some(r) else best
  }

  lemma {:induction false} FirstUsableOfInsert(registry: Registry, rs: seq<Rule>, r: Rule)
    requires Sorted(rs)
    ensures var best := FirstUsable(registry, rs);
      FirstUsable(registry, Insert(rs, r)) ==
      if Usable(registry, r) && (best.None? || r.priority < best.value.priority) then Some(r) else best
  {
    if rs == [] {
    } else if rs[0].priority > r.priority {
      assert ([r] + rs)[1..] == rs;
      FirstUsableInRange(registry, rs);
    } else {
      FirstUsableOfInsert(registry, rs[1..], r);
      assert Insert(rs, r)[1..] == Insert(rs[1..], r);
    }
  }

  lemma {:induction false} FirstUsableInRange(registry: Registry, rs: seq<Rule>)
    requires Sorted(rs) && rs != []
    ensures var best := FirstUsable(registry, rs); best.Some? ==> best.value.priority >= rs[0].priority
  {
    if !Usable(registry, rs[0]) && |rs| > 1 { FirstUsableInRange(registry, rs[1..]); }
  }

  lemma {:induction false} FirstUsableIsBest(registry: Registry, rs: seq<Rule>)
    ensures FirstUsable(registry, Sort(rs)) == Best(registry, rs)
  {
    if rs != [] {
      var before, r := rs[..|rs| - 1], rs[|rs| - 1];
      FirstUsableIsBest(registry, before);
      SortFacts(before);
      FirstUsableOfInsert(registry, Sort(before), r);
    }
  }

  /** i is the usable rule that comes first by priority and, among equals, by arrival. */
  ghost predicate Chosen(registry: Registry, rs: seq<Rule>, i: nat) {
    && i < |rs| && rs[i].isActive && registry(rs[i].providerCode) == Some(true)
    && forall j :: 0 <= j < |rs| && rs[j].isActive && registry(rs[j].providerCode) == Some(true) ==>
         rs[i].priority < rs[j].priority || (rs[i].priority == rs[j].priority && i <= j)
  }

  lemma {:induction false} BestIsChosen(registry: Registry, rs: seq<Rule>) returns (i: nat)
    ensures Best(registry, rs).None? <==>
            forall j :: 0 <= j < |rs| ==> !rs[j].isActive || registry(rs[j].providerCode) != Some(true)
    ensures Best(registry, rs).Some? ==> Chosen(registry, rs, i) && Best(registry, rs).value == rs[i]
  {
    i := 0;
    if rs != [] {
      var n := |rs| - 1;
      i := BestIsChosen(registry, rs[..n]);
      var best := Best(registry, rs[..n]);
      assert forall j :: 0 <= j < n ==> rs[..n][j] == rs[j];
      if Usable(registry, rs[n]) && (best.None? || rs[n].priority < best.value.priority) { i := n; }
    }
  }

  lemma {:induction false} FirstUsableOfActive(registry: Registry, rs: seq<Rule>)
    ensures FirstUsable(registry, Active(rs)) == FirstUsable(registry, rs)
  {
    if rs != [] {
      FirstUsableOfActive(registry, rs[1..]);
      if rs[0].isActive {
        assert Active(rs)[1..] == Active(rs[1..]);
      } else {
        assert Active(rs) == Active(rs[1..]);
      }
    }
  }

  /** So the two ways of filling a router choose the same rule for every country and registry. */
  lemma {:induction false} SameChoice(registry: Registry, rs: seq<Rule>, m: Routes, c: string)
    requires IsLoaded(rs, m)
    ensures FirstUsable(registry, Get(Added(rs), c)) == FirstUsable(registry, Get(m, c)) == Best(registry, For(rs, c))
  {
    IncrementalEqualsBatch(rs, m, c);
    FirstUsableOfActive(registry, Get(Added(rs), c));
    AddedIs(rs, c);
    FirstUsableIsBest(registry, For(rs, c));
  }

  // ----- phone numbers

  const KNOWN_CODES: set<string> := {
    "964", "971", "966", "962", "963", "965", "968", "973", "974", "961", "967", "970", "218", "249", "213", "212",
      "216",
    "20", "44", "49", "33", "39", "34", "31", "32", "90", "86", "91", "81", "82", "61", "64", "1", "7" }

  predicate Dialled(c: char) {
    '0' <= c <= '9' || c == '+'
  }

  function Cleaned(s: string): string {
    if s == [] then [] else (if Dialled(s[0]) then [s[0]] else []) + Cleaned(s[1..])
  }

  /** The first n digits are a known code; codes have one to three digits. */
  predicate IsCode(known: set<string>, digits: string, n: int) {
    1 <= n <= 3 && n <= |digits| && digits[..n] in known
  }

  /** The length of the longest known code the digits start with; 0 when there is none. */
  function LongestCode(known: set<string>, digits: string): (n: nat)
    ensures n > 0 ==> IsCode(known, digits, n)
    ensures forall k :: IsCode(known, digits, k) ==> k <= n
  {
    if IsCode(known, digits, 3) then 3 else if IsCode(known, digits, 2) then 2
      else if IsCode(known, digits, 1) then 1 else 0
  }

  /** The country of a number: its longest known code, when it starts with a plus and has one, else Iraq's. */
  function CountryOf(known: set<string>, number: string): (country: string)
    ensures country != "+964" ==> country != [] && country <= Cleaned(number) && country[1..] in known
  {
    var cleaned := Cleaned(number);
    if cleaned != [] && cleaned[0] == '+' && LongestCode(known, cleaned[1..]) > 0
    then ['+'] + cleaned[1..][..LongestCode(known, cleaned[1..])]
    else "+964"
  }

  /** No built-in code starts another, so a number has at most one: searching short codes first would find the same. */
  lemma {:induction false} OneCodeAtMost(digits: string, m: int, n: int)
    requires IsCode(KNOWN_CODES, digits, m) && IsCode(KNOWN_CODES, digits, n)
    ensures m == n
  {
    if m < n { PrefixFree(digits, m, n); } else if n < m { PrefixFree(digits, n, m); }
  }

  /** The leading digits of the built-in codes, by length. */
  lemma {:induction false} CodeShape(c: string)
    requires c in KNOWN_CODES
    ensures |c| == 1 ==> c[0] == '1' || c[0] == '7'
    ensures |c| > 1 ==> c[0] != '1' && c[0] != '7'
    ensures |c| == 2 && c[0] == '2' ==> c[1] == '0'
    ensures |c| == 2 && c[0] == '9' ==> c[1] == '0' || c[1] == '1'
    ensures |c| == 3 ==> (c[0] == '9' && (c[1] == '6' || c[1] == '7')) || (c[0] == '2' && (c[1] == '1' || c[1] == '4'))
  {
  }

  lemma {:induction false} PrefixFree(digits: string, m: int, n: int)
    requires 1 <= m < n <= 3 && n <= |digits| && digits[..m] in KNOWN_CODES
    ensures digits[..n] !in KNOWN_CODES
  {
    CodeShape(digits[..m]);
    if digits[..n] in KNOWN_CODES { CodeShape(digits[..n]); }
  }

  lemma {:induction false} CleanedConcat(a: string, b: string)
    ensures Cleaned(a + b) == Cleaned(a) + Cleaned(b)
  {
    if a == [] {
      assert a + b == b;
    } else {
      CleanedConcat(a[1..], b);
      var first := if Dialled(a[0]) then [a[0]] else [];
      assert (a + b)[0] == a[0] && (a + b)[1..] == a[1..] + b;
      assert first + (Cleaned(a[1..]) + Cleaned(b)) == first + Cleaned(a[1..]) + Cleaned(b);
    }
  }

  /** Spaces, dashes, brackets and whatever else is neither a digit nor a plus never change a number's country. */
  lemma {:induction false} FormattingIgnored(known: set<string>, a: string, c: char, b: string)
    requires !('0' <= c <= '9') && c != '+'
    ensures CountryOf(known, a + [c] + b) == CountryOf(known, a + b)
  {
    CleanedConcat(a + [c], b);
    CleanedConcat(a, [c]);
    CleanedConcat(a, b);
    assert [c][1..] == [] && Cleaned(a) + [] == Cleaned(a);
  }

  /** And digits and pluses all count: without formatting a number is read as it is. */
  lemma {:induction false} DialledIsKept(number: string)
    requires forall i :: 0 <= i < |number| ==> '0' <= number[i] <= '9' || number[i] == '+'
    ensures Cleaned(number) == number
  {
    if number != [] {
      DialledIsKept(number[1..]);
      assert [number[0]] + number[1..] == number;
    }
  }

  /**
    A number without a leading plus, or without a known code after it, is Iraqi; otherwise the result is
    the plus and the longest known code.
   */
  method ExtractCountryCode(known: set<string>, number: string) returns (country: string)
    ensures country == CountryOf(known, number)
    ensures var cleaned := Cleaned(number);
      if cleaned == [] || cleaned[0] != '+' || (forall n :: !IsCode(known, cleaned[1..], n)) then country == "+964"
      else exists n :: IsLongest(known, cleaned[1..], n) && country == ['+'] + cleaned[1..][..n]
  {
    var cleaned := Cleaned(number);
    if |cleaned| > 0 && cleaned[0] == '+' {
      var digits := cleaned[1..];
      var n := 3;
      while n > 0
        invariant 0 <= n <= 3
        invariant forall k :: IsCode(known, digits, k) ==> k <= n
      {
        if |digits| >= n && digits[..n] in known {
          assert IsLongest(known, digits, n);
          return ['+'] + digits[..n];
        }
        n := n - 1;
      }
    }
    return "+964";
  }

  ghost predicate IsLongest(known: set<string>, digits: string, n: int) {
    IsCode(known, digits, n) && forall k :: IsCode(known, digits, k) ==> k <= n
  }

  // ----- the router

  class Router {
    var routes: Routes
    var defaultRoute: Rule

    constructor ()
      ensures routes == Added([])
      ensures defaultRoute == Rule("*", "twilio_sms", 0, true, true, 0, 0)
    {
      routes := map[];
      defaultRoute := Rule("*", "twilio_sms", 0, true, true, 0, 0);
    }

    method AddRoute(rule: Rule)
      modifies this`routes
      ensures routes == AfterAdd(old(routes), rule)
    {
      var sorted := SortedCopy(Get(routes, rule.countryCode) + [rule]);
      routes := routes[rule.countryCode := sorted];
    }

    method SetDefaultRoute(rule: Rule)
      modifies this`defaultRoute
      ensures defaultRoute == rule
    {
      defaultRoute := rule;
    }

    method LoadRoutes(rules: seq<Rule>)
      modifies this`routes
      ensures IsLoaded(rules, routes)
    {
      routes := map[];
      for i := 0 to |rules|
        invariant forall c :: Get(routes, c) == For(Active(rules[..i]), c)
      {
        var r := rules[i];
        ghost var was := routes;
        if r.isActive {
          routes := routes[r.countryCode := Get(routes, r.countryCode) + [r]];
        }
        forall c ensures Get(routes, c) == For(Active(rules[..i + 1]), c) {
          assert Get(was, c) == For(Active(rules[..i]), c);
          ActiveForAppend(rules, i, c);
        }
      }
      assert rules[..|rules|] == rules;
      SortAll();
    }

    method SortAll()
      modifies this`routes
      ensures forall c :: Get(routes, c) == Sort(Get(old(routes), c))
    {
      var todo := routes.Keys;
      while todo != {}
        invariant todo <= routes.Keys
        invariant forall c :: Get(routes, c) == if c in todo then Get(old(routes), c) else Sort(Get(old(routes), c))
        decreases |todo|
      {
        var country :| country in todo;
        var sorted := SortedCopy(routes[country]);
        routes := routes[country := sorted];
        todo := todo - {country};
      }
    }

    /** The provider for a number: the first usable rule of its country, else the default, else an error. */
    method GetProviderForNumber(registry: Registry, number: string) returns (r: Result<string, string>, country: string)
      ensures country == CountryOf(KNOWN_CODES, number)
      ensures var choice := FirstUsable(registry, Get(routes, country));
        r == if choice.Some? then Ok(choice.value.providerCode)
             else if registry(defaultRoute.providerCode) == Some(true) then Ok(defaultRoute.providerCode)
             else Err(country)
      ensures r.Ok? ==> registry(r.value) == Some(true)
      ensures r.Err? ==> registry(defaultRoute.providerCode) != Some(true) && r.error == country
      ensures r.Err? ==> forall i :: 0 <= i < |Get(routes, country)| ==>
        !Get(routes, country)[i].isActive || registry(Get(routes, country)[i].providerCode) != Some(true)
    {
      country := ExtractCountryCode(KNOWN_CODES, number);
      var rules := Get(routes, country);
      for i := 0 to |rules|
        invariant FirstUsable(registry, rules[i..]) == FirstUsable(registry, rules)
        invariant forall j :: 0 <= j < i ==> !rules[j].isActive || registry(rules[j].providerCode) != Some(true)
      {
        assert rules[i..][1..] == rules[i + 1..];
        if rules[i].isActive && registry(rules[i].providerCode) == Some(true) {
          return Ok(rules[i].providerCode), country;
        }
      }
      if registry(defaultRoute.providerCode) == Some(true) {
        return Ok(defaultRoute.providerCode), country;
      }
      return Err(country), country;
    }
  }

  method SortedCopy(rs: seq<Rule>) returns (r: seq<Rule>)
    ensures r == Sort(rs)
  {
    if rs == [] {
      return [];
    }
    var a := new Rule[|rs|](i requires 0 <= i < |rs| => rs[i]);
    assert a[..] == rs;
    SortRules(a);
    return a[..];
  }
}
