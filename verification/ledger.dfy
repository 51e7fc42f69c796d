/** Computations over lists of records shared by the transaction and
    contribution screens: sums, the type filter, `[...new Set(xs)]`,
    grouping under a key into a dictionary of arrays, and the
    id-to-name dictionary built by a `reduce`. Amounts are integers. */
module Ledger {
  import opened Lists

  /** A transaction as the backend sends it (`TransactionSchema`). */
  datatype Transaction = Transaction(
    id: int,
    amount: int,
    description: string,
    transactionDate: string,
    kind: string,          // the `type` field: "доход" (income) or "расход" (expense)
    accountId: int,
    userId: int,
    categoryId: int)

  const Income: string := "доход"
  const Expense: string := "расход"

  /** An entry of the `/categories/` reply. */
  datatype Category = Category(id: int, name: string)

  function AmountOf(t: Transaction): int { t.amount }

  function UserIdOf(t: Transaction): int { t.userId }

  /** `xs.reduce((sum, x) => sum + w(x), 0)`. */
  function SumBy<T>(xs: seq<T>, w: T -> int): int
  {
    if xs == [] then 0 else SumBy(xs[..|xs| - 1], w) + w(xs[|xs| - 1])
  }

  lemma {:induction false} SumByAppend<T>(a: seq<T>, b: seq<T>, w: T -> int)
    ensures SumBy(a + b, w) == SumBy(a, w) + SumBy(b, w)
    decreases |b|
  {
    if b == [] {
      assert a + b == a;
    } else {
      var b' := b[..|b| - 1];
      assert (a + b)[..|a + b| - 1] == a + b';
      assert (a + b)[|a + b| - 1] == b[|b| - 1];
      SumByAppend(a, b', w);
    }
  }

  function IsKind(kind: string): Transaction -> bool
  {
    (t: Transaction) => t.kind == kind
  }

  /** `ts.filter(t => t.type === kind)`. */
  function OfKind(ts: seq<Transaction>, kind: string): (r: seq<Transaction>)
    ensures forall t :: t in r <==> t in ts && t.kind == kind
    ensures |r| <= |ts|
  {
    FilterMembers(ts, IsKind(kind));
    Filter(ts, IsKind(kind))
  }

  /** The filter keeps input order: it distributes over concatenation. */
  lemma OfKindAppend(a: seq<Transaction>, b: seq<Transaction>, kind: string)
    ensures OfKind(a + b, kind) == OfKind(a, kind) + OfKind(b, kind)
  {
    FilterAppend(a, b, IsKind(kind));
  }

  /** A list whose every element has the kind is kept whole. */
  lemma OfKindKeepsAll(ts: seq<Transaction>, kind: string)
    requires forall i :: 0 <= i < |ts| ==> ts[i].kind == kind
    ensures OfKind(ts, kind) == ts
  {
    FilterKeepsAll(ts, IsKind(kind));
  }

  predicate NoDuplicates<T(==)>(s: seq<T>)
  {
    forall i, j :: 0 <= i < j < |s| ==> s[i] != s[j]
  }

  /** `[...new Set(s)]`: a Set iterates in insertion order, so every
      element appears once, at the place of its first occurrence. */
  function Distinct<T(==)>(s: seq<T>): (r: seq<T>)
    ensures NoDuplicates(r)
    ensures forall i :: 0 <= i < |r| ==> r[i] in s
    ensures forall i :: 0 <= i < |s| ==> s[i] in r
    ensures |r| <= |s|
  {
    if s == [] then []
    else
      var r := Distinct(s[..|s| - 1]);
      var last := s[|s| - 1];
      if last in r then r else r + [last]
  }

  /** The index of the first occurrence of `x` in `s`. */
  function IndexOf<T(==)>(s: seq<T>, x: T): (k: nat)
    requires x in s
    ensures k < |s| && s[k] == x
    ensures forall j :: 0 <= j < k ==> s[j] != x
  {
    if s[0] == x then 0 else 1 + IndexOf(s[1..], x)
  }

  lemma {:induction false} IndexOfPrefix<T>(p: seq<T>, y: T, x: T)
    requires x in p
    ensures x in p + [y] && IndexOf(p + [y], x) == IndexOf(p, x)
  {
    var k := IndexOf(p, x);
    var k' := IndexOf(p + [y], x);
    assert (p + [y])[k] == x;
    assert k' <= k;
    assert p[k'] == (p + [y])[k'];
  }

  /** The de-duplicated list keeps first-occurrence order. */
  lemma {:induction false} DistinctFirstOccurrenceOrder<T>(s: seq<T>)
    ensures forall i, j :: 0 <= i < j < |Distinct(s)| ==> IndexOf(s, Distinct(s)[i]) < IndexOf(s, Distinct(s)[j])
    decreases |s|
  {
    if s != [] {
      var p, y := s[..|s| - 1], s[|s| - 1];
      assert s == p + [y];
      DistinctFirstOccurrenceOrder(p);
      assert s[..|s| - 1] == p;
      var rp := Distinct(p);
      var r := Distinct(s);
      if y in rp {
        assert r == rp;
      } else {
        assert r == rp + [y];
        assert y !in p;
      }
      forall i, j | 0 <= i < j < |r|
        ensures IndexOf(s, r[i]) < IndexOf(s, r[j])
      {
        assert r[i] == rp[i] && r[i] in p;
        IndexOfPrefix(p, y, r[i]);
        if j < |rp| {
          assert r[j] == rp[j] && r[j] in p;
          IndexOfPrefix(p, y, r[j]);
          assert IndexOf(p, rp[i]) < IndexOf(p, rp[j]);
        } else {
          assert r[j] == y;
          assert forall m :: 0 <= m < |p| ==> s[m] == p[m] && p[m] != y;
          assert IndexOf(s, y) >= |p|;
        }
      }
    }
  }

  /** The elements whose key is `k`, in input order: the array
      `grouped[k]` after every element has been pushed. */
  function WithKey<T>(xs: seq<T>, key: T -> string, k: string): (r: seq<T>)
    ensures forall i :: 0 <= i < |r| ==> r[i] in xs && key(r[i]) == k
    ensures forall i :: 0 <= i < |xs| && key(xs[i]) == k ==> xs[i] in r
  {
    if xs == [] then []
    else
      var last := xs[|xs| - 1];
      WithKey(xs[..|xs| - 1], key, k) + if key(last) == k then [last] else []
  }

  /** `xs.map(key)`. */
  function KeysOf<T>(xs: seq<T>, key: T -> string): (r: seq<string>)
    ensures |r| == |xs|
    ensures forall i :: 0 <= i < |xs| ==> r[i] == key(xs[i])
  {
    if xs == [] then [] else KeysOf(xs[..|xs| - 1], key) + [key(xs[|xs| - 1])]
  }

  /** `groups` holds, under each key of `order`, the elements of `xs` with that key. */
  ghost predicate GroupsOf<T>(groups: map<string, seq<T>>, order: seq<string>, xs: seq<T>, key: T -> string)
  {
    && (forall k :: k in groups <==> k in order)
    && (forall k :: k in groups ==> groups[k] == WithKey(xs, key, k))
  }

  /** The grouping loop: each element is pushed onto the array under its
      key, creating the array the first time the key is met. `order` is
      the dictionary's key order (insertion order). */
  method GroupByKey<T>(xs: seq<T>, key: T -> string)
    returns (order: seq<string>, groups: map<string, seq<T>>)
    ensures order == Distinct(KeysOf(xs, key))
    ensures forall k :: k in groups <==> k in order
    ensures forall k :: k in groups ==> groups[k] == WithKey(xs, key, k)
  {
    order, groups := [], map[];
    var i := 0;
    while i < |xs|
      invariant 0 <= i <= |xs|
      invariant order == Distinct(KeysOf(xs[..i], key))
      invariant GroupsOf(groups, order, xs[..i], key)
    {
      GroupLoopStep(groups, order, xs, key, i);
      var x := xs[i];
      var k := key(x);
      var prev: seq<T> := [];
      if k in groups {
        prev := groups[k];
      } else {
        order := order + [k];
      }
      groups := groups[k := prev + [x]];
      i := i + 1;
    }
    assert xs[..i] == xs;
  }

  /** One iteration of the grouping loop keeps its invariant. */
  lemma GroupLoopStep<T>(groups: map<string, seq<T>>, order: seq<string>, xs: seq<T>, key: T -> string, i: nat)
    requires i < |xs|
    requires order == Distinct(KeysOf(xs[..i], key))
    requires GroupsOf(groups, order, xs[..i], key)
    ensures var k := key(xs[i]);
      var prev := if k in groups then groups[k] else [];
      var order' := if k in groups then order else order + [k];
      && order' == Distinct(KeysOf(xs[..i + 1], key))
      && GroupsOf(groups[k := prev + [xs[i]]], order', xs[..i + 1], key)
  {
    var k := key(xs[i]);
    GroupStep(xs, key, i);
    var prev := if k in groups then groups[k] else [];
    if k !in groups {
      WithKeyEmpty(xs[..i], key, k);
    }
    GroupsOfStep(groups, order, xs, key, i, prev);
  }

  lemma GroupsOfStep<T>(groups: map<string, seq<T>>, order: seq<string>, xs: seq<T>, key: T -> string,
                        i: nat, prev: seq<T>)
    requires i < |xs|
    requires GroupsOf(groups, order, xs[..i], key)
    requires prev == WithKey(xs[..i], key, key(xs[i]))
    requires forall k :: WithKey(xs[..i + 1], key, k)
                         == WithKey(xs[..i], key, k) + if key(xs[i]) == k then [xs[i]] else []
    ensures GroupsOf(groups[key(xs[i]) := prev + [xs[i]]],
                     if key(xs[i]) in groups then order else order + [key(xs[i])], xs[..i + 1], key)
  {
  }

  lemma {:induction false} WithKeyEmpty<T>(xs: seq<T>, key: T -> string, k: string)
    requires k !in KeysOf(xs, key)
    ensures WithKey(xs, key, k) == []
  {
    if xs != [] {
      var p := xs[..|xs| - 1];
      assert KeysOf(xs, key) == KeysOf(p, key) + [key(xs[|xs| - 1])];
      WithKeyEmpty(p, key, k);
    }
  }

  /** What pushing the element at index `i` adds to the key list and to each group. */
  lemma GroupStep<T>(xs: seq<T>, key: T -> string, i: nat)
    requires i < |xs|
    ensures var ks := KeysOf(xs[..i + 1], key);
      && ks[..|ks| - 1] == KeysOf(xs[..i], key) && ks[|ks| - 1] == key(xs[i])
      && Distinct(ks) == (var d := Distinct(KeysOf(xs[..i], key));
                          if key(xs[i]) in d then d else d + [key(xs[i])])
    ensures forall k :: WithKey(xs[..i + 1], key, k)
                        == WithKey(xs[..i], key, k) + if key(xs[i]) == k then [xs[i]] else []
  {
    assert xs[..i + 1][..i] == xs[..i];
  }

  /** The sum of `w` over the groups named in `keys`. */
  function SumGroups<T>(keys: seq<string>, xs: seq<T>, key: T -> string, w: T -> int): int
  {
    if keys == [] then 0 else SumBy(WithKey(xs, key, keys[0]), w) + SumGroups(keys[1..], xs, key, w)
  }

  function Indicator(keys: seq<string>, k: string, v: int): int
  {
    if keys == [] then 0 else (if keys[0] == k then v else 0) + Indicator(keys[1..], k, v)
  }

  lemma {:induction false} IndicatorAbsent(keys: seq<string>, k: string, v: int)
    requires k !in keys
    ensures Indicator(keys, k, v) == 0
  {
    if keys != [] {
      IndicatorAbsent(keys[1..], k, v);
    }
  }

  lemma {:induction false} IndicatorOnce(keys: seq<string>, k: string, v: int)
    requires NoDuplicates(keys) && k in keys
    ensures Indicator(keys, k, v) == v
  {
    if keys[0] == k {
      assert k !in keys[1..] by {
        forall j | 0 <= j < |keys[1..]| ensures keys[1..][j] != k {
          assert keys[1..][j] == keys[j + 1];
        }
      }
      IndicatorAbsent(keys[1..], k, v);
    } else {
      IndicatorOnce(keys[1..], k, v);
    }
  }

  lemma {:induction false} SumGroupsSnoc<T>(keys: seq<string>, p: seq<T>, x: T, key: T -> string, w: T -> int)
    ensures SumGroups(keys, p + [x], key, w) == SumGroups(keys, p, key, w) + Indicator(keys, key(x), w(x))
  {
    if keys != [] {
      var s := p + [x];
      assert s[..|s| - 1] == p;
      var g := WithKey(p, key, keys[0]);
      var tail := if key(x) == keys[0] then [x] else [];
      assert WithKey(s, key, keys[0]) == g + tail;
      SumByAppend(g, tail, w);
      if tail != [] { assert tail[..0] == []; }
      SumGroupsSnoc(keys[1..], p, x, key, w);
    }
  }

  /** Grouping is a partition: summing any weight group by group, over
      distinct keys that cover every element, gives the sum over the
      whole list. */
  lemma {:induction false} PartitionSum<T>(keys: seq<string>, xs: seq<T>, key: T -> string, w: T -> int)
    requires NoDuplicates(keys)
    requires forall i :: 0 <= i < |xs| ==> key(xs[i]) in keys
    ensures SumGroups(keys, xs, key, w) == SumBy(xs, w)
    decreases |xs|
  {
    if xs == [] {
      EmptyGroups(keys, key, w);
    } else {
      var p, x := xs[..|xs| - 1], xs[|xs| - 1];
      assert xs == p + [x];
      PartitionSum(keys, p, key, w);
      SumGroupsSnoc(keys, p, x, key, w);
      IndicatorOnce(keys, key(x), w(x));
    }
  }

  lemma {:induction false} EmptyGroups<T>(keys: seq<string>, key: T -> string, w: T -> int)
    ensures SumGroups(keys, [], key, w) == 0
  {
    if keys != [] {
      EmptyGroups(keys[1..], key, w);
    }
  }

  function One<T>(x: T): int { 1 }

  lemma {:induction false} CountIsSumOfOnes<T>(xs: seq<T>)
    ensures SumBy(xs, One) == |xs|
  {
    if xs != [] {
      CountIsSumOfOnes(xs[..|xs| - 1]);
    }
  }

  /** Every element lands in exactly one group, the one under its own
      key, and the groups' sizes add up to the length of the list. */
  lemma GroupingIsPartition<T>(xs: seq<T>, key: T -> string)
    ensures var order := Distinct(KeysOf(xs, key));
      && (forall i, k :: 0 <= i < |xs| && k in order ==> (xs[i] in WithKey(xs, key, k) <==> k == key(xs[i])))
      && (forall i :: 0 <= i < |xs| ==> key(xs[i]) in order)
      && SumGroups(order, xs, key, One) == |xs|
  {
    var order := Distinct(KeysOf(xs, key));
    forall i | 0 <= i < |xs| ensures key(xs[i]) in order {
      assert KeysOf(xs, key)[i] == key(xs[i]);
    }
    PartitionSum(order, xs, key, One);
    CountIsSumOfOnes(xs);
  }

  /** `list.reduce((acc, c) => { acc[c.id] = c.name; return acc; }, {})`
      as a specification: later entries overwrite earlier ones. */
  function NameTable(cats: seq<Category>): map<int, string>
  {
    if cats == [] then map[]
    else NameTable(cats[..|cats| - 1])[cats[|cats| - 1].id := cats[|cats| - 1].name]
  }

  predicate HasEntry(cats: seq<Category>, id: int)
  {
    exists i :: 0 <= i < |cats| && cats[i].id == id
  }

  /** The table has exactly one key per distinct id. */
  lemma {:induction false} NameTableKeys(cats: seq<Category>)
    ensures forall id :: id in NameTable(cats) <==> HasEntry(cats, id)
  {
    if cats != [] {
      var p := cats[..|cats| - 1];
      NameTableKeys(p);
      forall id ensures HasEntry(cats, id) <==> HasEntry(p, id) || cats[|cats| - 1].id == id {
        if HasEntry(cats, id) {
          var i :| 0 <= i < |cats| && cats[i].id == id;
          if i < |p| { assert p[i].id == id; }
        }
        if HasEntry(p, id) {
          var i :| 0 <= i < |p| && p[i].id == id;
          assert cats[i].id == id;
        }
      }
    }
  }

  /** The name stored under an id is the name of its last entry. */
  lemma {:induction false} NameTableLastWins(cats: seq<Category>, i: nat)
    requires i < |cats|
    requires forall j :: i < j < |cats| ==> cats[j].id != cats[i].id
    ensures cats[i].id in NameTable(cats) && NameTable(cats)[cats[i].id] == cats[i].name
  {
    if i < |cats| - 1 {
      var p := cats[..|cats| - 1];
      NameTableLastWins(p, i);
    }
  }

  /** The `reduce` loop that mutates its accumulator. */
  method BuildNameTable(cats: seq<Category>) returns (table: map<int, string>)
    ensures table == NameTable(cats)
  {
    table := map[];
    var i := 0;
    while i < |cats|
      invariant 0 <= i <= |cats|
      invariant table == NameTable(cats[..i])
    {
      assert cats[..i + 1][..i] == cats[..i];
      table := table[cats[i].id := cats[i].name];
      i := i + 1;
    }
    assert cats[..i] == cats;
  }

  /** `acc[k] = (acc[k] || 0) + w(x)` for every element: the running
      total per key, with `order` the dictionary's key order. */
  method SumByKey<T>(xs: seq<T>, key: T -> string, w: T -> int)
    returns (order: seq<string>, totals: map<string, int>)
    ensures order == Distinct(KeysOf(xs, key))
    ensures forall k :: k in totals <==> k in order
    ensures forall k :: k in totals ==> totals[k] == SumBy(WithKey(xs, key, k), w)
  {
    order, totals := [], map[];
    var i := 0;
    while i < |xs|
      invariant 0 <= i <= |xs|
      invariant order == Distinct(KeysOf(xs[..i], key))
      invariant forall k :: k in totals <==> k in order
      invariant forall k :: k in totals ==> totals[k] == KeySum(xs[..i], key, w, k)
    {
      GroupStep(xs, key, i);
      var k := key(xs[i]);
      var prev := 0;
      if k in totals {
        prev := totals[k];
      } else {
        KeySumAbsent(xs[..i], key, w, k);
        order := order + [k];
      }
      KeySumStep(totals, xs, key, w, i, prev, totals[k := prev + w(xs[i])]);
      totals := totals[k := prev + w(xs[i])];
      i := i + 1;
    }
    assert xs[..i] == xs;
    forall k | k in totals ensures totals[k] == SumBy(WithKey(xs, key, k), w) {
      KeySumIsGroupSum(xs, key, w, k);
    }
  }

  /** Adding the element at index `i` to its key's total keeps every total exact. */
  lemma KeySumStep<T>(totals: map<string, int>, xs: seq<T>, key: T -> string, w: T -> int, i: nat,
                      prev: int, totals': map<string, int>)
    requires i < |xs|
    requires forall k :: k in totals ==> totals[k] == KeySum(xs[..i], key, w, k)
    requires prev == KeySum(xs[..i], key, w, key(xs[i]))
    requires totals' == totals[key(xs[i]) := prev + w(xs[i])]
    ensures forall k :: k in totals' ==> totals'[k] == KeySum(xs[..i + 1], key, w, k)
  {
    assert xs[..i + 1][..i] == xs[..i];
  }

  /** The sum of `w` over the elements whose key is `k`, accumulated element by element. */
  function KeySum<T>(xs: seq<T>, key: T -> string, w: T -> int, k: string): int
  {
    if xs == [] then 0
    else KeySum(xs[..|xs| - 1], key, w, k) + if key(xs[|xs| - 1]) == k then w(xs[|xs| - 1]) else 0
  }

  lemma {:induction false} KeySumAbsent<T>(xs: seq<T>, key: T -> string, w: T -> int, k: string)
    requires k !in Distinct(KeysOf(xs, key))
    ensures KeySum(xs, key, w, k) == 0
  {
    if xs != [] {
      var p := xs[..|xs| - 1];
      assert KeysOf(xs, key)[|xs| - 1] == key(xs[|xs| - 1]);
      assert KeysOf(xs, key)[..|xs| - 1] == KeysOf(p, key);
      KeySumAbsent(p, key, w, k);
    }
  }

  lemma {:induction false} KeySumIsGroupSum<T>(xs: seq<T>, key: T -> string, w: T -> int, k: string)
    ensures KeySum(xs, key, w, k) == SumBy(WithKey(xs, key, k), w)
  {
    if xs != [] {
      var p, x := xs[..|xs| - 1], xs[|xs| - 1];
      KeySumIsGroupSum(p, key, w, k);
      var tail := if key(x) == k then [x] else [];
      SumByAppend(WithKey(p, key, k), tail, w);
      if tail != [] { assert tail[..0] == []; }
    }
  }

  /** The sum of the values stored under `keys`. */
  function SumValues(keys: seq<string>, totals: map<string, int>): int
    requires forall i :: 0 <= i < |keys| ==> keys[i] in totals
  {
    if keys == [] then 0 else totals[keys[0]] + SumValues(keys[1..], totals)
  }

  lemma {:induction false} SumValuesIsSumGroups<T>(keys: seq<string>, totals: map<string, int>, xs: seq<T>,
                                                   key: T -> string, w: T -> int)
    requires forall i :: 0 <= i < |keys| ==> keys[i] in totals && totals[keys[i]] == SumBy(WithKey(xs, key, keys[i]), w)
    ensures SumValues(keys, totals) == SumGroups(keys, xs, key, w)
  {
    if keys != [] {
      SumValuesIsSumGroups(keys[1..], totals, xs, key, w);
    }
  }

  /** The per-key totals add up to the total of the whole list. */
  lemma TotalsAddUp<T>(xs: seq<T>, key: T -> string, w: T -> int, order: seq<string>, totals: map<string, int>)
    requires order == Distinct(KeysOf(xs, key))
    requires forall k :: k in totals <==> k in order
    requires forall k :: k in totals ==> totals[k] == SumBy(WithKey(xs, key, k), w)
    ensures SumValues(order, totals) == SumBy(xs, w)
  {
    forall i | 0 <= i < |xs| ensures key(xs[i]) in order {
      assert KeysOf(xs, key)[i] == key(xs[i]);
    }
    SumValuesIsSumGroups(order, totals, xs, key, w);
    PartitionSum(order, xs, key, w);
  }

  /** The part of a `/users/<id>` reply the screens read. */
  datatype UserName = UserName(name: string, surname: string)

  /** `${name} ${surname}` */
  function FullName(u: UserName): string
  {
    u.name + " " + u.surname
  }

  /** `ts.map(t => t.user_id)`. */
  function UserIdsOf(ts: seq<Transaction>): (r: seq<int>)
    ensures |r| == |ts|
    ensures forall i :: 0 <= i < |ts| ==> r[i] == ts[i].userId
  {
    seq(|ts|, i requires 0 <= i < |ts| => ts[i].userId)
  }

  predicate HasUser(ts: seq<Transaction>, userId: int)
  {
    exists i :: 0 <= i < |ts| && ts[i].userId == userId
  }

  /** The de-duplicated user ids are exactly the users of the list. */
  lemma DistinctUserIds(ts: seq<Transaction>)
    ensures forall u :: u in Distinct(UserIdsOf(ts)) <==> HasUser(ts, u)
  {
    var ids := UserIdsOf(ts);
    forall u ensures u in Distinct(ids) <==> HasUser(ts, u) {
      if u in Distinct(ids) {
        var j :| 0 <= j < |Distinct(ids)| && Distinct(ids)[j] == u;
        var i :| 0 <= i < |ids| && ids[i] == u;
        assert ts[i].userId == u;
      }
      if HasUser(ts, u) {
        var i :| 0 <= i < |ts| && ts[i].userId == u;
        assert ids[i] == u;
      }
    }
  }
}
