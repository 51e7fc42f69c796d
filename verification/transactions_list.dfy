/** The per-type transaction list of an account: the type filter, the
    users table keyed by de-duplicated user ids, the category dictionary,
    date groups in descending key order, the total, and the per-category
    totals of the pie chart. The date key is a parameter. */
module TransactionsList {
  import opened Wrappers
  import opened Storage
  import opened Ledger

  const UnknownUser: string := "Неизвестный пользователь"
  const UnknownCategory: string := "Неизвестная"

  // ------------------------------------------------------ string ordering

  /** `a.localeCompare(b) <= 0` on the date keys, taken as code-point
      lexicographic order. */
  predicate LexLeq(a: string, b: string)
  {
    if a == [] then true
    else if b == [] then false
    else if a[0] != b[0] then a[0] < b[0]
    else LexLeq(a[1..], b[1..])
  }

  lemma {:induction false} LexLeqReflexive(a: string)
    ensures LexLeq(a, a)
  {
    if a != [] {
      LexLeqReflexive(a[1..]);
    }
  }

  lemma {:induction false} LexLeqTotal(a: string, b: string)
    ensures LexLeq(a, b) || LexLeq(b, a)
  {
    if a != [] && b != [] && a[0] == b[0] {
      LexLeqTotal(a[1..], b[1..]);
    }
  }

  lemma {:induction false} LexLeqAntisymmetric(a: string, b: string)
    requires LexLeq(a, b) && LexLeq(b, a)
    ensures a == b
  {
    if a != [] && b != [] {
      LexLeqAntisymmetric(a[1..], b[1..]);
      assert a == [a[0]] + a[1..] && b == [b[0]] + b[1..];
    }
  }

  lemma {:induction false} LexLeqTransitive(a: string, b: string, c: string)
    requires LexLeq(a, b) && LexLeq(b, c)
    ensures LexLeq(a, c)
  {
    if a != [] && b != [] && c != [] && a[0] == b[0] && b[0] == c[0] {
      LexLeqTransitive(a[1..], b[1..], c[1..]);
    }
  }

  /** Each key is at or above every key after it. */
  predicate Descending(s: seq<string>)
  {
    forall i, j :: 0 <= i < j < |s| ==> LexLeq(s[j], s[i])
  }

  /** Inserts `k` before the first key not above it. */
  function Insert(s: seq<string>, k: string): (r: seq<string>)
    requires Descending(s)
    ensures Descending(r)
    ensures multiset(r) == multiset(s) + multiset{k}
  {
    if s == [] then [k]
    else if LexLeq(s[0], k) then
      InsertFront(s, k);
      [k] + s
    else
      var rest := Insert(s[1..], k);
      InsertBehind(s, k, rest);
      assert s == [s[0]] + s[1..];
      [s[0]] + rest
  }

  lemma InsertFront(s: seq<string>, k: string)
    requires Descending(s) && s != [] && LexLeq(s[0], k)
    ensures Descending([k] + s)
  {
    var r := [k] + s;
    forall i, j | 0 <= i < j < |r| ensures LexLeq(r[j], r[i]) {
      if i == 0 {
        if j - 1 > 0 {
          LexLeqTransitive(s[j - 1], s[0], k);
        }
      } else {
        assert r[i] == s[i - 1] && r[j] == s[j - 1];
      }
    }
  }

  lemma InsertBehind(s: seq<string>, k: string, rest: seq<string>)
    requires Descending(s) && s != [] && !LexLeq(s[0], k)
    requires Descending(rest) && multiset(rest) == multiset(s[1..]) + multiset{k}
    ensures Descending([s[0]] + rest)
  {
    var r := [s[0]] + rest;
    LexLeqTotal(s[0], k);
    forall i, j | 0 <= i < j < |r| ensures LexLeq(r[j], r[i]) {
      if i == 0 {
        var x := rest[j - 1];
        assert x in multiset(rest);
        if x != k {
          assert x in multiset(s[1..]);
          var m :| 0 <= m < |s[1..]| && s[1..][m] == x;
          assert s[m + 1] == x;
        }
      } else {
        assert r[i] == rest[i - 1] && r[j] == rest[j - 1];
      }
    }
  }

  /** `sort(([a], [b]) => b.localeCompare(a))`: the keys in descending order. */
  function SortDescending(s: seq<string>): (r: seq<string>)
    ensures Descending(r)
    ensures multiset(r) == multiset(s)
  {
    if s == [] then []
    else
      assert s == s[..|s| - 1] + [s[|s| - 1]];
      Insert(SortDescending(s[..|s| - 1]), s[|s| - 1])
  }

  /** The date keys of a list, each once, in descending order. */
  function DateOrder(ts: seq<Transaction>, dateKey: Transaction -> string): seq<string>
  {
    SortDescending(Distinct(KeysOf(ts, dateKey)))
  }

  /** Every transaction's date is among the groups, each group key holds
      only transactions of that date, and no key is listed twice. */
  lemma DateOrderCoversAll(ts: seq<Transaction>, dateKey: Transaction -> string)
    ensures forall i :: 0 <= i < |ts| ==> dateKey(ts[i]) in DateOrder(ts, dateKey)
    ensures forall k :: k in DateOrder(ts, dateKey) ==> k in KeysOf(ts, dateKey)
    ensures NoDuplicates(DateOrder(ts, dateKey))
  {
    var keys := KeysOf(ts, dateKey);
    var d := Distinct(keys);
    var r := DateOrder(ts, dateKey);
    PermutationKeepsMembers(d, r);
    PermutationKeepsNoDuplicates(d, r);
    forall i | 0 <= i < |ts| ensures dateKey(ts[i]) in r {
      assert keys[i] == dateKey(ts[i]);
    }
    forall k | k in r ensures k in keys {
      var j :| 0 <= j < |d| && d[j] == k;
    }
  }

  lemma PermutationKeepsMembers(d: seq<string>, r: seq<string>)
    requires multiset(r) == multiset(d)
    ensures forall k :: k in r <==> k in d
  {
    forall k ensures k in r <==> k in d {
      assert k in r <==> k in multiset(r);
      assert k in d <==> k in multiset(d);
    }
  }

  lemma PermutationKeepsNoDuplicates(d: seq<string>, r: seq<string>)
    requires NoDuplicates(d) && multiset(r) == multiset(d)
    ensures NoDuplicates(r)
  {
    forall i, j | 0 <= i < j < |r| ensures r[i] != r[j] {
      if r[i] == r[j] {
        DistinctCountsOne(d, r[i]);
        MultiplicityAtLeastTwo(r, i, j);
        assert false;
      }
    }
  }

  lemma {:induction false} DistinctCountsOne(s: seq<string>, x: string)
    requires NoDuplicates(s)
    ensures multiset(s)[x] <= 1
  {
    if s != [] {
      var p := s[..|s| - 1];
      assert s == p + [s[|s| - 1]];
      DistinctCountsOne(p, x);
      if s[|s| - 1] == x {
        assert x !in p by {
          forall m | 0 <= m < |p| ensures p[m] != x {
            assert p[m] == s[m];
          }
        }
      }
    }
  }

  lemma MultiplicityAtLeastTwo(s: seq<string>, i: nat, j: nat)
    requires i < j < |s| && s[i] == s[j]
    ensures multiset(s)[s[i]] >= 2
  {
    assert s == s[..i] + [s[i]] + s[i + 1..j] + [s[j]] + s[j + 1..];
  }

  // -------------------------------------------------------------- labels

  /** A user's label: the looked-up full name, or the fallback when the
      lookup failed. */
  function UserLabel(reply: Option<UserName>): string
  {
    if reply.Some? then FullName(reply.value) else UnknownUser
  }

  /** The users table: one entry per user id of the list. */
  function UsersTable(ts: seq<Transaction>, lookup: int -> Option<UserName>): (r: map<int, string>)
    ensures forall u :: u in r <==> HasUser(ts, u)
    ensures forall u :: u in r ==> r[u] == UserLabel(lookup(u))
  {
    var ids := UserIdsOf(ts);
    assert forall u :: u in ids <==> HasUser(ts, u) by {
      forall u | HasUser(ts, u) ensures u in ids {
        var i :| 0 <= i < |ts| && ts[i].userId == u;
        assert ids[i] == u;
      }
    }
    map u | u in ids :: UserLabel(lookup(u))
  }

  /** `categories[id] || "Неизвестная"`: an empty name counts as missing. */
  function CategoryLabel(categories: map<int, string>, id: int): string
  {
    if id in categories && categories[id] != "" then categories[id] else UnknownCategory
  }

  function CategoryKey(categories: map<int, string>): Transaction -> string
  {
    (t: Transaction) => CategoryLabel(categories, t.categoryId)
  }

  /** Categories with no name share the total of unknown ids. */
  lemma UnnamedCategoryIsUnknown(categories: map<int, string>, a: Transaction, b: Transaction)
    requires a.categoryId !in categories
    requires b.categoryId in categories && categories[b.categoryId] == ""
    ensures CategoryKey(categories)(a) == CategoryKey(categories)(b) == UnknownCategory
  {
  }

  /** The `Promise.all` of the lookups merged by `Object.assign`: the ids
      are distinct, so no entry overwrites another. */
  method LabelUsers(ids: seq<int>, lookup: int -> Option<UserName>) returns (table: map<int, string>)
    ensures forall u :: u in table <==> u in ids
    ensures forall u :: u in table ==> table[u] == UserLabel(lookup(u))
  {
    table := map[];
    var i := 0;
    while i < |ids|
      invariant 0 <= i <= |ids|
      invariant forall u :: u in table <==> u in ids[..i]
      invariant forall u :: u in table ==> table[u] == UserLabel(lookup(u))
    {
      assert ids[..i + 1] == ids[..i] + [ids[i]];
      table := table[ids[i] := UserLabel(lookup(ids[i]))];
      i := i + 1;
    }
    assert ids[..i] == ids;
  }

  lemma LabelledIsUsersTable(ts: seq<Transaction>, lookup: int -> Option<UserName>, table: map<int, string>)
    requires forall u :: u in table <==> u in Distinct(UserIdsOf(ts))
    requires forall u :: u in table ==> table[u] == UserLabel(lookup(u))
    ensures table == UsersTable(ts, lookup)
  {
    DistinctUserIds(ts);
    var r := UsersTable(ts, lookup);
    assert forall u :: u in table <==> u in r;
  }

  /** The dictionary's entries in the given key order. */
  function EntriesOf<V>(keys: seq<string>, groups: map<string, V>): (r: seq<(string, V)>)
    requires forall i :: 0 <= i < |keys| ==> keys[i] in groups
    ensures |r| == |keys|
    ensures forall i :: 0 <= i < |keys| ==> r[i] == (keys[i], groups[keys[i]])
  {
    seq(|keys|, i requires 0 <= i < |keys| => (keys[i], groups[keys[i]]))
  }

  lemma SortedKeysHaveGroups(ts: seq<Transaction>, dateKey: Transaction -> string, order: seq<string>,
                             groups: map<string, seq<Transaction>>, sorted: seq<string>)
    requires order == Distinct(KeysOf(ts, dateKey))
    requires forall k :: k in groups <==> k in order
    requires forall k :: k in groups ==> groups[k] == WithKey(ts, dateKey, k)
    requires sorted == SortDescending(order)
    ensures sorted == DateOrder(ts, dateKey)
    ensures forall i :: 0 <= i < |sorted| ==> sorted[i] in groups && groups[sorted[i]] == WithKey(ts, dateKey, sorted[i])
  {
    forall i | 0 <= i < |sorted| ensures sorted[i] in order {
      assert sorted[i] in multiset(order);
    }
  }

  /** The grouping loop followed by the sort of the dictionary's entries. */
  method SortedDateGroups(ts: seq<Transaction>, dateKey: Transaction -> string)
    returns (entries: seq<(string, seq<Transaction>)>)
    ensures |entries| == |DateOrder(ts, dateKey)|
    ensures forall i :: 0 <= i < |entries| ==>
              entries[i] == (DateOrder(ts, dateKey)[i], WithKey(ts, dateKey, DateOrder(ts, dateKey)[i]))
  {
    var order, groups := GroupByKey(ts, dateKey);
    var sorted := SortDescending(order);
    SortedKeysHaveGroups(ts, dateKey, order, groups, sorted);
    entries := EntriesOf(sorted, groups);
  }

  // -------------------------------------------------------------- the view

  class TransactionsListView {
    const accountId: int
    /** "доход" or "расход" */
    const transactionType: string
    var transactions: seq<Transaction>
    var categories: map<int, string>
    var users: map<int, string>

    constructor (accountId: int, transactionType: string)
      ensures this.accountId == accountId && this.transactionType == transactionType
      ensures transactions == [] && categories == map[] && users == map[]
    {
      this.accountId := accountId;
      this.transactionType := transactionType;
      transactions := [];
      categories := map[];
      users := map[];
    }

    /** `fetchTransactions`: with a truthy token and a reply, keeps the
        transactions of this view's type, in reply order, then fills the
        users table; otherwise nothing changes. */
    method FetchTransactions(token: Option<string>, reply: Option<seq<Transaction>>, lookup: int -> Option<UserName>)
      modifies this`transactions, this`users
      ensures !Truthy(token) || reply.None? ==> transactions == old(transactions) && users == old(users)
      ensures Truthy(token) && reply.Some? ==>
                && transactions == OfKind(reply.value, transactionType)
                && users == UsersTable(transactions, lookup)
    {
      if !Truthy(token) || reply.None? {
        return;
      }
      transactions := OfKind(reply.value, transactionType);
      FetchUsers(token, lookup);
    }

    /** `fetchUsers`: one lookup per distinct user id; a failed lookup
        yields the fallback label. */
    method FetchUsers(token: Option<string>, lookup: int -> Option<UserName>)
      modifies this`users
      ensures Truthy(token) ==> users == UsersTable(transactions, lookup)
      ensures !Truthy(token) ==> users == old(users)
    {
      if !Truthy(token) {
        return;
      }
      var ids := Distinct(UserIdsOf(transactions));
      var table := LabelUsers(ids, lookup);
      LabelledIsUsersTable(transactions, lookup, table);
      users := table;
    }

    /** `fetchCategories`: the id-to-name dictionary of the reply. */
    method FetchCategories(token: Option<string>, reply: Option<seq<Category>>)
      modifies this`categories
      ensures Truthy(token) && reply.Some? ==> categories == NameTable(reply.value)
      ensures !(Truthy(token) && reply.Some?) ==> categories == old(categories)
    {
      if Truthy(token) && reply.Some? {
        categories := BuildNameTable(reply.value);
      }
    }

    /** `groupTransactionsByDate`: the entries of the date dictionary,
        sorted by descending key; each group keeps list order. */
    method GroupTransactionsByDate(dateKey: Transaction -> string)
      returns (entries: seq<(string, seq<Transaction>)>)
      ensures |entries| == |DateOrder(transactions, dateKey)|
      ensures forall i :: 0 <= i < |entries| ==>
                entries[i] == (DateOrder(transactions, dateKey)[i], WithKey(transactions, dateKey, DateOrder(transactions, dateKey)[i]))
    {
      entries := SortedDateGroups(transactions, dateKey);
    }

    /** `getCategoryData`: per category label, the sum of its amounts,
        labels in order of first appearance; the totals add up to
        `totalAmount`. */
    method GetCategoryData() returns (names: seq<string>, totals: map<string, int>)
      ensures names == Distinct(KeysOf(transactions, CategoryKey(categories)))
      ensures forall n :: n in totals <==> n in names
      ensures forall n :: n in totals ==> totals[n] == SumBy(WithKey(transactions, CategoryKey(categories), n), AmountOf)
      ensures SumValues(names, totals) == SumBy(transactions, AmountOf)
    {
      names, totals := SumByKey(transactions, CategoryKey(categories), AmountOf);
      TotalsAddUp(transactions, CategoryKey(categories), AmountOf, names, totals);
    }
  }
}
