/** The account's transaction screen: income and expense totals, the
    users table filled lookup by lookup, the category dictionary, and the
    date groups in order of first appearance. */
module TransactionsScreen {
  import opened Wrappers
  import opened Storage
  import opened Ledger

  const UnknownCategoryCaption: string := "Неизвестная категория"

  /** The sign shown before an amount: "+" exactly for income. */
  function AmountPrefix(kind: string): (r: string)
    ensures r == "+" <==> kind == Income
    ensures r == "+" || r == "-"
  {
    if kind == Income then "+" else "-"
  }

  /** `categories[id] || "Неизвестная категория"`. */
  function CategoryCaption(categories: map<int, string>, id: int): (r: string)
    ensures r != ""
    ensures id in categories && categories[id] != "" ==> r == categories[id]
    ensures !(id in categories && categories[id] != "") ==> r == UnknownCategoryCaption
  {
    if id in categories && categories[id] != "" then categories[id] else UnknownCategoryCaption
  }

  /** When every transaction is income or expense, the two totals add up
      to the sum of all amounts. */
  lemma {:induction false} IncomeExpenseSplit(ts: seq<Transaction>)
    requires forall i :: 0 <= i < |ts| ==> ts[i].kind == Income || ts[i].kind == Expense
    ensures SumBy(OfKind(ts, Income), AmountOf) + SumBy(OfKind(ts, Expense), AmountOf) == SumBy(ts, AmountOf)
  {
    if ts != [] {
      var p, t := ts[..|ts| - 1], ts[|ts| - 1];
      IncomeExpenseSplit(p);
      assert Income[0] != Expense[0];
      var inc, exp := OfKind(p, Income), OfKind(p, Expense);
      if t.kind == Income {
        assert OfKind(ts, Income) == inc + [t];
        assert OfKind(ts, Expense) == exp;
        SumBySnoc(inc, t);
      } else {
        assert OfKind(ts, Income) == inc;
        assert OfKind(ts, Expense) == exp + [t];
        SumBySnoc(exp, t);
      }
    }
  }

  lemma SumBySnoc(xs: seq<Transaction>, t: Transaction)
    ensures SumBy(xs + [t], AmountOf) == SumBy(xs, AmountOf) + t.amount
  {
    assert (xs + [t])[..|xs|] == xs;
  }

  /** A transaction of any other type changes neither total. */
  lemma OtherKindCountsInNeither(ts: seq<Transaction>, t: Transaction)
    requires t.kind != Income && t.kind != Expense
    ensures SumBy(OfKind(ts + [t], Income), AmountOf) == SumBy(OfKind(ts, Income), AmountOf)
    ensures SumBy(OfKind(ts + [t], Expense), AmountOf) == SumBy(OfKind(ts, Expense), AmountOf)
  {
    var s := ts + [t];
    assert s[..|s| - 1] == ts && s[|s| - 1] == t;
    assert OfKind(s, Income) == OfKind(ts, Income);
    assert OfKind(s, Expense) == OfKind(ts, Expense);
  }

  /** `setUsers(prev => ({...prev, [id]: name}))` for each lookup that
      answers; a failed lookup adds nothing. The ids are distinct, so the
      order in which the lookups finish does not matter. */
  method MergeUsers(prev: map<int, string>, ids: seq<int>, lookup: int -> Option<UserName>)
    returns (users: map<int, string>)
    ensures forall u :: u in users <==> u in prev || (u in ids && lookup(u).Some?)
    ensures forall u :: u in users ==>
              users[u] == if u in ids && lookup(u).Some? then FullName(lookup(u).value) else prev[u]
  {
    users := prev;
    var i := 0;
    while i < |ids|
      invariant 0 <= i <= |ids|
      invariant forall u :: u in users <==> u in prev || (u in ids[..i] && lookup(u).Some?)
      invariant forall u :: u in users ==>
                  users[u] == if u in ids[..i] && lookup(u).Some? then FullName(lookup(u).value) else prev[u]
    {
      assert ids[..i + 1] == ids[..i] + [ids[i]];
      var reply := lookup(ids[i]);
      if reply.Some? {
        users := users[ids[i] := FullName(reply.value)];
      }
      i := i + 1;
    }
    assert ids[..i] == ids;
  }

  class TransactionsView {
    const accountId: int
    var transactions: seq<Transaction>
    var categories: map<int, string>
    var totalIncome: int
    var totalExpense: int
    var users: map<int, string>

    constructor (accountId: int)
      ensures this.accountId == accountId
      ensures transactions == [] && categories == map[] && users == map[]
      ensures totalIncome == 0 && totalExpense == 0
    {
      this.accountId := accountId;
      transactions := [];
      categories := map[];
      totalIncome, totalExpense := 0, 0;
      users := map[];
    }

    /** `fetchTransactions`: with a token and a reply, keeps the whole
        reply, sets the two totals and merges the names of the distinct
        users into the table; otherwise nothing changes. */
    method FetchTransactions(token: Option<string>, reply: Option<seq<Transaction>>, lookup: int -> Option<UserName>)
      modifies this`transactions, this`totalIncome, this`totalExpense, this`users
      ensures !Truthy(token) || reply.None? ==>
                && transactions == old(transactions) && users == old(users)
                && totalIncome == old(totalIncome) && totalExpense == old(totalExpense)
      ensures Truthy(token) && reply.Some? ==>
                && transactions == reply.value
                && totalIncome == SumBy(OfKind(reply.value, Income), AmountOf)
                && totalExpense == SumBy(OfKind(reply.value, Expense), AmountOf)
      ensures Truthy(token) && reply.Some? ==>
                && (forall u :: u in users <==> u in old(users) || (HasUser(reply.value, u) && lookup(u).Some?))
                && (forall u :: u in users ==>
                      users[u] == if HasUser(reply.value, u) && lookup(u).Some? then FullName(lookup(u).value)
                                  else old(users)[u])
    {
      if !Truthy(token) || reply.None? {
        return;
      }
      var fetched := reply.value;
      transactions := fetched;
      totalIncome := SumBy(OfKind(fetched, Income), AmountOf);
      totalExpense := SumBy(OfKind(fetched, Expense), AmountOf);
      var userIds := Distinct(UserIdsOf(fetched));
      DistinctUserIds(fetched);
      users := MergeUsers(users, userIds, lookup);
    }

    /** `fetchCategories`: the id-to-name dictionary of the reply. */
    method FetchCategories(token: Option<string>, reply: Option<seq<Category>>)
      modifies this`categories
      ensures Truthy(token) && reply.Some? ==> categories == NameTable(reply.value)
      ensures !(Truthy(token) && reply.Some?) ==> categories == old(categories)
    {
      if Truthy(token) && reply.Some? {
        categories := BuildNameTable(reply.value);
      }
    }

    /** `groupTransactionsByDate` and `Object.keys` of its result: the
        date keys in order of first appearance, each with its transactions
        in list order. */
    method GroupTransactionsByDate(dateKey: Transaction -> string)
      returns (transactionDates: seq<string>, groups: map<string, seq<Transaction>>)
      ensures transactionDates == Distinct(KeysOf(transactions, dateKey))
      ensures forall k :: k in groups <==> k in transactionDates
      ensures forall k :: k in groups ==> groups[k] == WithKey(transactions, dateKey, k)
      ensures forall i, j :: 0 <= i < j < |transactionDates| ==>
                IndexOf(KeysOf(transactions, dateKey), transactionDates[i])
                < IndexOf(KeysOf(transactions, dateKey), transactionDates[j])
    {
      transactionDates, groups := GroupByKey(transactions, dateKey);
      DistinctFirstOccurrenceOrder(KeysOf(transactions, dateKey));
    }
  }
}
