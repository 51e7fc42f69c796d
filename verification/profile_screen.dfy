/** The debts part of the profile screen: the device-local status cache
    that overrides the server's status, the status and amount editors,
    deletion, and the status colours. */
module ProfileScreen {
  import opened Wrappers
  import opened Storage
  import opened Lists

  /** `DebtsSchema`. */
  datatype Debt = Debt(
    id: int, name: string, amount: int, description: string, dueDate: string, status: string, userId: int)

  const DebtStatusPrefix: string := "debt_status_"

  const Pending: string := "Ожидает возврата"
  const Paid: string := "Выплачено"
  const Cancelled: string := "Отменено"

  const ChooseStatusText: string := "Выберите новый статус"
  const EnterAmountText: string := "Введите сумму"

  /** `debt_status_<id>` */
  function StatusKey(id: int): string
  {
    EntityKey(DebtStatusPrefix, id)
  }

  /** The status cache never touches the session's keys. */
  lemma StatusKeysAreNotTokenKeys(id: int)
    ensures StatusKey(id) != AccessTokenKey && StatusKey(id) != RefreshTokenKey
  {
    assert StatusKey(id)[0] == 'd';
  }

  /** `{...debt, status: stored || debt.status}` for every debt. */
  function WithStoredStatus(debts: seq<Debt>, items: map<string, string>): (r: seq<Debt>)
    ensures |r| == |debts|
    ensures forall i :: 0 <= i < |debts| ==>
              r[i] == debts[i].(status := if Truthy(Lookup(items, StatusKey(debts[i].id)))
                                          then items[StatusKey(debts[i].id)] else debts[i].status)
  {
    seq(|debts|, i requires 0 <= i < |debts| =>
      debts[i].(status := if Truthy(Lookup(items, StatusKey(debts[i].id)))
                          then items[StatusKey(debts[i].id)] else debts[i].status))
  }

  function HasId(id: int): Debt -> bool
  {
    (d: Debt) => d.id == id
  }

  function OtherThan(id: int): Debt -> bool
  {
    (d: Debt) => d.id != id
  }

  function SetStatusTo(status: string): Debt -> Debt
  {
    (d: Debt) => d.(status := status)
  }

  /** The local update of `updateDebtStatus` shows what a reload of the
      same server list would show once the status is cached: writing the
      key and changing the matching debts commute with the overlay. */
  lemma ReloadAgreesWithLocalUpdate(server: seq<Debt>, items: map<string, string>, id: int, status: string)
    requires status != ""
    ensures WithStoredStatus(server, items[StatusKey(id) := status])
            == MapWhere(WithStoredStatus(server, items), HasId(id), SetStatusTo(status))
  {
    var lhs := WithStoredStatus(server, items[StatusKey(id) := status]);
    var rhs := MapWhere(WithStoredStatus(server, items), HasId(id), SetStatusTo(status));
    forall i | 0 <= i < |server| ensures lhs[i] == rhs[i] {
      if server[i].id != id {
        if StatusKey(server[i].id) == StatusKey(id) {
          EntityKeyInjective(DebtStatusPrefix, server[i].id, id);
        }
      }
    }
  }

  /** `getDebtTextColor`. */
  function DebtTextColor(status: string): (r: string)
    ensures r == "green" <==> status == Paid
    ensures r == "gray" <==> status == Cancelled
    ensures r == "#FF6347" <==> status != Paid && status != Cancelled
  {
    if status == Paid then "green" else if status == Cancelled then "gray" else "#FF6347"
  }

  /** The three statuses the status modal offers are told apart by colour. */
  lemma OfferedStatusesHaveDistinctColours()
    ensures DebtTextColor(Pending) != DebtTextColor(Paid)
    ensures DebtTextColor(Pending) != DebtTextColor(Cancelled)
    ensures DebtTextColor(Paid) != DebtTextColor(Cancelled)
  {
  }

  class ProfileView {
    const store: KeyValueStore
    var debts: seq<Debt>
    var selectedDebt: Option<Debt>
    var newStatus: string
    var newAmount: string
    var modalVisible: bool
    var statusModalVisible: bool
    var errorMessage: Option<string>

    constructor (store: KeyValueStore)
      ensures this.store == store
      ensures debts == [] && selectedDebt == None && newStatus == "" && newAmount == ""
      ensures !modalVisible && !statusModalVisible && errorMessage == None
    {
      this.store := store;
      debts := [];
      selectedDebt := None;
      newStatus, newAmount := "", "";
      modalVisible, statusModalVisible := false, false;
      errorMessage := None;
    }

    /** `fetchUserDebts`: the server list with each cached status laid over it. */
    method FetchUserDebts(token: Option<string>, reply: Option<seq<Debt>>)
      modifies this`debts
      ensures Truthy(token) && reply.Some? ==> debts == WithStoredStatus(reply.value, store.items)
      ensures !(Truthy(token) && reply.Some?) ==> debts == old(debts)
    {
      if Truthy(token) && reply.Some? {
        debts := WithStoredStatus(reply.value, store.items);
      }
    }

    /** `updateDebtStatus`. Without a selected debt or a chosen status only
        the error text is set. Otherwise the status is cached under the
        debt's key and the debts with that id take it; nothing else in the
        list changes. A failed write changes nothing. */
    method UpdateDebtStatus(writeFails: bool)
      modifies this`debts, this`statusModalVisible, this`errorMessage, store
      ensures selectedDebt.None? || newStatus == "" ==>
                && errorMessage == Some(ChooseStatusText)
                && debts == old(debts) && store.items == old(store.items)
                && statusModalVisible == old(statusModalVisible)
      ensures selectedDebt.Some? && newStatus != "" && writeFails ==>
                && errorMessage == old(errorMessage)
                && debts == old(debts) && store.items == old(store.items)
                && statusModalVisible == old(statusModalVisible)
      ensures selectedDebt.Some? && newStatus != "" && !writeFails ==>
                && store.items == old(store.items)[StatusKey(selectedDebt.value.id) := newStatus]
                && debts == MapWhere(old(debts), HasId(selectedDebt.value.id), SetStatusTo(newStatus))
                && !statusModalVisible && errorMessage == None
    {
      if selectedDebt.None? || newStatus == "" {
        errorMessage := Some(ChooseStatusText);
        return;
      }
      if writeFails {
        return;
      }
      store.SetItem(StatusKey(selectedDebt.value.id), newStatus);
      debts := MapWhere(debts, HasId(selectedDebt.value.id), SetStatusTo(newStatus));
      statusModalVisible := false;
      errorMessage := None;
    }

    /** `updateDebt`: an empty amount or no selection sets the error text
        and sends nothing; without a token nothing happens; a successful
        patch starts a reload of the debts (`reload`), closes the editor and
        clears the typed amount. The request carries the typed text (its
        numeric parse is not modelled). */
    method UpdateDebt(token: Option<string>, patchOk: bool) returns (sent: Option<(int, string)>, reload: bool)
      modifies this`errorMessage, this`modalVisible, this`newAmount
      ensures reload <==> sent.Some? && patchOk
      ensures selectedDebt.None? || old(newAmount) == "" ==>
                && sent == None && errorMessage == Some(EnterAmountText)
                && modalVisible == old(modalVisible) && newAmount == old(newAmount)
      ensures selectedDebt.Some? && old(newAmount) != "" && !Truthy(token) ==>
                && sent == None && errorMessage == old(errorMessage)
                && modalVisible == old(modalVisible) && newAmount == old(newAmount)
      ensures selectedDebt.Some? && old(newAmount) != "" && Truthy(token) ==>
                sent == Some((selectedDebt.value.id, old(newAmount)))
      ensures selectedDebt.Some? && old(newAmount) != "" && Truthy(token) && patchOk ==>
                !modalVisible && newAmount == "" && errorMessage == None
      ensures selectedDebt.Some? && old(newAmount) != "" && Truthy(token) && !patchOk ==>
                && errorMessage == old(errorMessage)
                && modalVisible == old(modalVisible) && newAmount == old(newAmount)
    {
      if selectedDebt.None? || newAmount == "" {
        errorMessage := Some(EnterAmountText);
        return None, false;
      }
      if !Truthy(token) {
        return None, false;
      }
      sent := Some((selectedDebt.value.id, newAmount));
      reload := patchOk;
      if patchOk {
        modalVisible := false;
        newAmount := "";
        errorMessage := None;
      }
    }

    /** `deleteDebt(id)` once confirmed: after a successful delete a reload
        of the debts starts (`reload`) and exactly the debts with that id
        leave the list, the others keep their order. */
    method DeleteDebt(id: int, token: Option<string>, deleteOk: bool) returns (reload: bool)
      modifies this`debts
      ensures reload <==> Truthy(token) && deleteOk
      ensures Truthy(token) && deleteOk ==> debts == Filter(old(debts), OtherThan(id))
      ensures !(Truthy(token) && deleteOk) ==> debts == old(debts)
    {
      reload := Truthy(token) && deleteOk;
      if reload {
        debts := Filter(debts, OtherThan(id));
      }
    }
  }

  /** Deleting removes every debt with the id and keeps every other one
      exactly as often as it was listed. */
  lemma DeleteRemovesExactlyThatId(debts: seq<Debt>, id: int, d: Debt)
    ensures d.id == id ==> d !in Filter(debts, OtherThan(id))
    ensures d.id != id ==> multiset(Filter(debts, OtherThan(id)))[d] == multiset(debts)[d]
  {
    FilterCounts(debts, OtherThan(id), d);
  }
}
