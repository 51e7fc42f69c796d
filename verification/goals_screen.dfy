/** The goals screen of an account: the device-local goal status cache,
    the status and amount editors, deletion and the status colours. */
module GoalsScreen {
  import opened Wrappers
  import opened Storage
  import opened Lists

  /** `AccountGoalsSchema`, plus the `amount` field that saving a
      contribution attaches to a listed goal (it holds the typed text;
      its numeric parse is not modelled). */
  datatype Goal = Goal(
    id: int, name: string, targetAmount: int, currentAmount: int, description: string,
    dueDate: string, createdAt: Option<string>, status: string, userId: int, accountId: int,
    amount: Option<string>)

  /** The body of `POST /goals/contributions/`: the typed amount, the
      automatic-payment flag and the goal. */
  datatype ContributionRequest = ContributionRequest(amount: string, isActivePay: bool, goalId: int)

  const GoalStatusPrefix: string := "goal_status_"

  const Saving: string := "В процессе накопления"
  const Reached: string := "Достигнута"
  const Abandoned: string := "Отменена"

  const ChooseStatusText: string := "Выберите новый статус"

  /** `goal_status_<id>` */
  function StatusKey(id: int): string
  {
    EntityKey(GoalStatusPrefix, id)
  }

  /** The goal cache never touches the session's keys. */
  lemma StatusKeysAreNotTokenKeys(id: int)
    ensures StatusKey(id) != AccessTokenKey && StatusKey(id) != RefreshTokenKey
  {
    assert StatusKey(id)[0] == 'g';
  }

  /** `{...goal, status: stored || goal.status}` for every goal. */
  function WithStoredStatus(goals: seq<Goal>, items: map<string, string>): (r: seq<Goal>)
    ensures |r| == |goals|
    ensures forall i :: 0 <= i < |goals| ==>
              r[i] == goals[i].(status := if Truthy(Lookup(items, StatusKey(goals[i].id)))
                                          then items[StatusKey(goals[i].id)] else goals[i].status)
  {
    seq(|goals|, i requires 0 <= i < |goals| =>
      goals[i].(status := if Truthy(Lookup(items, StatusKey(goals[i].id)))
                          then items[StatusKey(goals[i].id)] else goals[i].status))
  }

  function HasId(id: int): Goal -> bool
  {
    (g: Goal) => g.id == id
  }

  function OtherThan(id: int): Goal -> bool
  {
    (g: Goal) => g.id != id
  }

  function SetStatusTo(status: string): Goal -> Goal
  {
    (g: Goal) => g.(status := status)
  }

  function SetAmountTo(amount: string): Goal -> Goal
  {
    (g: Goal) => g.(amount := Some(amount))
  }

  /** Caching a status and changing the matching goals in place gives the
      list a reload of the same server answer would give. */
  lemma ReloadAgreesWithLocalUpdate(server: seq<Goal>, items: map<string, string>, id: int, status: string)
    requires status != ""
    ensures WithStoredStatus(server, items[StatusKey(id) := status])
            == MapWhere(WithStoredStatus(server, items), HasId(id), SetStatusTo(status))
  {
    var lhs := WithStoredStatus(server, items[StatusKey(id) := status]);
    var rhs := MapWhere(WithStoredStatus(server, items), HasId(id), SetStatusTo(status));
    forall i | 0 <= i < |server| ensures lhs[i] == rhs[i] {
      if server[i].id != id {
        if StatusKey(server[i].id) == StatusKey(id) {
          EntityKeyInjective(GoalStatusPrefix, server[i].id, id);
        }
      }
    }
  }

  /** Saving an amount attaches it to the matching goals and leaves every
      goal's accumulated `currentAmount`, and everything about the other
      goals, as it was. */
  lemma SaveAmountKeepsCurrentAmount(goals: seq<Goal>, id: int, amount: string)
    ensures var r := MapWhere(goals, HasId(id), SetAmountTo(amount));
            && |r| == |goals|
            && (forall i :: 0 <= i < |goals| ==> r[i].currentAmount == goals[i].currentAmount)
            && (forall i :: 0 <= i < |goals| && goals[i].id == id ==> r[i] == goals[i].(amount := Some(amount)))
            && (forall i :: 0 <= i < |goals| && goals[i].id != id ==> r[i] == goals[i])
  {
  }

  /** `getGoalTextColor`. */
  function GoalTextColor(status: string): (r: string)
    ensures r == "green" <==> status == Reached
    ensures r == "gray" <==> status == Abandoned
    ensures r == "black" <==> status != Reached && status != Abandoned
  {
    if status == Reached then "green" else if status == Abandoned then "gray" else "black"
  }

  /** The three statuses the status modal offers are told apart by colour. */
  lemma OfferedStatusesHaveDistinctColours()
    ensures GoalTextColor(Saving) != GoalTextColor(Reached)
    ensures GoalTextColor(Saving) != GoalTextColor(Abandoned)
    ensures GoalTextColor(Reached) != GoalTextColor(Abandoned)
  {
  }

  class GoalsView {
    const store: KeyValueStore
    const accountId: int
    var goals: seq<Goal>
    var groupGoals: seq<Goal>
    var modalVisible: bool
    var selectedGoal: Option<Goal>
    var newAmount: string
    var statusModalVisible: bool
    var newStatus: string
    var errorMessage: Option<string>

    constructor (store: KeyValueStore, accountId: int)
      ensures this.store == store && this.accountId == accountId
      ensures goals == [] && groupGoals == [] && selectedGoal == None
      ensures newAmount == "" && newStatus == ""
      ensures !modalVisible && !statusModalVisible && errorMessage == None
    {
      this.store := store;
      this.accountId := accountId;
      goals, groupGoals := [], [];
      modalVisible := false;
      selectedGoal := None;
      newAmount := "";
      statusModalVisible := false;
      newStatus := "";
      errorMessage := None;
    }

    /** `fetchGoals`: the account's goals with each cached status laid over
        them; a failed request leaves the list as it was. */
    method FetchGoals(reply: Option<seq<Goal>>)
      modifies this`goals
      ensures reply.Some? ==> goals == WithStoredStatus(reply.value, store.items)
      ensures reply.None? ==> goals == old(goals)
    {
      if reply.Some? {
        goals := WithStoredStatus(reply.value, store.items);
      }
    }

    /** `handleEditGoal`: selects the goal and prefills the amount input
        with its accumulated amount written in decimal. */
    method HandleEditGoal(goal: Goal)
      modifies this`selectedGoal, this`newAmount, this`modalVisible
      ensures selectedGoal == Some(goal) && modalVisible
      ensures newAmount == IntToDecimal(goal.currentAmount)
    {
      selectedGoal := Some(goal);
      newAmount := IntToDecimal(goal.currentAmount);
      modalVisible := true;
    }

    /** `handleSaveAmount`: without a selected goal nothing is sent. Otherwise
        a contribution for the goal is posted, never as an automatic payment;
        once it succeeds the matching goals carry the typed amount and the
        editor closes. */
    method HandleSaveAmount(postOk: bool) returns (sent: Option<ContributionRequest>)
      modifies this`goals, this`modalVisible
      ensures selectedGoal.None? ==> sent == None && goals == old(goals) && modalVisible == old(modalVisible)
      ensures selectedGoal.Some? ==> sent == Some(ContributionRequest(newAmount, false, selectedGoal.value.id))
      ensures selectedGoal.Some? && postOk ==>
                goals == MapWhere(old(goals), HasId(selectedGoal.value.id), SetAmountTo(newAmount)) && !modalVisible
      ensures selectedGoal.Some? && !postOk ==> goals == old(goals) && modalVisible == old(modalVisible)
    {
      if selectedGoal.None? {
        return None;
      }
      sent := Some(ContributionRequest(newAmount, false, selectedGoal.value.id));
      if postOk {
        goals := MapWhere(goals, HasId(selectedGoal.value.id), SetAmountTo(newAmount));
        modalVisible := false;
      }
    }

    /** `handleDeleteGoal` once confirmed: a successful delete removes the id
        from the account's goals and from the group goals alike. */
    method HandleDeleteGoal(id: int, deleteOk: bool)
      modifies this`goals, this`groupGoals
      ensures deleteOk ==> goals == Filter(old(goals), OtherThan(id)) && groupGoals == Filter(old(groupGoals), OtherThan(id))
      ensures !deleteOk ==> goals == old(goals) && groupGoals == old(groupGoals)
    {
      if deleteOk {
        goals := Filter(goals, OtherThan(id));
        groupGoals := Filter(groupGoals, OtherThan(id));
      }
    }

    /** `updateGoalStatus`: without a selected goal or a chosen status only
        the error text is set; otherwise the status is cached under the
        goal's key and the goals with that id take it. A failed write
        changes nothing. */
    method UpdateGoalStatus(writeFails: bool)
      modifies this`goals, this`statusModalVisible, this`errorMessage, store
      ensures selectedGoal.None? || newStatus == "" ==>
                && errorMessage == Some(ChooseStatusText)
                && goals == old(goals) && store.items == old(store.items)
                && statusModalVisible == old(statusModalVisible)
      ensures selectedGoal.Some? && newStatus != "" && writeFails ==>
                && errorMessage == old(errorMessage)
                && goals == old(goals) && store.items == old(store.items)
                && statusModalVisible == old(statusModalVisible)
      ensures selectedGoal.Some? && newStatus != "" && !writeFails ==>
                && store.items == old(store.items)[StatusKey(selectedGoal.value.id) := newStatus]
                && goals == MapWhere(old(goals), HasId(selectedGoal.value.id), SetStatusTo(newStatus))
                && !statusModalVisible && errorMessage == None
    {
      if selectedGoal.None? || newStatus == "" {
        errorMessage := Some(ChooseStatusText);
        return;
      }
      if writeFails {
        return;
      }
      store.SetItem(StatusKey(selectedGoal.value.id), newStatus);
      goals := MapWhere(goals, HasId(selectedGoal.value.id), SetStatusTo(newStatus));
      statusModalVisible := false;
      errorMessage := None;
    }
  }

  /** Deleting removes every goal with the id and keeps every other one
      exactly as often as it was listed. */
  lemma DeleteRemovesExactlyThatId(goals: seq<Goal>, id: int, g: Goal)
    ensures g.id == id ==> g !in Filter(goals, OtherThan(id))
    ensures g.id != id ==> multiset(Filter(goals, OtherThan(id)))[g] == multiset(goals)[g]
  {
    FilterCounts(goals, OtherThan(id), g);
  }
}
