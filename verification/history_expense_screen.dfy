/** The contribution history of a goal: loading it with the contributors'
    names, the owner-only automatic-payment switch and its toggle, and the
    grouping of the list by day. */
module HistoryExpenseScreen {
  import opened Wrappers
  import opened Storage
  import opened Lists
  import opened Ledger

  /** A contribution as the screen holds it: the server's fields (their
      schema file is not part of this model; these are the fields the
      screen reads) and the contributor's name once it is known. */
  datatype Contribution = Contribution(
    id: int, amount: int, isActivePay: bool, userId: int, contributedAt: string, userName: Option<string>)

  const LoadErrorText: string := "Ошибка загрузки данных"

  /** Every contributor's `/users/<id>` request answers. */
  predicate AllFound(cs: seq<Contribution>, lookup: int -> Option<UserName>)
  {
    forall i :: 0 <= i < |cs| ==> lookup(cs[i].userId).Some?
  }

  /** `{...contribution, user_name: `${name} ${surname}`}` for every one. */
  function WithNames(cs: seq<Contribution>, lookup: int -> Option<UserName>): (r: seq<Contribution>)
    requires AllFound(cs, lookup)
    ensures |r| == |cs|
    ensures forall i :: 0 <= i < |cs| ==>
              r[i] == cs[i].(userName := Some(FullName(lookup(cs[i].userId).value)))
  {
    seq(|cs|, i requires 0 <= i < |cs| => cs[i].(userName := Some(FullName(lookup(cs[i].userId).value))))
  }

  /** The switch is shown only to the contributor: the signed-in user's id
      must be known and equal the contribution's `user_id`. */
  function CanToggle(currentUserId: Option<int>, c: Contribution): (r: bool)
    ensures currentUserId.None? ==> !r
    ensures r <==> currentUserId == Some(c.userId)
  {
    currentUserId.Some? && currentUserId.value == c.userId
  }

  function HasId(id: int): Contribution -> bool
  {
    (c: Contribution) => c.id == id
  }

  function SetActivePay(flag: bool): Contribution -> Contribution
  {
    (c: Contribution) => c.(isActivePay := flag)
  }

  /** The list after a successful `toggleActivePay(id)`: unchanged when no
      contribution has the id; otherwise every contribution with the id
      takes the negation of the first one's flag. */
  function Toggled(cs: seq<Contribution>, id: int): seq<Contribution>
  {
    var k := FirstWhere(cs, HasId(id));
    if k == |cs| then cs else MapWhere(cs, HasId(id), SetActivePay(!cs[k].isActivePay))
  }

  predicate UniqueIds(cs: seq<Contribution>)
  {
    forall i, j :: 0 <= i < j < |cs| ==> cs[i].id != cs[j].id
  }

  /** With ids unique, a toggle flips the flag of the one contribution with
      that id and leaves everything else in the list as it was. */
  lemma ToggleFlipsOnlyThatOne(cs: seq<Contribution>, id: int)
    requires UniqueIds(cs)
    ensures |Toggled(cs, id)| == |cs|
    ensures forall i :: 0 <= i < |cs| && cs[i].id != id ==> Toggled(cs, id)[i] == cs[i]
    ensures forall i :: 0 <= i < |cs| && cs[i].id == id ==>
              Toggled(cs, id)[i] == cs[i].(isActivePay := !cs[i].isActivePay)
  {
    var k := FirstWhere(cs, HasId(id));
    forall i | 0 <= i < |cs| && cs[i].id == id
      ensures Toggled(cs, id)[i] == cs[i].(isActivePay := !cs[i].isActivePay)
    {
      assert k <= i;
      assert cs[k].id == id;
    }
  }

  /** The first match of a predicate that a change does not affect is the
      same before and after the change. */
  lemma FirstWhereAfterMapWhere(cs: seq<Contribution>, id: int, flag: bool)
    ensures FirstWhere(MapWhere(cs, HasId(id), SetActivePay(flag)), HasId(id)) == FirstWhere(cs, HasId(id))
  {
    var after := MapWhere(cs, HasId(id), SetActivePay(flag));
    assert forall j :: 0 <= j < |cs| ==> after[j].id == cs[j].id;
  }

  /** Switching twice restores the list when ids are unique. */
  lemma {:induction false} ToggleTwiceRestores(cs: seq<Contribution>, id: int)
    requires UniqueIds(cs)
    ensures Toggled(Toggled(cs, id), id) == cs
  {
    var k := FirstWhere(cs, HasId(id));
    if k < |cs| {
      var f := cs[k].isActivePay;
      var once := MapWhere(cs, HasId(id), SetActivePay(!f));
      FirstWhereAfterMapWhere(cs, id, !f);
      assert once[k].isActivePay == !f;
      var twice := MapWhere(once, HasId(id), SetActivePay(f));
      forall i | 0 <= i < |cs| ensures twice[i] == cs[i] {
        if cs[i].id == id {
          assert k <= i;
          assert cs[k].id == id;
        }
      }
    }
  }

  class HistoryView {
    const goalId: int
    var contributions: seq<Contribution>
    var loading: bool
    var error: Option<string>
    var currentUserId: Option<int>

    constructor (goalId: int)
      ensures this.goalId == goalId
      ensures contributions == [] && loading && error == None && currentUserId == None
    {
      this.goalId := goalId;
      contributions := [];
      loading := true;
      error := None;
      currentUserId := None;
    }

    /** `fetchContributions`. Without a token nothing is requested. The
        token's `user_id` becomes the signed-in user's id before the list is
        requested (`decode` None: `jwtDecode` throws; Some(None): the claim
        is absent, so the id is `undefined` and matches no contribution). A
        token that does not decode, a failed list request or a failed user
        request sets the error text and keeps the list. Loading ends in
        every case. */
    method FetchContributions(
      token: Option<string>, decode: string -> Option<Option<int>>,
      reply: Option<seq<Contribution>>, lookup: int -> Option<UserName>)
      modifies this`contributions, this`loading, this`error, this`currentUserId
      ensures !loading
      ensures !Truthy(token) ==>
                contributions == old(contributions) && error == old(error) && currentUserId == old(currentUserId)
      ensures Truthy(token) && decode(token.value).None? ==>
                contributions == old(contributions) && error == Some(LoadErrorText) && currentUserId == old(currentUserId)
      ensures Truthy(token) && decode(token.value).Some? ==> currentUserId == decode(token.value).value
      ensures Truthy(token) && decode(token.value).Some? && reply.Some? && AllFound(reply.value, lookup) ==>
                contributions == WithNames(reply.value, lookup) && error == old(error)
      ensures Truthy(token) && decode(token.value).Some? && !(reply.Some? && AllFound(reply.value, lookup)) ==>
                contributions == old(contributions) && error == Some(LoadErrorText)
    {
      if !Truthy(token) {
        loading := false;
        return;
      }
      var claims := decode(token.value);
      if claims.None? {
        error := Some(LoadErrorText);
        loading := false;
        return;
      }
      currentUserId := claims.value;
      if reply.Some? && AllFound(reply.value, lookup) {
        contributions := WithNames(reply.value, lookup);
      } else {
        error := Some(LoadErrorText);
      }
      loading := false;
    }

    /** `toggleActivePay(id)`: nothing is sent for an id not in the list;
        otherwise the negation of the first match's flag is sent, and once
        the patch succeeds the list becomes `Toggled`; a failed patch keeps
        it. */
    method ToggleActivePay(id: int, patchOk: bool) returns (sent: Option<(int, bool)>)
      modifies this`contributions
      ensures var k := FirstWhere(old(contributions), HasId(id));
              sent == if k == |old(contributions)| then None else Some((id, !old(contributions)[k].isActivePay))
      ensures patchOk ==> contributions == Toggled(old(contributions), id)
      ensures !patchOk ==> contributions == old(contributions)
    {
      var k := FirstWhere(contributions, HasId(id));
      if k == |contributions| {
        return None;
      }
      var flag := !contributions[k].isActivePay;
      sent := Some((id, flag));
      if patchOk {
        contributions := MapWhere(contributions, HasId(id), SetActivePay(flag));
      }
    }

    /** `groupedData`: the contributions grouped by their day, days in
        order of first appearance. */
    method GroupByDay(dayOf: Contribution -> string) returns (days: seq<string>, groups: map<string, seq<Contribution>>)
      ensures days == Distinct(KeysOf(contributions, dayOf))
      ensures forall d :: d in groups <==> d in days
      ensures forall d :: d in groups ==> groups[d] == WithKey(contributions, dayOf, d)
    {
      days, groups := GroupByKey(contributions, dayOf);
    }
  }
}
