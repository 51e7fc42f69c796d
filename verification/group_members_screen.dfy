/** The members screen of a group account: the member list with a table
    of display names, the add-member form (gated by the e-mail pattern),
    the role change, and the rule deciding who may manage whom. Server
    replies are parameters. */
module GroupMembersScreen {
  import opened Wrappers
  import opened FormValidation
  import opened Ledger

  /** `MembersSchema`. */
  datatype Member = Member(id: int, userId: int, groupId: int, role: string)

  const AdminRole: string := "Администратор"
  const MemberRole: string := "Участник"

  // ------------------------------------------------------------ names table

  /** Every one of the first `|ms|` user lookups answered. */
  predicate AllAnswered(ms: seq<Member>, replies: seq<Option<UserName>>)
  {
    |ms| <= |replies| && forall i :: 0 <= i < |ms| ==> replies[i].Some?
  }

  /** The `names` dictionary after the loop, member by member: the `i`-th
      lookup's name under the `i`-th member's `user_id`. */
  function NamesOf(ms: seq<Member>, replies: seq<Option<UserName>>): map<int, string>
    requires AllAnswered(ms, replies)
  {
    if ms == [] then map[]
    else NamesOf(ms[..|ms| - 1], replies)[ms[|ms| - 1].userId := FullName(replies[|ms| - 1].value)]
  }

  predicate IsMemberUser(ms: seq<Member>, userId: int)
  {
    exists i :: 0 <= i < |ms| && ms[i].userId == userId
  }

  /** One entry per member `user_id`, and no other. */
  lemma {:induction false} NamesOfKeys(ms: seq<Member>, replies: seq<Option<UserName>>)
    requires AllAnswered(ms, replies)
    ensures forall u :: u in NamesOf(ms, replies) <==> IsMemberUser(ms, u)
  {
    if ms != [] {
      var p := ms[..|ms| - 1];
      NamesOfKeys(p, replies);
      forall u ensures IsMemberUser(ms, u) <==> IsMemberUser(p, u) || ms[|ms| - 1].userId == u {
        if IsMemberUser(ms, u) {
          var i :| 0 <= i < |ms| && ms[i].userId == u;
          if i < |p| { assert p[i].userId == u; }
        }
        if IsMemberUser(p, u) {
          var i :| 0 <= i < |p| && p[i].userId == u;
          assert ms[i].userId == u;
        }
      }
    }
  }

  /** A `user_id` listed twice gets the name of its last lookup. */
  lemma {:induction false} NamesOfLastWins(ms: seq<Member>, replies: seq<Option<UserName>>, i: nat)
    requires AllAnswered(ms, replies)
    requires i < |ms|
    requires forall j :: i < j < |ms| ==> ms[j].userId != ms[i].userId
    ensures ms[i].userId in NamesOf(ms, replies)
    ensures NamesOf(ms, replies)[ms[i].userId] == FullName(replies[i].value)
  {
    if i < |ms| - 1 {
      var p := ms[..|ms| - 1];
      NamesOfLastWins(p, replies, i);
    }
  }

  /** The `for … of` loop: one lookup per member in order; the first
      failed lookup throws out of the loop and no table is produced. */
  method CollectNames(ms: seq<Member>, replies: seq<Option<UserName>>) returns (names: Option<map<int, string>>)
    ensures names.Some? <==> AllAnswered(ms, replies)
    ensures names.Some? ==> names.value == NamesOf(ms, replies)
  {
    var table: map<int, string> := map[];
    var i := 0;
    while i < |ms|
      invariant 0 <= i <= |ms|
      invariant AllAnswered(ms[..i], replies)
      invariant table == NamesOf(ms[..i], replies)
    {
      if i >= |replies| || replies[i].None? {
        assert !AllAnswered(ms, replies);
        return None;
      }
      assert ms[..i + 1][..i] == ms[..i];
      table := table[ms[i].userId := FullName(replies[i].value)];
      i := i + 1;
    }
    assert ms[..i] == ms;
    names := Some(table);
  }

  // ------------------------------------------------------------ permissions

  /** Manage actions show for a member exactly when the viewer is an
      administrator and the member is not. */
  predicate CanManage(viewerRole: string, memberRole: string)
  {
    viewerRole == AdminRole && memberRole != AdminRole
  }

  /** The role the role modal offers for a member's current role. */
  function ToggleTarget(role: string): (r: Option<string>)
    ensures r.Some? <==> role == MemberRole || role == AdminRole
    ensures r.Some? ==> r.value != role && (r.value == MemberRole || r.value == AdminRole)
  {
    if role == MemberRole then Some(AdminRole)
    else if role == AdminRole then Some(MemberRole)
    else None
  }

  /** Toggling twice restores the role; administrators are never managed,
      and only administrators manage. */
  lemma RoleRules(role: string, viewerRole: string)
    ensures ToggleTarget(role).Some? ==> ToggleTarget(ToggleTarget(role).value) == Some(role)
    ensures !CanManage(viewerRole, AdminRole)
    ensures viewerRole != AdminRole ==> !CanManage(viewerRole, role)
  {
  }

  // ---------------------------------------------------------------- screen

  datatype RoleRequest = RoleRequest(userId: int, groupId: int, role: string)
  datatype AddRequest = AddRequest(groupId: int, email: string, role: string)

  /** `200` */
  const StatusOk: int := 200

  class MembersView {
    const groupId: int
    /** The viewer's role in the group. */
    const viewerRole: string
    var groupMembers: seq<Member>
    var userNames: map<int, string>
    var modalVisible: bool
    var roleModalVisible: bool
    var selectedUser: Option<Member>
    var email: string
    var emailError: string

    constructor (groupId: int, viewerRole: string)
      ensures this.groupId == groupId && this.viewerRole == viewerRole
      ensures groupMembers == [] && userNames == map[] && selectedUser == None
      ensures !modalVisible && !roleModalVisible && email == "" && emailError == ""
    {
      this.groupId := groupId;
      this.viewerRole := viewerRole;
      groupMembers := [];
      userNames := map[];
      modalVisible, roleModalVisible := false, false;
      selectedUser := None;
      email, emailError := "", "";
    }

    /** `validateEmail`: the same rule as the sign-in form. */
    method ValidateEmail() returns (ok: bool)
      modifies this`emailError
      ensures ok <==> MatchesEmailPattern(email)
      ensures emailError == if ok then "" else EmailErrorText
    {
      EmailScanMatchesPattern(email);
      ok := IsEmail(email);
      emailError := if ok then "" else EmailErrorText;
    }

    /** `fetchGroupMembers`. The list is replaced as soon as it arrives; the
        names table only when every lookup answered. A failed list request
        changes nothing. */
    method FetchGroupMembers(listReply: Option<seq<Member>>, replies: seq<Option<UserName>>)
      modifies this`groupMembers, this`userNames
      ensures listReply.None? ==> groupMembers == old(groupMembers) && userNames == old(userNames)
      ensures listReply.Some? ==> groupMembers == listReply.value
      ensures listReply.Some? && AllAnswered(listReply.value, replies) ==>
                userNames == NamesOf(listReply.value, replies)
      ensures listReply.Some? && !AllAnswered(listReply.value, replies) ==> userNames == old(userNames)
    {
      if listReply.None? {
        return;
      }
      groupMembers := listReply.value;
      var names := CollectNames(listReply.value, replies);
      if names.Some? {
        userNames := names.value;
      }
    }

    /** `changeUserRole(newRole)`: without a selected member nothing is sent;
        a successful patch closes the role modal and starts a reload of the
        member list (`reload`). */
    method ChangeUserRole(newRole: string, patchOk: bool) returns (sent: Option<RoleRequest>, reload: bool)
      modifies this`roleModalVisible
      ensures reload <==> selectedUser.Some? && patchOk
      ensures selectedUser.None? ==> sent == None && roleModalVisible == old(roleModalVisible)
      ensures selectedUser.Some? ==> sent == Some(RoleRequest(selectedUser.value.userId, groupId, newRole))
      ensures selectedUser.Some? && patchOk ==> !roleModalVisible
      ensures selectedUser.Some? && !patchOk ==> roleModalVisible == old(roleModalVisible)
    {
      if selectedUser.None? {
        return None, false;
      }
      sent := Some(RoleRequest(selectedUser.value.userId, groupId, newRole));
      reload := patchOk;
      if patchOk {
        roleModalVisible := false;
      }
    }

    /** `addNewMember`: nothing is sent for an address the pattern rejects;
        a new member always gets the ordinary role; only a 200 reply
        closes the modal and starts a reload of the member list (`status`
        None: the request failed). */
    method AddNewMember(status: Option<int>) returns (sent: Option<AddRequest>, reload: bool)
      modifies this`emailError, this`modalVisible
      ensures reload <==> sent.Some? && status == Some(StatusOk)
      ensures sent.Some? <==> MatchesEmailPattern(email)
      ensures sent.Some? ==> sent.value == AddRequest(groupId, email, MemberRole)
      ensures sent.Some? && status == Some(StatusOk) ==> !modalVisible
      ensures !(sent.Some? && status == Some(StatusOk)) ==> modalVisible == old(modalVisible)
      ensures emailError == if MatchesEmailPattern(email) then "" else EmailErrorText
    {
      var valid := ValidateEmail();
      if !valid {
        return None, false;
      }
      sent := Some(AddRequest(groupId, email, MemberRole));
      reload := status == Some(StatusOk);
      if status == Some(StatusOk) {
        modalVisible := false;
      }
    }
  }
}
