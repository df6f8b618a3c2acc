/** The family groups page (src/app/familyGroup/page.tsx): the expanded-group set, the
    per-group member cache and its merge rule, group creation and member invitation, and
    the member remove and role actions. */
module FamilyGroupPage {
  import opened Wrappers
  import opened Text
  import opened ApiErrors

  datatype FamilyMember = FamilyMember(id: int, userId: int, familyGroupId: int, role: string, userName: string)
  datatype Group = Group(id: int, name: string, creatorId: int)

  /** The cached members of one group. */
  datatype MemberEntry = MemberEntry(loading: bool, members: seq<FamilyMember>, error: Option<string>)

  /** `Partial<GroupMembersState[number]>`: a field is `None` when the patch omits it. */
  datatype Patch = Patch(loading: Option<bool>, members: Option<seq<FamilyMember>>, error: Option<Option<string>>)

  /** `updateGroupMembersState(groupId, patch)`: the entry of `groupId` becomes its prior
      fields (or `false`, `[]`, `null` when there is none) overridden by the patch. */
  function Merge(prev: map<int, MemberEntry>, groupId: int, patch: Patch): (r: map<int, MemberEntry>)
    ensures r.Keys == prev.Keys + {groupId}
    ensures forall g :: g in prev && g != groupId ==> r[g] == prev[g]
    ensures patch.loading.Some? ==> r[groupId].loading == patch.loading.value
    ensures patch.members.Some? ==> r[groupId].members == patch.members.value
    ensures patch.error.Some? ==> r[groupId].error == patch.error.value
    ensures patch.loading.None? ==> r[groupId].loading == (groupId in prev && prev[groupId].loading)
    ensures patch.members.None? ==> r[groupId].members == (if groupId in prev then prev[groupId].members else [])
    ensures patch.error.None? ==> r[groupId].error == (if groupId in prev then prev[groupId].error else None)
  {
    var base := if groupId in prev then prev[groupId] else MemberEntry(false, [], None);
    prev[groupId := MemberEntry(patch.loading.GetOr(base.loading), patch.members.GetOr(base.members),
                                patch.error.GetOr(base.error))]
  }

  /** The cache after `fetchGroupMembers(groupId)`, where `fetched` is how `getFamilyMembers`
      settles: the entry is first marked loading with no error, then gets the members or the
      failure message and stops loading. */
  function FetchedMembers(prev: map<int, MemberEntry>, groupId: int, fetched: Call<seq<FamilyMember>>): (r: map<int, MemberEntry>)
    ensures r.Keys == prev.Keys + {groupId}
    ensures forall g :: g in prev && g != groupId ==> r[g] == prev[g]
    ensures fetched.Resolved? ==> r[groupId] == MemberEntry(false, fetched.value, None)
    ensures fetched.Rejected? ==>
              r[groupId] == MemberEntry(false, if groupId in prev then prev[groupId].members else [],
                                        Some(MessageFieldOr(fetched.error, "Failed to load members")))
  {
    var started := Merge(prev, groupId, Patch(Some(true), None, Some(None)));
    if fetched.Resolved? then Merge(started, groupId, Patch(Some(false), Some(fetched.value), None))
    else Merge(started, groupId, Patch(Some(false), None, Some(Some(MessageFieldOr(fetched.error, "Failed to load members")))))
  }

  /** Applying the same patch twice is applying it once. */
  lemma MergeIdempotent(prev: map<int, MemberEntry>, groupId: int, patch: Patch)
    ensures Merge(Merge(prev, groupId, patch), groupId, patch) == Merge(prev, groupId, patch)
  {
  }

  /** A patch that sets every field replaces the entry regardless of what was cached. */
  lemma MergeFullPatch(prev: map<int, MemberEntry>, groupId: int, e: MemberEntry)
    ensures Merge(prev, groupId, Patch(Some(e.loading), Some(e.members), Some(e.error)))[groupId] == e
  {
  }

  /** `toggleExpandGroup(groupId)` on the set: whether the group becomes expanded, and
      whether its members are fetched (only on expanding a group with no cache entry). */
  function Toggle(expanded: set<int>, cached: set<int>, groupId: int): (r: (set<int>, bool))
    ensures groupId in r.0 <==> groupId !in expanded
    ensures forall g :: g != groupId ==> (g in r.0 <==> g in expanded)
    ensures r.1 <==> groupId !in expanded && groupId !in cached
  {
    if groupId in expanded then (expanded - {groupId}, false)
    else (expanded + {groupId}, groupId !in cached)
  }

  /** Toggling twice gives the set back. */
  lemma ToggleTwice(expanded: set<int>, cached: set<int>, groupId: int)
    ensures Toggle(Toggle(expanded, cached, groupId).0, cached, groupId).0 == expanded
  {
  }

  /** The answer of the `/users/by-email/...` lookup: `resp.ok` and the body's id. */
  datatype LookupResponse = LookupResponse(ok: bool, id: int)

  /** `resolveUserByEmail(email)`: a non-ok answer throws "User not found for given email". */
  function ResolveUserByEmail(response: Call<LookupResponse>): (r: Call<int>)
    ensures response.Rejected? ==> r == Rejected(response.error)
    ensures response.Resolved? && !response.value.ok ==> r == Rejected(ThrownError("User not found for given email"))
    ensures response.Resolved? && response.value.ok ==> r == Resolved(response.value.id)
  {
    match response
    case Rejected(e) => Rejected(e)
    case Resolved(resp) => if resp.ok then Resolved(resp.id) else Rejected(ThrownError("User not found for given email"))
  }

  /** One `addFamilyMember(groupId, { user_id, role })` call. */
  datatype AddMemberRequest = AddMemberRequest(groupId: int, userId: int, role: string)

  /** The page state. */
  class FamilyGroupPage {
    var familyGroups: seq<Group>
    var loadingGroups: bool
    var groupsError: Option<string>
    var expandedGroups: set<int>
    var groupMembers: map<int, MemberEntry>
    var showCreateGroupForm: bool
    var newGroupName: string
    var creatingGroup: bool
    var createGroupError: Option<string>
    var inviteEmailByGroup: map<int, string>
    var inviteRoleByGroup: map<int, string>
    var inviteErrorByGroup: map<int, Option<string>>
    var invitingGroupIds: set<int>
    var memberActionLoading: map<int, bool>

    constructor ()
      ensures familyGroups == [] && !loadingGroups && groupsError.None? && expandedGroups == {} && groupMembers == map[]
      ensures !showCreateGroupForm && newGroupName == "" && !creatingGroup && createGroupError.None?
      ensures inviteEmailByGroup == map[] && inviteRoleByGroup == map[] && inviteErrorByGroup == map[]
      ensures invitingGroupIds == {} && memberActionLoading == map[]
    {
      familyGroups, loadingGroups, groupsError := [], false, None;
      expandedGroups, groupMembers := {}, map[];
      showCreateGroupForm, newGroupName, creatingGroup, createGroupError := false, "", false, None;
      inviteEmailByGroup, inviteRoleByGroup, inviteErrorByGroup := map[], map[], map[];
      invitingGroupIds, memberActionLoading := {}, map[];
    }

    /** `fetchGroups()` for the signed-in user's id; a missing or zero id does nothing. */
    method FetchGroups(userId: Option<int>, fetched: Call<seq<Group>>) returns (called: bool)
      modifies this`familyGroups, this`loadingGroups, this`groupsError
      ensures called <==> userId.Some? && userId.value != 0
      ensures !called ==> familyGroups == old(familyGroups) && loadingGroups == old(loadingGroups) && groupsError == old(groupsError)
      ensures called ==> !loadingGroups
      ensures called && fetched.Resolved? ==> familyGroups == fetched.value && groupsError.None?
      ensures called && fetched.Rejected? ==>
                familyGroups == old(familyGroups) && groupsError == Some(MessageFieldOr(fetched.error, "Failed to load family groups."))
    {
      if userId.None? || userId.value == 0 {
        return false;
      }
      called := true;
      loadingGroups := true;
      groupsError := None;
      if fetched.Resolved? {
        familyGroups := fetched.value;
      } else {
        groupsError := Some(MessageFieldOr(fetched.error, "Failed to load family groups."));
      }
      loadingGroups := false;
    }

    /** `fetchGroupMembers(groupId)`, where `fetched` is how `getFamilyMembers` settles. */
    method FetchGroupMembers(groupId: int, fetched: Call<seq<FamilyMember>>)
      modifies this`groupMembers
      ensures groupMembers.Keys == old(groupMembers.Keys) + {groupId}
      ensures forall g :: g in old(groupMembers) && g != groupId ==> groupMembers[g] == old(groupMembers[g])
      ensures !groupMembers[groupId].loading
      ensures fetched.Resolved? ==> groupMembers[groupId].members == fetched.value && groupMembers[groupId].error.None?
      ensures fetched.Rejected? ==>
                && groupMembers[groupId].error == Some(MessageFieldOr(fetched.error, "Failed to load members"))
                && groupMembers[groupId].members == (if groupId in old(groupMembers) then old(groupMembers[groupId].members) else [])
      ensures groupMembers == FetchedMembers(old(groupMembers), groupId, fetched)
    {
      groupMembers := Merge(groupMembers, groupId, Patch(Some(true), None, Some(None)));
      if fetched.Resolved? {
        groupMembers := Merge(groupMembers, groupId, Patch(Some(false), Some(fetched.value), None));
      } else {
        groupMembers := Merge(groupMembers, groupId, Patch(Some(false), None, Some(Some(MessageFieldOr(fetched.error, "Failed to load members")))));
      }
    }

    /** `toggleExpandGroup(groupId)`; `fetched` is how the member fetch settles, if one
        is started. Returns whether it is started. */
    method ToggleExpandGroup(groupId: int, fetched: Call<seq<FamilyMember>>) returns (fetching: bool)
      modifies this`expandedGroups, this`groupMembers
      ensures expandedGroups == Toggle(old(expandedGroups), old(groupMembers.Keys), groupId).0
      ensures fetching == Toggle(old(expandedGroups), old(groupMembers.Keys), groupId).1
      ensures !fetching ==> groupMembers == old(groupMembers)
      ensures fetching ==> groupId in groupMembers && !groupMembers[groupId].loading
      ensures fetching ==> groupMembers == FetchedMembers(old(groupMembers), groupId, fetched)
    {
      var t := Toggle(expandedGroups, groupMembers.Keys, groupId);
      expandedGroups := t.0;
      fetching := t.1;
      if fetching {
        FetchGroupMembers(groupId, fetched);
      }
    }

    /** `handleCreateGroup`: a blank name is refused; otherwise the trimmed name is sent
        and the created group goes first in the list. Returns the name sent, if any. */
    method HandleCreateGroup(created: Call<Group>) returns (sentName: Option<string>)
      modifies this`familyGroups, this`newGroupName, this`showCreateGroupForm, this`creatingGroup, this`createGroupError
      ensures Trim(old(newGroupName)) == "" ==> (sentName.None? && createGroupError == Some("Group name is required")
                && familyGroups == old(familyGroups) && newGroupName == old(newGroupName)
                && showCreateGroupForm == old(showCreateGroupForm) && creatingGroup == old(creatingGroup))
      ensures Trim(old(newGroupName)) != "" ==> sentName == Some(Trim(old(newGroupName))) && !creatingGroup
      ensures Trim(old(newGroupName)) != "" && created.Resolved? ==>
                familyGroups == [created.value] + old(familyGroups) && newGroupName == "" && !showCreateGroupForm
                && createGroupError.None?
      ensures Trim(old(newGroupName)) != "" && created.Rejected? ==>
                familyGroups == old(familyGroups) && newGroupName == old(newGroupName)
                && createGroupError == Some(MessageFieldOr(created.error, "Failed to create group"))
    {
      var name := Trim(newGroupName);
      if name == "" {
        createGroupError := Some("Group name is required");
        return None;
      }
      creatingGroup := true;
      createGroupError := None;
      sentName := Some(name);
      if created.Resolved? {
        familyGroups := [created.value] + familyGroups;
        newGroupName := "";
        showCreateGroupForm := false;
      } else {
        createGroupError := Some(MessageFieldOr(created.error, "Failed to create group"));
      }
      creatingGroup := false;
    }

    /** `inviteEmailByGroup[groupId]?.trim()`, with `""` for a missing entry. */
    function InviteEmail(groupId: int): (r: string)
      reads this
      ensures NoWhitespaceEnds(r)
      ensures groupId !in inviteEmailByGroup ==> r == ""
    {
      if groupId in inviteEmailByGroup then Trim(inviteEmailByGroup[groupId]) else ""
    }

    /** `inviteRoleByGroup[groupId] || "member"`. */
    function InviteRole(groupId: int): (r: string)
      reads this
      ensures r != ""
      ensures groupId in inviteRoleByGroup && inviteRoleByGroup[groupId] != "" ==> r == inviteRoleByGroup[groupId]
      ensures !(groupId in inviteRoleByGroup && inviteRoleByGroup[groupId] != "") ==> r == "member"
    {
      OrElse(if groupId in inviteRoleByGroup then inviteRoleByGroup[groupId] else "", "member")
    }

    /** The part of `handleInviteMember` after the lookup succeeded: add `userId` with
        `role`, then reload the group's members and reset its invite form. */
    method AddResolvedMember(groupId: int, added: Call<()>, refetched: Call<seq<FamilyMember>>)
      modifies this`inviteEmailByGroup, this`inviteRoleByGroup, this`inviteErrorByGroup, this`groupMembers
      ensures added.Rejected? ==>
                && inviteErrorByGroup == old(inviteErrorByGroup)[groupId := Some(MessageFieldOr(added.error, "Failed to invite member"))]
                && inviteEmailByGroup == old(inviteEmailByGroup) && inviteRoleByGroup == old(inviteRoleByGroup)
                && groupMembers == old(groupMembers)
      ensures added.Resolved? ==>
                && inviteErrorByGroup == old(inviteErrorByGroup)
                && inviteEmailByGroup == old(inviteEmailByGroup)[groupId := ""]
                && inviteRoleByGroup == old(inviteRoleByGroup)[groupId := "member"]
                && groupMembers == FetchedMembers(old(groupMembers), groupId, refetched)
    {
      if added.Rejected? {
        inviteErrorByGroup := inviteErrorByGroup[groupId := Some(MessageFieldOr(added.error, "Failed to invite member"))];
      } else {
        FetchGroupMembers(groupId, refetched);
        inviteEmailByGroup := inviteEmailByGroup[groupId := ""];
        inviteRoleByGroup := inviteRoleByGroup[groupId := "member"];
      }
    }

    /** The part of `handleInviteMember` after the email check: mark the group as inviting,
        clear its error, resolve the email and add the member with `role`; the group leaves
        the inviting set at the end whatever the outcome. */
    method InviteResolved(groupId: int, role: string, lookup: Call<LookupResponse>, added: Call<()>,
                          refetched: Call<seq<FamilyMember>>) returns (sent: Option<AddMemberRequest>)
      modifies this`inviteEmailByGroup, this`inviteRoleByGroup, this`inviteErrorByGroup, this`invitingGroupIds, this`groupMembers
      ensures invitingGroupIds == old(invitingGroupIds) - {groupId}
      ensures ResolveUserByEmail(lookup).Rejected? ==> (sent.None?
                && inviteErrorByGroup == old(inviteErrorByGroup)[groupId := Some(MessageFieldOr(ResolveUserByEmail(lookup).error, "Failed to invite member"))]
                && inviteEmailByGroup == old(inviteEmailByGroup) && inviteRoleByGroup == old(inviteRoleByGroup)
                && groupMembers == old(groupMembers))
      ensures ResolveUserByEmail(lookup).Resolved? ==> sent == Some(AddMemberRequest(groupId, ResolveUserByEmail(lookup).value, role))
      ensures sent.Some? && added.Rejected? ==>
                && inviteErrorByGroup == old(inviteErrorByGroup)[groupId := Some(MessageFieldOr(added.error, "Failed to invite member"))]
                && inviteEmailByGroup == old(inviteEmailByGroup) && inviteRoleByGroup == old(inviteRoleByGroup)
                && groupMembers == old(groupMembers)
      ensures sent.Some? && added.Resolved? ==>
                && inviteErrorByGroup == old(inviteErrorByGroup)[groupId := None]
                && inviteEmailByGroup == old(inviteEmailByGroup)[groupId := ""]
                && inviteRoleByGroup == old(inviteRoleByGroup)[groupId := "member"]
                && groupMembers == FetchedMembers(old(groupMembers), groupId, refetched)
    {
      invitingGroupIds := invitingGroupIds + {groupId};
      inviteErrorByGroup := inviteErrorByGroup[groupId := None];
      sent := None;
      var invited := ResolveUserByEmail(lookup);
      if invited.Rejected? {
        inviteErrorByGroup := inviteErrorByGroup[groupId := Some(MessageFieldOr(invited.error, "Failed to invite member"))];
      } else {
        sent := Some(AddMemberRequest(groupId, invited.value, role));
        AddResolvedMember(groupId, added, refetched);
      }
      invitingGroupIds := invitingGroupIds - {groupId};
    }

    /** `handleInviteMember(groupId)`: `lookup` is the answer of the email lookup, `added`
        how `addFamilyMember` settles and `refetched` how the member reload settles.
        Returns the email looked up and the member request sent, if any. */
    method HandleInviteMember(groupId: int, lookup: Call<LookupResponse>, added: Call<()>, refetched: Call<seq<FamilyMember>>)
      returns (lookedUp: Option<string>, sent: Option<AddMemberRequest>)
      modifies this`inviteEmailByGroup, this`inviteRoleByGroup, this`inviteErrorByGroup, this`invitingGroupIds, this`groupMembers
      ensures lookedUp == (if old(InviteEmail(groupId)) == "" then None else Some(old(InviteEmail(groupId))))
      ensures lookedUp.None? ==> (sent.None?
                && inviteErrorByGroup == old(inviteErrorByGroup)[groupId := Some("Email is required")]
                && invitingGroupIds == old(invitingGroupIds) && inviteEmailByGroup == old(inviteEmailByGroup)
                && inviteRoleByGroup == old(inviteRoleByGroup) && groupMembers == old(groupMembers))
      ensures lookedUp.Some? ==> invitingGroupIds == old(invitingGroupIds) - {groupId}
      ensures lookedUp.Some? && ResolveUserByEmail(lookup).Rejected? ==> (sent.None?
                && inviteErrorByGroup == old(inviteErrorByGroup)[groupId := Some(MessageFieldOr(ResolveUserByEmail(lookup).error, "Failed to invite member"))]
                && inviteEmailByGroup == old(inviteEmailByGroup) && inviteRoleByGroup == old(inviteRoleByGroup)
                && groupMembers == old(groupMembers))
      ensures lookedUp.Some? && ResolveUserByEmail(lookup).Resolved? ==>
                sent == Some(AddMemberRequest(groupId, ResolveUserByEmail(lookup).value, old(InviteRole(groupId))))
      ensures sent.Some? && added.Rejected? ==>
                && inviteErrorByGroup == old(inviteErrorByGroup)[groupId := Some(MessageFieldOr(added.error, "Failed to invite member"))]
                && inviteEmailByGroup == old(inviteEmailByGroup) && inviteRoleByGroup == old(inviteRoleByGroup)
                && groupMembers == old(groupMembers)
      ensures sent.Some? && added.Resolved? ==>
                && inviteErrorByGroup == old(inviteErrorByGroup)[groupId := None]
                && inviteEmailByGroup == old(inviteEmailByGroup)[groupId := ""]
                && inviteRoleByGroup == old(inviteRoleByGroup)[groupId := "member"]
                && groupMembers == FetchedMembers(old(groupMembers), groupId, refetched)
    {
      var email := InviteEmail(groupId);
      var role := InviteRole(groupId);
      if email == "" {
        inviteErrorByGroup := inviteErrorByGroup[groupId := Some("Email is required")];
        return None, None;
      }
      lookedUp := Some(email);
      sent := InviteResolved(groupId, role, lookup, added, refetched);
    }

    /** The shared shape of the member remove and role actions: `response` is how the
        request settles (`true` when `resp.ok`). A non-ok answer throws `new Error(failure)`,
        so its message is `failure`; a rejected request records its own message, or
        `failure` when it has none, on the group's cache entry. */
    method MemberAction(groupId: int, memberId: int, response: Call<bool>, refetched: Call<seq<FamilyMember>>, failure: string)
      modifies this`groupMembers, this`memberActionLoading
      ensures memberActionLoading == old(memberActionLoading)[memberId := false]
      ensures groupMembers.Keys == old(groupMembers.Keys) + {groupId}
      ensures forall g :: g in old(groupMembers) && g != groupId ==> groupMembers[g] == old(groupMembers[g])
      ensures response.Rejected? ==>
                groupMembers == Merge(old(groupMembers), groupId, Patch(None, None, Some(Some(MessageFieldOr(response.error, failure)))))
      ensures response == Resolved(false) ==>
                groupMembers == Merge(old(groupMembers), groupId, Patch(None, None, Some(Some(failure))))
      ensures response == Resolved(true) && refetched.Resolved? ==>
                groupMembers[groupId] == MemberEntry(false, refetched.value, None)
      ensures response == Resolved(true) ==> groupMembers == FetchedMembers(old(groupMembers), groupId, refetched)
    {
      memberActionLoading := memberActionLoading[memberId := true];
      if response.Rejected? {
        groupMembers := Merge(groupMembers, groupId, Patch(None, None, Some(Some(MessageFieldOr(response.error, failure)))));
      } else if !response.value {
        groupMembers := Merge(groupMembers, groupId, Patch(None, None, Some(Some(failure))));
      } else {
        FetchGroupMembers(groupId, refetched);
      }
      memberActionLoading := memberActionLoading[memberId := false];
    }

    /** `removeFamilyMember(groupId, memberId, userId)`. */
    method RemoveFamilyMember(groupId: int, memberId: int, response: Call<bool>, refetched: Call<seq<FamilyMember>>)
      modifies this`groupMembers, this`memberActionLoading
      ensures memberActionLoading == old(memberActionLoading)[memberId := false]
      ensures groupId in groupMembers
      ensures response == Resolved(false) ==> groupMembers[groupId].error == Some("Failed to remove member")
      ensures response == Resolved(false) ==>
                groupMembers == Merge(old(groupMembers), groupId, Patch(None, None, Some(Some("Failed to remove member"))))
      ensures response.Rejected? ==>
                groupMembers == Merge(old(groupMembers), groupId, Patch(None, None, Some(Some(MessageFieldOr(response.error, "Failed to remove member")))))
      ensures response == Resolved(true) ==> groupMembers == FetchedMembers(old(groupMembers), groupId, refetched)
      ensures response == Resolved(true) && refetched.Resolved? ==>
                groupMembers[groupId] == MemberEntry(false, refetched.value, None)
    {
      MemberAction(groupId, memberId, response, refetched, "Failed to remove member");
    }

    /** `changeMemberRole(groupId, member, newRole)`. */
    method ChangeMemberRole(groupId: int, memberId: int, response: Call<bool>, refetched: Call<seq<FamilyMember>>)
      modifies this`groupMembers, this`memberActionLoading
      ensures memberActionLoading == old(memberActionLoading)[memberId := false]
      ensures groupId in groupMembers
      ensures response == Resolved(false) ==> groupMembers[groupId].error == Some("Failed to update role")
      ensures response == Resolved(false) ==>
                groupMembers == Merge(old(groupMembers), groupId, Patch(None, None, Some(Some("Failed to update role"))))
      ensures response.Rejected? ==>
                groupMembers == Merge(old(groupMembers), groupId, Patch(None, None, Some(Some(MessageFieldOr(response.error, "Failed to update role")))))
      ensures response == Resolved(true) ==> groupMembers == FetchedMembers(old(groupMembers), groupId, refetched)
      ensures response == Resolved(true) && refetched.Resolved? ==>
                groupMembers[groupId] == MemberEntry(false, refetched.value, None)
    {
      MemberAction(groupId, memberId, response, refetched, "Failed to update role");
    }
  }
}
