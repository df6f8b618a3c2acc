/** The challenge creation page: parsing of the comma-separated recipient lists, the
    family-group member picker and the submit handler, which creates the challenge and then
    adds participants and sends invitations one by one, carrying on past individual failures. */
module NewChallenge {
  import opened Wrappers
  import opened Text
  import opened Seqs
  import opened Loading
  import opened ApiErrors

  /** A member of a family group as the picker lists it. */
  datatype GroupMember = GroupMember(id: int, name: string)

  /** One entry of `getFamilyGroups(user.id)`. */
  datatype FamilyGroupOption = FamilyGroupOption(id: int, name: string, members: seq<GroupMember>)

  /** `familyGroups.find(group => group.id === parseInt(value))`: `target` is the parsed
      value, `None` for `NaN`, which equals no id. */
  function FindGroup(groups: seq<FamilyGroupOption>, target: Option<int>): (r: Option<FamilyGroupOption>)
    ensures r.None? <==> target.None? || forall i :: 0 <= i < |groups| ==> groups[i].id != target.value
    ensures r.Some? ==> exists i :: 0 <= i < |groups| && groups[i] == r.value && r.value.id == target.value
                                    && forall j :: 0 <= j < i ==> groups[j].id != target.value
  {
    if target.None? || groups == [] then None
    else if groups[0].id == target.value then Some(groups[0])
    else
      var r := FindGroup(groups[1..], target);
      assert r.Some? ==> exists i :: 1 <= i < |groups| && groups[i] == r.value && r.value.id == target.value
                                     && forall j :: 0 <= j < i ==> groups[j].id != target.value
        by {
          if r.Some? {
            var i :| 0 <= i < |groups[1..]| && groups[1..][i] == r.value && r.value.id == target.value
                      && forall j :: 0 <= j < i ==> groups[1..][j].id != target.value;
            assert groups[i + 1] == r.value;
            forall j | 0 <= j < i + 1 ensures groups[j].id != target.value {
              if j > 0 { assert groups[j] == groups[1..][j - 1]; }
            }
          }
        }
      r
  }

  /** `handleMemberSelect`'s update: an id already selected is removed (every occurrence),
      an absent one is appended. */
  function ToggleMember(selected: seq<int>, userId: int): (r: seq<int>)
    ensures userId in selected ==> userId !in r && IsSubsequence(r, selected)
                                   && forall x :: x in r <==> x in selected && x != userId
    ensures userId !in selected ==> r == selected + [userId]
  {
    if userId in selected then
      var r := Filter(selected, x => x != userId);
      FilterIsSubsequence(selected, x => x != userId);
      forall x ensures x in r <==> x in selected && x != userId {
        FilterMembership(selected, x => x != userId, x);
      }
      r
    else selected + [userId]
  }

  /** After a toggle the id is selected exactly when it was not before. */
  lemma ToggleFlipsMembership(selected: seq<int>, userId: int)
    ensures userId in ToggleMember(selected, userId) <==> userId !in selected
  {
  }

  /** Checking an unselected member and unchecking it again restores the selection. */
  lemma ToggleTwiceAbsent(selected: seq<int>, userId: int)
    requires userId !in selected
    ensures ToggleMember(ToggleMember(selected, userId), userId) == selected
  {
    var p := (x: int) => x != userId;
    FilterAppend(selected, [userId], p);
    FilterAll(selected, p);
    assert Filter([userId], p) == [];
  }

  /** `pieces.map(p => p.trim())`. */
  function TrimAll(pieces: seq<string>): (r: seq<string>)
    ensures |r| == |pieces|
    ensures forall i :: 0 <= i < |r| ==> r[i] == Trim(pieces[i])
  {
    if pieces == [] then [] else [Trim(pieces[0])] + TrimAll(pieces[1..])
  }

  predicate NonEmpty(x: string) {
    x != ""
  }

  /** `pieces.map(x => x.trim()).filter(x => x !== "")` in one pass: the trimmed non-empty
      pieces, in order. The recipient lists are `RecipientsOf(Split(s, ','))`, for both the
      email and the phone field. */
  function RecipientsOf(pieces: seq<string>): (r: seq<string>)
    ensures |r| <= |pieces|
    ensures forall i :: 0 <= i < |r| ==> r[i] != "" && NoWhitespaceEnds(r[i])
  {
    if pieces == [] then []
    else
      var t := Trim(pieces[0]);
      if t == "" then RecipientsOf(pieces[1..]) else [t] + RecipientsOf(pieces[1..])
  }

  /** The one-pass parse is the source's chain of `map` and `filter`. */
  lemma {:induction false} RecipientsOfIsMapFilter(pieces: seq<string>)
    ensures RecipientsOf(pieces) == Filter(TrimAll(pieces), NonEmpty)
  {
    if pieces != [] {
      RecipientsOfIsMapFilter(pieces[1..]);
      assert TrimAll(pieces)[1..] == TrimAll(pieces[1..]);
    }
  }

  /** A string is a recipient exactly when it is the non-empty trim of one of the pieces. */
  lemma {:induction false} RecipientsOfMembership(pieces: seq<string>, x: string)
    ensures x in RecipientsOf(pieces) <==> x != "" && exists k :: 0 <= k < |pieces| && Trim(pieces[k]) == x
  {
    if pieces != [] {
      RecipientsOfMembership(pieces[1..], x);
      if exists k :: 0 <= k < |pieces| && Trim(pieces[k]) == x {
        var k :| 0 <= k < |pieces| && Trim(pieces[k]) == x;
        if k > 0 {
          assert pieces[1..][k - 1] == pieces[k];
        }
      }
      if exists k :: 0 <= k < |pieces[1..]| && Trim(pieces[1..][k]) == x {
        var k :| 0 <= k < |pieces[1..]| && Trim(pieces[1..][k]) == x;
        assert pieces[k + 1] == pieces[1..][k];
      }
    }
  }

  /** A string is a recipient exactly when it is the non-empty trim of one of the
      comma-separated pieces. */
  lemma RecipientMembership(s: string, x: string)
    ensures x in RecipientsOf(Split(s, ',')) <==>
              x != "" && exists k :: 0 <= k < |Split(s, ',')| && Trim(Split(s, ',')[k]) == x
  {
    RecipientsOfMembership(Split(s, ','), x);
  }

  /** Every parsed recipient is non-empty, carries no white space at either end and
      contains no comma. */
  lemma RecipientsWellFormed(s: string)
    ensures forall i :: 0 <= i < |RecipientsOf(Split(s, ','))| ==>
              RecipientsOf(Split(s, ','))[i] != "" && NoWhitespaceEnds(RecipientsOf(Split(s, ','))[i]) && ',' !in RecipientsOf(Split(s, ','))[i]
  {
    var pieces := Split(s, ',');
    var r := RecipientsOf(pieces);
    forall i | 0 <= i < |r|
      ensures r[i] != "" && NoWhitespaceEnds(r[i]) && ',' !in r[i]
    {
      RecipientsOfMembership(pieces, r[i]);
      var k :| 0 <= k < |pieces| && Trim(pieces[k]) == r[i];
      var a, b := TrimWindow(pieces[k]);
      assert ',' !in pieces[k];
    }
  }

  /** `{ challenge_id, goal, start_date, end_date }` sent to `createChallenge`. */
  datatype ChallengeData = ChallengeData(challengeId: string, goal: string, startDate: string, endDate: string)

  /** One `createChallenge(challengeData, user.id)` call. */
  datatype CreateRequest = CreateRequest(data: ChallengeData, creatorId: int)

  /** One `addChallengeParticipant(challengeId, userId)` call. */
  datatype ParticipantRequest = ParticipantRequest(challengeId: int, userId: int)

  /** Who an invitation goes to: `recipient_email` or `recipient_phone`. */
  datatype Recipient = Email(address: string) | Phone(number: string)

  /** One `createInvitation({ recipient, invitation_type: "challenge", challenge_id }, user.id)` call. */
  datatype InvitationRequest = InvitationRequest(recipient: Recipient, invitationType: string, challengeId: int, senderId: int)

  const NotLoggedIn := "You must be logged in to create a challenge"
  const MissingFields := "Please fill in all required fields"
  const BadDates := "End date must be after start date"

  /** Where a successful submit navigates (`router.push`). */
  const ChallengesPath := "/challenges"

  /** `new Date(startDate) >= new Date(endDate)`: a date that does not parse is `NaN`, and
      every comparison with `NaN` is false. */
  predicate StartNotBeforeEnd(parse: string -> Option<int>, startDate: string, endDate: string) {
    parse(startDate).Some? && parse(endDate).Some? && parse(startDate).value >= parse(endDate).value
  }

  /** The validation message `handleSubmit` shows before any call, in the source's order. */
  function SubmitRefusal(user: Option<int>, title: string, startDate: string, endDate: string, goal: string,
                         parse: string -> Option<int>): (r: Option<string>)
    ensures user.None? ==> r == Some(NotLoggedIn)
    ensures user.Some? && (title == "" || startDate == "" || endDate == "" || goal == "") ==> r == Some(MissingFields)
    ensures r.None? <==> user.Some? && title != "" && startDate != "" && endDate != "" && goal != ""
                         && !StartNotBeforeEnd(parse, startDate, endDate)
    ensures (user.Some? && title != "" && startDate != "" && endDate != "" && goal != ""
             && StartNotBeforeEnd(parse, startDate, endDate)) ==> r == Some(BadDates)
  {
    if user.None? then Some(NotLoggedIn)
    else if title == "" || startDate == "" || endDate == "" || goal == "" then Some(MissingFields)
    else if StartNotBeforeEnd(parse, startDate, endDate) then Some(BadDates)
    else None
  }

  /** The participant calls for the selected member ids, in selection order. */
  function ParticipantRequests(challengeId: int, userIds: seq<int>): (r: seq<ParticipantRequest>)
    ensures |r| == |userIds|
    ensures forall i :: 0 <= i < |r| ==> r[i] == ParticipantRequest(challengeId, userIds[i])
  {
    if userIds == [] then [] else [ParticipantRequest(challengeId, userIds[0])] + ParticipantRequests(challengeId, userIds[1..])
  }

  /** The invitation calls for a parsed recipient list, in list order. */
  function InvitationRequests(recipients: seq<string>, phone: bool, challengeId: int, senderId: int): (r: seq<InvitationRequest>)
    ensures |r| == |recipients|
    ensures forall i :: 0 <= i < |r| ==> r[i].invitationType == "challenge" && r[i].challengeId == challengeId
                                         && r[i].senderId == senderId
                                         && r[i].recipient == (if phone then Phone(recipients[i]) else Email(recipients[i]))
  {
    if recipients == [] then []
    else
      [InvitationRequest(if phone then Phone(recipients[0]) else Email(recipients[0]), "challenge", challengeId, senderId)]
      + InvitationRequests(recipients[1..], phone, challengeId, senderId)
  }

  /** A `for ... of` loop whose body is `try { await call(item) } catch { /* keep going */ }`:
      every request is issued, in order, whatever the earlier ones returned; `failed` are
      the ones whose call threw. */
  method SendEach<T>(requests: seq<T>, outcome: T -> Call<()>) returns (attempted: seq<T>, failed: seq<T>)
    ensures attempted == requests
    ensures failed == Filter(requests, r => outcome(r).Rejected?)
  {
    attempted, failed := [], [];
    var k := 0;
    while k < |requests|
      invariant 0 <= k <= |requests|
      invariant attempted == requests[..k]
      invariant failed == Filter(requests[..k], r => outcome(r).Rejected?)
    {
      var request := requests[k];
      attempted := attempted + [request];
      FilterAppend(requests[..k], [request], r => outcome(r).Rejected?);
      if outcome(request).Rejected? {
        failed := failed + [request];
      }
      assert requests[..k + 1] == requests[..k] + [request];
      k := k + 1;
    }
    assert requests[..k] == requests;
  }

  /** The page state. */
  class NewChallengePage {
    var title: string
    var startDate: string
    var endDate: string
    var goal: string
    var emailParticipants: string
    var phoneParticipants: string
    var familyGroups: seq<FamilyGroupOption>
    var selectedFamilyGroup: string
    var selectedGroupParticipants: seq<int>
    var groupParticipants: seq<GroupMember>
    var error: Option<string>
    var loadingStates: LoadingState
    var navigatedTo: Option<string>

    /** The page as first rendered, with the family groups already loaded. */
    constructor (groups: seq<FamilyGroupOption>)
      ensures title == "" && startDate == "" && endDate == "" && goal == ""
      ensures emailParticipants == "" && phoneParticipants == ""
      ensures familyGroups == groups && selectedFamilyGroup == ""
      ensures selectedGroupParticipants == [] && groupParticipants == []
      ensures error.None? && loadingStates == map[] && navigatedTo.None?
    {
      title, startDate, endDate, goal := "", "", "", "";
      emailParticipants, phoneParticipants := "", "";
      familyGroups, selectedFamilyGroup := groups, "";
      selectedGroupParticipants, groupParticipants := [], [];
      error, loadingStates, navigatedTo := None, map[], None;
    }

    /** `handleFamilyGroupChange(value)`: shows the chosen group's members, or none when no
        group has that id, and always clears the selected members. */
    method HandleFamilyGroupChange(value: string)
      modifies this`selectedFamilyGroup, this`groupParticipants, this`selectedGroupParticipants
      ensures selectedFamilyGroup == value
      ensures selectedGroupParticipants == []
      ensures FindGroup(familyGroups, ParseInt(value)).Some? ==>
                groupParticipants == FindGroup(familyGroups, ParseInt(value)).value.members
      ensures FindGroup(familyGroups, ParseInt(value)).None? ==> groupParticipants == []
    {
      selectedFamilyGroup := value;
      var group := FindGroup(familyGroups, ParseInt(value));
      if group.Some? {
        groupParticipants := group.value.members;
      } else {
        groupParticipants := [];
      }
      selectedGroupParticipants := [];
    }

    /** `handleMemberSelect(userId)`. */
    method HandleMemberSelect(userId: int)
      modifies this`selectedGroupParticipants
      ensures selectedGroupParticipants == ToggleMember(old(selectedGroupParticipants), userId)
    {
      selectedGroupParticipants := ToggleMember(selectedGroupParticipants, userId);
    }

    /** The part of `handleSubmit` after the challenge was created: add each selected
        member, then invite each email address, then each phone number. */
    method AddAndInvite(challengeId: int, senderId: int, addOutcome: ParticipantRequest -> Call<()>,
                        inviteOutcome: InvitationRequest -> Call<()>)
      returns (added: seq<ParticipantRequest>, invited: seq<InvitationRequest>)
      ensures added == ParticipantRequests(challengeId, selectedGroupParticipants)
      ensures invited == InvitationRequests(RecipientsOf(Split(emailParticipants, ',')), false, challengeId, senderId)
                         + InvitationRequests(RecipientsOf(Split(phoneParticipants, ',')), true, challengeId, senderId)
    {
      var failedAdds, failedEmails, failedPhones, emailCalls, phoneCalls;
      added, failedAdds := SendEach(ParticipantRequests(challengeId, selectedGroupParticipants), addOutcome);
      emailCalls, failedEmails := SendEach(InvitationRequests(RecipientsOf(Split(emailParticipants, ',')), false, challengeId, senderId), inviteOutcome);
      phoneCalls, failedPhones := SendEach(InvitationRequests(RecipientsOf(Split(phoneParticipants, ',')), true, challengeId, senderId), inviteOutcome);
      invited := emailCalls + phoneCalls;
    }

    /** The `try` block of `handleSubmit`, reached once validation passed: create the
        challenge, then add the members and send the invitations; the loading flag is set
        for the duration. */
    method CreateAndInvite(senderId: int, now: nat, created: Call<int>,
                           addOutcome: ParticipantRequest -> Call<()>, inviteOutcome: InvitationRequest -> Call<()>)
      returns (sent: CreateRequest, added: seq<ParticipantRequest>, invited: seq<InvitationRequest>)
      modifies this`error, this`loadingStates, this`navigatedTo
      ensures sent == CreateRequest(ChallengeData("CH-" + NatToString(now), goal, startDate, endDate), senderId)
      ensures loadingStates == WithStopped(WithStarted(old(loadingStates), "createChallenge"), "createChallenge")
      ensures created.Rejected? ==>
                added == [] && invited == [] && error == Some(GetErrorMessage(created.error)) && navigatedTo == old(navigatedTo)
      ensures created.Resolved? ==>
                && added == ParticipantRequests(created.value, selectedGroupParticipants)
                && invited == InvitationRequests(RecipientsOf(Split(emailParticipants, ',')), false, created.value, senderId)
                              + InvitationRequests(RecipientsOf(Split(phoneParticipants, ',')), true, created.value, senderId)
                && error.None? && navigatedTo == Some(ChallengesPath)
    {
      loadingStates := WithStarted(loadingStates, "createChallenge");
      error := None;
      sent := CreateRequest(ChallengeData("CH-" + NatToString(now), goal, startDate, endDate), senderId);
      added, invited := [], [];
      if created.Rejected? {
        error := Some(GetErrorMessage(created.error));
      } else {
        added, invited := AddAndInvite(created.value, senderId, addOutcome, inviteOutcome);
        navigatedTo := Some(ChallengesPath);
      }
      loadingStates := WithStopped(loadingStates, "createChallenge");
    }

    /** `handleSubmit`: `parse` is `new Date(...)` (`None` for an invalid date), `now` is
        `Date.now()`, `created` how `createChallenge` settles (the new challenge's id), and
        `addOutcome`/`inviteOutcome` how each participant or invitation call settles.
        Returns every call made, in order. */
    method HandleSubmit(user: Option<int>, parse: string -> Option<int>, now: nat, created: Call<int>,
                        addOutcome: ParticipantRequest -> Call<()>, inviteOutcome: InvitationRequest -> Call<()>)
      returns (sent: Option<CreateRequest>, added: seq<ParticipantRequest>, invited: seq<InvitationRequest>)
      modifies this`error, this`loadingStates, this`navigatedTo
      ensures var refusal := SubmitRefusal(user, old(title), old(startDate), old(endDate), old(goal), parse);
              && (refusal.Some? ==> (sent.None? && added == [] && invited == [] && error == refusal
                                     && loadingStates == old(loadingStates) && navigatedTo == old(navigatedTo)))
              && (refusal.None? ==> (sent == Some(CreateRequest(ChallengeData("CH-" + NatToString(now), goal, startDate, endDate), user.value))
                                     && loadingStates == WithStopped(WithStarted(old(loadingStates), "createChallenge"), "createChallenge")))
      ensures sent.Some? && created.Rejected? ==>
                added == [] && invited == [] && error == Some(GetErrorMessage(created.error)) && navigatedTo == old(navigatedTo)
      ensures sent.Some? && created.Resolved? ==>
                && added == ParticipantRequests(created.value, selectedGroupParticipants)
                && invited == InvitationRequests(RecipientsOf(Split(emailParticipants, ',')), false, created.value, user.value)
                              + InvitationRequests(RecipientsOf(Split(phoneParticipants, ',')), true, created.value, user.value)
                && error.None? && navigatedTo == Some(ChallengesPath)
    {
      sent, added, invited := None, [], [];
      var refusal := SubmitRefusal(user, title, startDate, endDate, goal, parse);
      if refusal.Some? {
        error := refusal;
        return;
      }
      var request;
      request, added, invited := CreateAndInvite(user.value, now, created, addOutcome, inviteOutcome);
      sent := Some(request);
    }
  }
}
