/** The invitations inbox (src/app/messages/page.tsx): the status and method labels of
    an invitation, when its Accept and Reject buttons are enabled, the accept and reject
    handlers, and the table of challenge details built from the challenge list. */
module Messages {
  import opened Wrappers
  import opened Text
  import opened Loading
  import opened ApiErrors

  /** An invitation as the page receives it; empty strings stand for themselves, absent
      fields are `None`. */
  datatype InboxInvitation = InboxInvitation(
    id: int,
    senderId: int,
    recipientEmail: Option<string>,
    recipientPhone: Option<string>,
    invitationType: string,
    challengeId: Option<int>,
    isAccepted: bool,
    isExpired: bool,
    isRejected: bool)

  /** The status badge: Accepted, then Rejected, then Expired take priority over Pending. */
  function StatusLabel(inv: InboxInvitation): (r: string)
    ensures r == "Pending" <==> !inv.isAccepted && !inv.isRejected && !inv.isExpired
    ensures inv.isAccepted ==> r == "Accepted"
    ensures !inv.isAccepted && inv.isRejected ==> r == "Rejected"
    ensures !inv.isAccepted && !inv.isRejected && inv.isExpired ==> r == "Expired"
  {
    if inv.isAccepted then "Accepted"
    else if inv.isRejected then "Rejected"
    else if inv.isExpired then "Expired"
    else "Pending"
  }

  /** An invitation still open to an answer: the one whose badge reads "Pending". */
  function IsPending(inv: InboxInvitation): (r: bool)
    ensures r <==> StatusLabel(inv) == "Pending"
  {
    !inv.isAccepted && !inv.isRejected && !inv.isExpired
  }

  /** A truthy optional string: present and non-empty. */
  predicate Truthy(s: Option<string>) {
    s.Some? && s.value != ""
  }

  /** How the invitation was sent: the email if there is one, else the phone. */
  function MethodLabel(inv: InboxInvitation): (r: string)
    ensures Truthy(inv.recipientEmail) ==> r == "Email: " + inv.recipientEmail.value
    ensures !Truthy(inv.recipientEmail) && Truthy(inv.recipientPhone) ==> r == "Phone: " + inv.recipientPhone.value
    ensures !Truthy(inv.recipientEmail) && !Truthy(inv.recipientPhone) ==> r == "Unknown method"
  {
    if Truthy(inv.recipientEmail) then "Email: " + inv.recipientEmail.value
    else if Truthy(inv.recipientPhone) then "Phone: " + inv.recipientPhone.value
    else "Unknown method"
  }

  /** The loading keys `acceptInvitation-${id}` and `rejectInvitation-${id}`. */
  function AcceptKey(id: int): string { "acceptInvitation-" + IntToString(id) }
  function RejectKey(id: int): string { "rejectInvitation-" + IntToString(id) }

  /** Both buttons of an invitation are disabled when it is not pending, or while either
      action on that invitation is in flight. */
  function ActionsDisabled(loading: LoadingState, inv: InboxInvitation): (r: bool)
    ensures !r ==> StatusLabel(inv) == "Pending"
    ensures !LoadingIn(loading, AcceptKey(inv.id)) && !LoadingIn(loading, RejectKey(inv.id)) ==>
              (r <==> StatusLabel(inv) != "Pending")
  {
    !IsPending(inv) || LoadingIn(loading, AcceptKey(inv.id)) || LoadingIn(loading, RejectKey(inv.id))
  }

  /** The decimal printing of integers is injective. */
  lemma IntToStringInjective(a: int, b: int)
    requires IntToString(a) == IntToString(b)
    ensures a == b
  {
    if a >= 0 && b >= 0 {
      NatToStringValue(a);
      NatToStringValue(b);
    } else if a < 0 && b < 0 {
      assert NatToString(-a) == IntToString(a)[1..];
      NatToStringValue(-a);
      NatToStringValue(-b);
    }
  }

  /** A common prefix does not make different strings equal. */
  lemma PrefixedDiffer(prefix: string, s: string, t: string)
    requires s != t
    ensures prefix + s != prefix + t
  {
    assert (prefix + s)[|prefix|..] == s;
    assert (prefix + t)[|prefix|..] == t;
  }

  /** No accept key equals a reject key, and keys of different invitations differ. */
  lemma KeysDistinct(a: int, b: int)
    ensures AcceptKey(a) != RejectKey(b)
    ensures a != b ==> AcceptKey(a) != AcceptKey(b) && RejectKey(a) != RejectKey(b)
  {
    assert AcceptKey(a)[0] != RejectKey(b)[0];
    if a != b {
      if IntToString(a) == IntToString(b) {
        IntToStringInjective(a, b);
      }
      PrefixedDiffer("acceptInvitation-", IntToString(a), IntToString(b));
      PrefixedDiffer("rejectInvitation-", IntToString(a), IntToString(b));
    }
  }

  /** Starting an action on one invitation does not disable the buttons of another. */
  lemma OtherActionsIndependent(loading: LoadingState, inv: InboxInvitation, other: int, accept: bool)
    requires other != inv.id
    ensures var key := if accept then AcceptKey(other) else RejectKey(other);
            ActionsDisabled(WithStarted(loading, key), inv) == ActionsDisabled(loading, inv)
  {
    KeysDistinct(other, inv.id);
    KeysDistinct(inv.id, other);
  }

  /** While an accept or reject of an invitation is in flight, both of its buttons are
      disabled. */
  lemma InFlightDisables(loading: LoadingState, inv: InboxInvitation, accept: bool)
    ensures ActionsDisabled(WithStarted(loading, if accept then AcceptKey(inv.id) else RejectKey(inv.id)), inv)
  {
  }

  /** `typeof ch.id === "number"`: an id is a number or some other JSON value. */
  datatype ChallengeKey = NumberKey(n: int) | OtherKey

  datatype ChallengeItem = ChallengeItem(id: ChallengeKey, goal: string, startDate: string, endDate: string)
  datatype ChallengeDetail = ChallengeDetail(goal: string, startDate: string, endDate: string)

  function Detail(ch: ChallengeItem): ChallengeDetail {
    ChallengeDetail(ch.goal, ch.startDate, ch.endDate)
  }

  /** The table the loop builds over `challenges`, in order: a later entry with the same
      id overwrites an earlier one. */
  function DetailsOf(challenges: seq<ChallengeItem>): map<int, ChallengeDetail>
  {
    if challenges == [] then map[]
    else
      var last := challenges[|challenges| - 1];
      var before := DetailsOf(challenges[..|challenges| - 1]);
      if last.id.NumberKey? then before[last.id.n := Detail(last)] else before
  }

  /** The table has an entry exactly for the numeric ids of the list. */
  lemma {:induction false} DetailsOfKeys(challenges: seq<ChallengeItem>, n: int)
    ensures n in DetailsOf(challenges) <==> exists i :: 0 <= i < |challenges| && challenges[i].id == NumberKey(n)
  {
    if challenges != [] {
      var init := challenges[..|challenges| - 1];
      DetailsOfKeys(init, n);
      if (exists i :: 0 <= i < |init| && init[i].id == NumberKey(n)) {
        var i :| 0 <= i < |init| && init[i].id == NumberKey(n);
        assert challenges[i] == init[i];
      }
      if (exists i :: 0 <= i < |challenges| && challenges[i].id == NumberKey(n)) {
        var i :| 0 <= i < |challenges| && challenges[i].id == NumberKey(n);
        if i < |init| {
          assert init[i] == challenges[i];
        }
      }
    }
  }

  /** The entry for a numeric id holds the details of the last challenge with that id. */
  lemma {:induction false} DetailsOfLastWins(challenges: seq<ChallengeItem>, i: nat)
    requires i < |challenges| && challenges[i].id.NumberKey?
    requires forall j :: i < j < |challenges| ==> challenges[j].id != challenges[i].id
    ensures challenges[i].id.n in DetailsOf(challenges)
    ensures DetailsOf(challenges)[challenges[i].id.n] == Detail(challenges[i])
  {
    if i < |challenges| - 1 {
      var init := challenges[..|challenges| - 1];
      DetailsOfLastWins(init, i);
    }
  }

  /** The page state. */
  class MessagesPage {
    var invitations: seq<InboxInvitation>
    var error: Option<string>
    var loadingStates: LoadingState
    var challengeDetails: map<int, ChallengeDetail>

    constructor ()
      ensures invitations == [] && error.None? && loadingStates == map[] && challengeDetails == map[]
    {
      invitations := [];
      error := None;
      loadingStates := map[];
      challengeDetails := map[];
    }

    /** The `for (const ch of challenges)` loop. */
    static method BuildChallengeDetails(challenges: seq<ChallengeItem>) returns (m: map<int, ChallengeDetail>)
      ensures m == DetailsOf(challenges)
    {
      m := map[];
      var k := 0;
      while k < |challenges|
        invariant 0 <= k <= |challenges|
        invariant m == DetailsOf(challenges[..k])
      {
        var ch := challenges[k];
        assert challenges[..k + 1][..k] == challenges[..k];
        if ch.id.NumberKey? {
          m := m[ch.id.n := Detail(ch)];
        }
        k := k + 1;
      }
      assert challenges[..k] == challenges;
    }

    /** The effect that loads the challenge details; a failure is ignored. */
    method LoadChallengeDetails(fetched: Call<seq<ChallengeItem>>)
      modifies this`challengeDetails, this`loadingStates
      ensures fetched.Resolved? ==> challengeDetails == DetailsOf(fetched.value)
      ensures fetched.Rejected? ==> challengeDetails == old(challengeDetails)
      ensures loadingStates == WithStopped(WithStarted(old(loadingStates), "fetchChallengesForMessages"),
                                           "fetchChallengesForMessages")
    {
      loadingStates := WithStarted(loadingStates, "fetchChallengesForMessages");
      if fetched.Resolved? {
        challengeDetails := BuildChallengeDetails(fetched.value);
      }
      loadingStates := WithStopped(loadingStates, "fetchChallengesForMessages");
    }

    /** `fetchInvitations()` for the signed-in user's id; a missing or zero (falsy) id
        does nothing. Returns whether `getInvitations` was called. */
    method FetchInvitations(userId: Option<int>, fetched: Call<seq<InboxInvitation>>) returns (called: bool)
      modifies this`invitations, this`error, this`loadingStates
      ensures called <==> userId.Some? && userId.value != 0
      ensures !called ==> invitations == old(invitations) && error == old(error) && loadingStates == old(loadingStates)
      ensures called && fetched.Resolved? ==> invitations == fetched.value && error.None?
      ensures called && fetched.Rejected? ==> (invitations == old(invitations)
                && error == Some(OrElse(GetErrorMessage(fetched.error), "Failed to fetch invitations")))
      ensures called ==> loadingStates == WithStopped(WithStarted(old(loadingStates), "fetchInvitations"), "fetchInvitations")
    {
      if userId.None? || userId.value == 0 {
        return false;
      }
      called := true;
      loadingStates := WithStarted(loadingStates, "fetchInvitations");
      error := None;
      if fetched.Resolved? {
        invitations := fetched.value;
      } else {
        error := Some(OrElse(GetErrorMessage(fetched.error), "Failed to fetch invitations"));
      }
      loadingStates := WithStopped(loadingStates, "fetchInvitations");
    }

    /** `handleAcceptInvitation(id)` (when `accept`) or `handleRejectInvitation(id)`:
        `answered` is how the accept or reject call settles, `refetched` how the reload does. */
    method HandleAnswer(id: int, accept: bool, userId: Option<int>, answered: Call<()>, refetched: Call<seq<InboxInvitation>>)
      modifies this`invitations, this`error, this`loadingStates
      ensures var key := if accept then AcceptKey(id) else RejectKey(id);
              !LoadingIn(loadingStates, key) && key in loadingStates
      ensures answered.Rejected? ==> (invitations == old(invitations)
                && error == Some(OrElse(GetErrorMessage(answered.error),
                                        if accept then "Failed to accept invitation" else "Failed to reject invitation")))
      ensures answered.Rejected? ==>
                var key := if accept then AcceptKey(id) else RejectKey(id);
                loadingStates == WithStopped(WithStarted(old(loadingStates), key), key)
      ensures answered.Resolved? && userId.Some? && userId.value != 0 && refetched.Resolved? ==>
                invitations == refetched.value && error.None?
      ensures answered.Resolved? && userId.Some? && userId.value != 0 && refetched.Rejected? ==>
                (invitations == old(invitations)
                 && error == Some(OrElse(GetErrorMessage(refetched.error), "Failed to fetch invitations")))
      ensures answered.Resolved? && userId.Some? && userId.value != 0 ==>
                var key := if accept then AcceptKey(id) else RejectKey(id);
                loadingStates == WithStopped(WithStopped(WithStarted(WithStarted(old(loadingStates), key),
                                                                     "fetchInvitations"), "fetchInvitations"), key)
      ensures answered.Resolved? && (userId.None? || userId.value == 0) ==>
                var key := if accept then AcceptKey(id) else RejectKey(id);
                (invitations == old(invitations) && error.None?
                 && loadingStates == WithStopped(WithStarted(old(loadingStates), key), key))
    {
      var key := if accept then AcceptKey(id) else RejectKey(id);
      loadingStates := WithStarted(loadingStates, key);
      error := None;
      if answered.Rejected? {
        error := Some(OrElse(GetErrorMessage(answered.error),
                             if accept then "Failed to accept invitation" else "Failed to reject invitation"));
      } else {
        var _ := FetchInvitations(userId, refetched);
        KeysDistinct(id, id);
      }
      loadingStates := WithStopped(loadingStates, key);
    }
  }
}
