/** The `/invitations` routes (backend/routers/invitations.py): sender check on create,
    404 lookup, and the mapping of a refused accept to 400. */
module InvitationsRouter {
  import opened Wrappers
  import opened Http
  import opened Crud

  /** POST /invitations/?sender_id at instant `now`: 404 for an unknown sender; otherwise
      an open invitation that expires 15 days after `now`. */
  method CreateInvitation(db: Database, invitation: InvitationCreate, senderId: int, now: int) returns (r: Reply<int>)
    modifies db`invitations
    ensures r.HttpException? <==> !HasId(db.users, senderId)
    ensures r.HttpException? ==> r == HttpException(404, "Sender user not found") && db.invitations == old(db.invitations)
    ensures r.Success? ==> (db.invitations == old(db.invitations)
              + [Invitation(senderId, invitation.recipientEmail, invitation.recipientPhone, invitation.invitationType,
                            None, None, now, None, now + InvitationLifetime, false, false, false)]
              && r.body == |db.invitations|)
  {
    if db.GetUser(senderId).None? {
      return HttpException(404, "Sender user not found");
    }
    var id := db.CreateInvitation(invitation, senderId, now);
    r := Success(id);
  }

  /** GET /invitations/{invitation_id}. */
  function ReadInvitation(db: Database, invitationId: int): (r: Reply<Invitation>)
    reads db
    ensures r.Success? <==> HasId(db.invitations, invitationId)
    ensures r.Success? ==> r.body == db.invitations[invitationId - 1]
    ensures r.HttpException? ==> r == HttpException(404, "Invitation not found")
  {
    match db.GetInvitation(invitationId)
    case None => HttpException(404, "Invitation not found")
    case Some(inv) => Success(inv)
  }

  /** PUT /invitations/{invitation_id}/accept at instant `now`. */
  method AcceptInvitation(db: Database, invitationId: int, now: int) returns (r: Reply<string>)
    modifies db`invitations
    ensures r.Success? <==> (HasId(old(db.invitations), invitationId)
              && !old(db.invitations)[invitationId - 1].isExpired
              && !old(db.invitations)[invitationId - 1].isAccepted
              && now < old(db.invitations)[invitationId - 1].expiredAt)
    ensures r.Success? ==> (r.body == "Invitation accepted successfully"
              && db.invitations == old(db.invitations)[invitationId - 1 :=
                   old(db.invitations)[invitationId - 1].(isAccepted := true, acceptedAt := Some(now))])
    ensures r.HttpException? ==> r == HttpException(400, "Invitation not found, already accepted, or expired")
    ensures r.HttpException? && HasId(old(db.invitations), invitationId)
            && !old(db.invitations)[invitationId - 1].isExpired && !old(db.invitations)[invitationId - 1].isAccepted ==>
              db.invitations == old(db.invitations)[invitationId - 1 := old(db.invitations)[invitationId - 1].(isExpired := true)]
    ensures r.HttpException? && !(HasId(old(db.invitations), invitationId)
            && !old(db.invitations)[invitationId - 1].isExpired && !old(db.invitations)[invitationId - 1].isAccepted) ==>
              db.invitations == old(db.invitations)
  {
    var ok := db.AcceptInvitation(invitationId, now);
    if !ok {
      return HttpException(400, "Invitation not found, already accepted, or expired");
    }
    r := Success("Invitation accepted successfully");
  }

  /** An invitation created at `sent` by a known sender can be accepted exactly while
      `now` is less than 15 days after `sent`; a second accept is refused whatever the time,
      because the first one either accepted it or flagged it expired. */
  method CreateThenAccept(db: Database, invitation: InvitationCreate, senderId: int, sent: int, now: int, later: int)
    returns (created: Reply<int>, first: Reply<string>, second: Reply<string>)
    requires HasId(db.users, senderId)
    modifies db`invitations
    ensures created.Success?
    ensures first.Success? <==> now < sent + 1296000
    ensures second == HttpException(400, "Invitation not found, already accepted, or expired")
  {
    created := CreateInvitation(db, invitation, senderId, sent);
    first := AcceptInvitation(db, created.body, now);
    second := AcceptInvitation(db, created.body, later);
  }
}
