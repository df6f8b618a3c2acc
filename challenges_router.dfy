/** The `/challenges` routes (backend/routers/challenges.py): creator check on create,
    404 lookups, the listing and the ordered checks of adding a participant. */
module ChallengesRouter {
  import opened Wrappers
  import opened Http
  import opened Crud

  /** POST /challenges/?creator_id: 404 for an unknown creator. */
  method CreateChallenge(db: Database, challenge: ChallengeCreate, creatorId: int) returns (r: Reply<int>)
    modifies db`challenges
    ensures r.HttpException? <==> !HasId(db.users, creatorId)
    ensures r.HttpException? ==> r == HttpException(404, "Creator user not found") && db.challenges == old(db.challenges)
    ensures r.Success? ==> (db.challenges == old(db.challenges)
              + [Challenge(challenge.challengeId, creatorId, challenge.goal, challenge.startDate, challenge.endDate, [])]
              && r.body == |db.challenges|)
  {
    if db.GetUser(creatorId).None? {
      return HttpException(404, "Creator user not found");
    }
    var id := db.CreateChallenge(challenge, creatorId);
    r := Success(id);
  }

  /** GET /challenges/{challenge_id}. */
  function ReadChallenge(db: Database, challengeId: int): (r: Reply<Challenge>)
    reads db
    ensures r.Success? <==> HasId(db.challenges, challengeId)
    ensures r.Success? ==> r.body == db.challenges[challengeId - 1]
    ensures r.HttpException? ==> r == HttpException(404, "Challenge not found")
  {
    match db.GetChallenge(challengeId)
    case None => HttpException(404, "Challenge not found")
    case Some(c) => Success(c)
  }

  /** GET /challenges/?skip&limit. */
  function ReadChallenges(db: Database, skip: nat, limit: nat): (r: seq<Challenge>)
    reads db
    ensures |r| == if skip >= |db.challenges| then 0 else Min(limit, |db.challenges| - skip)
    ensures forall i :: 0 <= i < |r| ==> r[i] == db.challenges[skip + i]
  {
    Page(db.challenges, skip, limit)
  }

  /** POST /challenges/{challenge_id}/participants/{user_id}: the challenge is checked
      before the user; a user who already takes part gets a 400. */
  method AddParticipantToChallenge(db: Database, challengeId: int, userId: int) returns (r: Reply<string>)
    modifies db`challenges
    ensures !HasId(old(db.challenges), challengeId) ==>
              r == HttpException(404, "Challenge not found") && db.challenges == old(db.challenges)
    ensures HasId(old(db.challenges), challengeId) && !HasId(db.users, userId) ==>
              r == HttpException(404, "User not found") && db.challenges == old(db.challenges)
    ensures HasId(old(db.challenges), challengeId) && HasId(db.users, userId)
            && userId in old(db.challenges)[challengeId - 1].participants ==>
              r == HttpException(400, "User is already a participant or challenge not found")
              && db.challenges == old(db.challenges)
    ensures r.Success? <==> (HasId(old(db.challenges), challengeId) && HasId(db.users, userId)
              && userId !in old(db.challenges)[challengeId - 1].participants)
    ensures r.Success? ==> (r.body == "Participant added to challenge successfully"
              && db.challenges == old(db.challenges)[challengeId - 1 := old(db.challenges)[challengeId - 1].(
                   participants := old(db.challenges)[challengeId - 1].participants + [userId])])
    ensures old(db.LinksDistinct()) ==> db.LinksDistinct()
  {
    if db.GetChallenge(challengeId).None? {
      return HttpException(404, "Challenge not found");
    }
    if db.GetUser(userId).None? {
      return HttpException(404, "User not found");
    }
    var ok := db.AddParticipantToChallenge(challengeId, userId);
    if !ok {
      return HttpException(400, "User is already a participant or challenge not found");
    }
    r := Success("Participant added to challenge successfully");
  }

  /** Joining twice: the second request is refused with 400 and the participant list
      holds the user once. */
  method JoinTwice(db: Database, challengeId: int, userId: int) returns (first: Reply<string>, second: Reply<string>)
    modifies db`challenges
    requires db.LinksDistinct()
    ensures first.Success? ==> second == HttpException(400, "User is already a participant or challenge not found")
    ensures first.Success? ==> (HasId(old(db.challenges), challengeId)
              && db.challenges == old(db.challenges)[challengeId - 1 := old(db.challenges)[challengeId - 1].(
                   participants := old(db.challenges)[challengeId - 1].participants + [userId])])
    ensures db.LinksDistinct()
  {
    first := AddParticipantToChallenge(db, challengeId, userId);
    second := AddParticipantToChallenge(db, challengeId, userId);
  }
}
