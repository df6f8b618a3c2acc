/** The data-access layer of the backend (backend/crud.py) over an in-memory store.
    Each table is a sequence of rows; the primary key of row `k` is `k + 1`, as an
    autoincrement column assigns it (the core never deletes a row). Relationship lists
    hold the primary keys of the related rows, in insertion order. */
module Crud {
  import opened Wrappers
  import opened Seqs

  /** `timedelta(days=15)`, in seconds. */
  const InvitationLifetime: int := 15 * 24 * 60 * 60

  datatype User = User(
    healthId: string,
    name: string,
    phoneNumber: Option<string>,
    phoneVerified: bool,
    passwordHash: Option<string>,
    primaryProviderId: Option<int>,
    emails: seq<int>,
    providers: seq<int>)

  datatype Email = Email(emailAddress: string, verified: bool)

  datatype Provider = Provider(licenseNumber: string, name: string, specialty: Option<string>, verified: bool)

  datatype Appointment = Appointment(
    appointmentId: string,
    userId: int,
    providerId: int,
    dateTime: int,
    consultationType: string,
    notes: Option<string>,
    cancelled: bool,
    cancellationReason: Option<string>)

  datatype Challenge = Challenge(
    challengeId: string,
    creatorId: int,
    goal: string,
    startDate: int,
    endDate: int,
    participants: seq<int>)

  datatype FamilyGroup = FamilyGroup(name: string, members: seq<int>)

  datatype Invitation = Invitation(
    senderId: int,
    recipientEmail: Option<string>,
    recipientPhone: Option<string>,
    invitationType: string,
    challengeId: Option<int>,
    familyGroupId: Option<int>,
    sentAt: int,
    acceptedAt: Option<int>,
    expiredAt: int,
    isAccepted: bool,
    isExpired: bool,
    isRejected: bool)

  /** Request bodies (the pydantic `...Create` schemas). */
  datatype UserCreate = UserCreate(healthId: string, name: string, phoneNumber: Option<string>, phoneVerified: bool)
  datatype EmailCreate = EmailCreate(emailAddress: string, verified: bool)
  datatype ProviderCreate = ProviderCreate(licenseNumber: string, name: string, specialty: Option<string>, verified: bool)
  datatype AppointmentCreate = AppointmentCreate(
    appointmentId: string, providerId: int, dateTime: int, consultationType: string, notes: Option<string>)
  datatype ChallengeCreate = ChallengeCreate(challengeId: string, goal: string, startDate: int, endDate: int)
  datatype InvitationCreate = InvitationCreate(
    recipientEmail: Option<string>, recipientPhone: Option<string>, invitationType: string,
    challengeId: Option<int>, familyGroupId: Option<int>)

  /** `id` is the primary key of some row of `rows`. */
  predicate HasId<T>(rows: seq<T>, id: int) {
    1 <= id <= |rows|
  }

  /** `query(...).filter(id == k).first()`. */
  function GetById<T>(rows: seq<T>, id: int): (r: Option<T>)
    ensures r.Some? <==> HasId(rows, id)
    ensures r.Some? ==> r.value == rows[id - 1]
  {
    if HasId(rows, id) then Some(rows[id - 1]) else None
  }

  /** `query(...).filter(p).first()`: the primary key of the first row satisfying `p`. */
  function FirstWhere<T>(rows: seq<T>, p: T -> bool): (r: Option<int>)
    ensures r.Some? ==> HasId(rows, r.value) && p(rows[r.value - 1])
                        && forall j :: 0 <= j < r.value - 1 ==> !p(rows[j])
    ensures r.None? ==> forall j :: 0 <= j < |rows| ==> !p(rows[j])
  {
    if rows == [] then None
    else if p(rows[0]) then Some(1)
    else match FirstWhere(rows[1..], p)
      case None => None
      case Some(k) => Some(k + 1)
  }

  function Min(a: int, b: int): int { if a < b then a else b }

  /** `query(...).offset(skip).limit(limit).all()`. */
  function Page<T>(rows: seq<T>, skip: nat, limit: nat): (r: seq<T>)
    ensures |r| == if skip >= |rows| then 0 else Min(limit, |rows| - skip)
    ensures forall i :: 0 <= i < |r| ==> r[i] == rows[skip + i]
  {
    if skip >= |rows| then [] else rows[skip..skip + Min(limit, |rows| - skip)]
  }

  /** The primary keys of the rows satisfying `p`, in table order
      (`query(...).filter(p).all()`), starting the scan at row `from`. */
  function IdsWhere<T>(rows: seq<T>, p: T -> bool, from: nat): (r: seq<int>)
    requires from <= |rows|
    ensures forall id :: id in r <==> from < id <= |rows| && p(rows[id - 1])
    ensures forall i :: 0 <= i < |r| ==> from < r[i]
    ensures forall i, j :: 0 <= i < j < |r| ==> r[i] < r[j]
    decreases |rows| - from
  {
    if from == |rows| then []
    else
      var rest := IdsWhere(rows, p, from + 1);
      if p(rows[from]) then [from + 1] + rest else rest
  }

  /** A password hash that Python treats as present (`not user.password_hash` is false). */
  predicate HasPasswordHash(u: User) {
    u.passwordHash.Some? && u.passwordHash.value != ""
  }

  /** The session: the tables, updated in place and committed by each operation. */
  class Database {
    var users: seq<User>
    var emails: seq<Email>
    var providers: seq<Provider>
    var appointments: seq<Appointment>
    var challenges: seq<Challenge>
    var familyGroups: seq<FamilyGroup>
    var invitations: seq<Invitation>

    constructor ()
      ensures users == [] && emails == [] && providers == [] && appointments == []
      ensures challenges == [] && familyGroups == [] && invitations == []
    {
      users, emails, providers, appointments := [], [], [], [];
      challenges, familyGroups, invitations := [], [], [];
    }

    /** No relationship list holds a key twice. */
    ghost predicate LinksDistinct()
      reads this
    {
      && (forall i :: 0 <= i < |users| ==> NoDup(users[i].providers) && NoDup(users[i].emails))
      && (forall i :: 0 <= i < |challenges| ==> NoDup(challenges[i].participants))
      && (forall i :: 0 <= i < |familyGroups| ==> NoDup(familyGroups[i].members))
    }

    // ---- users ---------------------------------------------------------------

    function GetUser(userId: int): (r: Option<User>)
      reads this
      ensures r.Some? <==> HasId(users, userId)
      ensures r.Some? ==> r.value == users[userId - 1]
    {
      GetById(users, userId)
    }

    /** `get_user_by_health_id`: the first user with that health ID. */
    function GetUserByHealthId(healthId: string): (r: Option<int>)
      reads this
      ensures r.Some? ==> HasId(users, r.value) && users[r.value - 1].healthId == healthId
      ensures r.None? ==> forall j :: 0 <= j < |users| ==> users[j].healthId != healthId
    {
      FirstWhere(users, (u: User) => u.healthId == healthId)
    }

    function GetUsers(skip: nat, limit: nat): (r: seq<User>)
      reads this
      ensures |r| == if skip >= |users| then 0 else Min(limit, |users| - skip)
      ensures forall i :: 0 <= i < |r| ==> r[i] == users[skip + i]
    {
      Page(users, skip, limit)
    }

    /** `create_user_with_password`: inserts a user whose hash is `hash(password)`. */
    method CreateUserWithPassword(user: UserCreate, password: string, hash: string -> string) returns (id: int)
      modifies this`users
      ensures users == old(users) + [User(user.healthId, user.name, user.phoneNumber, user.phoneVerified,
                                          Some(hash(password)), None, [], [])]
      ensures id == |users| && HasId(users, id)
      ensures old(LinksDistinct()) ==> LinksDistinct()
    {
      users := users + [User(user.healthId, user.name, user.phoneNumber, user.phoneVerified,
                             Some(hash(password)), None, [], [])];
      id := |users|;
    }

    /** `update_user`: overwrites the four profile fields of an existing user. */
    method UpdateUser(userId: int, update: UserCreate) returns (r: Option<User>)
      modifies this`users
      ensures r.Some? <==> HasId(old(users), userId)
      ensures r.None? ==> users == old(users)
      ensures r.Some? ==> r.value == old(users)[userId - 1].(healthId := update.healthId, name := update.name,
                                          phoneNumber := update.phoneNumber, phoneVerified := update.phoneVerified)
                          && users == old(users)[userId - 1 := r.value]
      ensures old(LinksDistinct()) ==> LinksDistinct()
    {
      if HasId(users, userId) {
        var u := users[userId - 1].(healthId := update.healthId, name := update.name,
                                    phoneNumber := update.phoneNumber, phoneVerified := update.phoneVerified);
        users := users[userId - 1 := u];
        r := Some(u);
      } else {
        r := None;
      }
    }

    /** `authenticate_user`: the user's key when the user exists, has a password hash and
        `verify(password, hash)` holds; `None` (Python's `False`) otherwise. */
    function AuthenticateUser(healthId: string, password: string, verify: (string, string) -> bool): (r: Option<int>)
      reads this
      ensures r.Some? <==> GetUserByHealthId(healthId).Some?
                           && HasPasswordHash(users[GetUserByHealthId(healthId).value - 1])
                           && verify(password, users[GetUserByHealthId(healthId).value - 1].passwordHash.value)
      ensures r.Some? ==> r == GetUserByHealthId(healthId)
    {
      match GetUserByHealthId(healthId)
      case None => None
      case Some(id) =>
        var u := users[id - 1];
        if !HasPasswordHash(u) then None
        else if !verify(password, u.passwordHash.value) then None
        else Some(id)
    }

    // ---- emails --------------------------------------------------------------

    /** `get_email_by_address`: the first email row with that address. */
    function GetEmailByAddress(address: string): (r: Option<int>)
      reads this
      ensures r.Some? ==> HasId(emails, r.value) && emails[r.value - 1].emailAddress == address
      ensures r.None? ==> forall j :: 0 <= j < |emails| ==> emails[j].emailAddress != address
    {
      FirstWhere(emails, (e: Email) => e.emailAddress == address)
    }

    method CreateEmail(email: EmailCreate) returns (id: int)
      modifies this`emails
      ensures emails == old(emails) + [Email(email.emailAddress, email.verified)]
      ensures id == |emails| && HasId(emails, id)
    {
      emails := emails + [Email(email.emailAddress, email.verified)];
      id := |emails|;
    }

    // ---- providers -----------------------------------------------------------

    function GetProvider(providerId: int): (r: Option<Provider>)
      reads this
      ensures r.Some? <==> HasId(providers, providerId)
      ensures r.Some? ==> r.value == providers[providerId - 1]
    {
      GetById(providers, providerId)
    }

    /** `get_provider_by_license`: the first provider with that license number. */
    function GetProviderByLicense(license: string): (r: Option<int>)
      reads this
      ensures r.Some? ==> HasId(providers, r.value) && providers[r.value - 1].licenseNumber == license
      ensures r.None? ==> forall j :: 0 <= j < |providers| ==> providers[j].licenseNumber != license
    {
      FirstWhere(providers, (p: Provider) => p.licenseNumber == license)
    }

    function GetProviders(skip: nat, limit: nat): (r: seq<Provider>)
      reads this
      ensures |r| == if skip >= |providers| then 0 else Min(limit, |providers| - skip)
      ensures forall i :: 0 <= i < |r| ==> r[i] == providers[skip + i]
    {
      Page(providers, skip, limit)
    }

    method CreateProvider(provider: ProviderCreate) returns (id: int)
      modifies this`providers
      ensures providers == old(providers) + [Provider(provider.licenseNumber, provider.name, provider.specialty, provider.verified)]
      ensures id == |providers| && HasId(providers, id)
    {
      providers := providers + [Provider(provider.licenseNumber, provider.name, provider.specialty, provider.verified)];
      id := |providers|;
    }

    /** `associate_provider_with_user`: links the provider when both rows exist and the
        link is absent. */
    method AssociateProviderWithUser(userId: int, providerId: int) returns (ok: bool)
      modifies this`users
      ensures ok <==> HasId(old(users), userId) && HasId(providers, providerId)
                      && providerId !in old(users)[userId - 1].providers
      ensures ok ==> users == old(users)[userId - 1 := old(users)[userId - 1].(providers := old(users)[userId - 1].providers + [providerId])]
      ensures !ok ==> users == old(users)
      ensures old(LinksDistinct()) ==> LinksDistinct()
    {
      ok := false;
      if HasId(users, userId) && HasId(providers, providerId) {
        var u := users[userId - 1];
        var (linked, added) := AppendIfAbsent(u.providers, providerId);
        if added {
          ghost var before := users;
          users := users[userId - 1 := u.(providers := linked)];
          ok := true;
          assert old(LinksDistinct()) ==> LinksDistinct() by {
            if old(LinksDistinct()) {
              AppendIfAbsentNoDup(u.providers, providerId);
              assert forall i :: 0 <= i < |users| && i != userId - 1 ==> users[i] == before[i];
            }
          }
        }
      }
    }

    /** `dissociate_provider_from_user`: removes the link when both rows exist and the link
        is present. */
    method DissociateProviderFromUser(userId: int, providerId: int) returns (ok: bool)
      modifies this`users
      ensures ok <==> HasId(old(users), userId) && HasId(providers, providerId)
                      && providerId in old(users)[userId - 1].providers
      ensures ok ==> users == old(users)[userId - 1 := old(users)[userId - 1].(providers := RemoveFirst(old(users)[userId - 1].providers, providerId))]
      ensures !ok ==> users == old(users)
      ensures old(LinksDistinct()) ==> LinksDistinct()
    {
      ok := false;
      if HasId(users, userId) && HasId(providers, providerId) && providerId in users[userId - 1].providers {
        var u := users[userId - 1];
        ghost var before := users;
        users := users[userId - 1 := u.(providers := RemoveFirst(u.providers, providerId))];
        ok := true;
        assert old(LinksDistinct()) ==> LinksDistinct() by {
          if old(LinksDistinct()) {
            RemoveFirstNoDup(u.providers, providerId);
            assert forall i :: 0 <= i < |users| && i != userId - 1 ==> users[i] == before[i];
          }
        }
      }
    }

    /** `set_primary_provider`: needs only that both rows exist; the provider need not be
        linked to the user. */
    method SetPrimaryProvider(userId: int, providerId: int) returns (ok: bool)
      modifies this`users
      ensures ok <==> HasId(old(users), userId) && HasId(providers, providerId)
      ensures ok ==> users == old(users)[userId - 1 := old(users)[userId - 1].(primaryProviderId := Some(providerId))]
      ensures !ok ==> users == old(users)
      ensures old(LinksDistinct()) ==> LinksDistinct()
    {
      ok := false;
      if HasId(users, userId) && HasId(providers, providerId) {
        users := users[userId - 1 := users[userId - 1].(primaryProviderId := Some(providerId))];
        ok := true;
      }
    }

    // ---- appointments --------------------------------------------------------

    function GetAppointment(appointmentId: int): (r: Option<Appointment>)
      reads this
      ensures r.Some? <==> HasId(appointments, appointmentId)
      ensures r.Some? ==> r.value == appointments[appointmentId - 1]
    {
      GetById(appointments, appointmentId)
    }

    /** `get_user_appointments`: the keys of exactly the appointments of `userId`, in table order. */
    function GetUserAppointments(userId: int): (r: seq<int>)
      reads this
      ensures forall id :: id in r <==> HasId(appointments, id) && appointments[id - 1].userId == userId
      ensures forall i, j :: 0 <= i < j < |r| ==> r[i] < r[j]
    {
      IdsWhere(appointments, (a: Appointment) => a.userId == userId, 0)
    }

    function GetAppointments(skip: nat, limit: nat): (r: seq<Appointment>)
      reads this
      ensures |r| == if skip >= |appointments| then 0 else Min(limit, |appointments| - skip)
      ensures forall i :: 0 <= i < |r| ==> r[i] == appointments[skip + i]
    {
      Page(appointments, skip, limit)
    }

    method CreateAppointment(appointment: AppointmentCreate, userId: int) returns (id: int)
      modifies this`appointments
      ensures appointments == old(appointments) + [Appointment(appointment.appointmentId, userId, appointment.providerId,
                                  appointment.dateTime, appointment.consultationType, appointment.notes, false, None)]
      ensures id == |appointments| && HasId(appointments, id)
    {
      appointments := appointments + [Appointment(appointment.appointmentId, userId, appointment.providerId,
                                  appointment.dateTime, appointment.consultationType, appointment.notes, false, None)];
      id := |appointments|;
    }

    /** `cancel_appointment`: one-shot; succeeds only on an existing appointment that is not
        cancelled yet, and records the reason. */
    method CancelAppointment(appointmentId: int, reason: string) returns (ok: bool)
      modifies this`appointments
      ensures ok <==> HasId(old(appointments), appointmentId) && !old(appointments)[appointmentId - 1].cancelled
      ensures ok ==> appointments == old(appointments)[appointmentId - 1 :=
                       old(appointments)[appointmentId - 1].(cancelled := true, cancellationReason := Some(reason))]
      ensures !ok ==> appointments == old(appointments)
    {
      ok := false;
      if HasId(appointments, appointmentId) && !appointments[appointmentId - 1].cancelled {
        appointments := appointments[appointmentId - 1 :=
                          appointments[appointmentId - 1].(cancelled := true, cancellationReason := Some(reason))];
        ok := true;
      }
    }

    // ---- challenges ----------------------------------------------------------

    function GetChallenge(challengeId: int): (r: Option<Challenge>)
      reads this
      ensures r.Some? <==> HasId(challenges, challengeId)
      ensures r.Some? ==> r.value == challenges[challengeId - 1]
    {
      GetById(challenges, challengeId)
    }

    function GetChallenges(skip: nat, limit: nat): (r: seq<Challenge>)
      reads this
      ensures |r| == if skip >= |challenges| then 0 else Min(limit, |challenges| - skip)
      ensures forall i :: 0 <= i < |r| ==> r[i] == challenges[skip + i]
    {
      Page(challenges, skip, limit)
    }

    method CreateChallenge(challenge: ChallengeCreate, creatorId: int) returns (id: int)
      modifies this`challenges
      ensures challenges == old(challenges) + [Challenge(challenge.challengeId, creatorId, challenge.goal,
                                                         challenge.startDate, challenge.endDate, [])]
      ensures id == |challenges| && HasId(challenges, id)
      ensures old(LinksDistinct()) ==> LinksDistinct()
    {
      challenges := challenges + [Challenge(challenge.challengeId, creatorId, challenge.goal,
                                            challenge.startDate, challenge.endDate, [])];
      id := |challenges|;
    }

    /** `add_participant_to_challenge`: append-if-absent on the participant list. */
    method AddParticipantToChallenge(challengeId: int, userId: int) returns (ok: bool)
      modifies this`challenges
      ensures ok <==> HasId(old(challenges), challengeId) && HasId(users, userId)
                      && userId !in old(challenges)[challengeId - 1].participants
      ensures ok ==> challenges == old(challenges)[challengeId - 1 :=
                       old(challenges)[challengeId - 1].(participants := old(challenges)[challengeId - 1].participants + [userId])]
      ensures !ok ==> challenges == old(challenges)
      ensures old(LinksDistinct()) ==> LinksDistinct()
    {
      ok := false;
      if HasId(challenges, challengeId) && HasId(users, userId) {
        var c := challenges[challengeId - 1];
        var (joined, added) := AppendIfAbsent(c.participants, userId);
        if added {
          ghost var before := challenges;
          challenges := challenges[challengeId - 1 := c.(participants := joined)];
          ok := true;
          assert old(LinksDistinct()) ==> LinksDistinct() by {
            if old(LinksDistinct()) {
              AppendIfAbsentNoDup(c.participants, userId);
              assert forall i :: 0 <= i < |challenges| && i != challengeId - 1 ==> challenges[i] == before[i];
            }
          }
        }
      }
    }

    // ---- family groups -------------------------------------------------------

    method CreateFamilyGroup(name: string) returns (id: int)
      modifies this`familyGroups
      ensures familyGroups == old(familyGroups) + [FamilyGroup(name, [])]
      ensures id == |familyGroups| && HasId(familyGroups, id)
      ensures old(LinksDistinct()) ==> LinksDistinct()
    {
      familyGroups := familyGroups + [FamilyGroup(name, [])];
      id := |familyGroups|;
    }

    /** `add_member_to_family_group`: append-if-absent on the member list. */
    method AddMemberToFamilyGroup(groupId: int, userId: int) returns (ok: bool)
      modifies this`familyGroups
      ensures ok <==> HasId(old(familyGroups), groupId) && HasId(users, userId)
                      && userId !in old(familyGroups)[groupId - 1].members
      ensures ok ==> familyGroups == old(familyGroups)[groupId - 1 :=
                       old(familyGroups)[groupId - 1].(members := old(familyGroups)[groupId - 1].members + [userId])]
      ensures !ok ==> familyGroups == old(familyGroups)
      ensures old(LinksDistinct()) ==> LinksDistinct()
    {
      ok := false;
      if HasId(familyGroups, groupId) && HasId(users, userId) {
        var g := familyGroups[groupId - 1];
        var (joined, added) := AppendIfAbsent(g.members, userId);
        if added {
          ghost var before := familyGroups;
          familyGroups := familyGroups[groupId - 1 := g.(members := joined)];
          ok := true;
          assert old(LinksDistinct()) ==> LinksDistinct() by {
            if old(LinksDistinct()) {
              AppendIfAbsentNoDup(g.members, userId);
              assert forall i :: 0 <= i < |familyGroups| && i != groupId - 1 ==> familyGroups[i] == before[i];
            }
          }
        }
      }
    }

    // ---- invitations ---------------------------------------------------------

    function GetInvitation(invitationId: int): (r: Option<Invitation>)
      reads this
      ensures r.Some? <==> HasId(invitations, invitationId)
      ensures r.Some? ==> r.value == invitations[invitationId - 1]
    {
      GetById(invitations, invitationId)
    }

    /** `create_invitation` at instant `now`: expires 15 days later. Only the recipient
        and type of the request are stored; its challenge and family-group ids are not. */
    method CreateInvitation(invitation: InvitationCreate, senderId: int, now: int) returns (id: int)
      modifies this`invitations
      ensures invitations == old(invitations) + [Invitation(senderId, invitation.recipientEmail, invitation.recipientPhone,
                               invitation.invitationType, None, None, now, None, now + InvitationLifetime, false, false, false)]
      ensures id == |invitations| && HasId(invitations, id)
      ensures invitations[id - 1].expiredAt - invitations[id - 1].sentAt == 1296000
    {
      invitations := invitations + [Invitation(senderId, invitation.recipientEmail, invitation.recipientPhone,
                               invitation.invitationType, None, None, now, None, now + InvitationLifetime, false, false, false)];
      id := |invitations|;
    }

    /** `accept_invitation` at instant `now`. An open invitation (neither expired nor
        accepted) is accepted before its expiry instant and flagged expired from then on. */
    method AcceptInvitation(invitationId: int, now: int) returns (ok: bool)
      modifies this`invitations
      ensures ok <==> HasId(old(invitations), invitationId)
                      && !old(invitations)[invitationId - 1].isExpired
                      && !old(invitations)[invitationId - 1].isAccepted
                      && now < old(invitations)[invitationId - 1].expiredAt
      ensures ok ==> invitations == old(invitations)[invitationId - 1 :=
                       old(invitations)[invitationId - 1].(isAccepted := true, acceptedAt := Some(now))]
      ensures !ok && HasId(old(invitations), invitationId)
              && !old(invitations)[invitationId - 1].isExpired && !old(invitations)[invitationId - 1].isAccepted
              ==> invitations == old(invitations)[invitationId - 1 := old(invitations)[invitationId - 1].(isExpired := true)]
      ensures !ok && !(HasId(old(invitations), invitationId)
              && !old(invitations)[invitationId - 1].isExpired && !old(invitations)[invitationId - 1].isAccepted)
              ==> invitations == old(invitations)
    {
      ok := false;
      if HasId(invitations, invitationId) {
        var inv := invitations[invitationId - 1];
        if !inv.isExpired && !inv.isAccepted {
          if now < inv.expiredAt {
            invitations := invitations[invitationId - 1 := inv.(isAccepted := true, acceptedAt := Some(now))];
            ok := true;
          } else {
            invitations := invitations[invitationId - 1 := inv.(isExpired := true)];
          }
        }
      }
    }
  }
}
