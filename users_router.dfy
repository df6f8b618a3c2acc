/** The `/users` routes (backend/routers/users.py): lookups that raise 404, the
    health-ID uniqueness check, email find-or-create linking and the provider links. */
module UsersRouter {
  import opened Wrappers
  import opened Seqs
  import opened Http
  import opened Crud

  /** No two users share a health ID. */
  ghost predicate UniqueHealthIds(users: seq<User>) {
    forall i, j :: 0 <= i < j < |users| ==> users[i].healthId != users[j].healthId
  }

  /** POST /users/: 400 when the health ID is taken, otherwise the new user's key. */
  method CreateUser(db: Database, user: UserCreate, password: string, hash: string -> string) returns (r: Reply<int>)
    modifies db`users
    ensures old(db.GetUserByHealthId(user.healthId)).Some? ==>
              r == HttpException(400, "User with this health ID already exists") && db.users == old(db.users)
    ensures old(db.GetUserByHealthId(user.healthId)).None? ==>
              && db.users == old(db.users) + [User(user.healthId, user.name, user.phoneNumber, user.phoneVerified,
                                                   Some(hash(password)), None, [], [])]
              && r == Success(|db.users|)
    ensures UniqueHealthIds(old(db.users)) ==> UniqueHealthIds(db.users)
  {
    if db.GetUserByHealthId(user.healthId).Some? {
      return HttpException(400, "User with this health ID already exists");
    }
    var id := db.CreateUserWithPassword(user, password, hash);
    r := Success(id);
  }

  /** GET /users/{user_id}. */
  function ReadUser(db: Database, userId: int): (r: Reply<User>)
    reads db
    ensures r.Success? <==> HasId(db.users, userId)
    ensures r.Success? ==> r.body == db.users[userId - 1]
    ensures r.HttpException? ==> r == HttpException(404, "User not found")
  {
    match db.GetUser(userId)
    case None => HttpException(404, "User not found")
    case Some(u) => Success(u)
  }

  /** GET /users/?skip&limit. */
  function ReadUsers(db: Database, skip: nat, limit: nat): (r: seq<User>)
    reads db
    ensures |r| == if skip >= |db.users| then 0 else Min(limit, |db.users| - skip)
    ensures forall i :: 0 <= i < |r| ==> r[i] == db.users[skip + i]
  {
    Page(db.users, skip, limit)
  }

  /** PUT /users/{user_id}: 404 for an unknown user. */
  method UpdateUser(db: Database, userId: int, user: UserCreate) returns (r: Reply<User>)
    modifies db`users
    ensures r.HttpException? <==> !HasId(old(db.users), userId)
    ensures r.HttpException? ==> r == HttpException(404, "User not found") && db.users == old(db.users)
    ensures r.Success? ==> (db.users == old(db.users)[userId - 1 := r.body]
              && r.body == old(db.users)[userId - 1].(healthId := user.healthId, name := user.name,
                                                       phoneNumber := user.phoneNumber, phoneVerified := user.phoneVerified))
  {
    var updated := db.UpdateUser(userId, user);
    if updated.None? {
      return HttpException(404, "User not found");
    }
    r := Success(updated.value);
  }

  /** POST /users/{user_id}/emails/: reuses the email row with that address if there is
      one, creates it otherwise, and links it to the user at most once. */
  method AddEmailToUser(db: Database, userId: int, email: EmailCreate) returns (r: Reply<int>)
    modifies db`users, db`emails
    ensures !HasId(old(db.users), userId) ==>
              r == HttpException(404, "User not found") && db.users == old(db.users) && db.emails == old(db.emails)
    ensures HasId(old(db.users), userId) ==>
              r.Success? && HasId(db.emails, r.body) && db.emails[r.body - 1].emailAddress == email.emailAddress
    ensures HasId(old(db.users), userId) && old(db.GetEmailByAddress(email.emailAddress)).Some? ==>
              r == Success(old(db.GetEmailByAddress(email.emailAddress)).value) && db.emails == old(db.emails)
    ensures HasId(old(db.users), userId) && old(db.GetEmailByAddress(email.emailAddress)).None? ==>
              db.emails == old(db.emails) + [Email(email.emailAddress, email.verified)] && r == Success(|db.emails|)
    ensures HasId(old(db.users), userId) ==>
              db.users == old(db.users)[userId - 1 := old(db.users)[userId - 1].(emails :=
                            AppendIfAbsent(old(db.users)[userId - 1].emails, r.body).0)]
  {
    var user := db.GetUser(userId);
    if user.None? {
      return HttpException(404, "User not found");
    }
    var emailId: int;
    var found := db.GetEmailByAddress(email.emailAddress);
    if found.None? {
      emailId := db.CreateEmail(email);
    } else {
      emailId := found.value;
    }
    var u := db.users[userId - 1];
    if emailId !in u.emails {
      db.users := db.users[userId - 1 := u.(emails := u.emails + [emailId])];
    }
    r := Success(emailId);
  }

  /** Repeating the same email request changes nothing the second time and returns the
      same email. */
  method AddEmailTwice(db: Database, userId: int, email: EmailCreate) returns (first: Reply<int>, second: Reply<int>)
    modifies db`users, db`emails
    ensures first == second
    ensures HasId(old(db.users), userId) ==> |db.emails| <= |old(db.emails)| + 1
  {
    first := AddEmailToUser(db, userId, email);
    ghost var users1, emails1 := db.users, db.emails;
    second := AddEmailToUser(db, userId, email);
    assert db.users == users1 && db.emails == emails1;
  }

  /** POST /users/{user_id}/providers/{provider_id}. */
  method AssociateProviderWithUser(db: Database, userId: int, providerId: int) returns (r: Reply<string>)
    modifies db`users
    ensures r.Success? <==> (HasId(old(db.users), userId) && HasId(db.providers, providerId)
              && providerId !in old(db.users)[userId - 1].providers)
    ensures r.Success? ==> r.body == "Provider associated with user successfully"
    ensures r.Success? ==> db.users == old(db.users)[userId - 1 :=
              old(db.users)[userId - 1].(providers := old(db.users)[userId - 1].providers + [providerId])]
    ensures r.HttpException? ==>
              r == HttpException(404, "User or provider not found, or association already exists")
              && db.users == old(db.users)
  {
    var ok := db.AssociateProviderWithUser(userId, providerId);
    if !ok {
      return HttpException(404, "User or provider not found, or association already exists");
    }
    r := Success("Provider associated with user successfully");
  }

  /** DELETE /users/{user_id}/providers/{provider_id}. */
  method DissociateProviderFromUser(db: Database, userId: int, providerId: int) returns (r: Reply<string>)
    modifies db`users
    ensures r.Success? <==> (HasId(old(db.users), userId) && HasId(db.providers, providerId)
              && providerId in old(db.users)[userId - 1].providers)
    ensures r.Success? ==> r.body == "Provider dissociated from user successfully"
    ensures r.Success? ==> db.users == old(db.users)[userId - 1 :=
              old(db.users)[userId - 1].(providers := RemoveFirst(old(db.users)[userId - 1].providers, providerId))]
    ensures r.HttpException? ==>
              r == HttpException(404, "User or provider not found, or association does not exist")
              && db.users == old(db.users)
  {
    var ok := db.DissociateProviderFromUser(userId, providerId);
    if !ok {
      return HttpException(404, "User or provider not found, or association does not exist");
    }
    r := Success("Provider dissociated from user successfully");
  }

  /** Associating a provider and then dissociating it restores the user rows. */
  method AssociateThenDissociate(db: Database, userId: int, providerId: int) returns (a: Reply<string>, d: Reply<string>)
    modifies db`users
    ensures a.Success? ==> d.Success? && db.users == old(db.users)
    ensures a.HttpException? && HasId(db.users, userId) && HasId(db.providers, providerId) ==> d.Success?
  {
    a := AssociateProviderWithUser(db, userId, providerId);
    ghost var mid := db.users;
    d := DissociateProviderFromUser(db, userId, providerId);
    if a.Success? {
      ghost var u := old(db.users)[userId - 1];
      RemoveAfterAppend(u.providers, providerId);
      assert db.users[userId - 1] == u;
      assert db.users == old(db.users)[userId - 1 := u];
    }
  }

  /** PUT /users/{user_id}/primary-provider/{provider_id}. */
  method SetPrimaryProvider(db: Database, userId: int, providerId: int) returns (r: Reply<string>)
    modifies db`users
    ensures r.Success? <==> HasId(old(db.users), userId) && HasId(db.providers, providerId)
    ensures r.Success? ==> r.body == "Primary provider set successfully"
    ensures r.Success? ==> db.users == old(db.users)[userId - 1 :=
              old(db.users)[userId - 1].(primaryProviderId := Some(providerId))]
    ensures r.HttpException? ==> r == HttpException(404, "User or provider not found") && db.users == old(db.users)
  {
    var ok := db.SetPrimaryProvider(userId, providerId);
    if !ok {
      return HttpException(404, "User or provider not found");
    }
    r := Success("Primary provider set successfully");
  }
}
