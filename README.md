# health-track in Dafny

A model of the rule-bearing core of health-track. The backend is a FastAPI/SQLAlchemy
service; the client is a Next.js application.

**The backend.** The backend's data-access layer (`backend/crud.py`) is a class
`Crud.Database`. Its tables are sequences of row values, and the primary key of a row is
its position plus one. Relationship lists (a user's providers and emails, a challenge's
participants, a family group's members) hold primary keys. The route handlers of the
five routers are methods and functions over that store. Each returns an `Http.Reply`: a
body, or the `HTTPException(status_code, detail)` it raises.

**The client.**
- Each page or component whose handlers update React state is a class. Its fields are the
  `useState` variables, and each handler is a method that performs the whole sequential
  step.
- Every awaited network call becomes a parameter of type `ApiErrors.Call`: the value it
  resolved with, or what it threw.
- `new Date(...)`, `Number(...)`, `Date.now()` and `window.confirm` become parameters.
- Classifiers, filters and state-update callbacks that only compute a value are functions.
  The lemmas beside them state the properties the pages rely on: membership and order of
  filters, toggles that flip, merges that keep other keys, and validators equal to the
  regular expressions they stand for.

Shared pieces:
- `Wrappers`: `Option`, `Result`.
- `Seqs`: `filter` and append-if-absent, with their lemmas.
- `Text`: `trim`, `toLowerCase`, `includes`, `startsWith`, `split`, `parseInt`, decimal printing.
- `Http`: the reply type.
- `Loading`: the loading-key map.
- `ApiErrors`: thrown values and messages.

## Model

| member | source | states |
|---|---|---|
| Crud.GetById | backend/crud.py:17-18 | a lookup by primary key finds a row exactly when the key is in range, and then it is that row |
| Crud.FirstWhere | backend/crud.py:20-21 | `filter(...).first()` yields the first row satisfying the predicate, or none when no row does |
| Crud.Page | backend/crud.py:23-24 | `offset(skip).limit(limit)` returns `min(limit, n - skip)` rows (none past the end), the i-th being row `skip + i` |
| Crud.IdsWhere | backend/crud.py:150-151 | the keys returned are exactly those of matching rows past the start, strictly increasing (table order) |
| Crud.Database.constructor | backend/crud.py:14-259 | a new store has every table empty |
| Crud.Database.GetUser | backend/crud.py:17-18 | the user exists exactly when the id is a key of the table, and is that row |
| Crud.Database.GetUserByHealthId | backend/crud.py:20-21 | finds a user whose health ID is the one asked for; none means no user has it |
| Crud.Database.GetUsers | backend/crud.py:23-24 | exactly the users from `skip` on, `min(limit, n - skip)` of them (none when `skip` is past the end); the i-th is user `skip + i` |
| Crud.Database.CreateUserWithPassword | backend/crud.py:38-50 | appends one user with the given fields, the hash of the password, no primary provider and no links; returns its key; keeps links duplicate-free |
| Crud.Database.UpdateUser | backend/crud.py:52-61 | an existing user gets the four profile fields overwritten and nothing else changed; an unknown id changes nothing and returns none |
| Crud.Database.AuthenticateUser | backend/crud.py:66-72 | succeeds exactly when a user with the health ID exists, has a non-empty password hash and the password verifies against it, and then returns that user |
| Crud.Database.GetEmailByAddress | backend/crud.py:78-79 | finds an email row with that address; none means no row has it |
| Crud.Database.CreateEmail | backend/crud.py:81-89 | appends exactly one email row and returns its key |
| Crud.Database.GetProvider | backend/crud.py:92-93 | the provider exists exactly when the id is a key, and is that row |
| Crud.Database.GetProviderByLicense | backend/crud.py:95-96 | finds a provider with that license number; none means no provider has it |
| Crud.Database.GetProviders | backend/crud.py:98-99 | exactly the providers from `skip` on, `min(limit, n - skip)` of them (none when `skip` is past the end); the i-th is provider `skip + i` |
| Crud.Database.CreateProvider | backend/crud.py:101-111 | appends exactly one provider row and returns its key |
| Crud.Database.AssociateProviderWithUser | backend/crud.py:113-120 | true exactly when both rows exist and the link is absent, and then the provider is appended to that user's list only; otherwise nothing changes; no list ever holds a duplicate |
| Crud.Database.DissociateProviderFromUser | backend/crud.py:122-129 | true exactly when both rows exist and the link is present, and then that link is removed from that user only; otherwise nothing changes; lists stay duplicate-free |
| Crud.Database.SetPrimaryProvider | backend/crud.py:131-138 | true exactly when both rows exist, even if the provider is not linked, and then only that user's primary provider changes; otherwise nothing changes |
| Crud.Database.GetAppointment | backend/crud.py:141-142 | the appointment exists exactly when the id is a key, and is that row |
| Crud.Database.GetUserAppointments | backend/crud.py:150-151 | exactly the appointments whose user is `userId`, in table order |
| Crud.Database.GetAppointments | backend/crud.py:147-148 | exactly the appointments from `skip` on, `min(limit, n - skip)` of them (none when `skip` is past the end); the i-th is appointment `skip + i` |
| Crud.Database.CreateAppointment | backend/crud.py:153-165 | appends one uncancelled appointment for the user with the request's fields |
| Crud.Database.CancelAppointment | backend/crud.py:167-174 | succeeds exactly on an existing, not yet cancelled appointment, and then marks only it cancelled with the reason; otherwise nothing changes, so a second cancel fails and keeps the first reason |
| Crud.Database.GetChallenge | backend/crud.py:177-178 | the challenge exists exactly when the id is a key, and is that row |
| Crud.Database.GetChallenges | backend/crud.py:183-184 | exactly the challenges from `skip` on, `min(limit, n - skip)` of them (none when `skip` is past the end); the i-th is challenge `skip + i` |
| Crud.Database.CreateChallenge | backend/crud.py:186-197 | appends one challenge with no participants |
| Crud.Database.AddParticipantToChallenge | backend/crud.py:199-206 | append-if-absent: true exactly when challenge and user exist and the user is not yet a participant; a repeat call returns false and changes nothing; lists stay duplicate-free |
| Crud.Database.CreateFamilyGroup | backend/crud.py:212-217 | appends one group with no members |
| Crud.Database.AddMemberToFamilyGroup | backend/crud.py:219-226 | append-if-absent on the member list, with the same guarantees as adding a participant |
| Crud.Database.GetInvitation | backend/crud.py:229-230 | the invitation exists exactly when the id is a key, and is that row |
| Crud.Database.CreateInvitation | backend/crud.py:232-244 | appends an open invitation sent at `now` whose expiry is exactly 15 days (1296000 s) later |
| Crud.Database.AcceptInvitation | backend/crud.py:246-259 | true exactly for an existing invitation that is neither expired nor accepted, when `now` is before its expiry; it then records acceptance at `now`. Past the expiry it flags the invitation expired and returns false. Any other case changes nothing |
| UsersRouter.CreateUser | backend/routers/users.py:17-22 | a taken health ID gives 400 and no change; otherwise exactly one user is added; uniqueness of health IDs is preserved |
| UsersRouter.ReadUser | backend/routers/users.py:24-29 | the user for a known id, 404 "User not found" otherwise |
| UsersRouter.ReadUsers | backend/routers/users.py:31-34 | the page of users given by skip then limit |
| UsersRouter.UpdateUser | backend/routers/users.py:36-41 | 404 exactly for an unknown id, with no change. Otherwise that user's row gets the four profile fields of the request and keeps everything else (password hash, primary provider, links); other rows are unchanged |
| UsersRouter.AddEmailToUser | backend/routers/users.py:43-57 | 404 for an unknown user with no change. An existing email row with the address is reused, and otherwise exactly one row is created. The email is then linked to the user at most once |
| UsersRouter.AddEmailTwice | backend/routers/users.py:43-57 | repeating the request returns the same reply, and at most one email row is ever added |
| UsersRouter.AssociateProviderWithUser | backend/routers/users.py:59-64 | success (with its fixed message) exactly when the crud call links the provider; any false result becomes 404 with no change |
| UsersRouter.DissociateProviderFromUser | backend/routers/users.py:66-71 | success exactly when the link existed and is removed; any false result becomes 404 with no change |
| UsersRouter.AssociateThenDissociate | backend/routers/users.py:59-71 | a successful associate followed by a dissociate succeeds and restores the original user rows |
| UsersRouter.SetPrimaryProvider | backend/routers/users.py:73-78 | success exactly when both rows exist; a false result becomes 404 with no change |
| ProvidersRouter.CreateProvider | backend/routers/providers.py:17-22 | a taken license number gives 400 and no change; otherwise exactly the new provider is appended; license uniqueness is preserved |
| ProvidersRouter.ReadProvider | backend/routers/providers.py:24-29 | the provider for a known id, 404 "Provider not found" otherwise |
| ProvidersRouter.ReadProviders | backend/routers/providers.py:31-34 | the slice given by skip then limit |
| ProvidersRouter.CreateProviderTwice | backend/routers/providers.py:17-22 | repeating a create is refused with 400, adds at most one provider, and keeps licenses unique |
| AppointmentsRouter.CreateAppointment | backend/routers/appointments.py:16-34 | an unknown user is reported (404) before an unknown provider (404); a store ValueError gives 400 with its message; only success appends the appointment |
| AppointmentsRouter.ReadAppointment | backend/routers/appointments.py:37-42 | the appointment for a known id, 404 otherwise |
| AppointmentsRouter.ReadAppointments | backend/routers/appointments.py:45-48 | the page given by skip then limit |
| AppointmentsRouter.ReadUserAppointments | backend/routers/appointments.py:51-59 | 404 exactly for an unknown user; otherwise exactly that user's appointments, in table order |
| AppointmentsRouter.CancelAppointment | backend/routers/appointments.py:62-73 | success exactly on an existing uncancelled appointment, which is marked cancelled with the reason; otherwise 404 and no change |
| AppointmentsRouter.CancelTwice | backend/routers/appointments.py:62-73 | a second cancel of the same id always fails with 404, and the first reason stays |
| ChallengesRouter.CreateChallenge | backend/routers/challenges.py:19-29 | 404 exactly for an unknown creator, with no change; otherwise one challenge is appended |
| ChallengesRouter.ReadChallenge | backend/routers/challenges.py:32-37 | the challenge for a known id, 404 otherwise |
| ChallengesRouter.ReadChallenges | backend/routers/challenges.py:48-51 | the page given by skip then limit |
| ChallengesRouter.AddParticipantToChallenge | backend/routers/challenges.py:54-76 | checks, in order: unknown challenge (404), then unknown user (404), then existing participant (400), each with no change; success appends the user once |
| ChallengesRouter.JoinTwice | backend/routers/challenges.py:54-76 | after a successful join, the same join is refused with 400 and the participant list holds the user once |
| InvitationsRouter.CreateInvitation | backend/routers/invitations.py:16-25 | 404 exactly for an unknown sender; otherwise one open invitation expiring 15 days after `now` |
| InvitationsRouter.ReadInvitation | backend/routers/invitations.py:28-33 | the invitation for a known id, 404 otherwise |
| InvitationsRouter.AcceptInvitation | backend/routers/invitations.py:41-48 | any refusal by crud (missing, already accepted, expired) becomes 400; success carries the fixed message and the acceptance |
| InvitationsRouter.CreateThenAccept | backend/routers/invitations.py:16-48 | a fresh invitation can be accepted exactly while less than 15 days have passed; a second accept is always refused |
| Loading.WithStarted | src/lib/loadingManager.ts:33-35 | after `startLoading(k)`, `k` reads as loading and every other key keeps its value |
| Loading.WithStopped | src/lib/loadingManager.ts:41-43 | after `stopLoading(k)`, `k` reads as not loading and every other key keeps its value |
| Loading.StartIdempotent | src/lib/loadingManager.ts:33-35 | starting twice is starting once |
| Loading.StopAfterStart | src/lib/loadingManager.ts:33-43 | start then stop on `k` leaves every other key reading as before, and `k` not loading |
| Loading.LoadingManager.constructor | src/lib/loadingManager.ts:19 | the map starts empty |
| Loading.LoadingManager.StartLoading | src/lib/loadingManager.ts:33-35 | the new map is the start update of the old one |
| Loading.LoadingManager.StopLoading | src/lib/loadingManager.ts:41-43 | the new map is the stop update of the old one |
| Loading.LoadingManager.IsLoading | src/lib/loadingManager.ts:50-53 | a never-touched key is false; otherwise the stored flag |
| Loading.StartStopScenario | src/lib/loadingManager.ts:19-53 | a fresh key reads false, true after a start and false after a stop |
| ApiErrors.StatusMessage | src/lib/apiErrorHandler.ts:23-29 | the fallback message begins with `HTTP `, so it is never blank |
| ApiErrors.IsJson | src/lib/apiErrorHandler.ts:17-18 | the body is read as JSON exactly when a content type is present and includes `application/json` (the truthiness test adds nothing) |
| ApiErrors.HandleApiError | src/lib/apiErrorHandler.ts:13-31 | the thrown error always carries the response status and a non-empty message. A readable JSON body gives the first truthy of detail, message and error (else the fixed text), and the code from `code`. A non-JSON body or a parse failure gives the status message and no code |
| ApiErrors.GetErrorMessage | src/lib/apiErrorHandler.ts:34-44 | the message of any Error, ApiError included; the fixed unknown-error text for any other value |
| ApiErrors.MessageOr | src/lib/apiErrorHandler.ts:34-44 | the error's message for an Error, the fallback otherwise |
| ApiErrors.MessageFieldOr | src/components/ProviderAvailabilityManager.tsx:63 | `error.message \|\| fallback`: the message when non-empty, the fallback otherwise |
| ApiErrors.ThrownMessageNonEmpty | src/lib/apiErrorHandler.ts:19-31 | an error thrown for a response never shows a blank message |
| Middleware.AnyPrefix | src/middleware.ts:12-14 | true exactly when the path starts with one of the routes |
| Middleware.IsProtectedRoute | src/middleware.ts:5-14 | a path is protected exactly when it starts with /dashboard, /profile, /appointments or /challenges |
| Middleware.Handle | src/middleware.ts:8-63 | redirects to /login exactly for a protected path without a token. With a token it sets the `authorization` header to `Bearer <token>` and re-sets the cookie (httpOnly, secure in production, 7-day max age, path /). Without a token it forwards the headers untouched. Header names stay in the lowercase form `Headers` stores |
| Middleware.AuthorizationHeaderIsLower | src/middleware.ts:40-43 | the name written for `Authorization` is its own lowercase form |
| Middleware.BearerReplacesIncoming | src/middleware.ts:40-43 | an incoming `authorization` header is replaced by the bearer token, not duplicated: the header names are the same as before |
| Middleware.PrefixIsEnough | src/middleware.ts:5 | `/profilex` is protected, and without a token it is redirected |
| Middleware.UnlistedPagesNeverRedirected | src/middleware.ts:5 | /familyGroup and /messages paths are never redirected |
| Middleware.AuthRoutesNeverRedirected | src/middleware.ts:17-19 | login and register paths are never redirected, since the auth-route test is unused |
| Availability.Unexpired | src/components/ProviderAvailabilityManager.tsx:54-60 | the filter keeps only slots whose end is after now, and never grows the list |
| Availability.UnexpiredMembership | src/components/ProviderAvailabilityManager.tsx:56-60 | a slot survives exactly when it was present and has not ended |
| Availability.UnexpiredKeepsOrder | src/components/ProviderAvailabilityManager.tsx:56-60 | the survivors keep their original order |
| Availability.SweepTwice | src/components/ProviderAvailabilityManager.tsx:38-41 | sweeping at t1 then t2 ≥ t1 equals sweeping at t2; in particular the sweep is idempotent at a fixed now |
| Availability.SweepKeepsLive | src/components/ProviderAvailabilityManager.tsx:38-41 | the sweep removes nothing when no slot has ended |
| Availability.Validate | src/components/ProviderAvailabilityManager.tsx:76-95 | the format error occurs exactly when an instant is invalid, and is checked first. Otherwise the result is valid exactly when end > start. The payload has the provider's id, `is_booked = false` and the two instants. An end at or before the start gives "End time must be later than start time" |
| Availability.AvailabilityManager.constructor | src/components/ProviderAvailabilityManager.tsx:26-34 | the initial state: empty fields and list, not loading, nothing deleting, no error |
| Availability.AvailabilityManager.Sweep | src/components/ProviderAvailabilityManager.tsx:38-41 | one tick replaces the list by its unexpired part |
| Availability.AvailabilityManager.LoadAvailabilities | src/components/ProviderAvailabilityManager.tsx:51-67 | a successful fetch stores exactly its live slots; a failure keeps the list and records the message; loading ends false |
| Availability.AvailabilityManager.HandleSubmit | src/components/ProviderAvailabilityManager.tsx:69-120 | a failed check sends nothing, shows its message and keeps the form. A valid form sends exactly the validated slot. The fields are cleared only after the create succeeds, then the list reloads; a failed create keeps the form and shows the error. Loading ends false |
| Availability.AvailabilityManager.HandleDelete | src/components/ProviderAvailabilityManager.tsx:122-152 | a declined confirmation issues no delete and changes nothing. A confirmed one sends that id, and `isDeleting` ends null whatever the outcome. A failure records its message; a success reloads the list. After a confirmed delete the only disabled buttons are those of booked slots |
| Availability.AvailabilityManager.Visible | src/components/ProviderAvailabilityManager.tsx:241-244 | exactly the live slots of the list are rendered, in list order (the unexpired filter of the list) |
| Availability.AvailabilityManager.DeleteDisabled | src/components/ProviderAvailabilityManager.tsx:267-269 | a disabled delete button belongs to a booked slot or to the slot being deleted; with no delete in flight exactly booked slots are disabled |
| Availability.AvailabilityManager.BookedSlotDisabled | src/components/ProviderAvailabilityManager.tsx:267-269 | a booked slot's delete button is disabled whatever is being deleted |
| NewAppointment.WithField | src/app/appointments/new/page.tsx:56-57 | `handleChange` sets exactly the field named by the input id |
| NewAppointment.WithFieldOnlyThatField | src/app/appointments/new/page.tsx:56-57 | the named field gets the value and every other field is unchanged |
| NewAppointment.FindSlot | src/app/appointments/new/page.tsx:96 | finds a listed slot with that id; none means no slot has it |
| NewAppointment.PlanSubmit | src/app/appointments/new/page.tsx:79-110 | the checks run in order: no user first, then an empty license (even with a slot selected). On the slot path an unknown slot is refused and a known one supplies the provider id and time. On the manual path an empty date or time is refused, an invalid instant aborts, and otherwise the parsed license and ISO time are sent |
| NewAppointment.SlotOverridesForm | src/app/appointments/new/page.tsx:91-102 | on the slot path the typed license and manual date/time play no part |
| NewAppointment.Payload | src/app/appointments/new/page.tsx:117-123 | the id starts with `APT-`, `consultation_type` is the form's type, and notes are null exactly when empty |
| NewAppointment.NewAppointmentPage.constructor | src/app/appointments/new/page.tsx:27-39 | the initial form (type "in-person"), no slots, no selection, nothing shown |
| NewAppointment.NewAppointmentPage.HandleChange | src/app/appointments/new/page.tsx:51-58 | the form becomes the one-field update of the old form |
| NewAppointment.NewAppointmentPage.FetchAvailableSlots | src/app/appointments/new/page.tsx:60-73 | on success the slots are shown and the error cleared; on failure the message (or the fallback) is shown; the loading key is started then stopped |
| NewAppointment.NewAppointmentPage.ShowAvailableSlots | src/app/appointments/new/page.tsx:191-198 | fetches exactly for `parseInt(license)`; a NaN license shows the invalid-license message and fetches nothing. Otherwise a success shows the slots and clears the error, a failure keeps the list and shows the message or its fallback, and the `fetchSlots` key is started then stopped |
| NewAppointment.NewAppointmentPage.SelectSlot | src/app/appointments/new/page.tsx:244 | the clicked slot becomes selected |
| NewAppointment.NewAppointmentPage.HideAvailableSlots | src/app/appointments/new/page.tsx:260-263 | hiding the slots also clears the selection |
| NewAppointment.NewAppointmentPage.HandleSubmit | src/app/appointments/new/page.tsx:75-139 | exactly one `createAppointment` call follows a passing plan, and none follows a refusal or an abort. A refusal shows its message. Success navigates to /appointments and a failure shows the error. After a send the `createAppointment` key was started then stopped and no other key changed; a refusal or an abort leaves the loading keys and the route untouched |
| Messages.StatusLabel | src/app/messages/page.tsx:171-181 | priority Accepted > Rejected > Expired > Pending, and "Pending" exactly when the invitation is pending |
| Messages.IsPending | src/app/messages/page.tsx:171-181 | an invitation is pending exactly when its badge reads "Pending" |
| Messages.ActionsDisabled | src/app/messages/page.tsx:270-287 | enabled buttons only ever appear under a "Pending" badge; with no answer in flight they are disabled exactly when the badge is not "Pending" |
| Messages.MethodLabel | src/app/messages/page.tsx:189-193 | `Email: ...` if an email is present, else `Phone: ...`, else "Unknown method" |
| Messages.KeysDistinct | src/app/messages/page.tsx:100-120 | accept and reject loading keys never collide, and keys of different invitations differ |
| Messages.IntToStringInjective | src/app/messages/page.tsx:100 | different ids give different key suffixes |
| Messages.PrefixedDiffer | src/app/messages/page.tsx:100 | a common prefix keeps different keys different |
| Messages.OtherActionsIndependent | src/app/messages/page.tsx:270-274 | starting an action on one invitation does not change whether another's buttons are disabled |
| Messages.InFlightDisables | src/app/messages/page.tsx:270-274 | while either action on an invitation is loading, its buttons are disabled |
| Messages.DetailsOfKeys | src/app/messages/page.tsx:78-86 | the details map has an entry exactly for the numeric ids of the list |
| Messages.DetailsOfLastWins | src/app/messages/page.tsx:78-86 | an entry holds the details of the last challenge with that id |
| Messages.MessagesPage.constructor | src/app/messages/page.tsx:38-44 | empty list, no error, no loading keys, empty details |
| Messages.MessagesPage.BuildChallengeDetails | src/app/messages/page.tsx:74-86 | the loop builds exactly the details map of the list |
| Messages.MessagesPage.LoadChallengeDetails | src/app/messages/page.tsx:70-94 | success stores the details map and failure keeps the old one; the loading key is started then stopped |
| Messages.MessagesPage.FetchInvitations | src/app/messages/page.tsx:52-65 | calls exactly when the user id is truthy. Success stores the list; failure keeps it and shows the message or the fallback |
| Messages.MessagesPage.HandleAnswer | src/app/messages/page.tsx:98-122 | a failed answer shows its message or its fallback and keeps the list. After a success with a truthy user id the list is reloaded: a resolved reload stores it and clears the error, a rejected one keeps it and shows the message or "Failed to fetch invitations". A falsy id reloads nothing and leaves the error cleared. The loading map is exactly the answer key (and `fetchInvitations` when reloading) started then stopped |
| FamilyGroupPage.Merge | src/app/familyGroup/page.tsx:108-121 | patched fields win; unpatched fields keep their prior value or default to (false, [], null); other groups are unchanged |
| FamilyGroupPage.FetchedMembers | src/app/familyGroup/page.tsx:123-134 | after a member fetch only that group's entry changes: not loading, with the fetched members and no error, or the kept members and the failure message |
| FamilyGroupPage.MergeIdempotent | src/app/familyGroup/page.tsx:108-121 | applying a patch twice is applying it once |
| FamilyGroupPage.MergeFullPatch | src/app/familyGroup/page.tsx:108-121 | a patch of every field replaces the entry |
| FamilyGroupPage.Toggle | src/app/familyGroup/page.tsx:93-106 | flips membership of the group only, and fetches exactly when expanding a group with no cache entry |
| FamilyGroupPage.ToggleTwice | src/app/familyGroup/page.tsx:93-106 | toggling twice gives the set back |
| FamilyGroupPage.ResolveUserByEmail | src/app/familyGroup/page.tsx:156-169 | a non-ok lookup throws "User not found for given email"; an ok one gives the body's id |
| FamilyGroupPage.FamilyGroupPage.constructor | src/app/familyGroup/page.tsx:37-67 | the initial empty state |
| FamilyGroupPage.FamilyGroupPage.FetchGroups | src/app/familyGroup/page.tsx:75-87 | calls exactly for a truthy user id. Success stores the groups; failure keeps them and shows the message or its fallback. Loading ends false |
| FamilyGroupPage.FamilyGroupPage.FetchGroupMembers | src/app/familyGroup/page.tsx:123-134 | the cache becomes `FetchedMembers` of the old cache: the group's entry ends not loading; success stores the members and clears the error, failure keeps the members and records the message; other groups are unchanged |
| FamilyGroupPage.FamilyGroupPage.ToggleExpandGroup | src/app/familyGroup/page.tsx:93-106 | the expanded set is toggled; members are fetched only for a newly expanded, uncached group, and then the cache is `FetchedMembers` of that fetch; otherwise the cache is untouched |
| FamilyGroupPage.FamilyGroupPage.HandleCreateGroup | src/app/familyGroup/page.tsx:136-154 | a name blank after trimming is refused with "Group name is required" and no call. Otherwise the trimmed name is sent. Success prepends the group and resets the form; failure keeps both and shows the error |
| FamilyGroupPage.FamilyGroupPage.InviteEmail | src/app/familyGroup/page.tsx:173 | the invite email with no white space at either end, "" for a group with none |
| FamilyGroupPage.FamilyGroupPage.InviteRole | src/app/familyGroup/page.tsx:174 | the chosen role when non-empty, "member" otherwise |
| FamilyGroupPage.FamilyGroupPage.AddResolvedMember | src/app/familyGroup/page.tsx:186-194 | after the add succeeds the members are reloaded (`FetchedMembers`), and the group's email resets to "" and its role to "member". A failed add records the message and leaves the cache and the form unchanged |
| FamilyGroupPage.FamilyGroupPage.InviteResolved | src/app/familyGroup/page.tsx:182-201 | the group leaves the inviting set whatever the outcome. A failed lookup or add records its message and leaves the cache unchanged. A resolved lookup sends the add request with the role; a successful add reloads the members and resets the form |
| FamilyGroupPage.FamilyGroupPage.HandleInviteMember | src/app/familyGroup/page.tsx:171-202 | an email empty after trimming is refused with "Email is required" and nothing else changes. Otherwise the email is looked up with the role (default "member"). `invitingGroupIds` is restored after any outcome; a failed lookup or add leaves the cache unchanged, and a successful invite reloads the members and resets the group's email and role |
| FamilyGroupPage.FamilyGroupPage.MemberAction | src/app/familyGroup/page.tsx:204-262 | the member's action flag ends false. A non-ok answer records the fixed failure text and a thrown one its message, changing nothing else. An ok answer reloads the group's members, whether the reload succeeds or fails (`FetchedMembers`) |
| FamilyGroupPage.FamilyGroupPage.RemoveFamilyMember | src/app/familyGroup/page.tsx:204-232 | a non-ok answer records "Failed to remove member", a thrown request its message or that text; an ok answer reloads the members |
| FamilyGroupPage.FamilyGroupPage.ChangeMemberRole | src/app/familyGroup/page.tsx:234-262 | a non-ok answer records "Failed to update role", a thrown request its message or that text; an ok answer reloads the members |
| NewChallenge.FindGroup | src/app/challenges/new/page.tsx:79-81 | the first group whose id equals the parsed value; none for NaN or no match |
| NewChallenge.ToggleMember | src/app/challenges/new/page.tsx:92-99 | a selected id is removed (the rest kept, in order), an absent one appended |
| NewChallenge.ToggleFlipsMembership | src/app/challenges/new/page.tsx:92-99 | after a toggle the id is selected exactly when it was not |
| NewChallenge.ToggleTwiceAbsent | src/app/challenges/new/page.tsx:92-99 | checking then unchecking an unselected member restores the selection |
| NewChallenge.TrimAll | src/app/challenges/new/page.tsx:160 | each piece is trimmed, in order |
| NewChallenge.RecipientsOf | src/app/challenges/new/page.tsx:158-161 | no more recipients than comma-separated pieces, each non-empty with no white space at either end |
| NewChallenge.RecipientsOfIsMapFilter | src/app/challenges/new/page.tsx:158-161 | the one-pass parse equals the source's `map(trim)` then `filter(non-empty)` |
| NewChallenge.RecipientsOfMembership | src/app/challenges/new/page.tsx:158-161 | a string is a recipient exactly when it is the non-empty trim of some piece |
| NewChallenge.RecipientMembership | src/app/challenges/new/page.tsx:158-161 | the same, for the comma-split pieces of the field |
| NewChallenge.RecipientsWellFormed | src/app/challenges/new/page.tsx:158-161 | every parsed recipient is non-empty, has no surrounding white space and no comma |
| NewChallenge.SubmitRefusal | src/app/challenges/new/page.tsx:106-120 | the checks run in order: no user, then a missing field, then a start not before the end. Submission passes exactly when all fields are present and the dates are not ordered wrongly; an invalid date compares false. With everything present and the dates ordered wrongly the message is "End date must be after start date" |
| NewChallenge.ParticipantRequests | src/app/challenges/new/page.tsx:146-155 | one participant call per selected id, in order |
| NewChallenge.InvitationRequests | src/app/challenges/new/page.tsx:163-199 | one "challenge" invitation per recipient, in order, by email or by phone |
| NewChallenge.SendEach | src/app/challenges/new/page.tsx:147-154 | every request is issued in order whatever earlier ones returned; the failed ones are exactly those whose call threw |
| NewChallenge.NewChallengePage.constructor | src/app/challenges/new/page.tsx:38-53 | the initial empty form over the loaded groups |
| NewChallenge.NewChallengePage.HandleFamilyGroupChange | src/app/challenges/new/page.tsx:75-89 | the chosen group's members are shown, or none; the selection is always cleared |
| NewChallenge.NewChallengePage.HandleMemberSelect | src/app/challenges/new/page.tsx:92-99 | the selection becomes its toggle |
| NewChallenge.NewChallengePage.AddAndInvite | src/app/challenges/new/page.tsx:145-199 | the participant calls for the selection, then the email invitations, then the phone ones |
| NewChallenge.NewChallengePage.CreateAndInvite | src/app/challenges/new/page.tsx:122-207 | sends `CH-<now>` with the goal and dates. A failed create shows the error and makes no further call. A successful one makes all follow-up calls and navigates to /challenges. The loading key ends stopped |
| NewChallenge.NewChallengePage.HandleSubmit | src/app/challenges/new/page.tsx:102-208 | a refusal shows its message and makes no call. Otherwise it makes exactly the create, participant and invitation calls, in that order |
| ChallengesPage.FilteredChallengesSpec | src/app/challenges/page.tsx:89-93 | a challenge is listed exactly when its goal contains the term (ignoring case) or its creator id contains the lowercased term; order is kept |
| ChallengesPage.FilteredChallenges | src/app/challenges/page.tsx:89-93 | the listed challenges are a subsequence of all challenges, each matching the search |
| ChallengesPage.EmptySearchKeepsAll | src/app/challenges/page.tsx:89-93 | an empty search lists everything |
| ChallengesPage.ToggleDetails | src/app/challenges/page.tsx:95-97 | the card becomes expanded exactly when it was not, and collapses when it was |
| ChallengesPage.ToggleDetailsTwice | src/app/challenges/page.tsx:95-97 | two toggles from another state collapse the card; from that card expanded they return to it |
| ChallengesPage.CurrentProgress | src/app/challenges/page.tsx:100 | the first matching challenge's progress, or 0 when there is none or no match |
| ChallengesPage.RoundInRange | src/app/challenges/page.tsx:110 | rounding a value in [0, 100] gives an integer in [0, 100] within 0.5 of it |
| ChallengesPage.Round | src/app/challenges/page.tsx:110 | `Math.round`: the integer within half a unit of the value, halves rounding up |
| ChallengesPage.SetProgress | src/app/challenges/page.tsx:108-112 | only challenges with that id get the new progress; every other one is unchanged |
| ChallengesPage.UpdateProgress | src/app/challenges/page.tsx:99-113 | a cancelled prompt changes nothing. NaN or a value outside [0, 100] changes nothing and alerts. Otherwise the progress becomes the rounded value, within bounds |
| ChallengesPage.UpdateProgressKeepsBounds | src/app/challenges/page.tsx:99-113 | if every progress lay in [0, 100], it still does after an update |
| AppointmentsPage.FilteredAppointmentsSpec | src/app/appointments/page.tsx:58-61 | an appointment is listed exactly when provider or type contains the term, ignoring case; order is kept |
| AppointmentsPage.FilteredAppointments | src/app/appointments/page.tsx:58-61 | the listed appointments are a subsequence of all appointments, each matching the search |
| AppointmentsPage.EmptySearchKeepsAll | src/app/appointments/page.tsx:58-61 | an empty search lists everything |
| AppointmentsPage.SearchIgnoresCase | src/app/appointments/page.tsx:58-61 | lowercasing the term does not change the result |
| AppointmentsPage.LowerIdempotent | src/app/appointments/page.tsx:59-60 | lowercasing is idempotent |
| AppointmentsPage.Actions | src/app/appointments/page.tsx:116-122 | Cancel and Reschedule appear exactly for upcoming appointments; View Details always |
| AppointmentsPage.NothingFoundIff | src/app/appointments/page.tsx:130-140 | the empty message shows exactly when no appointment matches |
| InviteModal.IsEmail | src/components/InviteUserModal.tsx:33 | an accepted address has at least five characters and neither starts nor ends with `@` |
| InviteModal.FindChar | src/components/InviteUserModal.tsx:33 | the first index of the character, none exactly when it is absent |
| InviteModal.FindCharAt | src/components/InviteUserModal.tsx:33 | the first occurrence is what is found |
| InviteModal.EmailRunSlice | src/components/InviteUserModal.tsx:33 | a piece of a `[^\s@]+` run is a run |
| InviteModal.IsEmailSound | src/components/InviteUserModal.tsx:33 | every accepted string is in the language of the email regex |
| InviteModal.IsEmailComplete | src/components/InviteUserModal.tsx:33 | every string in the language is accepted |
| InviteModal.IsEmailIff | src/components/InviteUserModal.tsx:33 | the check accepts exactly the regex's language |
| InviteModal.EmailHasOneAt | src/components/InviteUserModal.tsx:33 | an accepted email has exactly one `@` and no white space |
| InviteModal.EmailOfParts | src/components/InviteUserModal.tsx:33 | `a@b.d` is accepted for any three runs |
| InviteModal.EmailRefusesTwoAts | src/components/InviteUserModal.tsx:33 | two `@` are refused |
| InviteModal.EmailNeedsLocalPart | src/components/InviteUserModal.tsx:33 | a leading `@` is refused |
| InviteModal.IsPhone | src/components/InviteUserModal.tsx:34-36 | an accepted phone number has 6 to 21 characters |
| InviteModal.PartsLength | src/components/InviteUserModal.tsx:35-36 | the country code has at most 5 characters, the area code at most 7 and the subscriber number 6 to 9 |
| InviteModal.PhoneExamples | src/components/InviteUserModal.tsx:34-36 | a local number and an international one with area code are accepted |
| InviteModal.Validate | src/components/InviteUserModal.tsx:38-51 | for the active method, the trimmed value yields the "required" message exactly when empty and the "invalid" message exactly when non-empty and not matching; otherwise none, exactly when valid |
| InviteModal.SuccessMessage | src/components/InviteUserModal.tsx:70-74 | the email text or the SMS text, naming the value |
| InviteModal.InviteUserModal.constructor | src/components/InviteUserModal.tsx:23-29 | email method, empty fields, no messages |
| InviteModal.InviteUserModal.ActiveValue | src/components/InviteUserModal.tsx:63 | the active input (email or phone), with no white space at either end |
| InviteModal.InviteUserModal.HandleSubmit | src/components/InviteUserModal.tsx:53-80 | a validation message stops the submit with no callback. Otherwise `onInvite`, when present, gets the trimmed non-empty value. Success (or no callback) sets the success text; a rejection shows its message or the fallback. Loading ends false |
| Text.ParseInt | src/app/appointments/new/page.tsx:91 | `parseInt` without a radix: `NaN` exactly when no digit follows the white space, the sign and any `0x` prefix; otherwise the value of the longest digit run in base 16 after `0x`/`0X` and base 10 otherwise, negated after a minus |
| Text.ParseIntOfInt | src/app/appointments/new/page.tsx:192 | reading back a printed integer gives that integer |
| Text.ParseIntHex | src/app/appointments/new/page.tsx:91 | `0x` or `0X` followed by hex digits reads as their base-16 value |
| Text.ParseIntHexWithoutDigits | src/app/appointments/new/page.tsx:91 | `0x` with no hex digit after it is `NaN` |
| Text.ParseIntSign | src/app/challenges/new/page.tsx:80 | a leading minus negates the value (or leaves `NaN`), and a leading plus changes nothing |

## Left out

- `backend/routers/family_groups.py` and `backend/routers/providers_availability.py` are not part of this model; the client pages talk to them only through call-outcome parameters.
- The `reject_invitation` and `get_user_invitations` routes (backend/routers/invitations.py:36-58) and `read_user_challenge` (backend/routers/challenges.py:40-45): the crud functions they call do not exist in `backend/crud.py`.
- Password hashing and verification (bcrypt via passlib) are function parameters, `hash` and `verify`.
- JWT handling and the auth router are not modelled.
- The database's unique constraints (models.py) are not modelled. The uniqueness the routers promise is stated as the invariants `UniqueHealthIds` and `UniqueLicenses`, preserved by the create routes.
- `UsersRouter.UpdateUser`: does not check the new health ID against other users, as in the source, so it does not preserve `UniqueHealthIds`.
- `crud.add_member_to_family_group` uses a `family_group.members` list that `backend/models.py` does not declare. The model follows `backend/crud.py`.
- `Crud.Database.CreateInvitation`: `create_invitation` stores only the recipient and type. The request's challenge and family-group ids are dropped, as in the source.
- `Crud.Database.AcceptInvitation`: the two `datetime.utcnow()` reads of `accept_invitation` are one instant `now`.
- `AppointmentsRouter.CancelAppointment`: `reason["reason"]` raising `KeyError` for a body without that key is not modelled. The reason is a string parameter.
- `AppointmentsRouter.CreateAppointment`: the `ValueError` a store raises is a parameter `storeError`. Which inputs make SQLAlchemy raise it is not modelled.
- Negative `skip` or `limit` are not modelled; they are `nat`.
- HTTP status texts, JSON serialisation, response models and `print` logging are not modelled.
- The client's API layer (`src/lib/api.ts`) and `AuthContext` are not part of this model. Each awaited call is a `Call` outcome, and the signed-in user is an `Option<int>` parameter.
- Rendering is not modelled, except the rules the contracts name: disabled buttons, status labels, the actions of an appointment card, and the "no appointments" message.
- Asynchronous interleaving is not modelled. Each handler runs to completion as one atomic step, and the React state updates inside it take effect in order.
- The `loadingStatesRef` of the loading manager is taken to be in step with the state.
- Timers are not modelled. The 60-second interval of the availability manager is the `Sweep` method, called at an instant `now`.
- The middleware's `config.matcher` (src/middleware.ts:66-77) is not modelled: which paths reach the middleware at all.
- `ApiErrors.HandleApiError`: a non-string `detail` (FastAPI validation errors send a list) is not modelled. JSON fields are optional strings.
- `Text.Trim` and `Text.Lower`: white space and lowercasing are ASCII only. JavaScript's `trim` and `\s` also cover Unicode spaces, and `toLowerCase` covers every cased letter.
- `Text.ParseInt`: values are read exactly as integers. JavaScript returns an IEEE double, so a digit run above 2^53 is rounded there (`parseInt("9007199254740993")` is 9007199254740992) and a very long one becomes `Infinity`.
- `NewAppointment.NewAppointmentPage.HandleSubmit`: an invalid manual date makes `toISOString` throw before the `try`. This is modelled as an abort that changes nothing.
- `Availability.AvailabilityManager.HandleSubmit`: the `onAvailabilityUpdate` callback and the success `alert` are not modelled.
- `ChallengesPage.UpdateProgress`: `Number(input)` is a parameter returning a real, `None` for `NaN`. Infinities are out of range and therefore refused, as in the source.
- The family-group fetch effect of the new-challenge page is not modelled. The groups are a constructor argument.
- `handleInviteUser` and the challenge-fetching effect of src/app/challenges/page.tsx are not modelled.
- `NewChallenge.SendEach`: the per-item failures are computed but not kept as page state, since the source only logs them.
- The status badges and styles of the appointments page are not modelled.
- The invite modal's note field and its close/reset behaviour are not modelled.
