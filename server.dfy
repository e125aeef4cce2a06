/** The request handlers of the backend, at the level of the tables they
    read and write. The `users`, `profiles` and `scans` tables are sequences
    in insertion order; each handler runs to completion as one step. The
    libraries the handlers call (bcrypt, jwt, pa11y) and every database
    failure are parameters: the caller of a handler chooses what they do. */
module Server {
  import opened Js

  datatype User = User(userId: nat, name: string, email: string, passwordHash: string)
  datatype Profile = Profile(profileId: nat, userId: nat, settings: Json)
  /** `scannedAt` stands for the insertion timestamp: a counter that grows
      with every insert. */
  datatype ScanRow = ScanRow(scanId: nat, userId: nat, url: string, status: string, results: Json, scannedAt: nat)

  /** The public part of a user row, as returned by register and login. */
  datatype UserView = UserView(userId: nat, name: string, email: string)

  datatype Body =
    | ErrorBody(error: string)
    | SessionBody(message: string, token: string, user: UserView)
    | ProfileBody(user: UserView, profileId: nat, settings: Json)
    | UpdatedProfileBody(message: string, profile: Profile)
    | ScanBody(scan: ScanRow)
    | ScanListBody(scans: seq<ScanRow>)

  datatype Response = Response(status: nat, body: Body)

  const MissingRegistrationFieldsMessage := "Name, email, and password are required"
  const ShortPasswordMessage := "Password must be at least 6 characters long"
  const EmailTakenMessage := "User with this email already exists"
  const RegisteredMessage := "User registered successfully"
  const RegisterErrorMessage := "Server error during registration"
  const MissingLoginFieldsMessage := "Email and password are required"
  const BadCredentialsMessage := "Invalid email or password"
  const LoggedInMessage := "Login successful"
  const LoginErrorMessage := "Server error during login"
  const UserNotFoundMessage := "User not found"
  const ProfileMissingMessage := "Profile not found for this user"
  const FetchProfileErrorMessage := "Server error fetching profile"
  const BadSettingsMessage := "Settings must be a valid object"
  const NoProfileMessage := "Profile not found"
  const ProfileUpdatedMessage := "Profile updated successfully"
  const UpdateProfileErrorMessage := "Server error updating profile"
  const UrlRequiredMessage := "URL is required"
  const NotLoggedMessage := "Scan failed and could not be logged."
  const DefaultScanErrorName := "ScanError"
  const DefaultScanErrorMessage := "An unknown error occurred during the scan."
  const FetchScansErrorMessage := "Server error fetching scans"

  const PasswordMinLength := 6

  /** Which database statement of the registration throws, if any. */
  datatype RegisterFault = NoFault | LookupFails | InsertUserFails | InsertProfileFails | CommitFails

  /** A thrown JavaScript error: its `name` and `message`, either of which
      may be missing or empty. */
  datatype Thrown = Thrown(name: Option<string>, message: Option<string>)

  /** What the accessibility audit does with a url. */
  datatype AuditOutcome = AuditPassed(results: Json) | AuditThrew(error: Thrown)

  const InvalidCredentials := Response(401, ErrorBody(BadCredentialsMessage))

  // ---------------------------------------------------------------------
  // Queries over the tables
  // ---------------------------------------------------------------------

  /** `SELECT ... FROM users WHERE email = $1`, first row. */
  function FindByEmail(users: seq<User>, email: string): (r: Option<User>)
    ensures r.Some? ==> r.value in users && r.value.email == email
    ensures r.None? ==> forall i :: 0 <= i < |users| ==> users[i].email != email
  {
    if users == [] then None
    else if users[0].email == email then Some(users[0])
    else FindByEmail(users[1..], email)
  }

  /** `SELECT ... FROM users WHERE user_id = $1`, first row. */
  function FindUser(users: seq<User>, userId: nat): (r: Option<User>)
    ensures r.Some? ==> r.value in users && r.value.userId == userId
    ensures r.None? ==> forall i :: 0 <= i < |users| ==> users[i].userId != userId
  {
    if users == [] then None
    else if users[0].userId == userId then Some(users[0])
    else FindUser(users[1..], userId)
  }

  /** The first profile row owned by `userId`. */
  function ProfileFor(profiles: seq<Profile>, userId: nat): (r: Option<Profile>)
    ensures r.Some? ==> r.value in profiles && r.value.userId == userId
    ensures r.None? ==> forall i :: 0 <= i < |profiles| ==> profiles[i].userId != userId
  {
    if profiles == [] then None
    else if profiles[0].userId == userId then Some(profiles[0])
    else ProfileFor(profiles[1..], userId)
  }

  /** The number of profile rows owned by `userId`. */
  function ProfileCount(profiles: seq<Profile>, userId: nat): nat
  {
    if profiles == [] then 0
    else (if profiles[0].userId == userId then 1 else 0) + ProfileCount(profiles[1..], userId)
  }

  function View(u: User): UserView {
    UserView(u.userId, u.name, u.email)
  }

  /** `UPDATE profiles SET settings = $1 WHERE user_id = $2`: every row of
      the user gets the new document in place of the old one. */
  function WithSettings(profiles: seq<Profile>, userId: nat, settings: Json): (r: seq<Profile>)
    ensures |r| == |profiles|
    ensures forall i :: 0 <= i < |r| ==>
              r[i] == if profiles[i].userId == userId then profiles[i].(settings := settings) else profiles[i]
  {
    if profiles == [] then []
    else
      [if profiles[0].userId == userId then profiles[0].(settings := settings) else profiles[0]]
      + WithSettings(profiles[1..], userId, settings)
  }

  /** The guard `!settings || typeof settings !== 'object'` lets through
      exactly the arrays and the objects (null is an object but falsy). */
  function SettingsAccepted(settings: Json): (ok: bool)
    ensures ok <==> settings.Arr? || settings.Obj?
  {
    Truthy(settings) && TypeofObject(settings)
  }

  predicate OlderFirst(scans: seq<ScanRow>) {
    forall i, j :: 0 <= i < j < |scans| ==> scans[i].scannedAt < scans[j].scannedAt
  }

  predicate NewestFirst(scans: seq<ScanRow>) {
    forall i, j :: 0 <= i < j < |scans| ==> scans[i].scannedAt > scans[j].scannedAt
  }

  /** `SELECT * FROM scans WHERE user_id = $1 ORDER BY scanned_at DESC`:
      exactly the rows of `userId`, newest first. */
  function OwnedNewestFirst(scans: seq<ScanRow>, userId: nat): (r: seq<ScanRow>)
    ensures forall x :: x in r <==> x in scans && x.userId == userId
    ensures OlderFirst(scans) ==> NewestFirst(r)
    decreases |scans|
  {
    if scans == [] then []
    else
      var last := scans[|scans| - 1];
      var rest := OwnedNewestFirst(scans[..|scans| - 1], userId);
      assert forall x :: x in scans <==> x in scans[..|scans| - 1] || x == last;
      if last.userId == userId then [last] + rest else rest
  }

  /** The payload of a failed scan row: `{name: error.name || 'ScanError',
      message: error.message || <default>}`. */
  function FailurePayload(e: Thrown): (p: Json)
    ensures p.Obj? && p.fields.Keys == {"name", "message"}
    ensures p.fields["name"] == Str(OrDefault(e.name, DefaultScanErrorName)) != Str("")
    ensures p.fields["message"] == Str(OrDefault(e.message, DefaultScanErrorMessage)) != Str("")
  {
    Obj(map["name" := Str(OrDefault(e.name, DefaultScanErrorName)),
            "message" := Str(OrDefault(e.message, DefaultScanErrorMessage))])
  }

  /** The error the scan handler's outer `catch` receives: the audit's, or,
      when the audit passed, the one thrown by the insert of the completed
      row. `None` when the try block ran to its end. */
  function Caught(audit: AuditOutcome, completedInsert: Option<Thrown>): (c: Option<Thrown>)
    ensures c.None? <==> audit.AuditPassed? && completedInsert.None?
    ensures audit.AuditThrew? ==> c == Some(audit.error)
    ensures audit.AuditPassed? ==> c == completedInsert
  {
    if audit.AuditThrew? then Some(audit.error) else completedInsert
  }

  /** Whether registration reaches COMMIT. */
  predicate RegisterCommits(users: seq<User>, name: Option<string>, email: Option<string>,
                            password: Option<string>, hash: Option<string>, fault: RegisterFault)
  {
    Present(name) && Present(email) && Present(password) && |password.value| >= PasswordMinLength
    && FindByEmail(users, email.value).None? && hash.Some? && fault == NoFault
  }

  // ---------------------------------------------------------------------
  // Table invariants
  // ---------------------------------------------------------------------

  predicate UsersWellFormed(users: seq<User>, nextUserId: nat) {
    && (forall i, j :: 0 <= i < j < |users| ==> users[i].userId < users[j].userId)
    && (forall i, j :: 0 <= i < j < |users| ==> users[i].email != users[j].email)
    && (forall i :: 0 <= i < |users| ==> users[i].userId < nextUserId)
  }

  /** Profile `i` belongs to user `i`: the two rows are only ever created
      together. */
  predicate ProfilesWellFormed(profiles: seq<Profile>, users: seq<User>, nextProfileId: nat) {
    && |profiles| == |users|
    && (forall i :: 0 <= i < |profiles| ==> profiles[i].userId == users[i].userId)
    && (forall i, j :: 0 <= i < j < |profiles| ==> profiles[i].profileId < profiles[j].profileId)
    && (forall i :: 0 <= i < |profiles| ==> 0 < profiles[i].profileId < nextProfileId)
    && 0 < nextProfileId
  }

  predicate ScansWellFormed(scans: seq<ScanRow>, nextScanId: nat, clock: nat) {
    && OlderFirst(scans)
    && (forall i, j :: 0 <= i < j < |scans| ==> scans[i].scanId < scans[j].scanId)
    && (forall i :: 0 <= i < |scans| ==> scans[i].scanId < nextScanId && scans[i].scannedAt < clock)
  }

  /** With strictly increasing owners, the owner of row `k` owns no other row. */
  lemma {:induction false} SingleProfile(profiles: seq<Profile>, k: nat)
    requires k < |profiles|
    requires forall i, j :: 0 <= i < j < |profiles| ==> profiles[i].userId < profiles[j].userId
    ensures ProfileCount(profiles, profiles[k].userId) == 1
  {
    if k == 0 {
      NoProfile(profiles[1..], profiles[0].userId);
    } else {
      SingleProfile(profiles[1..], k - 1);
    }
  }

  lemma {:induction false} NoProfile(profiles: seq<Profile>, userId: nat)
    requires forall i :: 0 <= i < |profiles| ==> profiles[i].userId > userId
    ensures ProfileCount(profiles, userId) == 0
  {
    if profiles != [] {
      NoProfile(profiles[1..], userId);
    }
  }

  /** Every user has exactly one profile, and every profile has a user. */
  lemma OneProfilePerUser(users: seq<User>, profiles: seq<Profile>, nextUserId: nat, nextProfileId: nat)
    requires UsersWellFormed(users, nextUserId)
    requires ProfilesWellFormed(profiles, users, nextProfileId)
    ensures forall i :: 0 <= i < |users| ==> ProfileCount(profiles, users[i].userId) == 1
    ensures forall i :: 0 <= i < |profiles| ==> FindUser(users, profiles[i].userId).Some?
  {
  }

  /** Appending a user with a fresh email and the next ids, together with
      their profile, keeps both tables well formed. */
  lemma RegistrationWellFormed(users: seq<User>, profiles: seq<Profile>, nextUserId: nat, nextProfileId: nat,
                               u: User, settings: Json)
    requires UsersWellFormed(users, nextUserId)
    requires ProfilesWellFormed(profiles, users, nextProfileId)
    requires FindByEmail(users, u.email).None? && u.userId == nextUserId
    ensures UsersWellFormed(users + [u], nextUserId + 1)
    ensures ProfilesWellFormed(profiles + [Profile(nextProfileId, u.userId, settings)], users + [u], nextProfileId + 1)
  {
  }

  /** A settings update keeps every row's ids, so the tables stay well formed. */
  lemma WithSettingsWellFormed(profiles: seq<Profile>, users: seq<User>, nextProfileId: nat,
                               userId: nat, settings: Json)
    requires ProfilesWellFormed(profiles, users, nextProfileId)
    ensures ProfilesWellFormed(WithSettings(profiles, userId, settings), users, nextProfileId)
  {
  }

  /** A replace is wholesale: reading the profile back gives exactly the new
      document, with nothing kept from the old one. */
  lemma {:induction false} ReplaceThenRead(profiles: seq<Profile>, userId: nat, settings: Json)
    requires ProfileFor(profiles, userId).Some?
    ensures ProfileFor(WithSettings(profiles, userId, settings), userId)
              == Some(ProfileFor(profiles, userId).value.(settings := settings))
  {
    if profiles[0].userId != userId {
      ReplaceThenRead(profiles[1..], userId, settings);
    }
  }

  /** A replace changes no other user's profile. */
  lemma {:induction false} ReplaceLeavesOthers(profiles: seq<Profile>, userId: nat, settings: Json, other: nat)
    requires other != userId
    ensures ProfileFor(WithSettings(profiles, userId, settings), other) == ProfileFor(profiles, other)
  {
    if profiles != [] && profiles[0].userId != other {
      ReplaceLeavesOthers(profiles[1..], userId, settings, other);
    }
  }

  /** A new row appears at the head of its owner's listing and nowhere else. */
  lemma ListingAfterInsert(scans: seq<ScanRow>, row: ScanRow, userId: nat)
    ensures OwnedNewestFirst(scans + [row], userId)
              == if row.userId == userId then [row] + OwnedNewestFirst(scans, userId)
                 else OwnedNewestFirst(scans, userId)
  {
  }

  // ---------------------------------------------------------------------
  // The store and its handlers
  // ---------------------------------------------------------------------

  class Store {
    var users: seq<User>
    var profiles: seq<Profile>
    var scans: seq<ScanRow>
    /** The next values of the tables' serial id sequences. */
    var nextUserId: nat
    var nextProfileId: nat
    var nextScanId: nat
    /** The source of `scanned_at` timestamps. */
    var clock: nat

    ghost predicate Valid()
      reads this
    {
      && UsersWellFormed(users, nextUserId)
      && ProfilesWellFormed(profiles, users, nextProfileId)
      && ScansWellFormed(scans, nextScanId, clock)
    }

    constructor ()
      ensures Valid()
      ensures users == [] && profiles == [] && scans == []
    {
      users, profiles, scans := [], [], [];
      nextUserId, nextProfileId, nextScanId := 1, 1, 1;
      clock := 0;
    }

    /** POST /api/auth/register. Validation comes first and touches nothing;
        the user and profile rows are inserted in one transaction that is
        rolled back on any failure before COMMIT. The id sequences are not
        rewound by a rollback. A failure of token signing after COMMIT
        answers 500 but keeps both rows. */
    method Register(name: Option<string>, email: Option<string>, password: Option<string>,
                    hash: Option<string>, token: Option<string>, fault: RegisterFault)
      returns (resp: Response)
      requires Valid()
      modifies this
      ensures Valid()
      ensures scans == old(scans) && nextScanId == old(nextScanId) && clock == old(clock)
      ensures !(Present(name) && Present(email) && Present(password)) ==>
                resp == Response(400, ErrorBody(MissingRegistrationFieldsMessage))
      ensures Present(name) && Present(email) && Present(password) && |password.value| < PasswordMinLength ==>
                resp == Response(400, ErrorBody(ShortPasswordMessage))
      ensures Present(name) && Present(email) && Present(password) && |password.value| >= PasswordMinLength
              && fault != LookupFails && FindByEmail(old(users), email.value).Some? ==>
                resp == Response(409, ErrorBody(EmailTakenMessage))
      ensures resp.status == 400 <==>
                !(Present(name) && Present(email) && Present(password)) || |password.value| < PasswordMinLength
      ensures resp.status == 409 <==>
                Present(name) && Present(email) && Present(password) && |password.value| >= PasswordMinLength
                && fault != LookupFails && FindByEmail(old(users), email.value).Some?
      ensures RegisterCommits(old(users), name, email, password, hash, fault) ==>
                && users == old(users) + [User(old(nextUserId), name.value, email.value, hash.value)]
                && profiles == old(profiles) + [Profile(old(nextProfileId), old(nextUserId), Obj(map[]))]
      ensures !RegisterCommits(old(users), name, email, password, hash, fault) ==>
                users == old(users) && profiles == old(profiles)
      ensures resp.status == 201 <==> RegisterCommits(old(users), name, email, password, hash, fault) && token.Some?
      ensures resp.status == 201 ==>
                resp.body == SessionBody(RegisteredMessage, token.value,
                                         UserView(old(nextUserId), name.value, email.value))
      ensures resp.status !in {201, 400, 409} ==> resp == Response(500, ErrorBody(RegisterErrorMessage))
    {
      if !Present(name) || !Present(email) || !Present(password) {
        return Response(400, ErrorBody(MissingRegistrationFieldsMessage));
      }
      if |password.value| < PasswordMinLength {
        return Response(400, ErrorBody(ShortPasswordMessage));
      }
      var serverError := Response(500, ErrorBody(RegisterErrorMessage));
      if fault == LookupFails {
        return serverError;
      }
      if FindByEmail(users, email.value).Some? {
        return Response(409, ErrorBody(EmailTakenMessage));
      }
      if hash.None? {
        return serverError;
      }
      var committed, newUser := InsertAccount(name.value, email.value, hash.value, fault);
      if !committed {
        return serverError;
      }
      if token.None? {
        return serverError;  // the ROLLBACK in the catch finds nothing to undo
      }
      resp := Response(201, SessionBody(RegisteredMessage, token.value, View(newUser)));
    }

    /** The transaction of registration: BEGIN, insert the user, insert
        their profile with settings `{}`, COMMIT. A failure at any step
        rolls both tables back; the id sequences keep what they handed out. */
    method InsertAccount(name: string, email: string, hash: string, fault: RegisterFault)
      returns (committed: bool, newUser: User)
      requires Valid()
      requires FindByEmail(users, email).None?
      modifies this
      ensures Valid()
      ensures scans == old(scans) && nextScanId == old(nextScanId) && clock == old(clock)
      ensures committed <==> fault !in {InsertUserFails, InsertProfileFails, CommitFails}
      ensures newUser == User(old(nextUserId), name, email, hash)
      ensures committed ==>
                && users == old(users) + [newUser]
                && profiles == old(profiles) + [Profile(old(nextProfileId), old(nextUserId), Obj(map[]))]
      ensures !committed ==> users == old(users) && profiles == old(profiles)
    {
      // BEGIN
      var usersAtBegin, profilesAtBegin := users, profiles;
      newUser := User(nextUserId, name, email, hash);
      if fault == InsertUserFails {
        return false, newUser;
      }
      users := users + [newUser];
      nextUserId := nextUserId + 1;
      if fault == InsertProfileFails {
        users, profiles := usersAtBegin, profilesAtBegin;  // ROLLBACK
        return false, newUser;
      }
      RegistrationWellFormed(usersAtBegin, profiles, nextUserId - 1, nextProfileId, newUser, Obj(map[]));
      profiles := profiles + [Profile(nextProfileId, newUser.userId, Obj(map[]))];
      nextProfileId := nextProfileId + 1;
      if fault == CommitFails {
        users, profiles := usersAtBegin, profilesAtBegin;  // ROLLBACK
        return false, newUser;
      }
      // COMMIT
      committed := true;
    }

    /** POST /api/auth/login. `matches` is bcrypt's comparison of a password
        with a stored hash; `token` is what signing returns (`None`: it
        throws). An unknown email and a wrong password get the same answer. */
    method Login(email: Option<string>, password: Option<string>, lookupOk: bool,
                 matches: (string, string) -> bool, token: Option<string>)
      returns (resp: Response)
      ensures !(Present(email) && Present(password)) ==>
                resp == Response(400, ErrorBody(MissingLoginFieldsMessage))
      ensures Present(email) && Present(password) && !lookupOk ==>
                resp == Response(500, ErrorBody(LoginErrorMessage))
      ensures Present(email) && Present(password) && lookupOk ==>
                (resp == InvalidCredentials <==>
                   FindByEmail(users, email.value).None?
                   || !matches(password.value, FindByEmail(users, email.value).value.passwordHash))
      ensures resp.status == 200 <==>
                Present(email) && Present(password) && lookupOk && token.Some?
                && FindByEmail(users, email.value).Some?
                && matches(password.value, FindByEmail(users, email.value).value.passwordHash)
      ensures resp.status == 200 ==>
                resp.body == SessionBody(LoggedInMessage, token.value, View(FindByEmail(users, email.value).value))
      ensures resp.status != 200 && resp != InvalidCredentials && Present(email) && Present(password) ==>
                resp == Response(500, ErrorBody(LoginErrorMessage))
    {
      if !Present(email) || !Present(password) {
        return Response(400, ErrorBody(MissingLoginFieldsMessage));
      }
      if !lookupOk {
        return Response(500, ErrorBody(LoginErrorMessage));
      }
      var found := FindByEmail(users, email.value);
      if found.None? {
        return InvalidCredentials;
      }
      if !matches(password.value, found.value.passwordHash) {
        return InvalidCredentials;
      }
      if token.None? {
        return Response(500, ErrorBody(LoginErrorMessage));
      }
      resp := Response(200, SessionBody(LoggedInMessage, token.value, View(found.value)));
    }

    /** GET /api/profile: the user joined with their profile. */
    method GetProfile(userId: nat, dbOk: bool) returns (resp: Response)
      ensures !dbOk ==> resp == Response(500, ErrorBody(FetchProfileErrorMessage))
      ensures dbOk && FindUser(users, userId).None? ==> resp == Response(404, ErrorBody(UserNotFoundMessage))
      ensures dbOk && FindUser(users, userId).Some? && ProfileFor(profiles, userId).None? ==>
                resp == Response(404, ErrorBody(ProfileMissingMessage))
      ensures dbOk && FindUser(users, userId).Some? && ProfileFor(profiles, userId).Some?
              && ProfileFor(profiles, userId).value.profileId != 0 ==>
                resp.status == 200
      ensures resp.status == 200 ==>
                dbOk && FindUser(users, userId).Some? && ProfileFor(profiles, userId).Some?
                && resp.body == ProfileBody(View(FindUser(users, userId).value),
                                            ProfileFor(profiles, userId).value.profileId,
                                            ProfileFor(profiles, userId).value.settings)
    {
      if !dbOk {
        return Response(500, ErrorBody(FetchProfileErrorMessage));
      }
      var user := FindUser(users, userId);
      if user.None? {
        return Response(404, ErrorBody(UserNotFoundMessage));
      }
      var profile := ProfileFor(profiles, userId);
      if profile.None? || profile.value.profileId == 0 {
        return Response(404, ErrorBody(ProfileMissingMessage));
      }
      resp := Response(200, ProfileBody(View(user.value), profile.value.profileId, profile.value.settings));
    }

    /** PUT /api/profile: replace the caller's settings document. */
    method PutProfile(userId: nat, settings: Json, dbOk: bool) returns (resp: Response)
      requires Valid()
      modifies this
      ensures Valid()
      ensures users == old(users) && scans == old(scans)
      ensures nextUserId == old(nextUserId) && nextProfileId == old(nextProfileId)
      ensures nextScanId == old(nextScanId) && clock == old(clock)
      ensures !SettingsAccepted(settings) ==>
                resp == Response(400, ErrorBody(BadSettingsMessage)) && profiles == old(profiles)
      ensures SettingsAccepted(settings) && !dbOk ==>
                resp == Response(500, ErrorBody(UpdateProfileErrorMessage)) && profiles == old(profiles)
      ensures SettingsAccepted(settings) && dbOk ==>
                profiles == WithSettings(old(profiles), userId, settings)
      ensures SettingsAccepted(settings) && dbOk && ProfileFor(old(profiles), userId).None? ==>
                resp == Response(404, ErrorBody(NoProfileMessage))
      ensures SettingsAccepted(settings) && dbOk && ProfileFor(old(profiles), userId).Some? ==>
                resp == Response(200, UpdatedProfileBody(ProfileUpdatedMessage,
                                                         ProfileFor(old(profiles), userId).value.(settings := settings)))
    {
      if !(Truthy(settings) && TypeofObject(settings)) {
        return Response(400, ErrorBody(BadSettingsMessage));
      }
      if !dbOk {
        return Response(500, ErrorBody(UpdateProfileErrorMessage));
      }
      var updated := ProfileFor(profiles, userId);
      WithSettingsWellFormed(profiles, users, nextProfileId, userId, settings);
      profiles := WithSettings(profiles, userId, settings);
      if updated.None? {
        return Response(404, ErrorBody(NoProfileMessage));
      }
      resp := Response(200, UpdatedProfileBody(ProfileUpdatedMessage, updated.value.(settings := settings)));
    }

    /** POST /api/scans. `audit` is what pa11y does with the url,
        `completedInsert` what the insert of the completed row throws (if
        anything), `failedInsertOk` whether the insert of the failed row
        succeeds. A missing url inserts nothing; otherwise exactly one row
        is inserted, unless the failed row cannot be inserted either. */
    method RecordScan(userId: nat, url: Option<string>, audit: AuditOutcome,
                      completedInsert: Option<Thrown>, failedInsertOk: bool)
      returns (resp: Response)
      requires Valid()
      modifies this
      ensures Valid()
      ensures users == old(users) && profiles == old(profiles)
      ensures nextUserId == old(nextUserId) && nextProfileId == old(nextProfileId)
      ensures !Present(url) ==>
                resp == Response(400, ErrorBody(UrlRequiredMessage)) && scans == old(scans)
      ensures Present(url) && Caught(audit, completedInsert).None? ==>
                && scans == old(scans) + [ScanRow(old(nextScanId), userId, url.value, "completed",
                                                  audit.results, old(clock))]
                && resp == Response(201, ScanBody(scans[|scans| - 1]))
      ensures Present(url) && Caught(audit, completedInsert).Some? && failedInsertOk ==>
                && scans == old(scans) + [ScanRow(old(nextScanId), userId, url.value, "failed",
                                                  FailurePayload(Caught(audit, completedInsert).value), old(clock))]
                && resp == Response(500, ScanBody(scans[|scans| - 1]))
      ensures Present(url) && Caught(audit, completedInsert).Some? && !failedInsertOk ==>
                resp == Response(500, ErrorBody(NotLoggedMessage)) && scans == old(scans)
    {
      if !Present(url) {
        return Response(400, ErrorBody(UrlRequiredMessage));
      }
      var caught: Option<Thrown> := None;
      // try
      if audit.AuditThrew? {
        caught := Some(audit.error);
      } else if completedInsert.Some? {
        caught := completedInsert;
      } else {
        var row := ScanRow(nextScanId, userId, url.value, "completed", audit.results, clock);
        scans := scans + [row];
        nextScanId, clock := nextScanId + 1, clock + 1;
        return Response(201, ScanBody(row));
      }
      // catch (error)
      if !failedInsertOk {
        return Response(500, ErrorBody(NotLoggedMessage));
      }
      var row := ScanRow(nextScanId, userId, url.value, "failed", FailurePayload(caught.value), clock);
      scans := scans + [row];
      nextScanId, clock := nextScanId + 1, clock + 1;
      resp := Response(500, ScanBody(row));
    }

    /** GET /api/scans: the caller's rows, newest first. */
    method ListScans(userId: nat, dbOk: bool) returns (resp: Response)
      requires Valid()
      ensures !dbOk ==> resp == Response(500, ErrorBody(FetchScansErrorMessage))
      ensures dbOk ==> resp.status == 200 && resp.body.ScanListBody?
      ensures dbOk ==> forall x :: x in resp.body.scans <==> x in scans && x.userId == userId
      ensures dbOk ==> NewestFirst(resp.body.scans)
    {
      if !dbOk {
        return Response(500, ErrorBody(FetchScansErrorMessage));
      }
      resp := Response(200, ScanListBody(OwnedNewestFirst(scans, userId)));
    }
  }
}
