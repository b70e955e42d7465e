/**
  The browser-side authentication module: sign-up, sign-in, sign-out, the
  current user and profile updates against the `users` table, with its own
  module-level `currentUser`. Failures are thrown errors rather than HTTP
  statuses.
 */
module ClientAuth {
  import opened Base
  import opened Seqs
  import opened Schema

  /** What a call throws: an error with a message, or the database's refusal. */
  datatype AuthError = Thrown(message: string) | Refused(violation: Violation)

  /** `Partial<User>`: every property may be left undefined. */
  datatype UserUpdates = UserUpdates(
    id: Option<string>,
    email: Option<string>,
    role: Option<string>,
    fullName: Option<string>,
    avatarUrl: Option<string>,
    createdAt: Option<Timestamp>,
    isBanned: Option<bool>)

  /** A column named in the `SET` list of the profile update. */
  datatype ProfileColumn = FullNameColumn | AvatarUrlColumn

  /** `{ ...current, ...updates }`: every defined property of `updates` wins. */
  function Merge(current: SessionUser, updates: UserUpdates): SessionUser
  {
    SessionUser(
      if updates.id.Some? then updates.id.value else current.id,
      if updates.email.Some? then updates.email.value else current.email,
      if updates.role.Some? then updates.role.value else current.role,
      if updates.fullName.Some? then updates.fullName else current.fullName,
      if updates.avatarUrl.Some? then updates.avatarUrl else current.avatarUrl,
      if updates.createdAt.Some? then updates.createdAt.value else current.createdAt,
      if updates.isBanned.Some? then updates.isBanned.value else current.isBanned)
  }

  /**
    Merging nothing leaves the user as it was; merging is idempotent; and a
    merge that defines only `full_name` and `avatar_url` changes only those.
   */
  lemma MergeLaws(current: SessionUser, updates: UserUpdates)
    ensures Merge(current, UserUpdates(None, None, None, None, None, None, None)) == current
    ensures Merge(Merge(current, updates), updates) == Merge(current, updates)
    ensures updates.id.None? && updates.email.None? && updates.role.None? && updates.createdAt.None? && updates.isBanned.None? ==>
              Merge(current, updates) == current.(
                fullName := if updates.fullName.Some? then updates.fullName else current.fullName,
                avatarUrl := if updates.avatarUrl.Some? then updates.avatarUrl else current.avatarUrl)
  {
  }

  /** The row after `UPDATE users SET <columns> WHERE id = ?`, for a matching row. */
  function SetColumns(row: UserRow, columns: seq<ProfileColumn>, updates: UserUpdates): (r: UserRow)
    ensures r.fullName == (if FullNameColumn in columns then updates.fullName else row.fullName)
    ensures r.avatarUrl == (if AvatarUrlColumn in columns then updates.avatarUrl else row.avatarUrl)
    ensures r.(fullName := row.fullName, avatarUrl := row.avatarUrl) == row
  {
    if |columns| == 0 then row
    else
      var rest := SetColumns(row, columns[1..], updates);
      assert forall c :: c in columns <==> c == columns[0] || c in columns[1..] by {
        assert columns == [columns[0]] + columns[1..];
      }
      match columns[0]
      case FullNameColumn => rest.(fullName := updates.fullName)
      case AvatarUrlColumn => rest.(avatarUrl := updates.avatarUrl)
  }

  /** The columns a profile update writes: the defined ones of `full_name` and `avatar_url`. */
  function ProfileColumns(updates: UserUpdates): (cs: seq<ProfileColumn>)
    ensures FullNameColumn in cs <==> updates.fullName.Some?
    ensures AvatarUrlColumn in cs <==> updates.avatarUrl.Some?
  {
    (if updates.fullName.Some? then [FullNameColumn] else [])
    + (if updates.avatarUrl.Some? then [AvatarUrlColumn] else [])
  }

  /** A `users` row after a profile update: only `full_name` and `avatar_url` may change. */
  function WithProfile(row: UserRow, updates: UserUpdates): UserRow {
    row.(fullName := if updates.fullName.Some? then updates.fullName else row.fullName,
         avatarUrl := if updates.avatarUrl.Some? then updates.avatarUrl else row.avatarUrl)
  }

  class Session {
    var users: seq<UserRow>
    var currentUser: Option<SessionUser>

    /** The `users` table constraints hold. */
    predicate Valid()
      reads this
    {
      UsersValid(users)
    }

    /** The module as loaded over an existing database: nobody signed in. */
    constructor (users0: seq<UserRow>)
      requires UsersValid(users0)
      ensures Valid() && users == users0 && currentUser == None
    {
      users := users0;
      currentUser := None;
    }

    /**
      `signUp`. A taken email throws "User already exists with this email" and
      inserts nothing. Otherwise exactly one row is inserted, with role
      `'customer'` when none is given, unless the role CHECK or the primary key
      refuses it. `passwordHash` is the bcrypt hash of the password and
      `newId` the generated uuid.
     */
    method SignUp(email: string, fullName: string, role: Option<string>,
                  passwordHash: string, newId: string, now: Timestamp)
      returns (r: Result<SignUpReply, AuthError>)
      requires Valid()
      modifies this`users
      ensures Valid()
      ensures var roleValue := RequestedRole(role);
              && (old(UserByEmail(users, email)).Some? ==> r == Failure(Thrown(EmailTakenMessage)))
              && (old(UserByEmail(users, email)).None? && !ValidRole(roleValue) ==>
                    r == Failure(Refused(CheckConstraint)))
              && (old(UserByEmail(users, email)).None? && ValidRole(roleValue) && old(HasUser(users, newId)) ==>
                    r == Failure(Refused(PrimaryKeyConstraint)))
              && (r.Success? <==>
                    old(UserByEmail(users, email)).None? && ValidRole(roleValue) && !old(HasUser(users, newId)))
              && (r.Success? ==>
                    && users == old(users) + [UserRow(newId, email, passwordHash, Some(fullName), roleValue, None, false, now)]
                    && r.value == SignUpReply(newId, email, Some(fullName), roleValue))
      ensures r.Failure? ==> users == old(users)
    {
      if UserByEmail(users, email).Some? {
        return Failure(Thrown(EmailTakenMessage));
      }
      var roleValue := RequestedRole(role);
      if !ValidRole(roleValue) {
        return Failure(Refused(CheckConstraint));
      }
      if HasUser(users, newId) {
        return Failure(Refused(PrimaryKeyConstraint));
      }
      var row := UserRow(newId, email, passwordHash, Some(fullName), roleValue, None, false, now);
      forall j | 0 <= j < |users| ensures UserKey(users[j]) != UserKey(row) && UserEmail(users[j]) != UserEmail(row) {
        assert users[j] in users;
      }
      AppendDistinct(users, row, UserKey);
      AppendDistinct(users, row, UserEmail);
      users := users + [row];
      r := Success(SignUpReply(newId, email, Some(fullName), roleValue));
    }

    /**
      `signIn`. An unknown email and a wrong password throw the same
      "Invalid email or password"; the ban is checked only after the password.
      Only a successful sign-in changes `currentUser`.
     */
    method SignIn(email: string, password: string, matches: (string, string) -> bool)
      returns (r: Result<SessionUser, AuthError>)
      modifies this`currentUser
      ensures var found := UserByEmail(users, email);
                && (found.None? ==> r == Failure(Thrown(BadCredentialsMessage)))
                && (found.Some? && !matches(password, found.value.passwordHash) ==>
                      r == Failure(Thrown(BadCredentialsMessage)))
                && (found.Some? && matches(password, found.value.passwordHash) && found.value.isBanned ==>
                      r == Failure(Thrown(BannedMessage)))
                && (r.Success? <==>
                      found.Some? && matches(password, found.value.passwordHash) && !found.value.isBanned)
                && (r.Success? ==> r.value == SessionOf(found.value))
      ensures r.Success? ==> currentUser == Some(r.value)
      ensures r.Failure? ==> currentUser == old(currentUser)
    {
      var found := UserByEmail(users, email);
      if found.None? {
        return Failure(Thrown(BadCredentialsMessage));
      }
      var user := found.value;
      if !matches(password, user.passwordHash) {
        return Failure(Thrown(BadCredentialsMessage));
      }
      if user.isBanned {
        return Failure(Thrown(BannedMessage));
      }
      currentUser := Some(SessionOf(user));
      r := Success(currentUser.value);
    }

    /** `signOut`: nobody is signed in afterwards. */
    method SignOut()
      modifies this`currentUser
      ensures currentUser == None
    {
      currentUser := None;
    }

    /** `getCurrentUser`: the session value, read without change. */
    method GetCurrentUser() returns (u: Option<SessionUser>)
      ensures u == currentUser
    {
      u := currentUser;
    }

    /**
      `updateUserProfile`. With neither `full_name` nor `avatar_url` defined
      nothing is written and `currentUser` is returned as it is. Otherwise
      only those two columns of the row with `userId` are written, and
      `currentUser` takes every defined property of `updates` only when it is
      that user. The result is `currentUser` afterwards.
     */
    method UpdateUserProfile(userId: string, updates: UserUpdates) returns (r: Option<SessionUser>)
      requires Valid()
      modifies this`users, this`currentUser
      ensures Valid()
      ensures updates.fullName.None? && updates.avatarUrl.None? ==>
                users == old(users) && currentUser == old(currentUser)
      ensures |users| == |old(users)|
      ensures updates.fullName.Some? || updates.avatarUrl.Some? ==>
                && (forall i :: 0 <= i < |users| ==>
                      users[i] == if old(users)[i].id == userId then WithProfile(old(users)[i], updates) else old(users)[i])
                && currentUser == (if old(currentUser).Some? && old(currentUser).value.id == userId
                                   then Some(Merge(old(currentUser).value, updates))
                                   else old(currentUser))
      ensures r == currentUser
    {
      var columns: seq<ProfileColumn> := [];
      if updates.fullName.Some? {
        columns := columns + [FullNameColumn];
      }
      if updates.avatarUrl.Some? {
        columns := columns + [AvatarUrlColumn];
      }
      if |columns| == 0 {
        return currentUser;
      }
      assert columns == ProfileColumns(updates);

      var before := users;
      users := seq(|before|, i requires 0 <= i < |before| =>
                 if before[i].id == userId then SetColumns(before[i], columns, updates) else before[i]);
      assert forall i :: 0 <= i < |users| ==>
        users[i].id == before[i].id && users[i].email == before[i].email && users[i].role == before[i].role;
      assert forall u :: u in users ==> ValidRole(u.role) by {
        forall u | u in users ensures ValidRole(u.role) {
          var i :| 0 <= i < |users| && users[i] == u;
          assert before[i] in before;
        }
      }

      if currentUser.Some? && currentUser.value.id == userId {
        currentUser := Some(Merge(currentUser.value, updates));
      }
      r := currentUser;
    }
  }
}
