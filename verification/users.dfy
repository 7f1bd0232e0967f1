/**
 * The users table and the admin and self-service handlers that change it:
 * password change, role and e-mail change, user creation and deletion, with
 * their required-field checks and the rule that an admin may not change or
 * delete their own account through the admin panel.
 */
module Users {
  import opened Common
  import opened Decimal

  /** A `users` row (the key is the numeric id). */
  datatype User = User(employeeId: string, name: string, email: string, role: string, passwordHash: string)

  const MIN_PASSWORD_LENGTH: nat := 6

  /** The self-target guard as the handlers write it: the route parameter's text equals the text of the caller's id. */
  predicate SelfGuardAsWritten(idParam: string, callerId: nat) {
    idParam == NatToString(callerId)
  }

  /**
   * The guard the handlers mean: the row the query would touch, once the id
   * text is cast to an integer, is the caller's own.
   */
  predicate TargetsSelf(idParam: string, callerId: nat) {
    ParseId(idParam) == Some(callerId)
  }

  /**
   * Whatever the text guard refuses does target the caller's own row; for a
   * caller id beyond the column's range it refuses only a text whose query
   * would fail anyway.
   */
  lemma SelfGuardSound(idParam: string, callerId: nat)
    ensures SelfGuardAsWritten(idParam, callerId) && callerId <= MAX_ID ==> TargetsSelf(idParam, callerId)
    ensures SelfGuardAsWritten(idParam, callerId) && callerId > MAX_ID ==> ParseId(idParam).None?
  {
    ParseIdOfText(callerId);
  }

  /** The text guard lets "007" through for caller 7, although the query then updates row 7. */
  lemma SelfGuardBypass()
    ensures !SelfGuardAsWritten("007", 7) && TargetsSelf("007", 7)
  {
    assert NatToString(7) == "7";
    assert ParseDigits("007") == 7 by {
      assert "007"[..2] == "00" && "00"[..1] == "0" && "0"[..0] == "";
    }
  }

  /** The required-field and length checks of the password change. */
  predicate PasswordRequestWellFormed(currentPassword: string, newPassword: string) {
    currentPassword != "" && newPassword != "" && |newPassword| >= MIN_PASSWORD_LENGTH
  }

  /** All four fields of a new user are present. */
  predicate NewUserComplete(name: string, email: string, role: string, password: string) {
    name != "" && email != "" && role != "" && password != ""
  }

  class UserStore {
    /** The users table, keyed by id. */
    var users: map<nat, User>
    /** The next value of the id sequence. */
    var nextId: nat

    /** Ids come from the `integer` sequence; e-mail addresses are unique. */
    ghost predicate Valid()
      reads this
    {
      && (forall id :: id in users ==> id <= MAX_ID)
      && (forall a, b :: a in users && b in users && a != b ==> users[a].email != users[b].email)
    }

    /** Some user other than `except` already has `email`. */
    predicate EmailTaken(email: string, except: Option<nat>)
      reads this
    {
      exists id :: id in users && Some(id) != except && users[id].email == email
    }

    constructor ()
      ensures Valid() && users == map[] && nextId == 1
    {
      users := map[];
      nextId := 1;
    }

    /**
     * `PUT /me/password`: both fields are required, the new password needs at
     * least six characters, and the current one must match the stored hash
     * (`matches` is the password-hash comparison; `newHash` the hash of the new
     * password). Only on success does the stored hash change.
     */
    method ChangePassword(callerId: nat, currentPassword: string, newPassword: string,
                          matches: (string, string) -> bool, newHash: string)
      returns (outcome: Outcome)
      requires Valid()
      modifies this
      ensures Valid() && nextId == old(nextId)
      ensures outcome ==
        if !PasswordRequestWellFormed(currentPassword, newPassword) then BadRequest
        else if callerId !in old(users) then ServerError
        else if !matches(currentPassword, old(users)[callerId].passwordHash) then BadRequest
        else Ok
      ensures outcome == Ok ==> users == old(users)[callerId := old(users)[callerId].(passwordHash := newHash)]
      ensures outcome != Ok ==> users == old(users)
    {
      if currentPassword == "" || newPassword == "" {
        return BadRequest;
      }
      if |newPassword| < MIN_PASSWORD_LENGTH {
        return BadRequest;
      }
      if callerId !in users {
        return ServerError;
      }
      var user := users[callerId];
      if !matches(currentPassword, user.passwordHash) {
        return BadRequest;
      }
      users := users[callerId := user.(passwordHash := newHash)];
      outcome := Ok;
    }

    /**
     * `PUT /:id/role`: refused for the caller's own id (the corrected guard
     * `TargetsSelf`); an id text that is not a number in the column's range
     * fails in the query; an unknown id is not found. The caller's own
     * row is never changed.
     */
    method ChangeRole(callerId: nat, idParam: string, role: string) returns (outcome: Outcome)
      requires Valid()
      modifies this
      ensures Valid() && nextId == old(nextId)
      ensures outcome ==
        if TargetsSelf(idParam, callerId) then BadRequest
        else if ParseId(idParam).None? then ServerError
        else if ParseId(idParam).value !in old(users) then NotFound
        else Ok
      ensures outcome == Ok ==> var id := ParseId(idParam).value;
        users == old(users)[id := old(users)[id].(role := role)]
      ensures outcome != Ok ==> users == old(users)
      ensures callerId in old(users) ==> callerId in users && users[callerId] == old(users)[callerId]
    {
      if TargetsSelf(idParam, callerId) {
        return BadRequest;
      }
      var target := ParseId(idParam);
      if target.None? {
        return ServerError;
      }
      var id := target.value;
      if id !in users {
        return NotFound;
      }
      users := users[id := users[id].(role := role)];
      outcome := Ok;
    }

    /**
     * `PUT /:id/email`: as for the role, plus the unique constraint: an e-mail
     * held by another user is a conflict. The caller's own row is never changed.
     */
    method ChangeEmail(callerId: nat, idParam: string, email: string) returns (outcome: Outcome)
      requires Valid()
      modifies this
      ensures Valid() && nextId == old(nextId)
      ensures outcome ==
        if TargetsSelf(idParam, callerId) then BadRequest
        else if ParseId(idParam).None? then ServerError
        else if ParseId(idParam).value !in old(users) then NotFound
        else if old(EmailTaken(email, ParseId(idParam))) then Conflict
        else Ok
      ensures outcome == Ok ==> var id := ParseId(idParam).value;
        users == old(users)[id := old(users)[id].(email := email)]
      ensures outcome == Ok ==> forall id :: id in users && users[id].email == email ==> id == ParseId(idParam).value
      ensures outcome != Ok ==> users == old(users)
      ensures callerId in old(users) ==> callerId in users && users[callerId] == old(users)[callerId]
    {
      if TargetsSelf(idParam, callerId) {
        return BadRequest;
      }
      var target := ParseId(idParam);
      if target.None? {
        return ServerError;
      }
      var id := target.value;
      if id !in users {
        return NotFound;
      }
      if EmailTaken(email, target) {
        return Conflict;
      }
      users := users[id := users[id].(email := email)];
      outcome := Ok;
    }

    /**
     * `POST /`: all four fields are required. The id is drawn from the sequence
     * (and stays used even when the insert then fails); an exhausted sequence
     * makes `nextval` fail. The employee id is derived from the id, and a taken
     * id or e-mail is a conflict.
     */
    method AddUser(name: string, email: string, role: string, password: string, passwordHash: string)
      returns (outcome: Outcome, created: Option<User>)
      requires Valid()
      modifies this
      ensures Valid()
      ensures !NewUserComplete(name, email, role, password) ==>
        outcome == BadRequest && created == None && users == old(users) && nextId == old(nextId)
      ensures NewUserComplete(name, email, role, password) && old(nextId) > MAX_ID ==>
        outcome == ServerError && created == None && users == old(users) && nextId == old(nextId)
      ensures NewUserComplete(name, email, role, password) && old(nextId) <= MAX_ID ==> nextId == old(nextId) + 1
      ensures (NewUserComplete(name, email, role, password) && old(nextId) <= MAX_ID &&
               (old(nextId) in old(users) || old(EmailTaken(email, None)))) ==>
        outcome == Conflict && created == None && users == old(users)
      ensures outcome == Ok <==>
        NewUserComplete(name, email, role, password) && old(nextId) <= MAX_ID &&
        old(nextId) !in old(users) && !old(EmailTaken(email, None))
      ensures outcome == Ok ==>
        created == Some(User(EmployeeId(old(nextId)), name, email, role, passwordHash)) &&
        users == old(users)[old(nextId) := created.value]
    {
      if name == "" || email == "" || role == "" || password == "" {
        return BadRequest, None;
      }
      if nextId > MAX_ID {
        return ServerError, None;
      }
      var newUserId := nextId;
      nextId := nextId + 1;
      if newUserId in users || EmailTaken(email, None) {
        return Conflict, None;
      }
      var user := User(EmployeeId(newUserId), name, email, role, passwordHash);
      users := users[newUserId := user];
      outcome, created := Ok, Some(user);
    }

    /**
     * `DELETE /:id`: refused for the caller's own id (the corrected guard
     * `TargetsSelf`); an id text that is not a number in the column's range
     * fails in the query; an unknown id is not found.
     */
    method Delete(callerId: nat, idParam: string) returns (outcome: Outcome)
      requires Valid()
      modifies this
      ensures Valid() && nextId == old(nextId)
      ensures outcome ==
        if TargetsSelf(idParam, callerId) then BadRequest
        else if ParseId(idParam).None? then ServerError
        else if ParseId(idParam).value !in old(users) then NotFound
        else Ok
      ensures outcome == Ok ==> users == old(users) - {ParseId(idParam).value}
      ensures outcome != Ok ==> users == old(users)
      ensures callerId in old(users) ==> callerId in users && users[callerId] == old(users)[callerId]
    {
      if TargetsSelf(idParam, callerId) {
        return BadRequest;
      }
      var target := ParseId(idParam);
      if target.None? {
        return ServerError;
      }
      var id := target.value;
      if id !in users {
        return NotFound;
      }
      users := users - {id};
      outcome := Ok;
    }
  }
}
