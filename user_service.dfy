/** The decisions of the user service: not-found errors for empty lookups,
    the filter-keyword to SQL-condition mapping, login with migration of
    legacy password hashes, and the re-crypt on update. The DAO and bcrypt
    are oracles: the DAO's read answers are fixed functions, its writes are
    logged, and `bcrypt.hash(password, 13)` is the function `hash`. */
module UserService {
  import opened Wrappers
  import opened JsValues
  import opened ServiceErrors
  import opened Models

  /** A write the service asks of the DAO. */
  datatype DaoWrite = Saved(record: UserData) | Updated(userId: Option<int>, record: UserData)

  /** A single-row DAO answer: no row as `undefined` or as `null`, or a row.
      The source tests the two absent forms differently: `!result` treats both
      as missing, `user === undefined` only the first. */
  datatype Lookup = Missing | NullRecord | Found(user: UserData)

  /** The user DAO as the service sees it. */
  class UserDao {
    const findOne: int -> Result<Lookup, Thrown>
    const findWhere: string -> Result<seq<UserData>, Thrown>
    const findAll: (seq<string>, Option<seq<string>>) -> Result<seq<Row>, Thrown>
    const findByUsername: string -> Result<Lookup, Thrown>
    const findByEmail: string -> Result<Lookup, Thrown>
    const saveAnswer: UserData -> Result<seq<int>, Thrown>
    const updateAnswer: (Option<int>, UserData) -> Result<int, Thrown>
    var writes: seq<DaoWrite>

    constructor (
      findOne: int -> Result<Lookup, Thrown>,
      findWhere: string -> Result<seq<UserData>, Thrown>,
      findAll: (seq<string>, Option<seq<string>>) -> Result<seq<Row>, Thrown>,
      findByUsername: string -> Result<Lookup, Thrown>,
      findByEmail: string -> Result<Lookup, Thrown>,
      saveAnswer: UserData -> Result<seq<int>, Thrown>,
      updateAnswer: (Option<int>, UserData) -> Result<int, Thrown>)
      ensures this.findOne == findOne && this.findWhere == findWhere && this.findAll == findAll
      ensures this.findByUsername == findByUsername && this.findByEmail == findByEmail
      ensures this.saveAnswer == saveAnswer && this.updateAnswer == updateAnswer
      ensures writes == []
    {
      this.findOne := findOne;
      this.findWhere := findWhere;
      this.findAll := findAll;
      this.findByUsername := findByUsername;
      this.findByEmail := findByEmail;
      this.saveAnswer := saveAnswer;
      this.updateAnswer := updateAnswer;
      writes := [];
    }

    /** `userDao.save(record)` */
    method Save(record: UserData) returns (r: Result<seq<int>, Thrown>)
      modifies this
      ensures writes == old(writes) + [Saved(record)]
      ensures r == saveAnswer(record)
    {
      writes := writes + [Saved(record)];
      r := saveAnswer(record);
    }

    /** `userDao.update(userId, record)` */
    method Update(userId: Option<int>, record: UserData) returns (r: Result<int, Thrown>)
      modifies this
      ensures writes == old(writes) + [Updated(userId, record)]
      ensures r == updateAnswer(userId, record)
    {
      writes := writes + [Updated(userId, record)];
      r := updateAnswer(userId, record);
    }
  }

  /** `fetchUser(userId)`: the user with that id, or `ServiceError(404, "Not found")`. */
  function FetchUser(dao: UserDao, userId: int): (r: Result<UserData, Thrown>)
    ensures r.Success? <==> dao.findOne(userId).Success? && dao.findOne(userId).value.Found?
    ensures r.Success? ==> r.value == dao.findOne(userId).value.user
    ensures dao.findOne(userId).Success? && !dao.findOne(userId).value.Found? ==>
      r == Failure(ServiceError(404, "Not found"))
    ensures dao.findOne(userId).Failure? ==> r == Failure(dao.findOne(userId).error)
  {
    match dao.findOne(userId)
    case Failure(e) => Failure(e)
    case Success(Found(u)) => Success(u)
    case Success(_) => Failure(ServiceError(404, "Not found"))
  }

  /** A DAO list answer checked with `if (!results.length) throw ...`. */
  function NonEmpty<T>(found: Result<seq<T>, Thrown>): (r: Result<seq<T>, Thrown>)
    ensures r.Success? ==> found == r && |r.value| > 0
    ensures found.Success? && |found.value| > 0 ==> r == found
    ensures found == Success([]) ==> r == Failure(ServiceError(404, "No results returned"))
    ensures found.Failure? ==> r == found
  {
    match found
    case Failure(e) => Failure(e)
    case Success(rows) => if |rows| == 0 then Failure(ServiceError(404, "No results returned")) else Success(rows)
  }

  /** `searchUsers(searchTerm)` */
  function SearchUsers(dao: UserDao, searchTerm: string): (r: Result<seq<UserData>, Thrown>)
    ensures r.Success? <==> dao.findWhere(searchTerm).Success? && |dao.findWhere(searchTerm).value| > 0
    ensures r.Success? ==> r.value == dao.findWhere(searchTerm).value
    ensures dao.findWhere(searchTerm) == Success([]) ==> r == Failure(ServiceError(404, "No results returned"))
  {
    NonEmpty(dao.findWhere(searchTerm))
  }

  /** The SQL fragment a filter keyword stands for; other keywords have none. */
  function ConditionFragment(keyword: string): Option<string>
  {
    match keyword
    case "member" => Some("membership <> 'ei-jasen'")
    case "nonmember" => Some("membership = 'ei-jasen'")
    case "paid" => Some("paid is not null")
    case "nonpaid" => Some("(paid is null)")
    case "revoked" => Some("deleted = 1")
    case _ => None
  }

  /** The five fragments a condition list can produce. */
  const KnownFragments: set<string> :=
    {"membership <> 'ei-jasen'", "membership = 'ei-jasen'", "paid is not null", "(paid is null)", "deleted = 1"}

  /** The fragments of a keyword list, in order, unknown keywords dropped. */
  function Fragments(keywords: seq<string>): (fragments: seq<string>)
  {
    if keywords == [] then []
    else
      var last := keywords[|keywords| - 1];
      Fragments(keywords[..|keywords| - 1])
        + (match ConditionFragment(last) case Some(f) => [f] case None => [])
  }

  /** The `conditionQuery` handed to the DAO: `null` without conditions. */
  function ConditionQuery(conditions: Option<seq<string>>): (query: Option<seq<string>>)
  {
    match conditions
    case None => None
    case Some(keywords) => Some(Fragments(keywords))
  }

  /** `fetchAllWithSelectedFields(fields, conditions)`: builds the condition
      list keyword by keyword, queries the DAO with it and refuses an empty
      answer. Also returns the condition list it passed to the DAO. */
  method FetchAllWithSelectedFields(fields: seq<string>, conditions: Option<seq<string>>, dao: UserDao)
    returns (conditionQuery: Option<seq<string>>, r: Result<seq<Row>, Thrown>)
    ensures conditionQuery == ConditionQuery(conditions)
    ensures r == NonEmpty(dao.findAll(fields, conditionQuery))
  {
    conditionQuery := None;
    if conditions.Some? {
      var keywords := conditions.value;
      var query: seq<string> := [];
      for i := 0 to |keywords|
        invariant query == Fragments(keywords[..i])
      {
        var condition := keywords[i];
        if condition == "member" {
          query := query + ["membership <> 'ei-jasen'"];
        } else if condition == "nonmember" {
          query := query + ["membership = 'ei-jasen'"];
        } else if condition == "paid" {
          query := query + ["paid is not null"];
        } else if condition == "nonpaid" {
          query := query + ["(paid is null)"];
        } else if condition == "revoked" {
          query := query + ["deleted = 1"];
        }
        assert keywords[..i + 1][..i] == keywords[..i];
      }
      assert keywords[..|keywords|] == keywords;
      conditionQuery := Some(query);
    }
    r := NonEmpty(dao.findAll(fields, conditionQuery));
  }

  /** Fragments of a concatenation are the concatenation of the fragments. */
  lemma {:induction false} FragmentsAppend(a: seq<string>, b: seq<string>)
    ensures Fragments(a + b) == Fragments(a) + Fragments(b)
    decreases |b|
  {
    if b == [] {
      assert a + b == a;
    } else {
      var init := b[..|b| - 1];
      assert (a + b)[..|a + b| - 1] == a + init;
      assert (a + b)[|a + b| - 1] == b[|b| - 1];
      FragmentsAppend(a, init);
    }
  }

  /** Unknown keywords are dropped, so there are never more fragments than
      keywords, and as many exactly when every keyword is known. */
  lemma {:induction false} FragmentsLength(keywords: seq<string>)
    ensures |Fragments(keywords)| <= |keywords|
    ensures |Fragments(keywords)| == |keywords| <==>
      forall i :: 0 <= i < |keywords| ==> ConditionFragment(keywords[i]).Some?
  {
    if keywords != [] {
      var init := keywords[..|keywords| - 1];
      FragmentsLength(init);
      assert forall i :: 0 <= i < |init| ==> init[i] == keywords[i];
    }
  }

  /** Every produced fragment is one of the five known ones. */
  lemma {:induction false} FragmentsKnown(keywords: seq<string>)
    ensures forall f :: f in Fragments(keywords) ==> f in KnownFragments
  {
    if keywords != [] {
      FragmentsKnown(keywords[..|keywords| - 1]);
    }
  }

  /** With only known keywords, the i-th fragment is the i-th keyword's:
      input order is kept and duplicates are kept. */
  lemma {:induction false} FragmentsOfKnown(keywords: seq<string>)
    requires forall i :: 0 <= i < |keywords| ==> ConditionFragment(keywords[i]).Some?
    ensures |Fragments(keywords)| == |keywords|
    ensures forall i :: 0 <= i < |keywords| ==> Fragments(keywords)[i] == ConditionFragment(keywords[i]).value
  {
    if keywords != [] {
      var init := keywords[..|keywords| - 1];
      assert forall i :: 0 <= i < |init| ==> init[i] == keywords[i];
      FragmentsOfKnown(init);
    }
  }

  /** A keyword list with a duplicate and an unknown keyword. */
  lemma FragmentsExample()
    ensures Fragments(["paid", "bogus", "member", "paid"])
         == ["paid is not null", "membership <> 'ei-jasen'", "paid is not null"]
  {
    assert ["paid", "bogus", "member", "paid"][..3] == ["paid", "bogus", "member"];
    assert ["paid", "bogus", "member"][..2] == ["paid", "bogus"];
    assert ["paid", "bogus"][..1] == ["paid"];
    assert ["paid"][..0] == [];
  }

  /** No condition list gives `null`; an empty one gives an empty list. */
  lemma ConditionQueryAbsentVersusEmpty()
    ensures ConditionQuery(None) == None
    ensures ConditionQuery(Some([])) == Some([])
  {
  }

  /** `checkUsernameAvailability(username)`: free iff the DAO finds nobody. */
  function CheckUsernameAvailability(dao: UserDao, username: string): (r: Result<bool, Thrown>)
    ensures r.Success? <==> dao.findByUsername(username).Success?
    ensures r.Success? ==> (r.value <==> dao.findByUsername(username).value.Missing?)
  {
    match dao.findByUsername(username)
    case Failure(e) => Failure(e)
    case Success(found) => Success(found.Missing?)
  }

  /** `checkEmailAvailability(email)`: free iff the DAO finds nobody. */
  function CheckEmailAvailability(dao: UserDao, email: string): (r: Result<bool, Thrown>)
    ensures r.Success? <==> dao.findByEmail(email).Success?
    ensures r.Success? ==> (r.value <==> dao.findByEmail(email).value.Missing?)
  {
    match dao.findByEmail(email)
    case Failure(e) => Failure(e)
    case Success(found) => Success(found.Missing?)
  }

  /** The properties `updateUser` assigns on the passed user: with a (truthy)
      password, a fresh bcrypt hash and the modern-scheme salt `"0"`. */
  function Recrypted(user: UserData, password: Option<string>, hash: string -> string): UserData
  {
    if password.Some? && password.value != "" then
      user.(hashedPassword := Some(hash(password.value)), salt := Some("0"))
    else user
  }

  /** Re-crypting with a password resets the salt and replaces the hash and
      nothing else; without one the user is left as supplied. */
  lemma RecryptedEffect(user: UserData, password: Option<string>, hash: string -> string)
    ensures var after := Recrypted(user, password, hash);
      if password.Some? && password.value != "" then
        after.salt == Some("0") && after.hashedPassword == Some(hash(password.value))
        && after.(salt := user.salt, hashedPassword := user.hashedPassword) == user
      else after == user
  {
  }

  /** `updateUser(userId, updatedUser, password)`: re-crypts in place, then
      hands a copy to the DAO and returns its affected-row count. */
  method UpdateUser(userId: Option<int>, updatedUser: User, password: Option<string>, dao: UserDao, hash: string -> string)
    returns (r: Result<int, Thrown>)
    modifies updatedUser, dao
    ensures updatedUser.Data() == Recrypted(old(updatedUser.Data()), password, hash)
    ensures dao.writes == old(dao.writes) + [Updated(userId, updatedUser.Data())]
    ensures r == dao.updateAnswer(userId, updatedUser.Data())
  {
    if password.Some? && password.value != "" {
      updatedUser.hashedPassword := Some(hash(password.value));
      updatedUser.salt := Some("0");
    }
    var newUser := new User(NoUserData);
    newUser.id, newUser.username, newUser.email := updatedUser.id, updatedUser.username, updatedUser.email;
    newUser.role, newUser.salt, newUser.hashedPassword := updatedUser.role, updatedUser.salt, updatedUser.hashedPassword;
    r := dao.Update(userId, newUser.Data());
  }

  /** `createUser(user, password)`: hashes the password into the passed user
      (the salt is left as supplied), saves a copy and returns the first
      insert id (`None` when the DAO returns no id). */
  method CreateUser(user: User, password: string, dao: UserDao, hash: string -> string)
    returns (r: Result<Option<int>, Thrown>)
    modifies user, dao
    ensures user.Data() == old(user.Data()).(hashedPassword := Some(hash(password)))
    ensures dao.writes == old(dao.writes) + [Saved(user.Data())]
    ensures r == match dao.saveAnswer(user.Data())
                 case Failure(e) => Failure(e)
                 case Success(ids) => Success(if |ids| > 0 then Some(ids[0]) else None)
  {
    user.hashedPassword := Some(hash(password));
    var newUser := new User(user.Data());
    var insertIds := dao.Save(newUser.Data());
    match insertIds
    case Failure(e) => r := Failure(e);
    case Success(ids) => r := Success(if |ids| > 0 then Some(ids[0]) else None);
  }

  /** The user record `new User({salt: "0"})` re-crypted with the login password:
      what a legacy login hands to the DAO. */
  function MigrationRecord(password: string, hash: string -> string): UserData
  {
    Recrypted(NoUserData.(salt := Some("0")), Some(password), hash)
  }

  /** The result of a login and the DAO writes it made. */
  datatype LoginRun = LoginRun(result: Result<UserData, Thrown>, writes: seq<DaoWrite>)

  /** What `getUserWithUsernameAndPassword(username, password)` does, with
      `validatePassword(password, salt, hashedPassword)` as an oracle. */
  function Login(dao: UserDao, username: string, password: string,
                 validatePassword: (string, Option<string>, Option<string>) -> bool,
                 hash: string -> string): (run: LoginRun)
  {
    match dao.findByUsername(username)
    case Failure(e) => LoginRun(Failure(e), [])
    case Success(Missing) => LoginRun(Failure(ServiceError(404, "User not found")), [])
    case Success(NullRecord) => LoginRun(Failure(ServiceError(404, "User not found")), [])
    case Success(Found(user)) =>
      if !validatePassword(password, user.salt, user.hashedPassword) then
        LoginRun(Failure(ServiceError(401, "Invalid username or password")), [])
      else if user.salt == Some("0") then
        LoginRun(Success(user), [])
      else
        var record := MigrationRecord(password, hash);
        var write := Updated(user.id, record);
        match dao.updateAnswer(user.id, record)
        case Failure(e) => LoginRun(Failure(e), [write])
        case Success(_) => LoginRun(Success(user), [write])
  }

  /** `getUserWithUsernameAndPassword(username, password)` */
  method GetUserWithUsernameAndPassword(username: string, password: string, dao: UserDao,
                                        validatePassword: (string, Option<string>, Option<string>) -> bool,
                                        hash: string -> string)
    returns (r: Result<UserData, Thrown>)
    modifies dao
    ensures var run := Login(dao, username, password, validatePassword, hash);
      r == run.result && dao.writes == old(dao.writes) + run.writes
  {
    var dbUser := dao.findByUsername(username);
    if dbUser.Failure? {
      return Failure(dbUser.error);
    }
    if !dbUser.value.Found? {
      return Failure(ServiceError(404, "User not found"));
    }
    var user := new User(dbUser.value.user);
    var isPasswordCorrect := validatePassword(password, user.salt, user.hashedPassword);
    if isPasswordCorrect {
      if user.salt != Some("0") {
        var patch := new User(NoUserData.(salt := Some("0")));
        var updated := UpdateUser(user.id, patch, Some(password), dao, hash);
        if updated.Failure? {
          return Failure(updated.error);
        }
      }
      return Success(user.Data());
    }
    return Failure(ServiceError(401, "Invalid username or password"));
  }

  /** An unknown username (no row, as `undefined` or `null`) is refused with
      404 "User not found" and nothing is written. */
  lemma LoginUnknownUser(dao: UserDao, username: string, password: string,
                         validatePassword: (string, Option<string>, Option<string>) -> bool,
                         hash: string -> string)
    requires dao.findByUsername(username).Success? && !dao.findByUsername(username).value.Found?
    ensures Login(dao, username, password, validatePassword, hash)
         == LoginRun(Failure(ServiceError(404, "User not found")), [])
  {
  }

  /** A password the validator rejects is refused with 401 and nothing is written. */
  lemma LoginWrongPassword(dao: UserDao, username: string, password: string,
                           validatePassword: (string, Option<string>, Option<string>) -> bool,
                           hash: string -> string, user: UserData)
    requires dao.findByUsername(username) == Success(Found(user))
    requires !validatePassword(password, user.salt, user.hashedPassword)
    ensures Login(dao, username, password, validatePassword, hash)
         == LoginRun(Failure(ServiceError(401, "Invalid username or password")), [])
  {
  }

  /** A password the validator accepts logs the user in, returning the user
      as read, unless the migration write of a legacy user fails. Together
      with `LoginWrongPassword`: a found user gets 401 exactly when the
      password is rejected. */
  lemma LoginCorrectPassword(dao: UserDao, username: string, password: string,
                             validatePassword: (string, Option<string>, Option<string>) -> bool,
                             hash: string -> string, user: UserData)
    requires dao.findByUsername(username) == Success(Found(user))
    requires validatePassword(password, user.salt, user.hashedPassword)
    requires user.salt == Some("0") || dao.updateAnswer(user.id, MigrationRecord(password, hash)).Success?
    ensures Login(dao, username, password, validatePassword, hash).result == Success(user)
  {
  }

  /** With a correct password, the DAO is asked to store a record with salt
      `"0"` exactly when the stored salt is not `"0"`; if the DAO accepts it,
      the login returns the user as it was read, legacy salt included. */
  lemma LoginMigratesLegacyHashes(dao: UserDao, username: string, password: string,
                                  validatePassword: (string, Option<string>, Option<string>) -> bool,
                                  hash: string -> string, user: UserData)
    requires dao.findByUsername(username) == Success(Found(user))
    requires validatePassword(password, user.salt, user.hashedPassword)
    ensures var run := Login(dao, username, password, validatePassword, hash);
      (run.writes != [] <==> user.salt != Some("0"))
      && (run.writes != [] ==> run.writes == [Updated(user.id, MigrationRecord(password, hash))])
      && (run.writes != [] && dao.updateAnswer(user.id, MigrationRecord(password, hash)).Failure? ==>
            run.result == Failure(dao.updateAnswer(user.id, MigrationRecord(password, hash)).error))
      && (run.result.Success? ==> run.result.value == user)
  {
  }

  /** The record a legacy login stores: salt `"0"`, the bcrypt hash of the
      password when it is non-empty, and no other property. With an empty
      password no hash is stored, only the salt. */
  lemma MigrationRecordContents(password: string, hash: string -> string)
    ensures var record := MigrationRecord(password, hash);
      record.salt == Some("0")
      && record.hashedPassword == (if password != "" then Some(hash(password)) else None)
      && record.(salt := None, hashedPassword := None) == NoUserData
  {
  }

  /** A username reported available is one whose login is refused with
      "User not found". */
  lemma AvailabilityMatchesLogin(dao: UserDao, username: string, password: string,
                                 validatePassword: (string, Option<string>, Option<string>) -> bool,
                                 hash: string -> string)
    ensures CheckUsernameAvailability(dao, username) == Success(true) ==>
      Login(dao, username, password, validatePassword, hash).result == Failure(ServiceError(404, "User not found"))
  {
  }

  /** A DAO answering `null` for a username makes the two tests disagree:
      the username is reported taken (`null !== undefined`), yet login
      refuses it as unknown (`!null`). */
  lemma NullRowTakenButUnknown(dao: UserDao, username: string, password: string,
                               validatePassword: (string, Option<string>, Option<string>) -> bool,
                               hash: string -> string)
    requires dao.findByUsername(username) == Success(NullRecord)
    ensures CheckUsernameAvailability(dao, username) == Success(false)
    ensures Login(dao, username, password, validatePassword, hash).result == Failure(ServiceError(404, "User not found"))
  {
  }
}
