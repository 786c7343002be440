/** The model objects the core passes around: users, service tokens and the
    identity the middleware attaches to a request. */
module Models {
  import opened Wrappers

  /** The properties of a user record that the core reads or writes. Each may
      be missing (`new User({salt: "0"})` sets only the salt). The salt doubles
      as the hashing-scheme discriminant: `"0"` marks a bcrypt hash. */
  datatype UserData = UserData(
    id: Option<int>,
    username: Option<string>,
    email: Option<string>,
    role: Option<string>,
    salt: Option<string>,
    hashedPassword: Option<string>)

  /** `new User({})`: no property set. */
  const NoUserData := UserData(None, None, None, None, None, None)

  /** A `User` object, whose password properties the user service assigns in place. */
  class User {
    var id: Option<int>
    var username: Option<string>
    var email: Option<string>
    var role: Option<string>
    var salt: Option<string>
    var hashedPassword: Option<string>

    /** `new User(record)` */
    constructor (record: UserData)
      ensures Data() == record
    {
      id := record.id;
      username := record.username;
      email := record.email;
      role := record.role;
      salt := record.salt;
      hashedPassword := record.hashedPassword;
    }

    /** The object's properties as a value (what `Object.assign` copies and
        `getDatabaseObject` hands to the DAO). */
    function Data(): UserData
      reads this
    {
      UserData(id, username, email, role, salt, hashedPassword)
    }
  }

  /** A decoded service token. Only the user id is read by the core; the other
      claims are not part of this model. */
  datatype ServiceToken = ServiceToken(userId: int)

  /** `req.authorization = { token, user }` */
  datatype Authorization = Authorization(token: ServiceToken, user: UserData)
}
