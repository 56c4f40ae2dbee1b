/** The user service: the `users` table with registration, the lookups by
    email and by id, and the authentication decision
    (user-service/app/crud.py). Password hashing and checking belong to a
    library; the check is a parameter. */
module Users {
  import opened Common

  /** A row of `users`, hashed password included. */
  datatype UserRow = UserRow(id: int, email: string, fullName: Option<string>, hashedPassword: string,
                             isActive: bool, isSuperuser: bool)

  /** The `User` schema: a row without its hashed password. */
  datatype User = User(id: int, email: string, fullName: Option<string>, isActive: bool, isSuperuser: bool)

  /** `UserCreate`; by the time it is stored, `password` holds the hash. */
  datatype UserCreate = UserCreate(email: string, fullName: Option<string>, password: string)

  /** The columns the SELECTs read into the schema. */
  function ToUser(row: UserRow): User {
    User(row.id, row.email, row.fullName, row.isActive, row.isSuperuser)
  }

  /** The table and its SERIAL counter. */
  class UserStore {
    var rows: map<int, UserRow>
    var nextId: int

    ghost predicate Valid()
      reads this
    {
      && nextId > 0
      && (forall id :: id in rows ==> rows[id].id == id && 0 < id < nextId)
      // `email` is UNIQUE
      && (forall i, j :: i in rows && j in rows && rows[i].email == rows[j].email ==> i == j)
    }

    constructor ()
      ensures Valid() && rows == map[] && nextId == 1
    {
      rows := map[];
      nextId := 1;
    }

    /** Some row has this email. */
    predicate EmailTaken(email: string)
      reads this
    {
      exists id :: id in rows && rows[id].email == email
    }

    /** `get_user`: the schema of the row with that id, if any. */
    function GetUser(userId: int): (r: Option<User>)
      reads this
      ensures r.None? <==> userId !in rows
      ensures r.Some? ==> r.value == ToUser(rows[userId]) && r.value.id == rows[userId].id
    {
      if userId in rows then Some(ToUser(rows[userId])) else None
    }

    /** `get_user_by_email`: the schema and the hashed password of the row
        with that email, or neither; the UNIQUE constraint makes the row the
        only one. */
    function GetUserByEmail(email: string): (r: (Option<User>, Option<string>))
      reads this
      requires Valid()
      ensures r.0.None? <==> r.1.None?
      ensures r.0.None? <==> !EmailTaken(email)
      ensures r.0.Some? ==>
        && r.0.value.id in rows && r.0.value.email == email
        && r.0 == GetUser(r.0.value.id)
        && r.1 == Some(rows[r.0.value.id].hashedPassword)
    {
      if EmailTaken(email) then
        var id :| id in rows && rows[id].email == email;
        (Some(ToUser(rows[id])), Some(rows[id].hashedPassword))
      else (None, None)
    }

    /** `authenticate_user`: the user with that email when `verifyPassword`
        accepts the password against the stored hash, and None when there is
        no such user or the password is wrong. */
    function AuthenticateUser(email: string, password: string, verifyPassword: (string, string) -> bool): (r: Option<User>)
      reads this
      requires Valid()
      ensures !EmailTaken(email) ==> r.None?
      ensures EmailTaken(email) ==>
        var (user, hash) := GetUserByEmail(email);
        if verifyPassword(password, hash.value) then r == user else r.None?
      ensures r.Some? <==> exists id :: id in rows && rows[id].email == email && verifyPassword(password, rows[id].hashedPassword)
    {
      var (user, hash) := GetUserByEmail(email);
      if user.None? then None
      else if !verifyPassword(password, hash.value) then None
      else user
    }

    /** `create_user`: inserts the given email, name and (already hashed)
        password as an active, non-superuser row, and returns it as read back
        by `get_user`; a taken email violates the UNIQUE constraint. */
    method CreateUser(u: UserCreate) returns (r: Result<User>)
      requires Valid()
      modifies this
      ensures Valid()
      ensures old(EmailTaken(u.email)) ==> r == Failure(UniqueViolation("email")) && rows == old(rows) && nextId == old(nextId)
      ensures !old(EmailTaken(u.email)) ==>
        && r == Success(User(old(nextId), u.email, u.fullName, true, false))
        && rows == old(rows)[old(nextId) := UserRow(old(nextId), u.email, u.fullName, u.password, true, false)]
        && nextId == old(nextId) + 1
        && GetUser(r.value.id) == Some(r.value)
        && GetUserByEmail(u.email) == (Some(r.value), Some(u.password))
    {
      if EmailTaken(u.email) {
        return Failure(UniqueViolation("email"));
      }
      var row := UserRow(nextId, u.email, u.fullName, u.password, true, false);
      rows := rows[nextId := row];
      nextId := nextId + 1;
      var fetched := GetUser(row.id);
      r := Success(fetched.value);
    }
  }

  /** A freshly registered user authenticates exactly with the passwords
      that the check accepts against the stored hash. */
  method RegisterThenAuthenticate(store: UserStore, u: UserCreate, password: string, verifyPassword: (string, string) -> bool)
    returns (created: Result<User>, authenticated: Option<User>)
    requires store.Valid()
    modifies store
    ensures store.Valid()
    ensures created.Success? ==>
      authenticated == (if verifyPassword(password, u.password) then Some(created.value) else None)
  {
    created := store.CreateUser(u);
    authenticated := store.AuthenticateUser(u.email, password, verifyPassword);
  }
}
