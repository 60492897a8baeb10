/** A registered account: identity, credentials and role fixed at construction, the
    creation timestamp, and the active flag, plus its saved comma-separated line. */
module UserModel {
  import opened Options
  import Text
  import Codec

  /** The seven saved fields of a user. */
  datatype UserRow = UserRow(
    userId: string, username: string, passwordHash: string, email: string, role: string,
    createdAt: int, isActive: bool)

  function UserFields(row: UserRow): seq<string>
  {
    [row.userId, row.username, row.passwordHash, row.email, row.role,
     Codec.IntText(row.createdAt), Codec.BoolText(row.isActive)]
  }

  /** User.toString. */
  function EncodeUser(row: UserRow): string
  {
    Text.Join(UserFields(row), ',')
  }

  /** User.fromString: fewer than seven pieces or an unparsable timestamp is the exception
      case. */
  function DecodeUser(line: string): Option<UserRow>
  {
    var parts := Text.JavaSplit(line, ',');
    if |parts| < 7 then None
    else
      match Codec.ParseInt(parts[5])
      case Some(createdAt) =>
        Some(UserRow(parts[0], parts[1], parts[2], parts[3], parts[4], createdAt,
                     Codec.ParseBool(parts[6])))
      case None => None
  }

  /** The text fields of a user hold no comma. */
  predicate Serialisable(row: UserRow)
  {
    && ',' !in row.userId && ',' !in row.username && ',' !in row.passwordHash
    && ',' !in row.email && ',' !in row.role
  }

  /** fromString(toString(u)) restores all seven fields, createdAt and isActive included. */
  lemma DecodeEncodeUser(row: UserRow)
    requires Serialisable(row)
    ensures DecodeUser(EncodeUser(row)) == Some(row)
  {
    Codec.IntTextHasNoSeparator(row.createdAt);
    Codec.ParseBoolText(row.isActive);
    Text.JavaSplitJoin(UserFields(row), ',');
    Codec.ParseIntText(row.createdAt);
  }

  class User {
    const userId: string
    const username: string
    const passwordHash: string
    const email: string
    const role: string
    var createdAt: int
    var isActive: bool

    /** The saved fields of this user. */
    function Row(): UserRow
      reads this
    {
      UserRow(userId, username, passwordHash, email, role, createdAt, isActive)
    }

    /** A new user is active; `now` stands for LocalDateTime.now(). */
    constructor (userId: string, username: string, passwordHash: string, email: string,
                 role: string, now: int)
      ensures Row() == UserRow(userId, username, passwordHash, email, role, now, true)
    {
      this.userId := userId;
      this.username := username;
      this.passwordHash := passwordHash;
      this.email := email;
      this.role := role;
      this.createdAt := now;
      this.isActive := true;
    }

    method SetActive(active: bool)
      modifies this`isActive
      ensures Row() == old(Row()).(isActive := active)
    {
      isActive := active;
    }

    /** toString. */
    function ToLine(): string
      reads this
    {
      EncodeUser(Row())
    }

    /** fromString: the constructor, then the parsed timestamp and flag written over the
        fresh object's fields. */
    static method FromLine(line: string) returns (r: Option<User>)
      ensures r.None? <==> DecodeUser(line).None?
      ensures r.Some? ==> fresh(r.value) && r.value.Row() == DecodeUser(line).value
    {
      var parts := Text.JavaSplit(line, ',');
      if |parts| < 7 {
        return None;
      }
      var user := new User(parts[0], parts[1], parts[2], parts[3], parts[4], 0);
      var createdAt := Codec.ParseInt(parts[5]);
      if createdAt.None? {
        return None;
      }
      user.createdAt := createdAt.value;
      user.isActive := Codec.ParseBool(parts[6]);
      r := Some(user);
    }
  }
}
