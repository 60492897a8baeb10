/** The account list and the session: admin and sample seeding, registration with
    case-insensitive unique usernames, login against a password check, logout, and the
    role update. Password hashing and checking stand behind the `hash` and `verify`
    functions the service is built with; generated ids and the clock are parameters. */
module UserServiceModel {
  import opened Options
  import Seqs
  import Text
  import opened UserModel

  const AdminRole := "admin"

  /** Some account has the admin role. */
  predicate HasAdmin(us: seq<User>)
  {
    exists i :: 0 <= i < |us| && us[i].role == AdminRole
  }

  /** Some account's username equals the name ignoring case. */
  predicate UsernameTaken(us: seq<User>, username: string)
  {
    exists i :: 0 <= i < |us| && Text.EqualsIgnoreCase(us[i].username, username)
  }

  /** No two accounts share a username, ignoring case. */
  predicate DistinctUsernames(us: seq<User>)
  {
    forall i, j :: 0 <= i < j < |us| ==> !Text.EqualsIgnoreCase(us[i].username, us[j].username)
  }

  /** Index of the first active account with exactly this username, or |us|. */
  function LoginIndex(us: seq<User>, username: string): (k: nat)
    reads set i | 0 <= i < |us| :: us[i]
    ensures k <= |us|
    ensures k < |us| ==> us[k].username == username && us[k].isActive
    ensures forall j :: 0 <= j < k ==> !(us[j].username == username && us[j].isActive)
  {
    if us == [] then 0
    else if us[0].username == username && us[0].isActive then 0
    else 1 + LoginIndex(us[1..], username)
  }

  /** Registering a name that is not taken keeps the usernames distinct. */
  lemma AppendKeepsDistinct(us: seq<User>, user: User)
    requires DistinctUsernames(us)
    requires !UsernameTaken(us, user.username)
    ensures DistinctUsernames(us + [user])
  {
    var all := us + [user];
    forall i, j | 0 <= i < j < |all|
      ensures !Text.EqualsIgnoreCase(all[i].username, all[j].username)
    {
      if j == |us| {
        Text.EqualsIgnoreCaseProperties(all[i].username, user.username);
      }
    }
  }

  class UserService {
    var users: seq<User>
    var currentUser: Option<User>
    const hash: string -> string
    const verify: (string, string) -> bool

    /** The row a freshly built account has. */
    static function NewRow(id: string, username: string, passwordHash: string, email: string,
                           role: string, now: int): UserRow
    {
      UserRow(id, username, passwordHash, email, role, now, true)
    }

    /** Loads the accounts, adds an admin ("admin"/"admin123") when no account has the admin
        role, then adds the sample host "kea_host" and guest "rea_guest" when at most one
        account exists. */
    constructor (loaded: seq<User>, hash: string -> string, verify: (string, string) -> bool,
                 adminId: string, hostId: string, guestId: string, now: int)
      ensures this.hash == hash && this.verify == verify
      ensures currentUser == None
      ensures HasAdmin(users)
      ensures |loaded| <= |users| && users[..|loaded|] == loaded
      ensures forall i :: |loaded| <= i < |users| ==> fresh(users[i])
      ensures var admins := if HasAdmin(loaded) then 0 else 1;
              var samples := if |loaded| + admins <= 1 then 2 else 0;
              && |users| == |loaded| + admins + samples
              && (admins == 1 ==>
                    (users[|loaded|].Row()
                     == NewRow(adminId, "admin", hash("admin123"), "admin@airbnb.com", AdminRole, now)))
              && (samples == 2 ==>
                    (users[|loaded| + admins].Row()
                     == NewRow(hostId, "kea_host", hash("host123"), "john@gmail.com", "host", now)))
              && (samples == 2 ==>
                    (users[|loaded| + admins + 1].Row()
                     == NewRow(guestId, "rea_guest", hash("guest123"), "rea@gmail.com", "guest", now)))
    {
      this.hash := hash;
      this.verify := verify;
      currentUser := None;
      var us := loaded;
      var a := Seqs.FirstIndex(loaded, (u: User) => u.role == AdminRole);
      if a == |loaded| {
        var admin := new User(adminId, "admin", hash("admin123"), "admin@airbnb.com", AdminRole, now);
        us := us + [admin];
        a := |loaded|;
      }
      assert a < |us| && us[a].role == AdminRole;
      if |us| <= 1 {
        var host := new User(hostId, "kea_host", hash("host123"), "john@gmail.com", "host", now);
        var guest := new User(guestId, "rea_guest", hash("guest123"), "rea@gmail.com", "guest", now);
        us := us + [host, guest];
      }
      assert us[a].role == AdminRole;
      users := us;
    }

    /** registerUser: refused when the username is taken ignoring case; otherwise a new active
        account with the hashed password is appended in memory and the result is that of the
        file append (`appended`). */
    method RegisterUser(username: string, password: string, email: string, role: string,
                        newId: string, now: int, appended: bool) returns (ok: bool)
      modifies this`users
      ensures UsernameTaken(old(users), username) ==> !ok && users == old(users)
      ensures !UsernameTaken(old(users), username) ==>
                && ok == appended
                && |users| == |old(users)| + 1
                && users[..|old(users)|] == old(users)
                && fresh(users[|old(users)|])
                && users[|old(users)|].Row() == NewRow(newId, username, hash(password), email, role, now)
      ensures DistinctUsernames(old(users)) ==> DistinctUsernames(users)
    {
      var k := Seqs.FirstIndex(users, (u: User) => Text.EqualsIgnoreCase(u.username, username));
      if k < |users| {
        return false;
      }
      var user := new User(newId, username, hash(password), email, role, now);
      if DistinctUsernames(users) {
        AppendKeepsDistinct(users, user);
      }
      users := users + [user];
      ok := appended;
    }

    /** login: the first active account with exactly this username, when the password checks
        against its hash, becomes the current user; otherwise nothing changes. */
    method Login(username: string, password: string) returns (ok: bool)
      modifies this`currentUser
      ensures var k := LoginIndex(users, username);
              ok <==> k < |users| && verify(password, users[k].passwordHash)
      ensures ok ==> currentUser == Some(users[LoginIndex(users, username)])
      ensures ok ==> currentUser.value.username == username && currentUser.value.isActive
      ensures !ok ==> currentUser == old(currentUser)
    {
      var k := LoginIndex(users, username);
      if k < |users| && verify(password, users[k].passwordHash) {
        currentUser := Some(users[k]);
        ok := true;
      } else {
        ok := false;
      }
    }

    /** logout. */
    method Logout()
      modifies this`currentUser
      ensures currentUser == None
    {
      currentUser := None;
    }

    /** getAllUsers: a copy of the list, in stored order. */
    function AllUsers(): (r: seq<User>)
      reads this
      ensures |r| == |users| && forall i :: 0 <= i < |r| ==> r[i] == users[i]
    {
      users
    }

    /** updateUserRole: when an account has the id, the list is replaced by the file's
        contents (`reloaded`) and the result is true; the new role is never applied. */
    method UpdateUserRole(userId: string, newRole: string, reloaded: seq<User>) returns (ok: bool)
      modifies this`users
      ensures ok <==> exists i :: 0 <= i < |old(users)| && old(users)[i].userId == userId
      ensures users == if ok then reloaded else old(users)
    {
      var k := Seqs.FirstIndex(users, (u: User) => u.userId == userId);
      if k < |users| {
        users := reloaded;
        ok := true;
      } else {
        ok := false;
      }
    }

    /** The id of the first account with the given username. */
    function IdOfUsername(username: string): (r: Option<string>)
      reads this
      ensures r.Some? <==> exists i :: 0 <= i < |users| && users[i].username == username
      ensures r.Some? ==> exists i :: && 0 <= i < |users| && users[i].username == username
                                      && users[i].userId == r.value
                                      && forall j :: 0 <= j < i ==> users[j].username != username
    {
      var k := Seqs.FirstIndex(users, (u: User) => u.username == username);
      if k < |users| then Some(users[k].userId) else None
    }

    /** getSampleHostId: looks for "john_host", a name the seeding never uses. */
    function SampleHostId(): (r: Option<string>)
      reads this
      ensures r.Some? <==> exists i :: 0 <= i < |users| && users[i].username == "john_host"
      ensures r == IdOfUsername("john_host")
    {
      IdOfUsername("john_host")
    }

    /** getSampleGuestId: looks for "sarah_guest", a name the seeding never uses. */
    function SampleGuestId(): (r: Option<string>)
      reads this
      ensures r.Some? <==> exists i :: 0 <= i < |users| && users[i].username == "sarah_guest"
      ensures r == IdOfUsername("sarah_guest")
    {
      IdOfUsername("sarah_guest")
    }

    /** The seeded accounts are never what the sample lookups find: on a store holding no
        "john_host", the sample host id is absent right after seeding. */
    lemma SeedingNeverNamesSampleHost(loaded: seq<User>)
      requires |loaded| <= |users| && users[..|loaded|] == loaded
      requires forall i :: |loaded| <= i < |users| ==> users[i].username in {"admin", "kea_host", "rea_guest"}
      requires forall i :: 0 <= i < |loaded| ==> loaded[i].username != "john_host"
      ensures SampleHostId() == None
    {
      forall i | 0 <= i < |users| ensures users[i].username != "john_host" {
        if i < |loaded| {
          assert users[i] == loaded[i];
        }
      }
    }
  }
}
