/** The `users` table of goyo-backend/app/models/user.py, shared by the
    profile service and the authentication routes: the rows in primary-key
    order and the next key the database will hand out. */
module Users {
  import opened Wrappers
  import opened Search

  /** `suppression_level` column default. */
  const DEFAULT_SUPPRESSION_LEVEL: int := 80

  /** One row of `users`; the timestamps are not part of this model. */
  datatype User = User(id: int, email: string, hashedPassword: string, name: string, isActive: bool,
                       isVerified: bool, verificationToken: Option<string>, ancEnabled: bool,
                       suppressionLevel: int)

  datatype UserTable = UserTable(rows: seq<User>, nextId: nat)

  /** `filter(User.id == userId).first()`, as a row position. */
  function FindById(rows: seq<User>, userId: int): (r: Option<nat>)
    ensures r.Some? ==> r.value < |rows| && rows[r.value].id == userId
    ensures r.Some? ==> forall j :: 0 <= j < r.value ==> rows[j].id != userId
    ensures r.None? <==> forall j :: 0 <= j < |rows| ==> rows[j].id != userId
  {
    First(rows, (u: User) => u.id == userId)
  }

  /** `filter(User.email == email).first()`, as a row position. */
  function FindByEmail(rows: seq<User>, email: string): (r: Option<nat>)
    ensures r.Some? ==> r.value < |rows| && rows[r.value].email == email
    ensures r.Some? ==> forall j :: 0 <= j < r.value ==> rows[j].email != email
    ensures r.None? <==> forall j :: 0 <= j < |rows| ==> rows[j].email != email
  {
    First(rows, (u: User) => u.email == email)
  }

  /** `filter(User.verification_token == token).first()`: a cleared token
      matches no string. */
  function FindByToken(rows: seq<User>, token: string): (r: Option<nat>)
    ensures r.Some? ==> r.value < |rows| && rows[r.value].verificationToken == Some(token)
    ensures r.Some? ==> forall j :: 0 <= j < r.value ==> rows[j].verificationToken != Some(token)
    ensures r.None? <==> forall j :: 0 <= j < |rows| ==> rows[j].verificationToken != Some(token)
  {
    First(rows, (u: User) => u.verificationToken == Some(token))
  }

  /** The table behind a database session. */
  class UserDb {
    var rows: seq<User>
    var nextId: nat

    function Contents(): UserTable
      reads this
    {
      UserTable(rows, nextId)
    }

    constructor()
      ensures Contents() == UserTable([], 1)
    {
      rows := [];
      nextId := 1;
    }
  }
}
