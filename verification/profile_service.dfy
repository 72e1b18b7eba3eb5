/** goyo-backend/app/services/profile_service.py over the `users` table.
    Redis session writes are left out. */
module ProfileService {
  import opened Wrappers
  import opened Users

  datatype ProfileError =
    | UserNotFound             // "User not found"
    | LevelOutOfRange          // "Suppression level must be between 0 and 100"

  /** `get_user_profile` */
  function UserProfile(t: UserTable, userId: int): (r: Result<User, ProfileError>)
    ensures r.Failure? <==> forall j :: 0 <= j < |t.rows| ==> t.rows[j].id != userId
    ensures r.Failure? ==> r.error == UserNotFound
    ensures r.Success? ==> r.value in t.rows && r.value.id == userId
  {
    match FindById(t.rows, userId)
    case None => Failure(UserNotFound)
    case Some(i) => Success(t.rows[i])
  }

  // ---------------------------------------------------------------------------
  // update_profile
  // ---------------------------------------------------------------------------

  /** The columns of `users` this model stores. */
  datatype Field =
    | Id | Email | HashedPassword | Name | IsActive | IsVerified | VerificationToken | AncEnabled
    | SuppressionLevel

  /** `hasattr(user, key)`, for column names. */
  function Column(key: string): Option<Field>
  {
    if key == "id" then Some(Id)
    else if key == "email" then Some(Email)
    else if key == "hashed_password" then Some(HashedPassword)
    else if key == "name" then Some(Name)
    else if key == "is_active" then Some(IsActive)
    else if key == "is_verified" then Some(IsVerified)
    else if key == "verification_token" then Some(VerificationToken)
    else if key == "anc_enabled" then Some(AncEnabled)
    else if key == "suppression_level" then Some(SuppressionLevel)
    else None
  }

  /** A non-`None` value in the update dictionary. */
  datatype Value = Text(text: string) | Flag(flag: bool) | Number(number: int)

  /** The value a column holds (a cleared token reads as `None`). */
  function Get(u: User, f: Field): Option<Value>
  {
    match f
    case Id => Some(Number(u.id))
    case Email => Some(Text(u.email))
    case HashedPassword => Some(Text(u.hashedPassword))
    case Name => Some(Text(u.name))
    case IsActive => Some(Flag(u.isActive))
    case IsVerified => Some(Flag(u.isVerified))
    case VerificationToken => if u.verificationToken.Some? then Some(Text(u.verificationToken.value)) else None
    case AncEnabled => Some(Flag(u.ancEnabled))
    case SuppressionLevel => Some(Number(u.suppressionLevel))
  }

  /** Whether a value has the column's type. */
  predicate Fits(f: Field, v: Value)
  {
    match f
    case Id | SuppressionLevel => v.Number?
    case IsActive | IsVerified | AncEnabled => v.Flag?
    case _ => v.Text?
  }

  /** `setattr(user, key, value)` for a column and a value of its type. */
  function Set(u: User, f: Field, v: Value): (r: User)
    requires Fits(f, v)
    ensures Get(r, f) == Some(v)
    ensures forall g :: g != f ==> Get(r, g) == Get(u, g)
  {
    match f
    case Id => u.(id := v.number)
    case Email => u.(email := v.text)
    case HashedPassword => u.(hashedPassword := v.text)
    case Name => u.(name := v.text)
    case IsActive => u.(isActive := v.flag)
    case IsVerified => u.(isVerified := v.flag)
    case VerificationToken => u.(verificationToken := Some(v.text))
    case AncEnabled => u.(ancEnabled := v.flag)
    case SuppressionLevel => u.(suppressionLevel := v.number)
  }

  /** One item of the update: written when its value is not `None`, its key
      names a column, and the value has the column's type. */
  function ApplyItem(u: User, key: string, value: Option<Value>): (r: User)
    ensures forall f :: Get(r, f) == (if value.Some? && Column(key) == Some(f) && Fits(f, value.value)
                                      then value else Get(u, f))
  {
    if value.Some? && Column(key).Some? && Fits(Column(key).value, value.value)
    then Set(u, Column(key).value, value.value)
    else u
  }

  /** The items in order. */
  function ApplyItems(u: User, items: seq<(string, Option<Value>)>): User
    decreases |items|
  {
    if items == [] then u
    else ApplyItems(ApplyItem(u, items[0].0, items[0].1), items[1..])
  }

  /** The last value written to column `f` by the items, if any. */
  function LastWrite(items: seq<(string, Option<Value>)>, f: Field): Option<Value>
    decreases |items|
  {
    if items == [] then None
    else
      var last := items[|items| - 1];
      if last.1.Some? && Column(last.0) == Some(f) && Fits(f, last.1.value) then last.1
      else LastWrite(items[..|items| - 1], f)
  }

  lemma ApplyItemsSnoc(u: User, items: seq<(string, Option<Value>)>, item: (string, Option<Value>))
    ensures ApplyItems(u, items + [item]) == ApplyItem(ApplyItems(u, items), item.0, item.1)
    decreases |items|
  {
    if items != [] {
      assert (items + [item])[1..] == items[1..] + [item];
      ApplyItemsSnoc(ApplyItem(u, items[0].0, items[0].1), items[1..], item);
    }
  }

  /** After an update every column holds the last value written to it, and a
      column no item writes keeps its value. */
  lemma {:induction false} UpdateLastWriteWins(u: User, items: seq<(string, Option<Value>)>, f: Field)
    ensures Get(ApplyItems(u, items), f) == if LastWrite(items, f).Some? then LastWrite(items, f) else Get(u, f)
    decreases |items|
  {
    if items != [] {
      var init, last := items[..|items| - 1], items[|items| - 1];
      assert items == init + [last];
      ApplyItemsSnoc(u, init, last);
      UpdateLastWriteWins(u, init, f);
    }
  }

  /** `update_profile`: the user's row after the items are applied. */
  function Updating(t: UserTable, userId: int, items: seq<(string, Option<Value>)>)
    : (r: (Result<User, ProfileError>, UserTable))
    ensures r.0.Failure? <==> forall j :: 0 <= j < |t.rows| ==> t.rows[j].id != userId
    ensures r.0.Failure? ==> r.1 == t && r.0.error == UserNotFound
    ensures r.0.Success? ==>
      var i := FindById(t.rows, userId).value;
      && r.1 == UserTable(t.rows[i := r.0.value], t.nextId)
      && forall f :: Get(r.0.value, f) == if LastWrite(items, f).Some? then LastWrite(items, f) else Get(t.rows[i], f)
  {
    match FindById(t.rows, userId)
    case None => (Failure(UserNotFound), t)
    case Some(i) =>
      var u := ApplyItems(t.rows[i], items);
      forall f ensures Get(u, f) == if LastWrite(items, f).Some? then LastWrite(items, f) else Get(t.rows[i], f) {
        UpdateLastWriteWins(t.rows[i], items, f);
      }
      (Success(u), UserTable(t.rows[i := u], t.nextId))
  }

  /** The `for key, value in update_data.items()` loop on one user. */
  method ApplyUpdate(original: User, items: seq<(string, Option<Value>)>) returns (user: User)
    ensures forall f :: Get(user, f) == if LastWrite(items, f).Some? then LastWrite(items, f) else Get(original, f)
    ensures user == ApplyItems(original, items)
  {
    user := original;
    var n := 0;
    while n < |items|
      invariant n <= |items|
      invariant user == ApplyItems(original, items[..n])
    {
      var (key, value) := items[n];
      if value.Some? && Column(key).Some? && Fits(Column(key).value, value.value) {
        user := Set(user, Column(key).value, value.value);
      }
      ApplyItemsSnoc(original, items[..n], items[n]);
      assert items[..n + 1] == items[..n] + [items[n]];
      n := n + 1;
    }
    assert items[..n] == items;
    forall f ensures Get(user, f) == if LastWrite(items, f).Some? then LastWrite(items, f) else Get(original, f) {
      UpdateLastWriteWins(original, items, f);
    }
  }

  method UpdateProfile(db: UserDb, userId: int, items: seq<(string, Option<Value>)>)
    returns (r: Result<User, ProfileError>)
    modifies db
    ensures (r, db.Contents()) == Updating(old(db.Contents()), userId, items)
  {
    var found := FindById(db.rows, userId);
    if found.None? {
      return Failure(UserNotFound);
    }
    var user := ApplyUpdate(db.rows[found.value], items);
    db.rows := db.rows[found.value := user];
    return Success(user);
  }

  // ---------------------------------------------------------------------------
  // ANC settings
  // ---------------------------------------------------------------------------

  datatype AncSettings = AncSettings(ancEnabled: bool, suppressionLevel: int)

  /** `get_anc_settings`: the stored switch and level. */
  function AncSettingsOf(t: UserTable, userId: int): (r: Result<AncSettings, ProfileError>)
    ensures r.Failure? <==> UserProfile(t, userId).Failure?
    ensures r.Success? ==> var u := UserProfile(t, userId).value;
      r.value == AncSettings(u.ancEnabled, u.suppressionLevel)
  {
    match UserProfile(t, userId)
    case Failure(e) => Failure(e)
    case Success(u) => Success(AncSettings(u.ancEnabled, u.suppressionLevel))
  }

  /** `toggle_anc` */
  function Toggling(t: UserTable, userId: int, enabled: bool): (r: (Result<User, ProfileError>, UserTable))
    ensures r.0.Failure? <==> forall j :: 0 <= j < |t.rows| ==> t.rows[j].id != userId
    ensures r.0.Failure? ==> r.1 == t && r.0.error == UserNotFound
    ensures r.0.Success? ==>
      var i := FindById(t.rows, userId).value;
      r.0.value == t.rows[i].(ancEnabled := enabled) && r.1 == UserTable(t.rows[i := r.0.value], t.nextId)
  {
    match FindById(t.rows, userId)
    case None => (Failure(UserNotFound), t)
    case Some(i) =>
      var u := t.rows[i].(ancEnabled := enabled);
      (Success(u), UserTable(t.rows[i := u], t.nextId))
  }

  /** Toggling sets the switch and leaves the level as it was. */
  lemma ToggleKeepsLevel(t: UserTable, userId: int, enabled: bool)
    requires Toggling(t, userId, enabled).0.Success?
    ensures var t' := Toggling(t, userId, enabled).1;
      AncSettingsOf(t', userId)
        == Success(AncSettings(enabled, AncSettingsOf(t, userId).value.suppressionLevel))
  {
    var i := FindById(t.rows, userId).value;
    var t' := Toggling(t, userId, enabled).1;
    assert t'.rows[i].id == userId;
    assert FindById(t'.rows, userId) == Some(i) by {
      forall j | 0 <= j < i ensures t'.rows[j].id != userId { assert t'.rows[j] == t.rows[j]; }
    }
  }

  method ToggleAnc(db: UserDb, userId: int, enabled: bool) returns (r: Result<User, ProfileError>)
    modifies db
    ensures (r, db.Contents()) == Toggling(old(db.Contents()), userId, enabled)
  {
    var found := FindById(db.rows, userId);
    if found.None? {
      return Failure(UserNotFound);
    }
    var user := db.rows[found.value].(ancEnabled := enabled);
    db.rows := db.rows[found.value := user];
    return Success(user);
  }

  /** `set_suppression_level`: the range is checked before the lookup. */
  function SettingLevel(t: UserTable, userId: int, level: int): (r: (Result<User, ProfileError>, UserTable))
    ensures !(0 <= level <= 100) <==> r.0 == Failure(LevelOutOfRange)
    ensures 0 <= level <= 100 ==>
      (r.0 == Failure(UserNotFound) <==> forall j :: 0 <= j < |t.rows| ==> t.rows[j].id != userId)
    ensures r.0.Failure? ==> r.1 == t
    ensures r.0.Success? ==>
      var i := FindById(t.rows, userId).value;
      r.0.value == t.rows[i].(suppressionLevel := level) && r.1 == UserTable(t.rows[i := r.0.value], t.nextId)
  {
    if !(0 <= level <= 100) then (Failure(LevelOutOfRange), t)
    else match FindById(t.rows, userId)
      case None => (Failure(UserNotFound), t)
      case Some(i) =>
        var u := t.rows[i].(suppressionLevel := level);
        (Success(u), UserTable(t.rows[i := u], t.nextId))
  }

  /** A stored level always comes from the accepted range, and the switch
      does not move. */
  lemma SetLevelKeepsSwitch(t: UserTable, userId: int, level: int)
    requires SettingLevel(t, userId, level).0.Success?
    ensures 0 <= level <= 100
    ensures var t' := SettingLevel(t, userId, level).1;
      AncSettingsOf(t', userId) == Success(AncSettings(AncSettingsOf(t, userId).value.ancEnabled, level))
  {
    var i := FindById(t.rows, userId).value;
    var t' := SettingLevel(t, userId, level).1;
    assert t'.rows[i].id == userId;
    assert FindById(t'.rows, userId) == Some(i) by {
      forall j | 0 <= j < i ensures t'.rows[j].id != userId { assert t'.rows[j] == t.rows[j]; }
    }
  }

  method SetSuppressionLevel(db: UserDb, userId: int, level: int) returns (r: Result<User, ProfileError>)
    modifies db
    ensures (r, db.Contents()) == SettingLevel(old(db.Contents()), userId, level)
  {
    if !(0 <= level <= 100) {
      return Failure(LevelOutOfRange);
    }
    var found := FindById(db.rows, userId);
    if found.None? {
      return Failure(UserNotFound);
    }
    var user := db.rows[found.value].(suppressionLevel := level);
    db.rows := db.rows[found.value := user];
    return Success(user);
  }
}
