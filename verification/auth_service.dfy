/**
 * The client-side session store: the API token and the signed-in user kept
 * under fixed keys of the browser's local storage, read back with missing and
 * empty values both treated as absent.
 */
module AuthService {
  import opened Common
  import opened Strings

  const ApiTokenKey := "apiToken"
  const UserEmailKey := "userEmail"
  const UserFirstNameKey := "userFirstName"
  const UserLastNameKey := "userLastName"
  const UserUuidKey := "userUuid"
  const UserOwnerUuidKey := "userOwnerUuid"
  const UserIsAdminKey := "isAdmin"

  /** The keys `saveUser` writes and `removeUser` deletes. */
  const UserKeys: set<string> := {UserEmailKey, UserFirstNameKey, UserLastNameKey, UserUuidKey, UserOwnerUuidKey, UserIsAdminKey}

  /** The local storage: string values by key. */
  type Storage = map<string, string>

  datatype User = User(email: string, firstName: string, lastName: string, uuid: string, ownerUuid: string, isAdmin: bool)

  /** `localStorage.getItem(key) || undefined`: a missing or empty value reads as absent. */
  function StoredValue(storage: Storage, key: string): (v: Option<string>)
    ensures v.Some? <==> key in storage && storage[key] != ""
    ensures v.Some? ==> v.value == storage[key]
  {
    if key in storage && storage[key] != "" then Some(storage[key]) else None
  }

  /** `getApiToken`: the stored token, a missing or empty one reading as absent. */
  function GetApiToken(storage: Storage): (token: Option<string>)
    ensures token.Some? <==> ApiTokenKey in storage && storage[ApiTokenKey] != ""
    ensures token.Some? ==> token.value == storage[ApiTokenKey]
  {
    StoredValue(storage, ApiTokenKey)
  }

  /** `getUuid`: the stored user uuid, a missing or empty one reading as absent. */
  function GetUuid(storage: Storage): (uuid: Option<string>)
    ensures uuid.Some? <==> UserUuidKey in storage && storage[UserUuidKey] != ""
    ensures uuid.Some? ==> uuid.value == storage[UserUuidKey]
  {
    StoredValue(storage, UserUuidKey)
  }

  /** `getOwnerUuid`: the stored owner uuid, a missing or empty one reading as absent. */
  function GetOwnerUuid(storage: Storage): (ownerUuid: Option<string>)
    ensures ownerUuid.Some? <==> UserOwnerUuidKey in storage && storage[UserOwnerUuidKey] != ""
    ensures ownerUuid.Some? ==> ownerUuid.value == storage[UserOwnerUuidKey]
  {
    StoredValue(storage, UserOwnerUuidKey)
  }

  /** `JSON.stringify` of a boolean. */
  function JsonBool(b: bool): string
  {
    if b then "true" else "false"
  }

  /** `getIsAdmin`: true exactly when the stored text is `true`. */
  function GetIsAdmin(storage: Storage): (isAdmin: bool)
    ensures isAdmin <==> UserIsAdminKey in storage && storage[UserIsAdminKey] == "true"
  {
    UserIsAdminKey in storage && storage[UserIsAdminKey] == "true"
  }

  /** `getUser`: a user when the five string fields are all stored and non-empty. */
  function GetUser(storage: Storage): (user: Option<User>)
    ensures user.Some? <==>
      && StoredValue(storage, UserEmailKey).Some?
      && StoredValue(storage, UserFirstNameKey).Some?
      && StoredValue(storage, UserLastNameKey).Some?
      && StoredValue(storage, UserUuidKey).Some?
      && StoredValue(storage, UserOwnerUuidKey).Some?
    ensures user.Some? ==>
      && user.value.email == storage[UserEmailKey]
      && user.value.firstName == storage[UserFirstNameKey]
      && user.value.lastName == storage[UserLastNameKey]
      && user.value.uuid == storage[UserUuidKey]
      && user.value.ownerUuid == storage[UserOwnerUuidKey]
      && user.value.isAdmin == GetIsAdmin(storage)
  {
    var email := StoredValue(storage, UserEmailKey);
    var firstName := StoredValue(storage, UserFirstNameKey);
    var lastName := StoredValue(storage, UserLastNameKey);
    var uuid := GetUuid(storage);
    var ownerUuid := GetOwnerUuid(storage);
    if email.Some? && firstName.Some? && lastName.Some? && uuid.Some? && ownerUuid.Some? then
      Some(User(email.value, firstName.value, lastName.value, uuid.value, ownerUuid.value, GetIsAdmin(storage)))
    else
      None
  }

  /** The five string fields a stored user needs to be read back. */
  predicate Complete(user: User)
  {
    user.email != "" && user.firstName != "" && user.lastName != "" && user.uuid != "" && user.ownerUuid != ""
  }

  /**
   * The storage after `saveUser`: reading the user back gives the same user
   * exactly when its string fields are non-empty, and the token is kept.
   */
  function WithUser(storage: Storage, user: User): (after: Storage)
    ensures GetUser(after) == if Complete(user) then Some(user) else None
    ensures GetIsAdmin(after) == user.isAdmin
    ensures GetApiToken(after) == GetApiToken(storage)
    ensures forall k :: k !in UserKeys ==> (k in after <==> k in storage) && (k in storage ==> after[k] == storage[k])
  {
    storage[UserEmailKey := user.email][UserFirstNameKey := user.firstName][UserLastNameKey := user.lastName]
      [UserUuidKey := user.uuid][UserOwnerUuidKey := user.ownerUuid][UserIsAdminKey := JsonBool(user.isAdmin)]
  }

  /** The storage after `removeUser`: no user, not an admin, and the token kept. */
  function WithoutUser(storage: Storage): (after: Storage)
    ensures GetUser(after).None? && !GetIsAdmin(after)
    ensures GetApiToken(after) == GetApiToken(storage)
    ensures forall k :: k !in UserKeys ==> (k in after <==> k in storage) && (k in storage ==> after[k] == storage[k])
  {
    storage - UserKeys
  }

  /**
   * `getRootUuid`: the owner uuid up to, not including, its second `-`, or
   * absent when there is no owner uuid or it holds no `-`.
   */
  function GetRootUuid(storage: Storage): (root: Option<string>)
    ensures root.Some? <==> GetOwnerUuid(storage).Some? && '-' in GetOwnerUuid(storage).value
    ensures root.Some? ==> '-' in root.value
  {
    var owner := GetOwnerUuid(storage);
    var parts := if owner.Some? then Split(owner.value, '-') else [];
    if |parts| > 1 then
      var root := parts[0] + "-" + parts[1];
      assert root[|parts[0]|] == '-';
      Some(root)
    else None
  }

  /**
   * The root uuid is present exactly when the owner uuid holds a `-`; it is
   * then a prefix of the owner uuid with exactly one `-`, followed in the
   * owner uuid by nothing or by a `-`.
   */
  lemma RootUuidShape(storage: Storage)
    ensures var root := GetRootUuid(storage);
      var owner := GetOwnerUuid(storage);
      && (root.Some? <==> owner.Some? && '-' in owner.value)
      && (root.Some? ==>
        && StartsWith(owner.value, root.value)
        && (|owner.value| == |root.value| || owner.value[|root.value|] == '-')
        && exists k :: 0 <= k < |root.value| && root.value[k] == '-' &&
             forall j :: 0 <= j < |root.value| && j != k ==> root.value[j] != '-')
  {
    var root := GetRootUuid(storage);
    var owner := GetOwnerUuid(storage);
    if owner.Some? && '-' in owner.value {
      var o := owner.value;
      var parts := Split(o, '-');
      SplitHead(o, '-');
      var r := parts[0] + "-" + parts[1];
      var rest := parts[1..];
      assert Join(rest, '-') == if |rest| == 1 then parts[1] else parts[1] + "-" + Join(rest[1..], '-');
      assert o == r + (if |rest| == 1 then "" else "-" + Join(rest[1..], '-'));
      assert o[..|r|] == r;
      var k := |parts[0]|;
      assert r[k] == '-';
      forall j | 0 <= j < |r| && j != k ensures r[j] != '-' {
        if j < k {
          assert r[j] == parts[0][j];
        } else {
          assert r[j] == parts[1][j - k - 1];
        }
      }
    }
  }

  /** The session store: a class over the local storage it reads and writes. */
  class Store {
    var storage: Storage

    constructor(storage: Storage)
      ensures this.storage == storage
    {
      this.storage := storage;
    }

    /** `saveApiToken`: stores the token; an empty one reads back as absent. */
    method SaveApiToken(token: string)
      modifies this
      ensures storage == old(storage)[ApiTokenKey := token]
      ensures GetApiToken(storage) == if token == "" then None else Some(token)
      ensures GetUser(storage) == GetUser(old(storage))
    {
      storage := storage[ApiTokenKey := token];
    }

    /** `removeApiToken`: the token is gone and no user key is touched. */
    method RemoveApiToken()
      modifies this
      ensures storage == old(storage) - {ApiTokenKey}
      ensures GetApiToken(storage).None?
      ensures forall k :: k in UserKeys ==> (k in storage <==> k in old(storage)) && (k in storage ==> storage[k] == old(storage)[k])
    {
      storage := storage - {ApiTokenKey};
    }

    /** `saveUser`: writes the six user keys one after the other. */
    method SaveUser(user: User)
      modifies this
      ensures storage == WithUser(old(storage), user)
    {
      storage := storage[UserEmailKey := user.email];
      storage := storage[UserFirstNameKey := user.firstName];
      storage := storage[UserLastNameKey := user.lastName];
      storage := storage[UserUuidKey := user.uuid];
      storage := storage[UserOwnerUuidKey := user.ownerUuid];
      storage := storage[UserIsAdminKey := JsonBool(user.isAdmin)];
    }

    /** `removeUser`: deletes the six user keys one after the other. */
    method RemoveUser()
      modifies this
      ensures storage == WithoutUser(old(storage))
    {
      storage := storage - {UserEmailKey};
      storage := storage - {UserFirstNameKey};
      storage := storage - {UserLastNameKey};
      storage := storage - {UserUuidKey};
      storage := storage - {UserOwnerUuidKey};
      storage := storage - {UserIsAdminKey};
      assert storage.Keys == old(storage).Keys - UserKeys;
    }
  }
}
