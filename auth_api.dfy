/** The authentication service of the API layer (src/lib/api/auth.ts): it keeps the
    session token and the user type as two string entries of the browser's
    `localStorage`, and stores the token that a successful login returns. */
module AuthApi {
  import opened Wrappers

  /** The three portals a session can belong to; `Tag` is the string the code stores. */
  datatype Role = User | Doctor | Admin {
    function Tag(): (s: string)
      ensures s != ""
    {
      match this
      case User => "user"
      case Doctor => "doctor"
      case Admin => "admin"
    }
  }

  /** Different roles have different tags, so a stored tag names one role. */
  lemma TagInjective(a: Role, b: Role)
    ensures a.Tag() == b.Tag() <==> a == b
  {
  }

  const TokenKey: string := "auth_token"
  const UserTypeKey: string := "user_type"

  /** `localStorage.getItem(key)` when a window exists; `null` otherwise. */
  function Read(hasWindow: bool, storage: map<string, string>, key: string): (v: Option<string>)
    ensures v.Some? <==> hasWindow && key in storage
    ensures v.Some? ==> v.value == storage[key]
  {
    if hasWindow && key in storage then Some(storage[key]) else None
  }

  /** `localStorage.setItem(key, value)` when a window exists; nothing otherwise. */
  function Write(hasWindow: bool, storage: map<string, string>, key: string, value: string): (m: map<string, string>)
    ensures hasWindow ==> m.Keys == storage.Keys + {key} && m[key] == value
    ensures !hasWindow ==> m == storage
    ensures forall k :: k in storage && k != key ==> k in m && m[k] == storage[k]
  {
    if hasWindow then storage[key := value] else storage
  }

  /** Reading a key back after writing it gives the written value, when a window exists. */
  lemma ReadAfterWrite(storage: map<string, string>, key: string, value: string)
    ensures Read(true, Write(true, storage, key, value), key) == Some(value)
  {
  }

  /** Writing one key leaves what every other key reads unchanged: the token and the
      user type are independent entries. */
  lemma WriteKeepsOtherKeys(hasWindow: bool, storage: map<string, string>, key: string, other: string, value: string)
    requires other != key
    ensures Read(hasWindow, Write(hasWindow, storage, key, value), other) == Read(hasWindow, storage, other)
  {
  }

  /** The service object: `hasWindow` says whether `typeof window !== 'undefined'`,
      `storage` is the contents of `localStorage`. */
  class AuthService {
    const hasWindow: bool
    var storage: map<string, string>

    constructor (hasWindow: bool, storage: map<string, string>)
      ensures this.hasWindow == hasWindow && this.storage == storage
    {
      this.hasWindow := hasWindow;
      this.storage := storage;
    }

    /** What `getToken` returns in the current state. */
    function StoredToken(): Option<string>
      reads this
    {
      Read(hasWindow, storage, TokenKey)
    }

    /** What `getUserType` returns in the current state. */
    function StoredUserType(): Option<string>
      reads this
    {
      Read(hasWindow, storage, UserTypeKey)
    }

    /** `storeToken`: writes the token under `auth_token`; the user type is untouched. */
    method StoreToken(token: string)
      modifies this
      ensures storage == Write(hasWindow, old(storage), TokenKey, token)
      ensures hasWindow ==> StoredToken() == Some(token)
      ensures StoredUserType() == old(StoredUserType())
    {
      storage := Write(hasWindow, storage, TokenKey, token);
      WriteKeepsOtherKeys(hasWindow, old(storage), TokenKey, UserTypeKey, token);
    }

    /** `getToken`. */
    method GetToken() returns (token: Option<string>)
      ensures token == StoredToken()
      ensures !hasWindow ==> token == None
    {
      if hasWindow && TokenKey in storage {
        token := Some(storage[TokenKey]);
      } else {
        token := None;
      }
    }

    /** `removeToken`: deletes both entries, when a window exists. */
    method RemoveToken()
      modifies this
      ensures storage == if hasWindow then old(storage) - {TokenKey, UserTypeKey} else old(storage)
      ensures StoredToken() == None && StoredUserType() == None
    {
      if hasWindow {
        storage := storage - {TokenKey};
        storage := storage - {UserTypeKey};
      }
    }

    /** `isAuthenticated`: `!!getToken()`, so an empty stored token does not count. */
    method IsAuthenticated() returns (b: bool)
      ensures b <==> StoredToken().Some? && StoredToken().value != ""
    {
      var token := GetToken();
      b := token.Some? && token.value != "";
    }

    /** `setUserType`: writes the role's tag under `user_type`; the token is untouched. */
    method SetUserType(role: Role)
      modifies this
      ensures storage == Write(hasWindow, old(storage), UserTypeKey, role.Tag())
      ensures hasWindow ==> StoredUserType() == Some(role.Tag())
      ensures StoredToken() == old(StoredToken())
    {
      storage := Write(hasWindow, storage, UserTypeKey, role.Tag());
      WriteKeepsOtherKeys(hasWindow, old(storage), UserTypeKey, TokenKey, role.Tag());
    }

    /** `getUserType`: whatever string is stored, not checked against the three tags. */
    method GetUserType() returns (userType: Option<string>)
      ensures userType == StoredUserType()
      ensures !hasWindow ==> userType == None
    {
      if hasWindow && UserTypeKey in storage {
        userType := Some(storage[UserTypeKey]);
      } else {
        userType := None;
      }
    }

    /** `logout`: exactly `removeToken`. */
    method Logout()
      modifies this
      ensures storage == if hasWindow then old(storage) - {TokenKey, UserTypeKey} else old(storage)
      ensures StoredToken() == None && StoredUserType() == None
    {
      RemoveToken();
    }

    /** The part of `loginPatient`, `loginDoctor` and `loginAdmin` after the request:
        `response` is what the backend answered (the token, or the error it threw).
        A success stores the token and is returned; a failure is passed on and stores
        nothing. */
    method FinishLogin(response: Result<string>) returns (r: Result<string>)
      modifies this
      ensures r == response
      ensures response.Ok? ==> storage == Write(hasWindow, old(storage), TokenKey, response.value)
      ensures response.Err? ==> storage == old(storage)
    {
      if response.Ok? {
        StoreToken(response.value);
      }
      r := response;
    }
  }
}
