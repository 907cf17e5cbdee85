/** The bearer-token store and the app-info helpers: an in-memory token in
    front of a string key-value store whose every key carries a deployment
    prefix. A storage call that raises is given as a `fails` argument; the
    store swallows the fault everywhere except in `ClearAllAppInfo`. */
module TokenStore {
  import opened JsValues

  const TOKEN_STORAGE_KEY := "auth_token"

  /** The persisted key-value store (`localStorage`). */
  type Storage = map<string, string>

  /** What `getAppInfo` returns: the stored string, `null` when the key is
      missing, or `undefined` when reading raised. */
  datatype Read = Found(value: string) | Null | Undefined

  /** The value stored under `key`, or null when there is none. */
  function GetItem(storage: Storage, key: string): Option<string> {
    if key in storage then Some(storage[key]) else None
  }

  /** A truthy value is stored under `key`, any other value removes `key`;
      a write that raises leaves the store as it was. */
  function StoreOrRemove(storage: Storage, key: string, value: Option<string>, fails: bool): (s: Storage)
    ensures fails ==> s == storage
    ensures !fails ==> GetItem(s, key) == (if Truthy(value) then value else None)
    ensures forall k :: k != key ==> GetItem(s, k) == GetItem(storage, k)
  {
    if fails then storage
    else if Truthy(value) then storage[key := value.value]
    else storage - {key}
  }

  /** The token `getAuthToken` returns, which is also the new in-memory
      value: a truthy in-memory token wins; otherwise the stored one, unless
      reading raised, in which case the old in-memory value stays. */
  function HydratedToken(memory: Option<string>, storage: Storage, key: string, readFails: bool): Option<string> {
    if Truthy(memory) then memory
    else if readFails then memory
    else GetItem(storage, key)
  }

  /** The in-memory token after `n` successive `getAuthToken` calls over an
      unchanged store, call `i` with read fault `readFails(i)`. */
  function HydratedAfter(memory: Option<string>, storage: Storage, key: string, readFails: nat -> bool, n: nat): Option<string>
  {
    if n == 0 then memory
    else HydratedToken(HydratedAfter(memory, storage, key, readFails, n - 1), storage, key, readFails(n - 1))
  }

  /** Repeated reads settle after the first one that does not raise: a
      truthy in-memory token stays, and otherwise the first working read
      installs the stored token, which later reads keep. */
  lemma {:induction false} HydratedAfterSettles(memory: Option<string>, storage: Storage, key: string, readFails: nat -> bool, n: nat)
    ensures HydratedAfter(memory, storage, key, readFails, n) ==
      if Truthy(memory) || (forall i :: 0 <= i < n ==> readFails(i)) then memory else GetItem(storage, key)
  {
    if n > 0 {
      HydratedAfterSettles(memory, storage, key, readFails, n - 1);
      if !Truthy(memory) && !(forall i :: 0 <= i < n - 1 ==> readFails(i)) {
        assert !(forall i :: 0 <= i < n ==> readFails(i));
      }
    }
  }

  /** After setting a non-empty token, reading it back gives that token,
      whether or not the write or the read raised. */
  lemma SetThenGet(storage: Storage, key: string, token: string, writeFails: bool, readFails: bool)
    requires token != ""
    ensures HydratedToken(Some(token), StoreOrRemove(storage, key, Some(token), writeFails), key, readFails) == Some(token)
  {
  }

  /** With the in-memory cache lost, a token whose write succeeded is
      rehydrated from storage. */
  lemma RehydrateAfterReset(storage: Storage, key: string, token: string)
    requires token != ""
    ensures HydratedToken(None, StoreOrRemove(storage, key, Some(token), false), key, false) == Some(token)
  {
  }

  /** After a clear whose removal succeeded, no token is found, even with an
      empty in-memory cache and a working read. */
  lemma ClearThenGet(storage: Storage, key: string, readFails: bool)
    ensures HydratedToken(None, StoreOrRemove(storage, key, None, false), key, readFails) == None
  {
  }

  /** A clear whose removal raised leaves the old token in storage, and the
      next read with a working store brings it back. */
  lemma ClearWithFailedRemoveRehydrates(storage: Storage, key: string)
    requires key in storage && storage[key] != ""
    ensures HydratedToken(None, StoreOrRemove(storage, key, None, true), key, false) == Some(storage[key])
  {
  }

  /** Storage is consulted only when the in-memory token is falsy: a truthy
      one is returned whatever the store holds. */
  lemma TruthyMemoryIgnoresStorage(memory: Option<string>, s1: Storage, s2: Storage, key: string, f1: bool, f2: bool)
    requires Truthy(memory)
    ensures HydratedToken(memory, s1, key, f1) == HydratedToken(memory, s2, key, f2) == memory
  {
  }

  /** A read that raises returns the previous (falsy) in-memory value. */
  lemma ReadFaultKeepsMemory(memory: Option<string>, storage: Storage, key: string)
    ensures HydratedToken(memory, storage, key, true) == memory
  {
  }

  class Store {
    /** The deployment prefix of every persisted key. */
    const prefix: string
    /** The module-level token cache. */
    var inMemoryToken: Option<string>
    /** The persisted store. */
    var storage: Storage

    constructor (prefix: string, persisted: Storage)
      ensures this.prefix == prefix && inMemoryToken == None && storage == persisted
    {
      this.prefix := prefix;
      inMemoryToken := None;
      storage := persisted;
    }

    /** The persisted key of the token. */
    function TokenKey(): string {
      prefix + TOKEN_STORAGE_KEY
    }

    /** `setAuthToken`: the in-memory token is replaced first, so it holds the
        new value even when the write raises. */
    method SetAuthToken(token: Option<string>, writeFails: bool)
      modifies this
      ensures inMemoryToken == token
      ensures storage == StoreOrRemove(old(storage), TokenKey(), token, writeFails)
    {
      inMemoryToken := token;
      if !writeFails {
        if Truthy(token) {
          storage := storage[TokenKey() := token.value];
        } else {
          storage := storage - {TokenKey()};
        }
      }
    }

    /** `getAuthToken`: never writes storage. */
    method GetAuthToken(readFails: bool) returns (token: Option<string>)
      modifies this`inMemoryToken
      ensures token == inMemoryToken == HydratedToken(old(inMemoryToken), storage, TokenKey(), readFails)
    {
      if Truthy(inMemoryToken) {
        return inMemoryToken;
      }
      if !readFails {
        inMemoryToken := GetItem(storage, TokenKey());
      }
      token := inMemoryToken;
    }

    /** `clearAuthToken`, which is `setAuthToken(null)`. */
    method ClearAuthToken(writeFails: bool)
      modifies this
      ensures inMemoryToken == None
      ensures storage == StoreOrRemove(old(storage), TokenKey(), None, writeFails)
      ensures !writeFails ==> TokenKey() !in storage
    {
      SetAuthToken(None, writeFails);
    }

    /** `setAppInfo`: the in-memory token is left alone. */
    method SetAppInfo(key: string, data: Option<string>, writeFails: bool)
      modifies this`storage
      ensures storage == StoreOrRemove(old(storage), prefix + key, data, writeFails)
    {
      if !writeFails {
        if Truthy(data) {
          storage := storage[prefix + key := data.value];
        } else {
          storage := storage - {prefix + key};
        }
      }
    }

    /** `getAppInfo`: `null` for a missing key, `undefined` when reading raised. */
    method GetAppInfo(key: string, readFails: bool) returns (r: Read)
      ensures readFails <==> r == Undefined
      ensures !readFails ==> (r == Null <==> prefix + key !in storage)
      ensures r.Found? ==> prefix + key in storage && storage[prefix + key] == r.value
    {
      if readFails {
        return Undefined;
      }
      r := if prefix + key in storage then Found(storage[prefix + key]) else Null;
    }

    /** `clearAppInfo`, which is `setAppInfo(key, null)`. */
    method ClearAppInfo(key: string, writeFails: bool)
      modifies this`storage
      ensures storage == StoreOrRemove(old(storage), prefix + key, None, writeFails)
      ensures !writeFails ==> prefix + key !in storage
    {
      SetAppInfo(key, None, writeFails);
    }

    /** `clearAllAppInfo`: empties the whole store, including the persisted
        token, but not the in-memory token. It has no guard, so a raising
        `clear` escapes to the caller (`thrown`). */
    method ClearAllAppInfo(fails: bool) returns (thrown: bool)
      modifies this`storage
      ensures thrown == fails
      ensures storage == if fails then old(storage) else map[]
    {
      thrown := fails;
      if !fails {
        storage := map[];
      }
    }
  }

  /** App info stored under the key `auth_token` shares the token's persisted
      key: with an empty in-memory cache it is read back as the token. */
  lemma AppInfoAliasesToken(storage: Storage, prefix: string, value: string)
    requires value != ""
    ensures HydratedToken(None, StoreOrRemove(storage, prefix + TOKEN_STORAGE_KEY, Some(value), false),
                          prefix + TOKEN_STORAGE_KEY, false) == Some(value)
  {
  }
}
