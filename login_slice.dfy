/**
 * The login slice: a single `isLogin` flag kept in step with one session-storage
 * entry, the access token. The flag starts as "the entry is present"; `login`
 * writes the entry and raises the flag, `logout` removes it and lowers the flag.
 *
 * Session storage belongs to the browser, not to the store: it is its own object
 * here, so that it survives a page reload, which derives the flag from it again.
 */
module LoginSlice {

  import opened Wrappers

  /** The session-storage key of the access token (`SESSION_STORAGE_KEY.ACCESS_TOKEN`). */
  const ACCESS_TOKEN: string := "ACCESS_TOKEN"

  /** The entry stored under `key`, or None (`getItem` returning null). */
  function Lookup(items: map<string, string>, key: string): (v: Option<string>)
    ensures v.Some? <==> key in items
    ensures v.Some? ==> v.value == items[key]
  {
    if key in items then Some(items[key]) else None
  }

  /** The flag a page load starts with: logged in iff a token is stored. */
  function InitialIsLogin(items: map<string, string>): (isLogin: bool)
    ensures isLogin <==> ACCESS_TOKEN in items
  {
    Lookup(items, ACCESS_TOKEN) != None
  }

  /** The browser's session storage, as a map from key to stored string. */
  class SessionStorage {
    var items: map<string, string>

    constructor (items: map<string, string>)
      ensures this.items == items
    {
      this.items := items;
    }

    method GetItem(key: string) returns (v: Option<string>)
      ensures v.Some? <==> key in items
      ensures v.Some? ==> v.value == items[key]
    {
      v := Lookup(items, key);
    }

    method SetItem(key: string, value: string)
      modifies this
      ensures Lookup(items, key) == Some(value)
      ensures forall k :: k != key ==> Lookup(items, k) == Lookup(old(items), k)
      ensures items == old(items)[key := value]
    {
      items := items[key := value];
    }

    method RemoveItem(key: string)
      modifies this
      ensures Lookup(items, key) == None
      ensures forall k :: k != key ==> Lookup(items, k) == Lookup(old(items), k)
      ensures items == old(items) - {key}
    {
      items := items - {key};
    }
  }

  class LoginState {
    var isLogin: bool
    const storage: SessionStorage

    /** The flag agrees with the presence of the token. */
    ghost predicate InSync()
      reads this, storage
    {
      isLogin <==> ACCESS_TOKEN in storage.items
    }

    /**
     * The slice's initial state. The source derives it once, when the slice's module
     * is loaded, so a new `LoginState` stands for a page load (or reload) reading the storage.
     */
    constructor (storage: SessionStorage)
      ensures this.storage == storage
      ensures isLogin == InitialIsLogin(storage.items)
      ensures InSync()
    {
      this.storage := storage;
      var token := storage.GetItem(ACCESS_TOKEN);
      isLogin := token != None;
    }

    method Login(payload: string)
      modifies this, storage
      ensures isLogin
      ensures storage.items == old(storage.items)[ACCESS_TOKEN := payload]
      ensures InSync()
    {
      storage.SetItem(ACCESS_TOKEN, payload);
      isLogin := true;
    }

    method Logout()
      modifies this, storage
      ensures !isLogin
      ensures storage.items == old(storage.items) - {ACCESS_TOKEN}
      ensures InSync()
    {
      storage.RemoveItem(ACCESS_TOKEN);
      isLogin := false;
    }
  }

  /** Logging in and then out leaves no token behind and every other entry as it was. */
  method LoginThenLogout(state: LoginState, payload: string)
    modifies state, state.storage
    ensures ACCESS_TOKEN !in state.storage.items
    ensures forall k :: k != ACCESS_TOKEN ==> Lookup(state.storage.items, k) == Lookup(old(state.storage.items), k)
    ensures !state.isLogin
  {
    state.Login(payload);
    state.Logout();
  }

  /** A page reload after a login starts logged in, and reads back the token that was stored. */
  method LoginThenReload(state: LoginState, payload: string) returns (reloaded: LoginState)
    modifies state, state.storage
    ensures reloaded.storage == state.storage
    ensures reloaded.isLogin
    ensures Lookup(reloaded.storage.items, ACCESS_TOKEN) == Some(payload)
  {
    state.Login(payload);
    reloaded := new LoginState(state.storage);
  }
}
