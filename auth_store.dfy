/**
 * The authentication store (src/state/authStore.ts): a login/logout state
 * machine that persists the user record under the storage key `user`.
 *
 * The device storage is an abstract string-to-string map and JSON
 * serialisation an abstract codec: `stringify` a total function and `parse` a
 * partial one.
 */
module Auth {
  import opened Wrappers

  /** A preference value (`any` in the source), restricted to JSON scalars. */
  datatype PrefValue = BoolPref(flag: bool) | TextPref(text: string) | NumberPref(number: int)

  datatype User = User(id: Option<string>, name: Option<string>, preferences: map<string, PrefValue>)

  datatype AuthState = AuthState(isAuthenticated: bool, user: User)

  /** The key the user record is stored under. */
  const StorageKey := "user"

  /** `JSON.stringify` and `JSON.parse` restricted to user records. */
  datatype Codec = Codec(stringify: User -> string, parse: string -> Option<User>)

  /**
   * What JSON guarantees for one record: parsing its text gives it back, and
   * the text of an object is never the empty string.
   */
  predicate RoundTrips(codec: Codec, user: User) {
    codec.parse(codec.stringify(user)) == Some(user) && codec.stringify(user) != ""
  }

  function AnonymousUser(): User {
    User(None, None, map[])
  }

  /** The state the store is created with, and the one `logout` restores. */
  function InitialState(): AuthState {
    AuthState(false, AnonymousUser())
  }

  /** The record `login` creates; the password plays no part. */
  function MockUser(username: string): (user: User)
    ensures user.id == Some("123") && user.name == Some(username)
    ensures user.preferences == map["subtitles" := BoolPref(true), "audioLanguage" := TextPref("en")]
  {
    User(Some("123"), Some(username),
         map["subtitles" := BoolPref(true), "audioLanguage" := TextPref("en")])
  }

  /** The store's state together with the device storage it reads and writes. */
  datatype World = World(state: AuthState, storage: map<string, string>)

  /** `localStorage.getItem('user')` when truthy: present and not the empty string. */
  function SavedUser(storage: map<string, string>): (saved: Option<string>)
    ensures saved.Some? <==> StorageKey in storage && storage[StorageKey] != ""
    ensures saved.Some? ==> saved.value == storage[StorageKey]
  {
    if StorageKey in storage && storage[StorageKey] != "" then Some(storage[StorageKey]) else None
  }

  /**
   * `checkAuth()`: no saved record changes nothing; a record that parses
   * authenticates as that user; one that does not parse is removed.
   */
  function AfterCheckAuth(w: World, codec: Codec): (v: World)
    ensures w.state.isAuthenticated ==> v.state.isAuthenticated
    ensures v.storage == w.storage || v.storage == w.storage - {StorageKey}
    ensures v.state != w.state ==> v.state.isAuthenticated
    ensures SavedUser(w.storage).None? ==> v == w
    ensures SavedUser(w.storage).Some? && codec.parse(SavedUser(w.storage).value).Some? ==>
              v == World(AuthState(true, codec.parse(SavedUser(w.storage).value).value), w.storage)
    ensures SavedUser(w.storage).Some? && codec.parse(SavedUser(w.storage).value).None? ==>
              v == World(w.state, w.storage - {StorageKey})
  {
    match SavedUser(w.storage)
    case None => w
    case Some(text) =>
      match codec.parse(text)
      case Some(user) => World(AuthState(true, user), w.storage)
      case None => World(w.state, w.storage - {StorageKey})
  }

  /** `login(username, password)`: always succeeds, stores and adopts the mock user. */
  function AfterLogin(w: World, username: string, codec: Codec): (r: (World, bool))
    ensures r.1
    ensures r.0.state == AuthState(true, MockUser(username))
    ensures StorageKey in r.0.storage && r.0.storage[StorageKey] == codec.stringify(MockUser(username))
    ensures forall k :: k != StorageKey ==>
              (k in r.0.storage <==> k in w.storage) && (k in w.storage ==> r.0.storage[k] == w.storage[k])
  {
    var user := MockUser(username);
    (World(AuthState(true, user), w.storage[StorageKey := codec.stringify(user)]), true)
  }

  /** `logout()`: forget the stored record and return to the initial state. */
  function AfterLogout(w: World): (v: World)
    ensures v.state == InitialState()
    ensures StorageKey !in v.storage
    ensures forall k :: k != StorageKey ==>
              (k in v.storage <==> k in w.storage) && (k in w.storage ==> v.storage[k] == w.storage[k])
  {
    World(InitialState(), w.storage - {StorageKey})
  }

  /**
   * `updateUserPreferences(prefs)`: the old preferences overridden by `prefs`;
   * the record is written to storage only while authenticated.
   */
  function AfterUpdatePreferences(w: World, prefs: map<string, PrefValue>, codec: Codec): (v: World)
    ensures forall k :: k in prefs ==> k in v.state.user.preferences && v.state.user.preferences[k] == prefs[k]
    ensures forall k :: k !in prefs ==>
              (k in v.state.user.preferences <==> k in w.state.user.preferences) &&
              (k in w.state.user.preferences ==> v.state.user.preferences[k] == w.state.user.preferences[k])
    ensures v.state.isAuthenticated == w.state.isAuthenticated
    ensures v.state.user.id == w.state.user.id && v.state.user.name == w.state.user.name
    ensures w.state.isAuthenticated ==> v.storage == w.storage[StorageKey := codec.stringify(v.state.user)]
    ensures !w.state.isAuthenticated ==> v.storage == w.storage
  {
    var updated := w.state.user.(preferences := w.state.user.preferences + prefs);
    var storage := if w.state.isAuthenticated then w.storage[StorageKey := codec.stringify(updated)] else w.storage;
    World(w.state.(user := updated), storage)
  }

  /** Logging out twice is logging out once. */
  lemma LogoutIdempotent(w: World)
    ensures AfterLogout(AfterLogout(w)) == AfterLogout(w)
  {
  }

  /** Checking twice is checking once. */
  lemma CheckAuthIdempotent(w: World, codec: Codec)
    ensures AfterCheckAuth(AfterCheckAuth(w, codec), codec) == AfterCheckAuth(w, codec)
  {
  }

  /** A login survives a restart: a fresh store that checks the storage is logged in as that user. */
  lemma LoginSurvivesRestart(w: World, username: string, codec: Codec)
    requires RoundTrips(codec, MockUser(username))
    ensures var loggedIn := AfterLogin(w, username, codec).0;
            AfterCheckAuth(World(InitialState(), loggedIn.storage), codec) == loggedIn
  {
  }

  /** After a logout a fresh store stays logged out. */
  lemma LogoutSurvivesRestart(w: World, codec: Codec)
    ensures var out := AfterLogout(w);
            AfterCheckAuth(World(InitialState(), out.storage), codec) == out
  {
  }

  /** Preferences updated while logged in survive a restart. */
  lemma PreferencesSurviveRestart(w: World, prefs: map<string, PrefValue>, codec: Codec)
    requires w.state.isAuthenticated
    requires RoundTrips(codec, AfterUpdatePreferences(w, prefs, codec).state.user)
    ensures var v := AfterUpdatePreferences(w, prefs, codec);
            AfterCheckAuth(World(InitialState(), v.storage), codec) == v
  {
  }

  /** Two updates in a row are one update with the merged preferences, later keys winning. */
  lemma UpdatesCompose(w: World, p: map<string, PrefValue>, q: map<string, PrefValue>, codec: Codec)
    ensures AfterUpdatePreferences(AfterUpdatePreferences(w, p, codec), q, codec)
            == AfterUpdatePreferences(w, p + q, codec)
  {
    var m := w.state.user.preferences;
    assert (m + p) + q == m + (p + q);
  }

  /** The device storage: a string-to-string map that the store reads and writes. */
  class KeyValueStorage {
    var entries: map<string, string>

    constructor (entries: map<string, string>)
      ensures this.entries == entries
    {
      this.entries := entries;
    }

    method GetItem(key: string) returns (value: Option<string>)
      ensures value == if key in entries then Some(entries[key]) else None
    {
      value := if key in entries then Some(entries[key]) else None;
    }

    method SetItem(key: string, value: string)
      modifies this
      ensures entries == old(entries)[key := value]
    {
      entries := entries[key := value];
    }

    method RemoveItem(key: string)
      modifies this
      ensures entries == old(entries) - {key}
    {
      entries := entries - {key};
    }
  }

  /** The store object, bound to the device storage it persists into. */
  class AuthStore {
    var isAuthenticated: bool
    var user: User
    const storage: KeyValueStorage

    function Snapshot(): World
      reads this, storage
    {
      World(AuthState(isAuthenticated, user), storage.entries)
    }

    constructor (storage: KeyValueStorage)
      ensures this.storage == storage
      ensures Snapshot() == World(InitialState(), storage.entries)
    {
      isAuthenticated := false;
      user := AnonymousUser();
      this.storage := storage;
    }

    method CheckAuth(codec: Codec)
      modifies this, storage
      ensures Snapshot() == AfterCheckAuth(old(Snapshot()), codec)
    {
      var savedUser := storage.GetItem(StorageKey);
      if savedUser.Some? && savedUser.value != "" {
        var parsedUser := codec.parse(savedUser.value);
        if parsedUser.Some? {
          isAuthenticated := true;
          user := parsedUser.value;
        } else {
          storage.RemoveItem(StorageKey);
        }
      }
    }

    method Login(username: string, password: string, codec: Codec) returns (ok: bool)
      modifies this, storage
      ensures (Snapshot(), ok) == AfterLogin(old(Snapshot()), username, codec)
    {
      var mockUser := MockUser(username);
      storage.SetItem(StorageKey, codec.stringify(mockUser));
      isAuthenticated := true;
      user := mockUser;
      ok := true;
    }

    method Logout()
      modifies this, storage
      ensures Snapshot() == AfterLogout(old(Snapshot()))
    {
      storage.RemoveItem(StorageKey);
      isAuthenticated := false;
      user := AnonymousUser();
    }

    method UpdateUserPreferences(preferences: map<string, PrefValue>, codec: Codec)
      modifies this, storage
      ensures Snapshot() == AfterUpdatePreferences(old(Snapshot()), preferences, codec)
    {
      var updatedUser := user.(preferences := user.preferences + preferences);
      if isAuthenticated {
        storage.SetItem(StorageKey, codec.stringify(updatedUser));
      }
      user := updatedUser;
    }
  }
}
