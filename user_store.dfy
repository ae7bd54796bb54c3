/**
 * The client's user store: the in-memory `userInfo` and `isAuthenticated`, loaded from session
 * storage when the store is created and written back after every action.
 */
module UserStore {
  import opened Wrappers
  import opened Text
  import opened UserHelper

  /** The user store over one session storage. */
  class Store {
    var userInfo: UserInfo
    var isAuthenticated: bool
    const storage: SessionStorage

    /** `this.$state`. */
    function State(): UserState
      reads this
    {
      UserState(userInfo, isAuthenticated)
    }

    /** After an action has been recorded: the storage holds the state, and the token key matches its token. */
    ghost predicate Recorded()
      reads this, storage
    {
      GetSetting(storage.entries) == Some(State()) &&
      GetToken(storage.entries) == (if Truthy(userInfo.token) then userInfo.token else None)
    }

    /** `state: () => getLocalState()`. */
    constructor (storage: SessionStorage)
      ensures this.storage == storage
      ensures State() == GetLocalState(storage.entries)
    {
      this.storage := storage;
      var s := GetLocalState(storage.entries);
      userInfo, isAuthenticated := s.userInfo, s.isAuthenticated;
    }

    /** `recordState()`: `setLocalState(this.$state)`, and nothing else. */
    method RecordState()
      modifies storage
      ensures storage.entries == WithLocalState(old(storage.entries), State())
      ensures Recorded()
    {
      storage.SetLocalState(State());
      SetLocalStateStores(old(storage.entries), State());
    }

    /**
     * `updateUserInfo(patch)`: the members present in `patch` overwrite, the others are kept;
     * `isAuthenticated` becomes the truthiness of the PATCH's token, then the state is recorded.
     */
    method UpdateUserInfo(patch: UserInfo)
      modifies this, storage
      ensures userInfo == Merge(old(userInfo), patch)
      ensures isAuthenticated == Truthy(patch.token)
      ensures storage.entries == WithLocalState(old(storage.entries), State())
      ensures Recorded()
    {
      userInfo := Merge(userInfo, patch);
      isAuthenticated := Truthy(patch.token);
      RecordState();
    }

    /** `resetUserInfo()`: the default profile, not authenticated, no token key, recorded. */
    method ResetUserInfo()
      modifies this, storage
      ensures State() == DefaultSetting()
      ensures storage.entries == WithLocalState(old(storage.entries) - {TokenName}, DefaultSetting())
      ensures TokenName !in storage.entries
      ensures Recorded()
    {
      userInfo := DefaultSetting().userInfo;
      isAuthenticated := false;
      storage.ClearToken();
      RecordState();
    }
  }

  /** After a reset, reloading the store from storage gives the defaults again. */
  lemma ResetThenReload(entries: map<string, Stored>)
    ensures GetLocalState(WithLocalState(entries - {TokenName}, DefaultSetting())) == DefaultSetting()
  {
    StoreLoadRoundTrip(entries - {TokenName}, DefaultSetting());
  }

  /**
   * Logging in through `updateUserInfo` with a token: the store is authenticated, and a reload
   * agrees with the in-memory state.
   */
  lemma LoginUpdateAgreesWithReload(entries: map<string, Stored>, info: UserInfo, patch: UserInfo)
    requires Complete(info) && Truthy(patch.token)
    ensures var s := UserState(Merge(info, patch), Truthy(patch.token));
            s.isAuthenticated && GetLocalState(WithLocalState(entries, s)) == s
  {
    MergeLaws(info, patch);
    StoreLoadRoundTrip(entries, UserState(Merge(info, patch), Truthy(patch.token)));
  }

  /**
   * An update without a token while logged in leaves the token in place but sets
   * `isAuthenticated` to false in memory; a reload from storage says authenticated again.
   */
  lemma TokenlessUpdateDisagreesWithReload(entries: map<string, Stored>, info: UserInfo, patch: UserInfo)
    requires Truthy(info.token) && patch.token.None?
    ensures var s := UserState(Merge(info, patch), Truthy(patch.token));
            !s.isAuthenticated && Truthy(s.userInfo.token) &&
            GetLocalState(WithLocalState(entries, s)).isAuthenticated
  {
    LoadAfterStore(entries, UserState(Merge(info, patch), Truthy(patch.token)));
  }
}
