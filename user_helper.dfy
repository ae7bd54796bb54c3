/**
 * Persistence of the client's user state in session storage: the whole state under one key,
 * and the session token, kept in sync with `userInfo.token`, under another.
 */
module UserHelper {
  import opened Wrappers
  import opened Text

  const LocalName := "userStorage"
  const TokenName := "token"
  const DefaultAvatar := "https://raw.githubusercontent.com/Chanzhaoyu/chatgpt-web/main/src/assets/avatar.jpg"
  const DefaultName := "Guest"
  const DefaultDescription := "Please login to save your chat history"

  /** `UserInfo`: every member optional; `None` is an absent member. */
  datatype UserInfo = UserInfo(avatar: Option<string>, name: Option<string>, description: Option<string>, token: Option<string>)
  datatype UserState = UserState(userInfo: UserInfo, isAuthenticated: bool)

  /** A value held in storage: a string (the token) or a serialized user state. */
  datatype Stored = Plain(text: string) | Setting(state: UserState)

  /** `{}` as a `UserInfo`. */
  const NoInfo := UserInfo(None, None, None, None)

  /** `defaultSetting()`: the Guest profile, an empty token, not authenticated. */
  function DefaultSetting(): (s: UserState)
    ensures Complete(s.userInfo) && !s.isAuthenticated && !Truthy(s.userInfo.token)
    ensures s.userInfo.name == Some(DefaultName) && s.userInfo.avatar == Some(DefaultAvatar) &&
            s.userInfo.description == Some(DefaultDescription)
  {
    UserState(UserInfo(Some(DefaultAvatar), Some(DefaultName), Some(DefaultDescription), Some("")), false)
  }

  function Pick(base: Option<string>, patch: Option<string>): Option<string> {
    if patch.Some? then patch else base
  }

  /** `{ ...base, ...patch }`: every member present in `patch` wins, every other member is kept from `base`. */
  function Merge(base: UserInfo, patch: UserInfo): (r: UserInfo)
    ensures r.avatar == (if patch.avatar.Some? then patch.avatar else base.avatar)
    ensures r.name == (if patch.name.Some? then patch.name else base.name)
    ensures r.description == (if patch.description.Some? then patch.description else base.description)
    ensures r.token == (if patch.token.Some? then patch.token else base.token)
  {
    UserInfo(Pick(base.avatar, patch.avatar), Pick(base.name, patch.name),
             Pick(base.description, patch.description), Pick(base.token, patch.token))
  }

  /** Every member present. */
  predicate Complete(info: UserInfo) {
    info.avatar.Some? && info.name.Some? && info.description.Some? && info.token.Some?
  }

  /** Merging nothing changes nothing, merging twice is merging once, and a complete patch replaces everything. */
  lemma MergeLaws(base: UserInfo, patch: UserInfo)
    ensures Merge(base, NoInfo) == base
    ensures Merge(Merge(base, patch), patch) == Merge(base, patch)
    ensures Complete(patch) ==> Merge(base, patch) == patch
    ensures Complete(base) ==> Complete(Merge(base, patch))
  {
  }

  /** `ss.get('token')`: the stored token, if a string is stored under that key. */
  function GetToken(entries: map<string, Stored>): (r: Option<string>)
    ensures r.Some? <==> TokenName in entries && entries[TokenName].Plain?
    ensures r.Some? ==> entries[TokenName] == Plain(r.value)
  {
    if TokenName in entries && entries[TokenName].Plain? then Some(entries[TokenName].text) else None
  }

  /** `ss.get('userStorage')`: the stored user state, if one is stored under that key. */
  function GetSetting(entries: map<string, Stored>): (r: Option<UserState>)
    ensures r.Some? <==> LocalName in entries && entries[LocalName].Setting?
    ensures r.Some? ==> entries[LocalName] == Setting(r.value)
  {
    if LocalName in entries && entries[LocalName].Setting? then Some(entries[LocalName].state) else None
  }

  /**
   * `getLocalState()`: the defaults, overridden by the stored `userInfo` members, with the token
   * and `isAuthenticated` taken from the token key alone.
   */
  function GetLocalState(entries: map<string, Stored>): (s: UserState)
    ensures s.isAuthenticated <==> Truthy(GetToken(entries))
    ensures s.userInfo.token == Some(if Truthy(GetToken(entries)) then GetToken(entries).value else "")
    ensures Complete(s.userInfo)
    ensures var stored := if GetSetting(entries).Some? then GetSetting(entries).value.userInfo else NoInfo;
            var defaults := DefaultSetting().userInfo;
            s.userInfo.avatar == (if stored.avatar.Some? then stored.avatar else defaults.avatar) &&
            s.userInfo.name == (if stored.name.Some? then stored.name else defaults.name) &&
            s.userInfo.description == (if stored.description.Some? then stored.description else defaults.description)
  {
    var localSetting := GetSetting(entries);
    var token := GetToken(entries);
    var stored := if localSetting.Some? then localSetting.value.userInfo else NoInfo;
    var info := Merge(DefaultSetting().userInfo, stored);
    UserState(info.(token := Some(if Truthy(token) then token.value else "")), Truthy(token))
  }

  /** The storage after `setLocalState(setting)`. */
  function WithLocalState(entries: map<string, Stored>, setting: UserState): (r: map<string, Stored>)
    ensures LocalName in r && r[LocalName] == Setting(setting)
    ensures Truthy(setting.userInfo.token) ==> TokenName in r && r[TokenName] == Plain(setting.userInfo.token.value)
    ensures !Truthy(setting.userInfo.token) ==> TokenName !in r
    ensures forall k | k != LocalName && k != TokenName :: (k in r <==> k in entries) && (k in r ==> r[k] == entries[k])
  {
    var saved := entries[LocalName := Setting(setting)];
    if Truthy(setting.userInfo.token) then saved[TokenName := Plain(setting.userInfo.token.value)]
    else saved - {TokenName}
  }

  /** Nothing in an empty storage: the defaults. */
  lemma EmptyStorageIsDefault()
    ensures GetLocalState(map[]) == DefaultSetting()
  {
  }

  /**
   * After `setLocalState(s)` the state is stored, the token key holds `s.userInfo.token` exactly
   * when that is truthy, and no other key changes.
   */
  lemma SetLocalStateStores(entries: map<string, Stored>, s: UserState)
    ensures var after := WithLocalState(entries, s);
            GetSetting(after) == Some(s) &&
            GetToken(after) == (if Truthy(s.userInfo.token) then s.userInfo.token else None) &&
            (Truthy(s.userInfo.token) <==> TokenName in after) &&
            forall k | k != LocalName && k != TokenName :: (k in after <==> k in entries) && (k in after ==> after[k] == entries[k])
  {
  }

  /**
   * Loading after `setLocalState(s)`: the token is `s`'s when truthy and `''` otherwise,
   * `isAuthenticated` is its truthiness whatever `s.isAuthenticated` was, and every other member
   * is `s`'s, or the default where `s` has none.
   */
  lemma LoadAfterStore(entries: map<string, Stored>, s: UserState)
    ensures var loaded := GetLocalState(WithLocalState(entries, s));
            loaded.isAuthenticated == Truthy(s.userInfo.token) &&
            loaded.userInfo == Merge(DefaultSetting().userInfo, s.userInfo).(token := Some(if Truthy(s.userInfo.token) then s.userInfo.token.value else ""))
  {
    SetLocalStateStores(entries, s);
  }

  /** A complete state whose flag agrees with its token survives a store and a load unchanged. */
  lemma StoreLoadRoundTrip(entries: map<string, Stored>, s: UserState)
    requires Complete(s.userInfo) && s.isAuthenticated == Truthy(s.userInfo.token)
    ensures GetLocalState(WithLocalState(entries, s)) == s
  {
    LoadAfterStore(entries, s);
  }

  /** Storing what was loaded and loading again gives the same state. */
  lemma LoadStoreLoad(entries: map<string, Stored>)
    ensures GetLocalState(WithLocalState(entries, GetLocalState(entries))) == GetLocalState(entries)
  {
    var s := GetLocalState(entries);
    assert s.userInfo.token.value == "" ==> !Truthy(s.userInfo.token);
    StoreLoadRoundTrip(entries, s);
  }

  /** The browser's session storage used through the `ss` wrapper. */
  class SessionStorage {
    var entries: map<string, Stored>

    constructor (initial: map<string, Stored>)
      ensures entries == initial
    {
      entries := initial;
    }

    /** `setToken(token)`. */
    method SetToken(token: string)
      modifies this
      ensures entries == old(entries)[TokenName := Plain(token)]
      ensures GetToken(entries) == Some(token)
    {
      entries := entries[TokenName := Plain(token)];
    }

    /** `clearToken()`. */
    method ClearToken()
      modifies this
      ensures entries == old(entries) - {TokenName}
      ensures GetToken(entries) == None
    {
      entries := entries - {TokenName};
    }

    /** `setLocalState(setting)`: store the state, then set or clear the token key to match it. */
    method SetLocalState(setting: UserState)
      modifies this
      ensures entries == WithLocalState(old(entries), setting)
    {
      entries := entries[LocalName := Setting(setting)];
      if Truthy(setting.userInfo.token) {
        SetToken(setting.userInfo.token.value);
      } else {
        ClearToken();
      }
    }
  }
}
