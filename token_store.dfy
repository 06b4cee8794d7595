/** The credential store (src/store/token.ts). The token record has one of two shapes, the
    deployment runs in single- or double-token mode (a build-time constant), and absolute expiry
    times are written to storage when a record is stored. The clock is the parameter `now`
    (milliseconds), storage is a map from key to stored number, and the remote calls are inputs
    given as the fate of their promise. */
module TokenStore {
  import opened Values
  import UserStore

  /** `IAuthLoginRes`: the single-token shape `{ token, expiresIn }` or the double-token shape
      `{ access_token, accessExpiresIn, refresh_token, refreshExpiresIn }` (lifetimes in seconds). */
  datatype TokenInfo =
    | Single(token: string, expiresIn: int)
    | Double(accessToken: string, accessExpiresIn: int, refreshToken: string, refreshExpiresIn: int)

  type Storage = map<string, int>

  const AccessExpiryKey := "accessTokenExpireTime"
  const RefreshExpiryKey := "refreshTokenExpireTime"
  /** The key under which the store itself is persisted; logout removes it too. */
  const PersistKey := "token"

  const SingleModeRefreshError := "单token模式不支持刷新token"
  const InvalidRefreshTokenError := "无效的refreshToken"

  /** `tokenInfoState`: the empty record of the mode's shape. */
  function InitialInfo(doubleMode: bool): (r: TokenInfo)
    ensures r.Double? <==> doubleMode
  {
    if doubleMode then Double("", 0, "", 0) else Single("", 0)
  }

  /** The refresh token the record carries; the single shape has none. */
  function RefreshTokenOf(info: TokenInfo): (r: string)
    ensures r != "" ==> info.Double? && r == info.refreshToken
    ensures info.Double? ==> r == info.refreshToken
    ensures r == "" <== info == InitialInfo(true) || info == InitialInfo(false)
  {
    if info.Double? then info.refreshToken else ""
  }

  /** The state the store holds: the record and the storage it writes expiries to. */
  datatype State = State(info: TokenInfo, storage: Storage)

  /** An expiry stored under `key` is over when it is absent or zero (both falsy) or reached. */
  predicate ExpiredAt(storage: Storage, key: string, now: int)
  {
    key !in storage || storage[key] == 0 || now >= storage[key]
  }

  /** `isTokenExpired`: a token with no stored expiry counts as expired; an unexpired one has an
      expiry still ahead of `now`. */
  predicate IsTokenExpired(st: State, now: int)
    ensures AccessExpiryKey !in st.storage ==> IsTokenExpired(st, now)
    ensures !IsTokenExpired(st, now) ==> AccessExpiryKey in st.storage && now < st.storage[AccessExpiryKey]
  {
    ExpiredAt(st.storage, AccessExpiryKey, now)
  }

  /** `isRefreshTokenExpired`: always expired in single-token mode. */
  predicate IsRefreshTokenExpired(doubleMode: bool, st: State, now: int)
    ensures !doubleMode ==> IsRefreshTokenExpired(doubleMode, st, now)
    ensures !IsRefreshTokenExpired(doubleMode, st, now) ==>
              RefreshExpiryKey in st.storage && now < st.storage[RefreshExpiryKey]
  {
    !doubleMode || ExpiredAt(st.storage, RefreshExpiryKey, now)
  }

  /** `getValidToken`: the token of the mode's shape, or '' when expired or of the other shape. */
  function ValidToken(doubleMode: bool, st: State, now: int): (r: string)
    ensures IsTokenExpired(st, now) ==> r == ""
    ensures r != "" ==> (doubleMode && st.info.Double? && r == st.info.accessToken)
                        || (!doubleMode && st.info.Single? && r == st.info.token)
  {
    if IsTokenExpired(st, now) then ""
    else if !doubleMode then (if st.info.Single? then st.info.token else "")
    else (if st.info.Double? then st.info.accessToken else "")
  }

  /** `hasLoginInfo`: the record has the mode's shape and a non-empty token, expired or not. */
  predicate HasLoginInfo(doubleMode: bool, st: State)
    ensures HasLoginInfo(doubleMode, st) ==> st.info.Double? == doubleMode
    ensures HasLoginInfo(doubleMode, st) ==> st.info != InitialInfo(doubleMode)
  {
    if doubleMode then st.info.Double? && st.info.accessToken != ""
    else st.info.Single? && st.info.token != ""
  }

  /** `hasValidLogin`, exported as `hasLogin`. */
  predicate HasValidLogin(doubleMode: bool, st: State, now: int)
    ensures HasValidLogin(doubleMode, st, now) ==> HasLoginInfo(doubleMode, st)
    ensures HasValidLogin(doubleMode, st, now) ==>
              AccessExpiryKey in st.storage && now < st.storage[AccessExpiryKey]
  {
    HasLoginInfo(doubleMode, st) && !IsTokenExpired(st, now)
  }

  /** The storage `setTokenInfo(val)` leaves: expiry `now + lifetime * 1000` for each token the
      shape carries; the single shape leaves a stored refresh expiry in place. */
  function StoredExpiries(storage: Storage, val: TokenInfo, now: int): (r: Storage)
    ensures r.Keys == storage.Keys + (if val.Double? then {AccessExpiryKey, RefreshExpiryKey} else {AccessExpiryKey})
    ensures val.Single? ==> r[AccessExpiryKey] == now + val.expiresIn * 1000
    ensures val.Double? ==> r[AccessExpiryKey] == now + val.accessExpiresIn * 1000
                            && r[RefreshExpiryKey] == now + val.refreshExpiresIn * 1000
    ensures forall k :: k in storage && k != AccessExpiryKey && k != RefreshExpiryKey ==> r[k] == storage[k]
    ensures val.Single? && RefreshExpiryKey in storage ==> r[RefreshExpiryKey] == storage[RefreshExpiryKey]
  {
    match val
    case Single(_, expiresIn) => storage[AccessExpiryKey := now + expiresIn * 1000]
    case Double(_, accessIn, _, refreshIn) =>
      storage[AccessExpiryKey := now + accessIn * 1000][RefreshExpiryKey := now + refreshIn * 1000]
  }

  /** The state `logout` leaves, whatever the remote call did. */
  function LoggedOut(doubleMode: bool, st: State): (r: State)
    ensures r.info == InitialInfo(doubleMode)
    ensures r.storage.Keys == st.storage.Keys - {AccessExpiryKey, RefreshExpiryKey, PersistKey}
    ensures forall k :: k in r.storage ==> r.storage[k] == st.storage[k]
  {
    State(InitialInfo(doubleMode), st.storage - {AccessExpiryKey, RefreshExpiryKey, PersistKey})
  }

  /** A freshly stored record of the mode's shape with a positive lifetime is a valid login
      exactly until its expiry `now + lifetime * 1000`, when its token is non-empty. */
  lemma FreshLoginLasts(doubleMode: bool, st: State, val: TokenInfo, now: int, later: int)
    requires val.Double? <==> doubleMode
    requires now >= 0
    requires if val.Single? then val.expiresIn > 0 else val.accessExpiresIn > 0
    ensures var after := State(val, StoredExpiries(st.storage, val, now));
            var lifetime := if val.Single? then val.expiresIn * 1000 else val.accessExpiresIn * 1000;
            && (!IsTokenExpired(after, later) <==> later < now + lifetime)
            && (HasValidLogin(doubleMode, after, later) <==>
                  later < now + lifetime && (if val.Single? then val.token else val.accessToken) != "")
  {
    var after := State(val, StoredExpiries(st.storage, val, now));
    assert AccessExpiryKey in after.storage;
  }

  /** The valid token is non-empty exactly when the user has a valid login. */
  lemma ValidTokenIffLogin(doubleMode: bool, st: State, now: int)
    ensures ValidToken(doubleMode, st, now) != "" <==> HasValidLogin(doubleMode, st, now)
  {
  }

  /** Once expired, a token stays expired as time goes on. */
  lemma ExpiryIsPermanent(st: State, now: int, later: int)
    requires now <= later && IsTokenExpired(st, now)
    ensures IsTokenExpired(st, later)
  {
  }

  /** After logout nobody is logged in, at any time, and logging out again changes nothing. */
  lemma LogoutIsFinalAndIdempotent(doubleMode: bool, st: State, now: int)
    ensures !HasValidLogin(doubleMode, LoggedOut(doubleMode, st), now)
    ensures ValidToken(doubleMode, LoggedOut(doubleMode, st), now) == ""
    ensures IsRefreshTokenExpired(doubleMode, LoggedOut(doubleMode, st), now)
    ensures LoggedOut(doubleMode, LoggedOut(doubleMode, st)) == LoggedOut(doubleMode, st)
  {
    var once := LoggedOut(doubleMode, st);
    assert AccessExpiryKey !in once.storage;
    assert RefreshExpiryKey !in once.storage;
    assert once.storage - {AccessExpiryKey, RefreshExpiryKey, PersistKey} == once.storage;
  }

  class Store {
    /** `isDoubleTokenMode`. */
    const doubleMode: bool
    var tokenInfo: TokenInfo
    var storage: Storage

    function Current(): State
      reads this
    {
      State(tokenInfo, storage)
    }

    /** A store starts with the initial record of its mode, over whatever storage holds. */
    constructor(doubleMode: bool, storage: Storage)
      ensures this.doubleMode == doubleMode
      ensures Current() == State(InitialInfo(doubleMode), storage)
    {
      this.doubleMode := doubleMode;
      tokenInfo := InitialInfo(doubleMode);
      this.storage := storage;
    }

    /** `setTokenInfo`: stores the record and writes the expiry times its shape carries. */
    method SetTokenInfo(val: TokenInfo, now: int)
      modifies this
      ensures Current() == State(val, StoredExpiries(old(storage), val, now))
    {
      tokenInfo := val;
      match val {
        case Single(_, expiresIn) =>
          storage := storage[AccessExpiryKey := now + expiresIn * 1000];
        case Double(_, accessIn, _, refreshIn) =>
          storage := storage[AccessExpiryKey := now + accessIn * 1000];
          storage := storage[RefreshExpiryKey := now + refreshIn * 1000];
      }
    }

    /** `logout`: once the remote logout has settled, fulfilled or rejected alike, both expiry
        keys and the persisted record are removed, the record is reset and the user store is
        cleared. While that call has not settled the `finally` block has not run. */
    method Logout(reply: Fate<Envelope>, user: UserStore.Store)
      modifies this, user
      ensures !reply.Pending? ==> Current() == LoggedOut(doubleMode, old(Current())) && user.userInfo == UserStore.Initial
      ensures reply.Pending? ==> Current() == old(Current()) && user.userInfo == old(user.userInfo)
    {
      if reply.Pending? {
        return;
      }
      storage := storage - {AccessExpiryKey};
      storage := storage - {RefreshExpiryKey};
      tokenInfo := InitialInfo(doubleMode);
      storage := storage - {PersistKey};
      user.ClearUserInfo();
    }

    /** `refreshToken`: refuses without calling the API in single-token mode or without a
        refresh token; otherwise calls it (`called`) and stores what a fulfilled call returns. */
    method RefreshToken(reply: Fate<TokenInfo>, now: int) returns (r: Fate<TokenInfo>, called: bool)
      modifies this
      ensures called <==> doubleMode && old(tokenInfo).Double? && old(tokenInfo).refreshToken != ""
      ensures !doubleMode ==> r == Rejected(Some(SingleModeRefreshError))
      ensures doubleMode && !called ==> r == Rejected(Some(InvalidRefreshTokenError))
      ensures called ==> r == reply
      ensures called && reply.Fulfilled? ==> Current() == State(reply.value, StoredExpiries(old(storage), reply.value, now))
      ensures !(called && reply.Fulfilled?) ==> Current() == old(Current())
    {
      if !doubleMode {
        return Rejected(Some(SingleModeRefreshError)), false;
      }
      if !tokenInfo.Double? || tokenInfo.refreshToken == "" {
        return Rejected(Some(InvalidRefreshTokenError)), false;
      }
      called := true;
      if reply.Fulfilled? {
        SetTokenInfo(reply.value, now);
      }
      r := reply;
    }

    /** `tryGetValidToken`: refreshes only when there is no valid token, the mode is double and
        the refresh token has not expired; a failed refresh yields ''. */
    method TryGetValidToken(reply: Fate<TokenInfo>, now: int) returns (r: Fate<string>, called: bool)
      modifies this
      ensures var tried := ValidToken(doubleMode, old(Current()), now) == "" && doubleMode
                           && !IsRefreshTokenExpired(doubleMode, old(Current()), now);
              && (!tried ==> !called && Current() == old(Current())
                             && r == Fulfilled(ValidToken(doubleMode, old(Current()), now)))
              && (called ==> tried)
              && (tried && !called ==> r == Fulfilled("") && Current() == old(Current()))
              && (called && reply.Rejected? ==> r == Fulfilled("") && Current() == old(Current()))
              && (called && reply.Pending? ==> r == Pending)
              && (called && reply.Fulfilled? ==>
                    Current() == State(reply.value, StoredExpiries(old(storage), reply.value, now))
                    && r == Fulfilled(ValidToken(doubleMode, Current(), now)))
    {
      called := false;
      if ValidToken(doubleMode, Current(), now) == "" && doubleMode
         && !IsRefreshTokenExpired(doubleMode, Current(), now) {
        var f;
        f, called := RefreshToken(reply, now);
        match f {
          case Fulfilled(_) => r := Fulfilled(ValidToken(doubleMode, Current(), now));
          case Rejected(_) => r := Fulfilled("");
          case Pending => r := Pending;
        }
        return;
      }
      r := Fulfilled(ValidToken(doubleMode, Current(), now));
    }
  }
}
