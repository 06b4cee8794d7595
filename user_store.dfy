/** The user store (src/store/user.ts): the current user's profile record, with a default
    avatar whenever the record has none. The remote calls `getUserInfo` and `updateInfo` are
    inputs: each method receives the fate of the promise the call returned. */
module UserStore {
  import opened Values

  /** `IUserInfoRes`; `id` is None for the `null` of the initial record. */
  datatype UserInfo = UserInfo(id: Option<int>, username: string, nickname: string, avatar: string)

  /** `Partial<IUserInfoRes>`: a field is Some when the object has that key. */
  datatype UserPatch = UserPatch(id: Option<Option<int>>, username: Option<string>,
                                 nickname: Option<string>, avatar: Option<string>)

  const DefaultAvatar := "/static/images/default-avatar.png"

  /** `userInfoState`, the record a fresh or cleared store holds. */
  const Initial := UserInfo(None, "", "", DefaultAvatar)

  /** The record `setUserInfo` stores: a falsy avatar is replaced by the default one,
      everything else is kept. */
  function WithDefaultAvatar(u: UserInfo): (r: UserInfo)
    ensures r.avatar != ""
    ensures u.avatar != "" ==> r == u
    ensures u.avatar == "" ==> r.avatar == DefaultAvatar
    ensures r.(avatar := u.avatar) == u
  {
    if u.avatar == "" then u.(avatar := DefaultAvatar) else u
  }

  /** `{ ...u, ...p }`: every key present in the patch overrides the record's field. */
  function Merged(u: UserInfo, p: UserPatch): (r: UserInfo)
    ensures p.id.Some? ==> r.id == p.id.value
    ensures p.id.None? ==> r.id == u.id
    ensures p.username.Some? ==> r.username == p.username.value
    ensures p.username.None? ==> r.username == u.username
    ensures p.nickname.Some? ==> r.nickname == p.nickname.value
    ensures p.nickname.None? ==> r.nickname == u.nickname
    ensures p.avatar.Some? ==> r.avatar == p.avatar.value
    ensures p.avatar.None? ==> r.avatar == u.avatar
  {
    UserInfo(if p.id.Some? then p.id.value else u.id,
             if p.username.Some? then p.username.value else u.username,
             if p.nickname.Some? then p.nickname.value else u.nickname,
             if p.avatar.Some? then p.avatar.value else u.avatar)
  }

  /** `{ id: userInfo.id, ...data }`, the body `updateUserInfo` sends: it always has an `id`,
      the current one unless the patch brings its own, and otherwise exactly the patch's keys. */
  function UpdatePayload(u: UserInfo, p: UserPatch): (r: UserPatch)
    ensures r.id.Some?
    ensures r.id.value == if p.id.Some? then p.id.value else u.id
    ensures r.(id := p.id) == p
  {
    p.(id := Some(if p.id.Some? then p.id.value else u.id))
  }

  /** A patch with no keys changes nothing. */
  lemma MergedEmpty(u: UserInfo)
    ensures Merged(u, UserPatch(None, None, None, None)) == u
  {
  }

  /** Applying the defaulting twice is the same as applying it once. */
  lemma DefaultingIdempotent(u: UserInfo)
    ensures WithDefaultAvatar(WithDefaultAvatar(u)) == WithDefaultAvatar(u)
  {
  }

  class Store {
    var userInfo: UserInfo

    constructor()
      ensures userInfo == Initial
    {
      userInfo := Initial;
    }

    /** `setUserInfo`: stores the record with its avatar defaulted. */
    method SetUserInfo(val: UserInfo)
      modifies this
      ensures userInfo == WithDefaultAvatar(val)
      ensures userInfo.avatar != ""
    {
      var v := val;
      if v.avatar == "" {
        v := v.(avatar := DefaultAvatar);
      }
      userInfo := v;
    }

    /** `setUserAvatar`: changes the avatar field only; an empty avatar is stored as given. */
    method SetUserAvatar(avatar: string)
      modifies this
      ensures userInfo == old(userInfo).(avatar := avatar)
    {
      userInfo := userInfo.(avatar := avatar);
    }

    /** `clearUserInfo`: back to the initial record, whatever the store held. */
    method ClearUserInfo()
      modifies this
      ensures userInfo == Initial
    {
      userInfo := Initial;
    }

    /** `fetchUserInfo`: on success stores `res.data` (`record`, the envelope's data read as a
        user record) through `setUserInfo` and returns the whole envelope; a rejected or
        unsettled request leaves the store as it was and passes its fate on. */
    method FetchUserInfo(reply: Fate<Envelope>, record: UserInfo) returns (r: Fate<Envelope>)
      modifies this
      ensures r == reply
      ensures reply.Fulfilled? ==> userInfo == WithDefaultAvatar(record)
      ensures !reply.Fulfilled? ==> userInfo == old(userInfo)
    {
      if reply.Fulfilled? {
        SetUserInfo(record);
      }
      r := reply;
    }

    /** `updateUserInfo`: builds the payload from the state before the call; only a fulfilled
        call writes the merged, avatar-defaulted record; a failure is rethrown unchanged. */
    method UpdateUserInfo(data: UserPatch, reply: Fate<Envelope>)
      returns (payload: UserPatch, r: Fate<Envelope>)
      modifies this
      ensures payload == UpdatePayload(old(userInfo), data)
      ensures r == reply
      ensures reply.Fulfilled? ==> userInfo == WithDefaultAvatar(Merged(old(userInfo), data))
      ensures !reply.Fulfilled? ==> userInfo == old(userInfo)
    {
      payload := data.(id := Some(if data.id.Some? then data.id.value else userInfo.id));
      if reply.Fulfilled? {
        var updated := Merged(userInfo, data);
        SetUserInfo(updated);
      }
      r := reply;
    }
  }
}
