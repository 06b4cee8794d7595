/** The comment client (src/api/comment.ts): the query serialiser and the six `CommentAPI`
    wrappers. A wrapper is two things here: the request it builds, and the fate of the promise it
    returns given the fate of the transport's promise (`Http.FateOf`). `encodeURIComponent`,
    whose code is not part of this model, is the function parameter `encode`. */
module CommentApi {
  import opened Values
  import Http
  import TokenStore

  /** The values `serializeQuery` skips: `undefined`, `null` and the empty string; `0` and
      `false` are kept. */
  predicate IsBlank(v: Val)
  {
    v.Undefined? || v.Null? || v == Str("")
  }

  /** The entries that survive the filter, in key order. */
  function Kept(entries: Http.Query): (r: Http.Query)
    ensures |r| <= |entries|
    ensures forall i :: 0 <= i < |r| ==> !IsBlank(r[i].1) && r[i] in entries
    ensures forall e :: e in entries && !IsBlank(e.1) ==> e in r
    decreases |entries|
  {
    if entries == [] then []
    else
      var last := entries[|entries| - 1];
      Kept(entries[..|entries| - 1]) + (if IsBlank(last.1) then [] else [last])
  }

  /** The filter keeps order: filtering a concatenation filters each part and concatenates. */
  lemma {:induction false} KeptConcat(a: Http.Query, b: Http.Query)
    ensures Kept(a + b) == Kept(a) + Kept(b)
    decreases |b|
  {
    if b == [] {
      assert a + b == a;
    } else {
      var init := b[..|b| - 1];
      assert (a + b)[..|a + b| - 1] == a + init;
      assert (a + b)[|a + b| - 1] == b[|b| - 1];
      KeptConcat(a, init);
    }
  }

  /** `${encode(key)}=${encode(String(val))}`. */
  function PairText(e: (string, Val), encode: string -> string): string
  {
    encode(e.0) + "=" + encode(ToJsString(e.1))
  }

  /** The `parts` array after the loop has visited `entries`. */
  function Pairs(entries: Http.Query, encode: string -> string): seq<string>
    decreases |entries|
  {
    if entries == [] then []
    else
      var last := entries[|entries| - 1];
      Pairs(entries[..|entries| - 1], encode) + (if IsBlank(last.1) then [] else [PairText(last, encode)])
  }

  /** What `serializeQuery` returns. */
  function Serialized(entries: Http.Query, encode: string -> string): string
  {
    Join(Pairs(entries, encode), "&")
  }

  /** One pair per kept entry, in the same order. */
  lemma {:induction false} PairsOfKept(entries: Http.Query, encode: string -> string)
    ensures |Pairs(entries, encode)| == |Kept(entries)|
    ensures forall i :: 0 <= i < |Kept(entries)| ==> Pairs(entries, encode)[i] == PairText(Kept(entries)[i], encode)
    decreases |entries|
  {
    if entries != [] {
      PairsOfKept(entries[..|entries| - 1], encode);
    }
  }

  /** `serializeQuery`: visits the keys in order and pushes a pair for each value that is not
      blank, then joins the pairs with `&`. */
  method SerializeQuery(obj: Http.Query, encode: string -> string) returns (s: string)
    ensures s == Serialized(obj, encode)
  {
    var parts: seq<string> := [];
    var i := 0;
    while i < |obj|
      invariant 0 <= i <= |obj|
      invariant parts == Pairs(obj[..i], encode)
    {
      assert obj[..i + 1][..i] == obj[..i];
      var (key, val) := obj[i];
      if !(val.Undefined? || val.Null? || val == Str("")) {
        parts := parts + [encode(key) + "=" + encode(ToJsString(val))];
      }
      i := i + 1;
    }
    assert obj[..i] == obj;
    s := Join(parts, "&");
  }

  /** With an encoder whose output never holds `&` (as `encodeURIComponent`'s never does), the
      serialised text splits back into exactly the pairs of the kept entries, in key order; and
      it is empty exactly when every entry was blank. */
  lemma SerializedRoundTrip(entries: Http.Query, encode: string -> string)
    requires forall x :: '&' !in encode(x)
    ensures Kept(entries) != [] ==> Split(Serialized(entries, encode), '&') == Pairs(entries, encode)
    ensures Serialized(entries, encode) == "" <==> Kept(entries) == []
  {
    PairsOfKept(entries, encode);
    var parts := Pairs(entries, encode);
    if Kept(entries) != [] {
      forall i | 0 <= i < |parts| ensures '&' !in parts[i] {
        var e := Kept(entries)[i];
        assert parts[i] == encode(e.0) + "=" + encode(ToJsString(e.1));
      }
      SplitJoin(parts, '&');
      assert parts[0] == encode(Kept(entries)[0].0) + "=" + encode(ToJsString(Kept(entries)[0].1));
      assert |parts[0]| > 0;
    }
  }

  // ---------------------------------------------------------------------------------------
  // The CommentAPI wrappers

  /** The six calls, with their arguments; `params` defaults to `{}`, which is `Some([])`. */
  datatype Call =
    | ArticleComments(articleId: int, params: Http.Query)
    | CreateComment(body: Val)
    | ToggleLike(commentId: int)
    | DeleteComment(commentId: int)
    | Statistics(articleId: int)
    | UserComments(userId: int, params: Http.Query)

  /** What a wrapper's promise fulfils with: the envelope's `data`, the whole envelope, the
      like-toggle record or nothing. */
  datatype Answer = Data(v: Val) | WholeEnvelope(e: Envelope) | NoValue

  /** The request each call sends through the transport's builders. */
  function RequestOf(c: Call): (r: Http.RequestOptions)
    ensures c.ArticleComments? ==> r == Http.RequestOptions("/api/comments/article/" + IntToString(c.articleId), Http.GET, Some(c.params), None, None, false)
    ensures c.CreateComment? ==> r == Http.RequestOptions("/api/comments/create", Http.POST, None, Some(c.body), None, false)
    ensures c.ToggleLike? ==> r == Http.RequestOptions("/api/comments/" + IntToString(c.commentId) + "/like", Http.POST, None, None, None, false)
    ensures c.DeleteComment? ==> r == Http.RequestOptions("/api/comments/" + IntToString(c.commentId) + "/delete", Http.DELETE, None, None, None, false)
    ensures c.Statistics? ==> r == Http.RequestOptions("/api/comments/statistics/" + IntToString(c.articleId), Http.GET, None, None, None, false)
    ensures c.UserComments? ==> r == Http.RequestOptions("/api/comments/user/" + IntToString(c.userId), Http.GET, Some(c.params), None, None, false)
  {
    match c
    case ArticleComments(id, params) =>
      Http.HttpGet("/api/comments/article/" + IntToString(id), Some(params), None, Http.NoOverrides)
    case CreateComment(body) =>
      Http.HttpPost("/api/comments/create", Some(body), None, None, Http.NoOverrides)
    case ToggleLike(id) =>
      Http.HttpPost("/api/comments/" + IntToString(id) + "/like", None, None, None, Http.NoOverrides)
    case DeleteComment(id) =>
      Http.HttpDelete("/api/comments/" + IntToString(id) + "/delete", None, None, Http.NoOverrides)
    case Statistics(id) =>
      Http.HttpGet("/api/comments/statistics/" + IntToString(id), None, None, Http.NoOverrides)
    case UserComments(id, params) =>
      Http.HttpGet("/api/comments/user/" + IntToString(id), Some(params), None, Http.NoOverrides)
  }

  /** The text a wrapper throws when the envelope has no message. */
  function DefaultMessage(c: Call): string
  {
    match c
    case ArticleComments(_, _) => "获取评论失败"
    case CreateComment(_) => "发表评论失败1"
    case ToggleLike(_) => "操作失败"
    case DeleteComment(_) => "删除评论失败"
    case Statistics(_) => "获取统计数据失败"
    case UserComments(_, _) => "获取用户评论失败"
  }

  /** Whether a wrapper accepts the envelope: `code === 200`, or for the like toggle also
      `success === true`. */
  predicate Accepts(c: Call, e: Envelope)
  {
    e.code == Some(200) || (c.ToggleLike? && e.success)
  }

  /** `{ ...(data || {}), message }`: the fields of an object payload (any other payload adds
      none) plus `message`, which is `undefined` when the envelope has none. */
  function LikeRecord(e: Envelope): (r: Val)
    ensures r.Obj? && "message" in r.fields
    ensures r.fields["message"] == (if e.message.Some? then Str(e.message.value) else Undefined)
    ensures e.data.Obj? ==> forall k :: k in e.data.fields && k != "message" ==> k in r.fields && r.fields[k] == e.data.fields[k]
    ensures !e.data.Obj? ==> r.fields.Keys == {"message"}
  {
    var base := if e.data.Obj? then e.data.fields else map[];
    Obj(base["message" := if e.message.Some? then Str(e.message.value) else Undefined])
  }

  /** The fate of a wrapper's promise. A rejection of the transport passes through unchanged,
      and an unsettled transport promise leaves the wrapper unsettled. */
  function Result(c: Call, f: Fate<Envelope>): (r: Fate<Answer>)
    ensures r.Fulfilled? <==> f.Fulfilled? && Accepts(c, f.value)
    ensures r.Pending? <==> f.Pending?
    ensures f.Rejected? ==> r == Rejected(f.message)
    ensures f.Fulfilled? && !Accepts(c, f.value) ==> r == Rejected(Some(MessageOr(f.value.message, DefaultMessage(c))))
    ensures r.Fulfilled? && (c.ArticleComments? || c.Statistics? || c.UserComments?) ==> r.value == Data(f.value.data)
    ensures r.Fulfilled? && c.CreateComment? ==> r.value == WholeEnvelope(f.value)
    ensures r.Fulfilled? && c.DeleteComment? ==> r.value == NoValue
    ensures r.Fulfilled? && c.ToggleLike? ==> r.value == Data(LikeRecord(f.value))
  {
    match f
    case Pending => Pending
    case Rejected(m) => Rejected(m)
    case Fulfilled(e) =>
      if !Accepts(c, e) then Rejected(Some(MessageOr(e.message, DefaultMessage(c))))
      else
        match c
        case ArticleComments(_, _) => Fulfilled(Data(e.data))
        case CreateComment(_) => Fulfilled(WholeEnvelope(e))
        case ToggleLike(_) => Fulfilled(Data(LikeRecord(e)))
        case DeleteComment(_) => Fulfilled(NoValue)
        case Statistics(_) => Fulfilled(Data(e.data))
        case UserComments(_, _) => Fulfilled(Data(e.data))
  }

  /** The transport accepts business code 0 but the wrappers ask for 200: a 2xx reply with
      code 0 resolves the transport's promise and still makes every wrapper but the like toggle
      throw (the like toggle accepts it when `success` is true). */
  lemma CodeZeroPassesTransportOnly(c: Call, status: int, body: Envelope, doubleMode: bool, info: TokenStore.TokenInfo)
    requires Http.IsSuccessStatus(status) && body.code == Some(0)
    ensures var f := Http.FateOf(Http.Classify(RequestOf(c), Http.Answered(Http.Response(status, body)), doubleMode, info));
            f == Fulfilled(body)
            && (Result(c, f).Fulfilled? <==> c.ToggleLike? && body.success)
            && (!(c.ToggleLike? && body.success) ==> Result(c, f) == Rejected(Some(MessageOr(body.message, DefaultMessage(c)))))
  {
  }

  /** Through the transport, a wrapper that asks for code 200 fulfils exactly on a 2xx reply
      with code 200; the like toggle fulfils on such a reply or on a 2xx reply with code 0 and
      `success: true`. A 2xx reply with `success: true` and any other code never settles. */
  lemma ThroughTransport(c: Call, reply: Http.Reply, doubleMode: bool, info: TokenStore.TokenInfo)
    ensures var f := Http.FateOf(Http.Classify(RequestOf(c), reply, doubleMode, info));
            Result(c, f).Fulfilled? <==>
              reply.Answered? && Http.IsSuccessStatus(reply.res.statusCode)
              && (reply.res.body.code == Some(200) || (c.ToggleLike? && reply.res.body.code == Some(0) && reply.res.body.success))
  {
  }
}
