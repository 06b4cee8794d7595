/** The favourites client (src/api/favorite.ts): the list query built step by step, the request
    each wrapper sends, and the `code === 200` check every wrapper applies to the envelope. */
module FavoriteApi {
  import opened Values
  import Http
  import TokenStore

  datatype FavoriteType = Article | Product

  /** The enum's string value. */
  function TypeName(t: FavoriteType): (s: string)
    ensures s != "" && '&' !in s
  {
    match t
    case Article => "article"
    case Product => "product"
  }

  /** The optional list parameters; an absent key is None. */
  datatype ListParams = ListParams(itemType: Option<FavoriteType>, page: Option<int>, perPage: Option<int>)

  const ListPath := "/miniapp/api/favorite/list"

  /** A number parameter is appended when it is truthy: present and not zero. */
  predicate NumberGiven(n: Option<int>)
  {
    n.Some? && n.value != 0
  }

  /** The entries of `queryParams` once the three conditional appends have run, in order. */
  function ListEntries(p: ListParams): (r: seq<(string, string)>)
    ensures r == [] <==> p.itemType.None? && !NumberGiven(p.page) && !NumberGiven(p.perPage)
  {
    (if p.itemType.Some? then [("type", TypeName(p.itemType.value))] else [])
    + (if NumberGiven(p.page) then [("page", IntToString(p.page.value))] else [])
    + (if NumberGiven(p.perPage) then [("per_page", IntToString(p.perPage.value))] else [])
  }

  /** The texts `key=value` that `URLSearchParams.toString()` joins with `&`. Keys, enum values
      and decimal numbers are left unchanged by its form encoding. */
  function EntryTexts(entries: seq<(string, string)>): (r: seq<string>)
    ensures |r| == |entries|
    ensures forall i :: 0 <= i < |entries| ==> r[i] == entries[i].0 + "=" + entries[i].1
  {
    seq(|entries|, i requires 0 <= i < |entries| => entries[i].0 + "=" + entries[i].1)
  }

  function QueryText(entries: seq<(string, string)>): string
  {
    Join(EntryTexts(entries), "&")
  }

  /** The address `getFavoriteList` requests. */
  function ListUrl(p: ListParams): string
  {
    var q := QueryText(ListEntries(p));
    ListPath + (if q != "" then "?" + q else "")
  }

  /** `getFavoriteList`'s query building: up to three appends, then the address. */
  method FavoriteListUrl(p: ListParams) returns (url: string)
    ensures url == ListUrl(p)
  {
    var queryParams: seq<(string, string)> := [];
    if p.itemType.Some? {
      queryParams := queryParams + [("type", TypeName(p.itemType.value))];
    }
    if p.page.Some? && p.page.value != 0 {
      queryParams := queryParams + [("page", IntToString(p.page.value))];
    }
    if p.perPage.Some? && p.perPage.value != 0 {
      queryParams := queryParams + [("per_page", IntToString(p.perPage.value))];
    }
    assert queryParams == ListEntries(p);
    var queryString := QueryText(queryParams);
    if queryString != "" {
      url := ListPath + "?" + queryString;
    } else {
      url := ListPath;
    }
  }

  lemma {:induction false} DigitsHaveNoAmpersand(n: nat)
    ensures '&' !in NatToString(n)
    decreases n
  {
    if n >= 10 {
      DigitsHaveNoAmpersand(n / 10);
    }
  }

  lemma IntTextHasNoAmpersand(n: int)
    ensures '&' !in IntToString(n)
  {
    if n < 0 { DigitsHaveNoAmpersand(-n); } else { DigitsHaveNoAmpersand(n); }
  }

  /** The list address is the bare path exactly when no parameter is truthy (page 0 and
      per_page 0 are dropped); otherwise it is the path, `?`, and a query that splits at `&`
      into `type`, `page`, `per_page` in that order, each present exactly when truthy. */
  lemma ListUrlShape(p: ListParams)
    ensures ListUrl(p) == ListPath <==> p.itemType.None? && !NumberGiven(p.page) && !NumberGiven(p.perPage)
    ensures ListEntries(p) != [] ==>
              var q := QueryText(ListEntries(p));
              ListUrl(p) == ListPath + "?" + q
              && Split(q, '&') == EntryTexts(ListEntries(p))
  {
    var entries := ListEntries(p);
    var texts := EntryTexts(entries);
    if entries != [] {
      forall i | 0 <= i < |texts| ensures '&' !in texts[i] {
        if entries[i].0 != "type" {
          assert entries[i].1 == IntToString(if entries[i].0 == "page" then p.page.value else p.perPage.value);
          IntTextHasNoAmpersand(if entries[i].0 == "page" then p.page.value else p.perPage.value);
        }
      }
      SplitJoin(texts, '&');
      assert |texts[0]| > 0;
    } else {
      assert ListUrl(p) == ListPath + "";
    }
  }

  // ---------------------------------------------------------------------------------------
  // The wrappers

  datatype Call =
    | Toggle(itemType: FavoriteType, itemId: int)
    | Check(itemType: FavoriteType, itemId: int)
    | List(params: ListParams)
    | Stats
    | BatchRemove(favoriteIds: seq<int>)
    | Clear(clearType: Option<FavoriteType>)

  /** `{ item_type, item_id }`. */
  function ItemBody(t: FavoriteType, id: int): Val
  {
    Obj(map["item_type" := Str(TypeName(t)), "item_id" := Num(id)])
  }

  /** The body `clearFavorites` sends: `{ item_type }` only when a type is given, else `{}`. */
  function ClearBody(t: Option<FavoriteType>): (v: Val)
    ensures v.Obj?
    ensures t.None? ==> v.fields == map[]
    ensures t.Some? ==> v.fields.Keys == {"item_type"} && v.fields["item_type"] == Str(TypeName(t.value))
  {
    if t.Some? then Obj(map["item_type" := Str(TypeName(t.value))]) else Obj(map[])
  }

  /** `{ favorite_ids }`: the given ids, in order. */
  function RemoveBody(ids: seq<int>): (v: Val)
    ensures v.Obj? && v.fields.Keys == {"favorite_ids"}
    ensures var a := v.fields["favorite_ids"];
            a.Arr? && |a.items| == |ids| && forall i :: 0 <= i < |ids| ==> a.items[i] == Num(ids[i])
  {
    Obj(map["favorite_ids" := Arr(seq(|ids|, i requires 0 <= i < |ids| => Num(ids[i])))])
  }

  function RequestOf(c: Call): (r: Http.RequestOptions)
    ensures c.Toggle? ==> r == Http.RequestOptions("/miniapp/api/favorite/toggle", Http.POST, None, Some(ItemBody(c.itemType, c.itemId)), None, false)
    ensures c.Check? ==> r == Http.RequestOptions("/miniapp/api/favorite/check", Http.POST, None, Some(ItemBody(c.itemType, c.itemId)), None, false)
    ensures c.List? ==> r == Http.RequestOptions(ListUrl(c.params), Http.GET, None, None, None, false)
    ensures c.Stats? ==> r == Http.RequestOptions("/miniapp/api/favorite/count", Http.GET, None, None, None, false)
    ensures c.BatchRemove? ==> r == Http.RequestOptions("/miniapp/api/favorite/remove", Http.POST, None, Some(RemoveBody(c.favoriteIds)), None, false)
    ensures c.Clear? ==> r == Http.RequestOptions("/miniapp/api/favorite/clear", Http.POST, None, Some(ClearBody(c.clearType)), None, false)
  {
    match c
    case Toggle(t, id) => Http.HttpPost("/miniapp/api/favorite/toggle", Some(ItemBody(t, id)), None, None, Http.NoOverrides)
    case Check(t, id) => Http.HttpPost("/miniapp/api/favorite/check", Some(ItemBody(t, id)), None, None, Http.NoOverrides)
    case List(p) => Http.HttpGet(ListUrl(p), None, None, Http.NoOverrides)
    case Stats => Http.HttpGet("/miniapp/api/favorite/count", None, None, Http.NoOverrides)
    case BatchRemove(ids) => Http.HttpPost("/miniapp/api/favorite/remove", Some(RemoveBody(ids)), None, None, Http.NoOverrides)
    case Clear(t) => Http.HttpPost("/miniapp/api/favorite/clear", Some(ClearBody(t)), None, None, Http.NoOverrides)
  }

  function DefaultMessage(c: Call): string
  {
    match c
    case Toggle(_, _) => "操作失败"
    case Check(_, _) => "检查收藏状态失败"
    case List(_) => "获取收藏列表失败"
    case Stats => "获取收藏统计失败"
    case BatchRemove(_) => "批量取消收藏失败"
    case Clear(_) => "清空收藏失败"
  }

  /** The `.then` every wrapper attaches: the envelope itself when its code is 200, otherwise
      an error with the envelope's message or the wrapper's text; a rejection or an unsettled
      transport promise passes through. */
  function Checked200(f: Fate<Envelope>, default: string): (r: Fate<Envelope>)
    ensures r.Fulfilled? <==> f.Fulfilled? && f.value.code == Some(200)
    ensures r.Fulfilled? ==> r.value == f.value
    ensures r.Pending? <==> f.Pending?
    ensures f.Rejected? ==> r == f
    ensures f.Fulfilled? && f.value.code != Some(200) ==> r == Rejected(Some(MessageOr(f.value.message, default)))
  {
    match f
    case Fulfilled(e) => if e.code == Some(200) then f else Rejected(Some(MessageOr(e.message, default)))
    case Rejected(_) => f
    case Pending => f
  }

  function Result(c: Call, f: Fate<Envelope>): Fate<Envelope>
  {
    Checked200(f, DefaultMessage(c))
  }

  /** Through the transport, every favourites call fulfils with the envelope exactly on a 2xx
      reply with code 200; a 2xx reply with code 0 passes the transport and is then refused. */
  lemma ThroughTransport(c: Call, reply: Http.Reply, doubleMode: bool, info: TokenStore.TokenInfo)
    ensures var r := Result(c, Http.FateOf(Http.Classify(RequestOf(c), reply, doubleMode, info)));
            && (r.Fulfilled? <==> reply.Answered? && Http.IsSuccessStatus(reply.res.statusCode)
                                  && reply.res.body.code == Some(200))
            && (r.Fulfilled? ==> r.value == reply.res.body)
            && (reply.Answered? && Http.IsSuccessStatus(reply.res.statusCode) && reply.res.body.code == Some(0) ==>
                  r == Rejected(Some(MessageOr(reply.res.body.message, DefaultMessage(c)))))
  {
  }
}
