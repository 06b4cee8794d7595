/** The add-to-cart helpers (src/utils/cart.ts). Their host calls (modals, loading indicator,
    toasts, navigation, the `cartChanged` event and the `addToCart` request) are recorded as a
    list of effects in the order they are made. The login state is the credential store's
    `hasLogin`, the user's answer to a modal is an input, and the request's outcome is the fate
    of the promise `addToCart` returned. */
module CartActions {
  import opened Values
  import Http
  import TokenStore
  import CartApi

  datatype Effect =
    | Modal(content: string)
    | NavigateTo(url: string)
    | ShowLoading(title: string)
    | HideLoading
    | Request(req: Http.RequestOptions)
    | Toast(title: string, icon: string)
    | Emit(event: string)
    | SwitchTab(url: string)

  const LoginPage := "/pages/login/login"
  const CartTab := "/pages/cart/cart"
  const AddLoginPrompt := "请先登录后再添加到购物车"
  const BuyLoginPrompt := "请先登录后再购买"
  const AddingTitle := "添加中..."
  const AddedTitle := "添加成功"
  const CartChanged := "cartChanged"
  const StockWord := "库存不足"
  const MissingWord := "不存在"
  const StockNotice := "商品库存不足"
  const MissingNotice := "商品不存在或已下架"
  const FallbackNotice := "添加失败"

  /** The confirmation text of `quickAddToCart`. */
  function ConfirmText(productName: string): string
  {
    "确定将\"" + productName + "\"添加到购物车吗？"
  }

  /** The toast text for a failure whose error has the given `message` (an empty message is
      falsy), by priority: stock shortage, missing product, the message itself, the fallback. */
  function ErrorToast(message: Option<string>): (t: string)
    ensures t != ""
    ensures message.None? || message.value == "" ==> t == FallbackNotice
    ensures message.Some? && Contains(message.value, StockWord) ==> t == StockNotice
    ensures message.Some? && !Contains(message.value, StockWord) && Contains(message.value, MissingWord) ==> t == MissingNotice
    ensures (message.Some? && message.value != "" && !Contains(message.value, StockWord)
             && !Contains(message.value, MissingWord)) ==> t == message.value
  {
    if message.None? || message.value == "" then FallbackNotice
    else if Contains(message.value, StockWord) then StockNotice
    else if Contains(message.value, MissingWord) then MissingNotice
    else message.value
  }

  /** Mapping a toast text again changes nothing: each of the three fixed texts maps to itself.
      This guards the priority order: none of the fixed notices contains a key word of a
      higher-priority branch, so none is re-mapped to a different notice. */
  lemma ErrorToastIdempotent(message: Option<string>)
    ensures ErrorToast(Some(ErrorToast(message))) == ErrorToast(message)
  {
    FixedTextsClassified();
  }

  /** Which key word each fixed toast text contains. */
  lemma FixedTextsClassified()
    ensures Contains(StockNotice, StockWord)
    ensures !Contains(MissingNotice, StockWord) && Contains(MissingNotice, MissingWord)
    ensures !Contains(FallbackNotice, StockWord) && !Contains(FallbackNotice, MissingWord)
  {
    assert StockNotice[2..2 + |StockWord|] == StockWord;
    ContainsAt(StockNotice, StockWord, 2);
    assert MissingNotice[2..2 + |MissingWord|] == MissingWord;
    ContainsAt(MissingNotice, MissingWord, 2);
    NotContainsFirst(MissingNotice, StockWord);
    NotContainsFirst(FallbackNotice, StockWord);
    NotContainsFirst(FallbackNotice, MissingWord);
  }

  /** A text none of whose characters is the first character of `sub` does not contain it. */
  lemma {:induction false} NotContainsFirst(s: string, sub: string)
    requires sub != [] && sub[0] !in s
    ensures !Contains(s, sub)
    decreases |s|
  {
    if s != [] {
      NotContainsFirst(s[1..], sub);
      if |sub| <= |s| {
        assert s[..|sub|][0] == s[0];
      }
    }
  }

  /** The error message the catch block sees: `new Error(response.message)` for a refused
      envelope (an absent message gives ''), the rejection's own message otherwise. */
  function FailureMessage(f: Fate<Envelope>): (m: Option<string>)
    requires !f.Pending?
    ensures f.Rejected? ==> m == f.message
    ensures f.Fulfilled? ==> m.Some? && (m.value == "" <==> MessageOr(f.value.message, "") == "")
    ensures f.Fulfilled? && m.value != "" ==> m == f.value.message
  {
    match f
    case Fulfilled(e) => Some(if e.message.Some? then e.message.value else "")
    case Rejected(m) => m
  }

  /** The cart accepted the item: the request fulfilled with business code 200. */
  predicate Added(f: Fate<Envelope>)
  {
    f.Fulfilled? && f.value.code == Some(200)
  }

  /** The effects of answering a login modal: confirming opens the login page. */
  function LoginModal(prompt: string, confirm: bool): (effects: seq<Effect>)
    ensures |effects| >= 1 && effects[0] == Modal(prompt)
    ensures NavigateTo(LoginPage) in effects <==> confirm
    ensures forall e :: e in effects ==> e.Modal? || e.NavigateTo?
  {
    [Modal(prompt)] + (if confirm then [NavigateTo(LoginPage)] else [])
  }

  /** `addProductToCart`, whose `quantity` defaults to 1 and `showSuccess` to true. It never
      rejects: without a login it shows the login modal and fulfils with false without a
      request; otherwise it fulfils with true exactly when the request was accepted, announces the change, and shows the success toast only when asked;
      any other settled outcome ends with the mapped error toast and false. A request that never
      settles leaves it pending. */
  method AddProductToCart(productId: int, quantity: Option<int>, showSuccess: Option<bool>,
                          doubleMode: bool, tokens: TokenStore.State, now: int,
                          loginAnswer: bool, reply: Fate<Envelope>)
    returns (r: Fate<bool>, effects: seq<Effect>)
    ensures !r.Rejected?
    ensures var loggedIn := TokenStore.HasValidLogin(doubleMode, tokens, now);
            && (!loggedIn ==> r == Fulfilled(false) && effects == LoginModal(AddLoginPrompt, loginAnswer))
            && (loggedIn ==> |effects| >= 2 && effects[..2] == [ShowLoading(AddingTitle), Request(CartApi.RequestOf(CartApi.Add(productId, Some(ArgOr(quantity, 1)))))])
            && (r == Fulfilled(true) <==> loggedIn && Added(reply))
            && (r.Pending? <==> loggedIn && reply.Pending?)
            && ((exists e :: e in effects && e.Request?) <==> loggedIn)
            && (forall e :: e in effects ==> !e.SwitchTab?)
            && (Emit(CartChanged) in effects <==> r == Fulfilled(true))
            && (Toast(AddedTitle, "success") in effects <==> r == Fulfilled(true) && ArgOr(showSuccess, true))
            && (loggedIn && !reply.Pending? && !Added(reply) ==>
                  r == Fulfilled(false) && |effects| > 0 && effects[|effects| - 1] == Toast(ErrorToast(FailureMessage(reply)), "none"))
  {
    if !TokenStore.HasValidLogin(doubleMode, tokens, now) {
      effects := [Modal(AddLoginPrompt)];
      if loginAnswer {
        effects := effects + [NavigateTo(LoginPage)];
      }
      return Fulfilled(false), effects;
    }
    effects := [ShowLoading(AddingTitle)];
    var count := if quantity.Some? then quantity.value else 1;
    effects := effects + [Request(CartApi.RequestOf(CartApi.Add(productId, Some(count))))];
    var message: Option<string>;
    match reply {
      case Pending =>
        assert effects[1].Request?;
        return Pending, effects;
      case Rejected(m) =>
        message := m;
      case Fulfilled(response) =>
        effects := effects + [HideLoading];
        if response.code == Some(200) {
          if showSuccess != Some(false) {
            effects := effects + [Toast(AddedTitle, "success")];
          }
          effects := effects + [Emit(CartChanged)];
          assert effects[1].Request?;
          return Fulfilled(true), effects;
        }
        message := Some(if response.message.Some? then response.message.value else "");
    }
    effects := effects + [HideLoading];
    var errorMessage := FallbackNotice;
    if message.Some? && message.value != "" {
      if Contains(message.value, StockWord) {
        errorMessage := StockNotice;
      } else if Contains(message.value, MissingWord) {
        errorMessage := MissingNotice;
      } else {
        errorMessage := message.value;
      }
    }
    effects := effects + [Toast(errorMessage, "none")];
    assert effects[1].Request?;
    r := Fulfilled(false);
  }

  /** `quickAddToCart` (`quantity` defaults to 1): asks first, and adds (with the success toast) only on confirmation. */
  method QuickAddToCart(productId: int, productName: string, quantity: Option<int>, confirm: bool,
                        doubleMode: bool, tokens: TokenStore.State, now: int,
                        loginAnswer: bool, reply: Fate<Envelope>)
    returns (effects: seq<Effect>)
    ensures |effects| >= 1 && effects[0] == Modal(ConfirmText(productName))
    ensures !confirm ==> effects == [Modal(ConfirmText(productName))]
    ensures (exists e :: e in effects && e.Request?) <==> confirm && TokenStore.HasValidLogin(doubleMode, tokens, now)
    ensures Emit(CartChanged) in effects <==> confirm && TokenStore.HasValidLogin(doubleMode, tokens, now) && Added(reply)
    ensures confirm && TokenStore.HasValidLogin(doubleMode, tokens, now) ==>
              |effects| >= 3 && effects[2] == Request(CartApi.RequestOf(CartApi.Add(productId, Some(ArgOr(quantity, 1)))))
  {
    effects := [Modal(ConfirmText(productName))];
    if confirm {
      var _, added := AddProductToCart(productId, Some(ArgOr(quantity, 1)), None, doubleMode, tokens, now, loginAnswer, reply);
      effects := effects + added;
    }
  }

  /** `buyNow` (`quantity` defaults to 1): without a login only the purchase login modal; otherwise adds without the
      success toast and opens the cart tab exactly when the item was added. */
  method BuyNow(productId: int, quantity: Option<int>, doubleMode: bool, tokens: TokenStore.State, now: int,
                loginAnswer: bool, reply: Fate<Envelope>)
    returns (effects: seq<Effect>)
    ensures !TokenStore.HasValidLogin(doubleMode, tokens, now) ==> effects == LoginModal(BuyLoginPrompt, loginAnswer)
    ensures SwitchTab(CartTab) in effects <==> TokenStore.HasValidLogin(doubleMode, tokens, now) && Added(reply)
    ensures Toast(AddedTitle, "success") !in effects
    ensures (exists e :: e in effects && e.Request?) <==> TokenStore.HasValidLogin(doubleMode, tokens, now)
    ensures TokenStore.HasValidLogin(doubleMode, tokens, now) ==>
              |effects| >= 2 && effects[1] == Request(CartApi.RequestOf(CartApi.Add(productId, Some(ArgOr(quantity, 1)))))
  {
    if !TokenStore.HasValidLogin(doubleMode, tokens, now) {
      effects := [Modal(BuyLoginPrompt)];
      if loginAnswer {
        effects := effects + [NavigateTo(LoginPage)];
      }
      return;
    }
    var success;
    success, effects := AddProductToCart(productId, Some(ArgOr(quantity, 1)), Some(false), doubleMode, tokens, now, loginAnswer, reply);
    if success == Fulfilled(true) {
      effects := effects + [SwitchTab(CartTab)];
    }
  }
}
