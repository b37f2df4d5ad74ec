/** Product choice on the paywall (web/src/views/PaywallView.tsx): which
    subscription the user already has, which cards are offered, which is
    preselected, and what the buy button does. */
module Paywall {
  import opened Types
  import App

  /** The three products on sale. */
  datatype Product = ProMonthly | ProYearly | Credits1000

  function ProductName(p: Product): string
  {
    match p
    case ProMonthly => "x5_pro_monthly"
    case ProYearly => "x5_pro_yearly"
    case Credits1000 => "x5_credits_1000"
  }

  /** Reads a product id back; an id of none of the three gives `None`. */
  function ParseProduct(s: string): (r: Option<Product>)
    ensures r.Some? ==> ProductName(r.value) == s
  {
    if s == "x5_pro_monthly" then Some(ProMonthly)
    else if s == "x5_pro_yearly" then Some(ProYearly)
    else if s == "x5_credits_1000" then Some(Credits1000)
    else None
  }

  /** Every product id reads back as its product. */
  lemma ParseProductName(p: Product)
    ensures ParseProduct(ProductName(p)) == Some(p)
  {
    match p
    case ProMonthly =>
    case ProYearly =>
    case Credits1000 =>
  }

  /** A subscription is active when the plan is `pro` and an end date lies
      after `now`. Without a signed-in user there is none. */
  predicate HasActiveSubscription(user: Option<User>, now: int)
  {
    user.Some? && SubscriptionActive(user.value, now)
  }

  predicate HasMonthlySubscription(user: Option<User>, now: int)
  {
    HasActiveSubscription(user, now) && user.value.subscriptionType == Some(Monthly)
  }

  predicate HasYearlySubscription(user: Option<User>, now: int)
  {
    HasActiveSubscription(user, now) && user.value.subscriptionType == Some(Yearly)
  }

  /** Which cards the paywall renders. */
  predicate Visible(p: Product, user: Option<User>, now: int)
  {
    match p
    case Credits1000 => true
    case ProYearly => !HasActiveSubscription(user, now) || HasMonthlySubscription(user, now)
    case ProMonthly => !HasActiveSubscription(user, now)
  }

  /** The preselected product as the code states it: credits for a yearly
      subscriber, yearly otherwise. */
  function DefaultProductAsWritten(user: Option<User>, now: int): (p: Product)
    ensures p == Credits1000 <==> HasYearlySubscription(user, now)
  {
    if HasYearlySubscription(user, now) then Credits1000
    else if HasMonthlySubscription(user, now) then ProYearly
    else ProYearly
  }

  /** The written rule preselects the yearly card for an active subscription
      that has no type, and that card is not shown. */
  lemma DefaultAsWrittenHidden()
    ensures var u := Some(GuestUser.(plan := Pro, subscriptionEndDate := Some(1)));
      && HasActiveSubscription(u, 0)
      && DefaultProductAsWritten(u, 0) == ProYearly
      && !Visible(DefaultProductAsWritten(u, 0), u, 0)
  {
  }

  /** The preselected product, as the comments beside the rule describe it:
      yearly for a new user or a monthly subscriber (an upgrade), credits
      for any other active subscriber. */
  function DefaultProduct(user: Option<User>, now: int): (p: Product)
    ensures Visible(p, user, now)
    ensures !HasActiveSubscription(user, now) ==> p == ProYearly
    ensures HasMonthlySubscription(user, now) ==> p == ProYearly
    ensures HasYearlySubscription(user, now) ==> p == Credits1000
  {
    if HasActiveSubscription(user, now) && !HasMonthlySubscription(user, now) then Credits1000
    else ProYearly
  }

  /** The corrected rule differs from the written one only for an active
      subscription without a type. */
  lemma DefaultAgreesWhenTyped(user: Option<User>, now: int)
    requires !HasActiveSubscription(user, now) || user.value.subscriptionType.Some?
    ensures DefaultProduct(user, now) == DefaultProductAsWritten(user, now)
  {
    if HasActiveSubscription(user, now) {
      match user.value.subscriptionType.value
      case Monthly =>
      case Yearly =>
    }
  }

  /** Without an active subscription every card is shown; a yearly
      subscriber sees only the credits card; a monthly subscriber sees the
      credits and yearly cards. */
  lemma VisibleCards(user: Option<User>, now: int)
    ensures forall p :: Visible(p, user, now) <==>
      p == Credits1000
      || (p == ProYearly && (!HasActiveSubscription(user, now) || HasMonthlySubscription(user, now)))
      || (p == ProMonthly && !HasActiveSubscription(user, now))
    ensures HasYearlySubscription(user, now) ==> forall p :: Visible(p, user, now) <==> p == Credits1000
  {
  }

  /** The price the native in-app payment is asked for, in USD: the
      amount the shell records when that product's payment comes back. */
  function NativePrice(p: Product): (price: int)
    ensures price == App.PurchaseAmount(ProductName(p))
  {
    if p == ProYearly then 199 else if p == ProMonthly then 19 else 9
  }

  const YearlyCheckoutUrl: string := "https://x5ai.lemonsqueezy.com/buy/YOUR_YEARLY_PRODUCT_ID"
  const MonthlyCheckoutUrl: string := "https://x5ai.lemonsqueezy.com/buy/YOUR_MONTHLY_PRODUCT_ID"
  const CreditsCheckoutUrl: string := "https://x5ai.lemonsqueezy.com/buy/YOUR_CREDITS_PRODUCT_ID"

  /** The web checkout page: monthly unless yearly or credits is selected. */
  function CheckoutUrl(p: Product): (url: string)
  {
    if p == ProYearly then YearlyCheckoutUrl
    else if p == Credits1000 then CreditsCheckoutUrl
    else MonthlyCheckoutUrl
  }

  /** Each product has its own price and its own checkout page, and dearer
      products cost more. */
  lemma PricesAndPagesDistinct(p: Product, q: Product)
    ensures p != q ==> NativePrice(p) != NativePrice(q) && CheckoutUrl(p) != CheckoutUrl(q)
    ensures NativePrice(Credits1000) < NativePrice(ProMonthly) < NativePrice(ProYearly)
  {
    assert |YearlyCheckoutUrl| != |MonthlyCheckoutUrl| && |YearlyCheckoutUrl| != |CreditsCheckoutUrl|;
    assert MonthlyCheckoutUrl[39] == 'M' && CreditsCheckoutUrl[39] == 'C';
  }

  /** Where the page runs: inside the mobile app (`isMobileApp()`), in the
      legacy native wrapper on iOS or Android, or on the web. */
  datatype Channel = MobileApp | NativeIos | NativeAndroid | Web

  /** What pressing "buy" hands over to the outside world. */
  datatype BuyAction =
    | NoAction
    | SendToApp(product: Product)
    | RequestNativePayment(product: Product, price: int, currency: string)
    | OpenCheckout(url: string)

  /** The action for the selected product on a channel. */
  function BuyActionFor(p: Product, channel: Channel): (a: BuyAction)
    ensures a != NoAction
    ensures channel == MobileApp <==> a.SendToApp?
    ensures a.RequestNativePayment? ==> a.price == NativePrice(a.product) && a.currency == "USD"
  {
    match channel
    case MobileApp => SendToApp(p)
    case NativeIos => RequestNativePayment(p, NativePrice(p), "USD")
    case NativeAndroid => RequestNativePayment(p, NativePrice(p), "USD")
    case Web => OpenCheckout(CheckoutUrl(p))
  }

  /** How long the buy button stays locked after an action, in ms. */
  function UnlockDelay(channel: Channel): nat
  {
    if channel == Web then 1000 else 3000
  }

  class PaywallView {
    const user: Option<User>
    const channel: Channel
    var selectedProduct: Product
    var isProcessing: bool

    /** The screen opens with the preselected product, by the rule as the
        code states it, and the button unlocked. */
    constructor (user: Option<User>, now: int, channel: Channel)
      ensures this.user == user && this.channel == channel
      ensures selectedProduct == DefaultProductAsWritten(user, now) && !isProcessing
    {
      this.user := user;
      this.channel := channel;
      selectedProduct := DefaultProductAsWritten(user, now);
      isProcessing := false;
    }

    /** `handleSelectProduct`. */
    method SelectProduct(p: Product)
      modifies this
      ensures selectedProduct == p && isProcessing == old(isProcessing)
    {
      selectedProduct := p;
    }

    /** `handleBuy`: ignored while a purchase is in progress; otherwise it
        locks the button, starts the channel's payment for the selected
        product and sets the timer that unlocks it after `unlockAfter` ms
        (0: no timer). */
    method HandleBuy() returns (action: BuyAction, unlockAfter: nat)
      modifies this
      ensures old(isProcessing) ==> action == NoAction && unlockAfter == 0 && isProcessing
      ensures !old(isProcessing) ==>
        action == BuyActionFor(selectedProduct, channel) && unlockAfter == UnlockDelay(channel) && isProcessing
      ensures selectedProduct == old(selectedProduct)
    {
      if isProcessing {
        return NoAction, 0;
      }
      isProcessing := true;
      if channel == MobileApp {
        return SendToApp(selectedProduct), 3000;
      }
      if channel == NativeIos || channel == NativeAndroid {
        var price := if selectedProduct == ProYearly then 199 else if selectedProduct == ProMonthly then 19 else 9;
        return RequestNativePayment(selectedProduct, price, "USD"), 3000;
      }
      var checkoutUrl := MonthlyCheckoutUrl;
      if selectedProduct == ProYearly {
        checkoutUrl := YearlyCheckoutUrl;
      } else if selectedProduct == Credits1000 {
        checkoutUrl := CreditsCheckoutUrl;
      }
      action := OpenCheckout(checkoutUrl);
      unlockAfter := 1000;
    }

    /** The timer set by `handleBuy` (after `unlockAfter` ms) unlocks the button. */
    method Unlock()
      modifies this
      ensures !isProcessing && selectedProduct == old(selectedProduct)
    {
      isProcessing := false;
    }
  }
}
