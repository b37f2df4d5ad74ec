/** The application shell (web/src/App.tsx): routing of `/r/` links, the
    signed-in user and the entitlement rules that change it (payments,
    credit checks and deductions, course purchases), and navigation between
    screens (tab swipes, transitions, the chat partner). */
module App {
  import opened Types
  import opened Text

  // ----- routing of tracking links -----

  /** What the shell renders for a path. */
  datatype Route = RedirectRoute(code: string) | AppRoute

  /** `path.startsWith('/r/') ? path.substring(3) : null`. */
  function RedirectCode(path: string): (r: Option<string>)
    ensures r.Some? <==> StartsWith(path, "/r/")
    ensures r.Some? ==> path == "/r/" + r.value
  {
    if StartsWith(path, "/r/") then Some(path[3..]) else None
  }

  /** The redirect screen is rendered only for a non-empty code. */
  function RouteOf(path: string): (r: Route)
    ensures r.RedirectRoute? <==> StartsWith(path, "/r/") && |path| > 3
    ensures r.RedirectRoute? ==> r.code != "" && path == "/r/" + r.code
  {
    var code := RedirectCode(path);
    if code.Some? && code.value != "" then RedirectRoute(code.value) else AppRoute
  }

  /** A path routes to the redirect of `c` exactly when it is `/r/` followed
      by the non-empty `c`; every other path, bare `/r/` included, renders
      the application. */
  lemma RouteOfRedirect(path: string, c: string)
    ensures RouteOf(path) == RedirectRoute(c) <==> c != "" && path == "/r/" + c
  {
    if c != "" && path == "/r/" + c {
      assert path[..3] == "/r/";
      assert path[3..] == c;
    }
  }

  // ----- screens and navigation -----

  /** `ViewState`. */
  datatype ViewState =
    | Home | Courses | CourseEditor | Profile | Photo | Design | Contract | Video
    | Admin | AdminKey | AllTech | Chat | Instagram | VideoGen | Success | PaymentMock
    | Logo | Branding | AnalyticsScreen | LanguageScreen | Hire | ChatsList | PaywallScreen | WhatsappBot

  /** The five main tabs, in tab-bar order. */
  const MainTabs: seq<ViewState> := [Home, Courses, Hire, ChatsList, Profile]

  /** The four tabs reachable by swiping on iOS. */
  const SwipeTabs: seq<ViewState> := [Home, Courses, Hire, Profile]

  /** `MAIN_TABS.indexOf(v)`: the tab-bar position of `v`, or -1. */
  function MainTabIndex(v: ViewState): (r: int)
    ensures -1 <= r < |MainTabs|
    ensures r == -1 <==> v !in MainTabs
    ensures r >= 0 ==> MainTabs[r] == v
  {
    match v
    case Home => 0
    case Courses => 1
    case Hire => 2
    case ChatsList => 3
    case Profile => 4
    case _ => -1
  }

  /** The position of `v` among the swipe tabs, or -1. */
  function SwipeTabIndex(v: ViewState): (r: int)
    ensures -1 <= r < |SwipeTabs|
    ensures r == -1 <==> v !in SwipeTabs
    ensures r >= 0 ==> SwipeTabs[r] == v
  {
    match v
    case Home => 0
    case Courses => 1
    case Hire => 2
    case Profile => 3
    case _ => -1
  }

  /** The page-transition animation. */
  datatype Transition = FadeIn | SlideEnterRight | SlideEnterLeft

  /** The transition for a move between screens: between tabs it follows
      the tab order; into a detail screen, or from one detail to another,
      it slides right; back to a tab it slides left. */
  function TransitionFor(prev: ViewState, next: ViewState): (t: Transition)
    ensures t != FadeIn
    ensures prev in MainTabs && next in MainTabs ==>
      (t == SlideEnterRight <==> MainTabIndex(next) > MainTabIndex(prev))
    ensures prev in MainTabs && next !in MainTabs ==> t == SlideEnterRight
    ensures prev !in MainTabs && next in MainTabs ==> t == SlideEnterLeft
    ensures prev !in MainTabs && next !in MainTabs ==> t == SlideEnterRight
  {
    var prevIndex := MainTabIndex(prev);
    var nextIndex := MainTabIndex(next);
    if prevIndex != -1 && nextIndex != -1 then
      (if nextIndex > prevIndex then SlideEnterRight else SlideEnterLeft)
    else if prevIndex != -1 then SlideEnterRight
    else if nextIndex != -1 then SlideEnterLeft
    else SlideEnterRight
  }

  /** Opening a detail screen from a tab and going back to that tab slide
      in opposite directions, and moving between two tabs and back does too. */
  lemma TransitionsReverse(a: ViewState, b: ViewState)
    requires a != b
    ensures a in MainTabs && b !in MainTabs ==>
      TransitionFor(a, b) == SlideEnterRight && TransitionFor(b, a) == SlideEnterLeft
    ensures a in MainTabs && b in MainTabs ==> TransitionFor(a, b) != TransitionFor(b, a)
  {
    if a in MainTabs && b in MainTabs {
      assert MainTabs[MainTabIndex(a)] == a && MainTabs[MainTabIndex(b)] == b;
    }
  }

  /** One touch position. */
  datatype Point = Point(x: int, y: int)

  const MinSwipeDistance: int := 50

  function Abs(n: int): nat
  {
    if n < 0 then -n else n
  }

  /** The tab a finished swipe moves to, if any: only on iOS, only when the
      swipe is not mostly vertical and longer than `MinSwipeDistance`, and
      only from one of the swipe tabs. A left swipe (finger moving left)
      goes to the next tab, a right swipe to the previous one. */
  function SwipeTarget(onIos: bool, current: ViewState, start: Point, end: Point): (r: Option<ViewState>)
    ensures r.Some? ==> onIos && current in SwipeTabs && r.value in SwipeTabs && r.value != current
  {
    var distanceX := start.x - end.x;
    var distanceY := start.y - end.y;
    if Abs(distanceY) > Abs(distanceX) || !onIos then None
    else
      var currentIndex := SwipeTabIndex(current);
      if currentIndex == -1 then None
      else if distanceX > MinSwipeDistance && currentIndex < |SwipeTabs| - 1 then Some(SwipeTabs[currentIndex + 1])
      else if distanceX < -MinSwipeDistance && currentIndex > 0 then Some(SwipeTabs[currentIndex - 1])
      else None
  }

  /** A swipe moves exactly one place along the swipe tabs, in the swipe's
      direction, and never past either end; it does nothing off iOS, for a
      vertical-dominant swipe or one of at most `MinSwipeDistance`
      sideways, or off the swipe tabs. */
  lemma SwipeMovesOneTab(onIos: bool, current: ViewState, start: Point, end: Point)
    ensures var r := SwipeTarget(onIos, current, start, end);
      var dx := start.x - end.x;
      && ((!onIos || current !in SwipeTabs || Abs(start.y - end.y) > Abs(dx) || Abs(dx) <= MinSwipeDistance) ==> r == None)
      && (r.Some? ==> current in SwipeTabs && r.value in SwipeTabs)
      && (r.Some? && dx > 0 ==> SwipeTabIndex(r.value) == SwipeTabIndex(current) + 1)
      && (r.Some? && dx < 0 ==> SwipeTabIndex(r.value) == SwipeTabIndex(current) - 1)
      && (onIos && current in SwipeTabs && Abs(start.y - end.y) <= Abs(dx) ==>
            (dx > MinSwipeDistance && current != Profile ==> r.Some?)
            && (dx < -MinSwipeDistance && current != Home ==> r.Some?))
  {
  }

  /** A swipe to the next tab slides in from the right, to the previous tab
      from the left: the swipe tabs keep the tab-bar order. */
  lemma SwipeTransition(onIos: bool, current: ViewState, start: Point, end: Point)
    requires SwipeTarget(onIos, current, start, end).Some?
    ensures var next := SwipeTarget(onIos, current, start, end).value;
      TransitionFor(current, next) == if start.x - end.x > 0 then SlideEnterRight else SlideEnterLeft
  {
  }

  /** The transition `handleNavigate` picks, computed as the code does. */
  method ChooseTransition(prev: ViewState, next: ViewState) returns (newTransition: Transition)
    ensures newTransition == TransitionFor(prev, next)
  {
    var prevIndex := MainTabIndex(prev);
    var nextIndex := MainTabIndex(next);
    newTransition := FadeIn;
    if prevIndex != -1 && nextIndex != -1 {
      if nextIndex > prevIndex {
        newTransition := SlideEnterRight;
      } else {
        newTransition := SlideEnterLeft;
      }
    } else if prevIndex != -1 && nextIndex == -1 {
      newTransition := SlideEnterRight;
    } else if prevIndex == -1 && nextIndex != -1 {
      newTransition := SlideEnterLeft;
    } else {
      newTransition := SlideEnterRight;
    }
    assert newTransition == TransitionFor(prev, next);
  }

  /** What a screen is opened with (`navigationPayload`). */
  datatype Payload = NoPayload | SpecialistPayload(specialist: Specialist) | OtherPayload(tag: string)

  // ----- payments -----

  const CreditsProductId: string := "x5_credits_1000"
  const MonthlyProductId: string := "x5_pro_monthly"
  const YearlyProductId: string := "x5_pro_yearly"

  /** What a payment grants: credits, a plan, months of subscription, its
      type, and the amount recorded in USD. */
  datatype Grant = Grant(reward: nat, plan: Option<Plan>, months: nat, kind: Option<SubscriptionType>, amount: int)

  /** The grant for a product id. A subscription bought while one is
      active gives no credits, except a yearly one bought over a monthly
      one; an unknown id is treated as the monthly plan. */
  function GrantFor(productId: string, active: bool, current: Option<SubscriptionType>): (g: Grant)
    ensures g.plan.None? <==> productId == CreditsProductId
    ensures g.plan.Some? ==> g.plan == Some(Pro) && g.months > 0 && g.kind.Some?
    ensures g.reward == 0 ==> active
    ensures g.amount > 0
  {
    if productId == CreditsProductId then Grant(1000, None, 0, None, 9)
    else if productId == MonthlyProductId then Grant(if active then 0 else 1000, Some(Pro), 1, Some(Monthly), 19)
    else if productId == YearlyProductId then
      Grant(if !active || current == Some(Monthly) then 12000 else 0, Some(Pro), 12, Some(Yearly), 199)
    else Grant(if active then 0 else 1000, Some(Pro), 1, Some(Monthly), 19)
  }

  /** The branch of `onAppPaymentSuccess` that decides, from the product
      id and the current subscription, what a payment grants. */
  method ChooseGrant(productId: string, hasActiveSubscription: bool, currentType: Option<SubscriptionType>) returns (g: Grant)
    ensures g == GrantFor(productId, hasActiveSubscription, currentType)
  {
    var newCreditsReward := 0;
    var newPlan: Option<Plan> := None;
    var subscriptionDurationMonths := 0;
    var newSubscriptionType: Option<SubscriptionType> := None;
    var purchaseAmount := 0;
    if productId == CreditsProductId {
      newCreditsReward := 1000;
      purchaseAmount := 9;
    } else if productId == MonthlyProductId {
      if !hasActiveSubscription {
        newCreditsReward := 1000;
      }
      newPlan := Some(Pro);
      newSubscriptionType := Some(Monthly);
      subscriptionDurationMonths := 1;
      purchaseAmount := 19;
    } else if productId == YearlyProductId {
      var isUpgrade := hasActiveSubscription && currentType == Some(Monthly);
      if !hasActiveSubscription || isUpgrade {
        newCreditsReward := 12000;
      }
      newPlan := Some(Pro);
      newSubscriptionType := Some(Yearly);
      subscriptionDurationMonths := 12;
      purchaseAmount := 199;
    } else {
      if !hasActiveSubscription {
        newCreditsReward := 1000;
      }
      newPlan := Some(Pro);
      newSubscriptionType := Some(Monthly);
      subscriptionDurationMonths := 1;
      purchaseAmount := 19;
    }
    g := Grant(newCreditsReward, newPlan, subscriptionDurationMonths, newSubscriptionType, purchaseAmount);
  }

  /** The amount recorded for a product id. */
  function PurchaseAmount(productId: string): int
  {
    GrantFor(productId, false, None).amount
  }

  /** A renewal counts from the current end date while it has not passed,
      otherwise from now. */
  function RenewalBase(end: Option<int>, now: int): (b: int)
    ensures b >= now
    ensures end.Some? && end.value >= now ==> b == end.value
  {
    if end.Some? && end.value >= now then end.value else now
  }

  /** The user after a payment for `productId` at time `now`; `addMonths`
      stands for `Date.setMonth(getMonth() + n)`. */
  function AfterPayment(u: User, productId: string, now: int, addMonths: (int, nat) -> int): (r: User)
    ensures r.id == u.id && r.credits >= u.credits
    ensures productId != CreditsProductId ==> r.plan == Pro && r.subscriptionEndDate.Some? && r.subscriptionType.Some?
  {
    ApplyGrant(u, GrantFor(productId, SubscriptionActive(u, now), u.subscriptionType), productId, now, addMonths)
  }

  /** The user after a payment that grants `g`. */
  function ApplyGrant(u: User, g: Grant, productId: string, now: int, addMonths: (int, nat) -> int): (r: User)
  {
    u.(credits := u.credits + g.reward,
       plan := if g.plan.Some? then g.plan.value else u.plan,
       subscriptionDate := if g.plan == Some(Pro) then (if u.subscriptionDate.Some? then u.subscriptionDate else Some(now)) else u.subscriptionDate,
       subscriptionEndDate := if g.months > 0 then Some(addMonths(RenewalBase(u.subscriptionEndDate, now), g.months)) else u.subscriptionEndDate,
       subscriptionType := if g.kind.Some? then g.kind else u.subscriptionType,
       purchaseHistory := u.purchaseHistory + [PurchaseRecord(productId, now, g.amount, "USD")])
  }

  /** The user record `onAppPaymentSuccess` builds, computed step by step
      as the code does: the grant, the renewal base, the new end date and
      the purchase record. */
  method PaidUser(currentUser: User, productId: string, now: int, addMonths: (int, nat) -> int) returns (r: User)
    ensures r == AfterPayment(currentUser, productId, now, addMonths)
  {
    var hasActiveSubscription := currentUser.plan == Pro && currentUser.subscriptionEndDate.Some?
                                 && currentUser.subscriptionEndDate.value > now;
    assert hasActiveSubscription == SubscriptionActive(currentUser, now);
    var grant := ChooseGrant(productId, hasActiveSubscription, currentUser.subscriptionType);
    var newCreditsReward := grant.reward;
    var newPlan := grant.plan;
    var subscriptionDurationMonths := grant.months;
    var newSubscriptionType := grant.kind;
    var purchaseAmount := grant.amount;
    var newSubscriptionEndDate := if currentUser.subscriptionEndDate.Some? then currentUser.subscriptionEndDate.value else now;
    if newSubscriptionEndDate < now {
      newSubscriptionEndDate := now;
    }
    assert newSubscriptionEndDate == RenewalBase(currentUser.subscriptionEndDate, now);
    if subscriptionDurationMonths > 0 {
      newSubscriptionEndDate := addMonths(newSubscriptionEndDate, subscriptionDurationMonths);
    }
    var purchaseRecord := PurchaseRecord(productId, now, purchaseAmount, "USD");
    r := currentUser.(
      credits := currentUser.credits + newCreditsReward,
      plan := if newPlan.Some? then newPlan.value else currentUser.plan,
      subscriptionDate := if newPlan == Some(Pro) then (if currentUser.subscriptionDate.Some? then currentUser.subscriptionDate else Some(now)) else currentUser.subscriptionDate,
      subscriptionEndDate := if subscriptionDurationMonths > 0 then Some(newSubscriptionEndDate) else currentUser.subscriptionEndDate,
      subscriptionType := if newSubscriptionType.Some? then newSubscriptionType else currentUser.subscriptionType,
      purchaseHistory := currentUser.purchaseHistory + [purchaseRecord]);
    assert r == ApplyGrant(currentUser, grant, productId, now, addMonths);
  }

  /** Every payment appends exactly one record, keeps the earlier history,
      never lowers credits, and leaves identity, purchases and profile alone. */
  lemma PaymentAppendsRecord(u: User, productId: string, now: int, addMonths: (int, nat) -> int)
    ensures var r := AfterPayment(u, productId, now, addMonths);
      && |r.purchaseHistory| == |u.purchaseHistory| + 1
      && r.purchaseHistory[..|u.purchaseHistory|] == u.purchaseHistory
      && r.purchaseHistory[|u.purchaseHistory|] == PurchaseRecord(productId, now, PurchaseAmount(productId), "USD")
      && r.credits >= u.credits
      && r.id == u.id && r.name == u.name && r.isGuest == u.isGuest
      && r.purchasedCourseIds == u.purchasedCourseIds
  {
    var r := AfterPayment(u, productId, now, addMonths);
    assert r.purchaseHistory[..|u.purchaseHistory|] == u.purchaseHistory;
  }

  /** The credits pack adds 1000 credits, records 9 USD, and changes no
      part of the subscription. */
  lemma CreditsPurchase(u: User, now: int, addMonths: (int, nat) -> int)
    ensures var r := AfterPayment(u, CreditsProductId, now, addMonths);
      && r.credits == u.credits + 1000
      && r.plan == u.plan && r.subscriptionType == u.subscriptionType
      && r.subscriptionEndDate == u.subscriptionEndDate && r.subscriptionDate == u.subscriptionDate
      && r.purchaseHistory == u.purchaseHistory + [PurchaseRecord(CreditsProductId, now, 9, "USD")]
  {
  }

  /** The monthly plan, and any unknown product id: plan `pro`, type
      monthly, 19 USD, 1000 credits only without an active subscription,
      and one month more counted from the renewal base. */
  lemma MonthlyPurchase(u: User, productId: string, now: int, addMonths: (int, nat) -> int)
    requires productId != CreditsProductId && productId != YearlyProductId
    ensures var r := AfterPayment(u, productId, now, addMonths);
      && r.plan == Pro && r.subscriptionType == Some(Monthly)
      && r.credits == u.credits + (if SubscriptionActive(u, now) then 0 else 1000)
      && r.subscriptionEndDate == Some(addMonths(RenewalBase(u.subscriptionEndDate, now), 1))
      && r.subscriptionDate == (if u.subscriptionDate.Some? then u.subscriptionDate else Some(now))
      && r.purchaseHistory[|u.purchaseHistory|].amount == 19
  {
  }

  /** The yearly plan: 12000 credits without an active subscription or over
      a monthly one, none over an active yearly or untyped one; plan `pro`,
      type yearly, 199 USD, twelve months more. */
  lemma YearlyPurchase(u: User, now: int, addMonths: (int, nat) -> int)
    ensures var r := AfterPayment(u, YearlyProductId, now, addMonths);
      && r.plan == Pro && r.subscriptionType == Some(Yearly)
      && (r.credits == u.credits + 12000 <==> !SubscriptionActive(u, now) || u.subscriptionType == Some(Monthly))
      && (r.credits == u.credits <==> SubscriptionActive(u, now) && u.subscriptionType != Some(Monthly))
      && r.subscriptionEndDate == Some(addMonths(RenewalBase(u.subscriptionEndDate, now), 12))
      && r.purchaseHistory[|u.purchaseHistory|].amount == 199
  {
  }

  /** With a calendar that moves time forward, a subscription payment
      leaves an active subscription behind. */
  lemma PaymentActivates(u: User, productId: string, now: int, addMonths: (int, nat) -> int)
    requires productId != CreditsProductId
    requires forall t, m :: m > 0 ==> addMonths(t, m) > t
    ensures SubscriptionActive(AfterPayment(u, productId, now, addMonths), now)
  {
    var g := GrantFor(productId, SubscriptionActive(u, now), u.subscriptionType);
    assert g.months > 0;
    assert addMonths(RenewalBase(u.subscriptionEndDate, now), g.months) > RenewalBase(u.subscriptionEndDate, now);
  }

  // ----- the remote user record -----

  /** The fields of a `users/{id}` record the shell reads and writes. An
      absent field is `None` or empty. */
  datatype UserDoc = UserDoc(
    credits: int,
    plan: Option<Plan>,
    subscriptionDate: Option<int>,
    subscriptionEndDate: Option<int>,
    subscriptionType: Option<SubscriptionType>,
    purchaseHistory: seq<PurchaseRecord>,
    purchasedCourseIds: seq<string>)

  const EmptyDoc: UserDoc := UserDoc(0, None, None, None, None, [], [])

  /** The merge write after a payment: the user's credits, plan,
      subscription fields and history replace the stored ones; the stored
      course purchases are kept. */
  function WithPayment(doc: UserDoc, u: User): (d: UserDoc)
    ensures d.purchasedCourseIds == doc.purchasedCourseIds
    ensures d.credits == u.credits && d.plan == Some(u.plan) && d.purchaseHistory == u.purchaseHistory
  {
    doc.(credits := u.credits, plan := Some(u.plan), subscriptionDate := u.subscriptionDate,
         subscriptionEndDate := u.subscriptionEndDate, subscriptionType := u.subscriptionType,
         purchaseHistory := u.purchaseHistory)
  }

  /** `arrayUnion`: appends `x` unless it is already there. */
  function ArrayUnion(s: seq<string>, x: string): (r: seq<string>)
    ensures x in r && (forall y :: y in r <==> y in s || y == x)
    ensures x in s ==> r == s
  {
    if x in s then s else s + [x]
  }

  /** No id occurs twice. */
  predicate NoDuplicates(s: seq<string>)
  {
    forall i, j :: 0 <= i < j < |s| ==> s[i] != s[j]
  }

  /** `arrayUnion` keeps a list free of duplicates. */
  lemma ArrayUnionNoDuplicates(s: seq<string>, x: string)
    requires NoDuplicates(s)
    ensures NoDuplicates(ArrayUnion(s, x))
  {
  }

  /** `deductCredits` syncs with the store only for a real account: a
      non-empty id that does not start with `guest-`. */
  predicate SyncsCredits(id: string)
  {
    id != "" && !StartsWith(id, "guest-")
  }

  /** How `deductCredits` ends. */
  datatype DeductOutcome = DeductedLocally | DeductedAndSynced | Reverted

  /** How `handleInitiateCoursePurchase` ends. */
  datatype CoursePurchaseOutcome =
    | AlreadyPurchased             // "Курс уже куплен"
    | Bought(saved: bool)          // credits spent; `saved`: the store transaction went through
    | PurchaseCancelled
    | SentToPaywall
    | PaywallDeclined

  /** The shell's state: the user, the screen and its transition, and the
      store's user records. */
  class AppState {
    var user: User
    var currentView: ViewState
    var transition: Transition
    var payload: Payload
    var initialPrompt: string
    var tabBarVisible: bool
    var activeSpecialist: Option<Specialist>
    var pendingCourse: Option<Course>
    var onIos: bool
    var touchStart: Option<Point>
    var touchEnd: Option<Point>
    var remote: map<string, UserDoc>

    /** A fresh shell: the guest on the home screen. */
    constructor (onIos: bool, remote: map<string, UserDoc>)
      ensures user == GuestUser && currentView == Home && transition == FadeIn
      ensures payload == NoPayload && initialPrompt == "" && tabBarVisible
      ensures activeSpecialist == None && pendingCourse == None
      ensures this.onIos == onIos && touchStart == None && touchEnd == None && this.remote == remote
    {
      user := GuestUser;
      currentView := Home;
      transition := FadeIn;
      payload := NoPayload;
      initialPrompt := "";
      tabBarVisible := true;
      activeSpecialist := None;
      pendingCourse := None;
      this.onIos := onIos;
      touchStart := None;
      touchEnd := None;
      this.remote := remote;
    }

    /** `handleNavigate`. */
    method HandleNavigate(view: ViewState, p: Payload)
      modifies this
      ensures unchanged(this`user, this`pendingCourse, this`remote)
      ensures unchanged(this`onIos, this`touchStart, this`touchEnd)
      ensures currentView == view && transition == TransitionFor(old(currentView), view)
      ensures payload == p && initialPrompt == ""
      ensures view.Chat? && p.SpecialistPayload? && p.specialist.id != "" ==>
        activeSpecialist == Some(p.specialist) && !tabBarVisible
      ensures view.Chat? && !(p.SpecialistPayload? && p.specialist.id != "") ==>
        activeSpecialist == None && tabBarVisible
      ensures !view.Chat? ==> activeSpecialist == old(activeSpecialist) && tabBarVisible
    {
      var newTransition := ChooseTransition(currentView, view);
      var specialist := activeSpecialist;
      var showTabBar := true;
      if view.Chat? {
        if p.SpecialistPayload? && p.specialist.id != "" {
          specialist := Some(p.specialist);
          showTabBar := false;
        } else {
          specialist := None;
        }
      }
      transition := newTransition;
      payload := p;
      initialPrompt := "";
      activeSpecialist := specialist;
      tabBarVisible := showTabBar;
      currentView := view;
    }

    method OnTouchStart(at: Point)
      modifies this
      ensures unchanged(this`user, this`currentView, this`transition)
      ensures unchanged(this`payload, this`initialPrompt, this`tabBarVisible)
      ensures unchanged(this`activeSpecialist, this`pendingCourse)
      ensures unchanged(this`onIos, this`remote)
      ensures touchStart == Some(at) && touchEnd == None
    {
      touchEnd := None;
      touchStart := Some(at);
    }

    method OnTouchMove(at: Point)
      modifies this
      ensures unchanged(this`user, this`currentView, this`transition)
      ensures unchanged(this`payload, this`initialPrompt, this`tabBarVisible)
      ensures unchanged(this`activeSpecialist, this`pendingCourse)
      ensures unchanged(this`onIos, this`remote)
      ensures touchEnd == Some(at) && touchStart == old(touchStart)
    {
      touchEnd := Some(at);
    }

    /** `onTouchEnd`: navigates to the swipe target, if there is one. */
    method OnTouchEnd()
      modifies this
      ensures unchanged(this`user, this`activeSpecialist, this`remote)
      ensures unchanged(this`pendingCourse, this`onIos)
      ensures unchanged(this`touchStart, this`touchEnd)
      ensures var target := if old(touchStart).Some? && old(touchEnd).Some?
                            then SwipeTarget(old(onIos), old(currentView), old(touchStart).value, old(touchEnd).value)
                            else None;
        && (target.Some? ==> currentView == target.value && transition == TransitionFor(old(currentView), target.value)
                             && payload == NoPayload && initialPrompt == "" && tabBarVisible)
        && (target.None? ==> currentView == old(currentView) && transition == old(transition)
                             && payload == old(payload) && initialPrompt == old(initialPrompt)
                             && tabBarVisible == old(tabBarVisible))
    {
      if touchStart.None? || touchEnd.None? {
        return;
      }
      var target := SwipeTarget(onIos, currentView, touchStart.value, touchEnd.value);
      if target.Some? {
        HandleNavigate(target.value, NoPayload);
      }
    }

    /** `handleLogin`: a signed-in user starts on the free plan with no
        credits and no purchases. */
    method HandleLogin(newUser: User)
      modifies this
      ensures unchanged(this`transition, this`payload, this`initialPrompt)
      ensures unchanged(this`tabBarVisible, this`activeSpecialist)
      ensures unchanged(this`onIos, this`touchStart, this`touchEnd)
      ensures user == newUser.(plan := Free, credits := 0, purchasedCourseIds := [])
      ensures currentView == Home && remote == old(remote) && pendingCourse == old(pendingCourse)
    {
      user := newUser.(plan := Free, credits := 0, purchasedCourseIds := []);
      currentView := Home;
    }

    /** `handleLogout`. */
    method HandleLogout()
      modifies this
      ensures unchanged(this`transition, this`payload, this`initialPrompt)
      ensures unchanged(this`tabBarVisible, this`activeSpecialist)
      ensures unchanged(this`onIos, this`touchStart, this`touchEnd)
      ensures user == GuestUser && currentView == Home && remote == old(remote) && pendingCourse == old(pendingCourse)
    {
      user := GuestUser;
      currentView := Home;
    }

    /** `checkUsageAndProceed` (cost 5 by default): whether the user can
        afford `cost`. It changes nothing. */
    method CheckUsageAndProceed(cost: int) returns (ok: bool)
      ensures ok <==> user.credits >= cost
    {
      ok := !(user.credits < cost);
    }

    /** `deductCredits`: the local balance drops at once; for a real
        account a transaction then lowers the stored balance, refusing when
        it is below `cost`; on any failure the local balance is put back. */
    method DeductCredits(cost: int, txFails: bool) returns (outcome: DeductOutcome)
      modifies this
      ensures unchanged(this`currentView, this`pendingCourse)
      ensures unchanged(this`transition, this`payload, this`initialPrompt)
      ensures unchanged(this`tabBarVisible, this`activeSpecialist)
      ensures unchanged(this`onIos, this`touchStart, this`touchEnd)
      ensures var id := old(user).id;
        var stored := if id in old(remote) then old(remote)[id].credits else 0;
        && (outcome == DeductedLocally <==> !SyncsCredits(id))
        && (outcome == DeductedAndSynced <==> SyncsCredits(id) && !txFails && id in old(remote) && stored >= cost)
        && (outcome == DeductedAndSynced ==> remote == old(remote)[id := old(remote)[id].(credits := stored - cost)])
        && (outcome != DeductedAndSynced ==> remote == old(remote))
      ensures user == old(user).(credits := if outcome == Reverted then old(user).credits else old(user).credits - cost)
    {
      var original := user.credits;
      var newAmount := original - cost;
      user := user.(credits := newAmount);
      outcome := DeductedLocally;
      if user.id != "" && !StartsWith(user.id, "guest-") {
        var id := user.id;
        var currentCredits := if id in remote then remote[id].credits else 0;
        if txFails || id !in remote || currentCredits < cost {
          user := user.(credits := original);
          outcome := Reverted;
        } else {
          remote := remote[id := remote[id].(credits := currentCredits - cost)];
          outcome := DeductedAndSynced;
        }
      }
    }

    /** `handleInitiateCoursePurchase`. `confirmed` is the answer to the
        dialog that is shown (buy, or top up); `txFails` makes the store
        transaction fail. */
    method HandleInitiateCoursePurchase(course: Course, confirmed: bool, txFails: bool)
      returns (outcome: CoursePurchaseOutcome)
      modifies this
      ensures unchanged(this`transition, this`payload, this`initialPrompt)
      ensures unchanged(this`tabBarVisible, this`activeSpecialist)
      ensures unchanged(this`onIos, this`touchStart, this`touchEnd)
      ensures outcome == AlreadyPurchased <==> course.id in old(user).purchasedCourseIds
      ensures outcome.Bought? <==>
        course.id !in old(user).purchasedCourseIds && old(user).credits >= course.price && confirmed
      ensures outcome == SentToPaywall <==>
        course.id !in old(user).purchasedCourseIds && old(user).credits < course.price && confirmed
      ensures outcome.Bought? ==>
        && user == old(user).(credits := old(user).credits - course.price,
                              purchasedCourseIds := old(user).purchasedCourseIds + [course.id])
        && pendingCourse == Some(course) && currentView == Success
        && (outcome.saved <==> !txFails && old(user).id in old(remote))
        && remote == (if outcome.saved then
                        old(remote)[old(user).id := old(remote)[old(user).id].(
                          credits := old(remote)[old(user).id].credits - course.price,
                          purchasedCourseIds := ArrayUnion(old(remote)[old(user).id].purchasedCourseIds, course.id))]
                      else old(remote))
      ensures !outcome.Bought? ==> user == old(user) && remote == old(remote) && pendingCourse == old(pendingCourse)
      ensures outcome == SentToPaywall ==> currentView == PaywallScreen
      ensures !outcome.Bought? && outcome != SentToPaywall ==> currentView == old(currentView)
    {
      var u, rem, pend, view := user, remote, pendingCourse, currentView;
      if course.id in u.purchasedCourseIds {
        outcome := AlreadyPurchased;
      } else if u.credits >= course.price {
        if confirmed {
          var id := u.id;
          u := u.(credits := u.credits - course.price,
                  purchasedCourseIds := u.purchasedCourseIds + [course.id]);
          var saved := false;
          if !txFails && id in rem {
            var doc := rem[id];
            rem := rem[id := doc.(credits := doc.credits - course.price,
                                  purchasedCourseIds := ArrayUnion(doc.purchasedCourseIds, course.id))];
            saved := true;
          }
          pend := Some(course);
          view := Success;
          outcome := Bought(saved);
        } else {
          outcome := PurchaseCancelled;
        }
      } else if confirmed {
        view := PaywallScreen;
        outcome := SentToPaywall;
      } else {
        outcome := PaywallDeclined;
      }
      user, remote, pendingCourse, currentView := u, rem, pend, view;
    }

    /** `handleCoursePurchaseSuccess`: after an external payment, the pending
        course is added to the purchases (without a check for an id already
        there) and the list is saved. */
    method HandleCoursePurchaseSuccess(writeFails: bool)
      modifies this
      ensures unchanged(this`transition, this`payload, this`initialPrompt)
      ensures unchanged(this`tabBarVisible, this`activeSpecialist)
      ensures unchanged(this`onIos, this`touchStart, this`touchEnd)
      ensures old(pendingCourse).None? ==>
        user == old(user) && remote == old(remote) && currentView == old(currentView) && pendingCourse == None
      ensures old(pendingCourse).Some? ==>
        var ids := old(user).purchasedCourseIds + [old(pendingCourse).value.id];
        && user == old(user).(purchasedCourseIds := ids)
        && remote == (if writeFails then old(remote)
                      else old(remote)[old(user).id := (if old(user).id in old(remote) then old(remote)[old(user).id] else EmptyDoc).(purchasedCourseIds := ids)])
        && pendingCourse == None && currentView == Success
    {
      if pendingCourse.Some? {
        var newPurchases := user.purchasedCourseIds + [pendingCourse.value.id];
        user := user.(purchasedCourseIds := newPurchases);
        if !writeFails {
          var doc := if user.id in remote then remote[user.id] else EmptyDoc;
          remote := remote[user.id := doc.(purchasedCourseIds := newPurchases)];
        }
        pendingCourse := None;
        currentView := Success;
      }
    }

    /** `handleGeneralPaymentSuccess`: 1000 credits and the `pro` plan. */
    method HandleGeneralPaymentSuccess()
      modifies this
      ensures unchanged(this`transition, this`payload, this`initialPrompt)
      ensures unchanged(this`tabBarVisible, this`activeSpecialist)
      ensures unchanged(this`onIos, this`touchStart, this`touchEnd)
      ensures user == old(user).(credits := old(user).credits + 1000, plan := Pro)
      ensures currentView == Success && remote == old(remote) && pendingCourse == old(pendingCourse)
    {
      user := user.(credits := user.credits + 1000, plan := Pro);
      currentView := Success;
    }

    /** `onAppPaymentSuccess`: the native shell reports a payment. The user
        is updated by the product's grant and the subscription-related
        fields are merged into the stored record (unless that write fails). */
    method OnAppPaymentSuccess(productId: string, now: int, addMonths: (int, nat) -> int, writeFails: bool)
      modifies this
      ensures unchanged(this`transition, this`payload, this`initialPrompt)
      ensures unchanged(this`tabBarVisible, this`activeSpecialist)
      ensures unchanged(this`onIos, this`touchStart, this`touchEnd)
      ensures user == AfterPayment(old(user), productId, now, addMonths)
      ensures remote == if writeFails then old(remote) else
        old(remote)[old(user).id := WithPayment(if old(user).id in old(remote) then old(remote)[old(user).id] else EmptyDoc, user)]
      ensures currentView == Success && pendingCourse == None
    {
      var currentUser := user;
      user := PaidUser(currentUser, productId, now, addMonths);
      if !writeFails {
        var doc := if currentUser.id in remote then remote[currentUser.id] else EmptyDoc;
        remote := remote[currentUser.id := WithPayment(doc, user)];
      }
      currentView := Success;
      pendingCourse := None;
    }
  }

  /** A confirmed purchase of a course not yet owned keeps the purchase list
      free of duplicates, locally and in the store. */
  lemma PurchaseKeepsNoDuplicates(ids: seq<string>, stored: seq<string>, courseId: string)
    requires NoDuplicates(ids) && NoDuplicates(stored) && courseId !in ids
    ensures NoDuplicates(ids + [courseId])
    ensures NoDuplicates(ArrayUnion(stored, courseId))
  {
  }
}
