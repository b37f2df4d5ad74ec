/** The home screen (web/src/views/HomeView.tsx): the giveaway number
    randomiser, the banner carousel and the gating of pro tools. */
module Home {
  import opened Types
  import opened Random
  import App

  // ----- the randomiser -----

  /** `Math.floor(Math.random() * (max - min + 1)) + min`. */
  function RandomPick(min: int, max: int, r: real): (k: int)
    requires IsDraw(r) && min <= max
    ensures min <= k <= max
  {
    DrawIndex(r, max - min + 1) + min
  }

  /** Every number of the range can come up. */
  lemma RandomPickOnto(min: int, max: int, k: int)
    requires min <= k <= max
    ensures var r := (k - min) as real / (max - min + 1) as real;
      IsDraw(r) && RandomPick(min, max, r) == k
  {
    DrawIndexOnto(k - min, max - min + 1);
  }

  /** How many animation ticks show a number before the final draw. */
  const SpinTicks: nat := 16

  /** The randomiser panel. `spinMin` and `spinMax` are the bounds the
      running animation was started with. */
  class Randomizer {
    var minNum: int
    var maxNum: int
    var randomResult: Option<int>
    var isSpinning: bool
    var showRandomizer: bool
    var spinMin: int
    var spinMax: int
    var count: nat

    /** While spinning, the bounds the animation uses are a proper range,
        fewer than `SpinTicks` ticks have passed, and any number shown lies
        in that range. */
    predicate Valid()
      reads this
    {
      && (isSpinning ==> spinMin < spinMax && count < SpinTicks)
      && (randomResult.Some? ==> spinMin <= randomResult.value <= spinMax)
    }

    constructor ()
      ensures Valid() && minNum == 1 && maxNum == 100 && randomResult == None && !isSpinning && !showRandomizer
    {
      minNum := 1;
      maxNum := 100;
      randomResult := None;
      isSpinning := false;
      showRandomizer := false;
      spinMin := 1;
      spinMax := 100;
      count := 0;
    }

    /** `openRandomizer`: the panel opens with no number shown. */
    method OpenRandomizer()
      requires Valid()
      modifies this
      ensures Valid() && showRandomizer && randomResult == None
      ensures minNum == old(minNum) && maxNum == old(maxNum) && isSpinning == old(isSpinning)
      ensures spinMin == old(spinMin) && spinMax == old(spinMax) && count == old(count)
    {
      showRandomizer := true;
      randomResult := None;
    }

    /** Editing a bound: an unparsable entry reads as 0. A running
        animation keeps the bounds it started with. */
    method SetBounds(min: Option<int>, max: Option<int>)
      requires Valid()
      modifies this
      ensures Valid()
      ensures minNum == (if min.Some? then min.value else 0) && maxNum == (if max.Some? then max.value else 0)
      ensures randomResult == old(randomResult) && isSpinning == old(isSpinning)
      ensures spinMin == old(spinMin) && spinMax == old(spinMax) && count == old(count)
      ensures showRandomizer == old(showRandomizer)
    {
      minNum := if min.Some? then min.value else 0;
      maxNum := if max.Some? then max.value else 0;
    }

    /** Whether the spin button is enabled. */
    predicate CanSpin()
      reads this
    {
      !isSpinning && minNum < maxNum
    }

    /** `handleRandomize`: nothing happens unless `minNum < maxNum`;
        otherwise the result is cleared and the animation starts with the
        current bounds. */
    method HandleRandomize()
      requires Valid()
      modifies this
      ensures Valid()
      ensures old(minNum) >= old(maxNum) ==>
        randomResult == old(randomResult) && isSpinning == old(isSpinning) && count == old(count)
        && spinMin == old(spinMin) && spinMax == old(spinMax)
      ensures old(minNum) < old(maxNum) ==>
        randomResult == None && isSpinning && count == 0 && spinMin == old(minNum) && spinMax == old(maxNum)
      ensures minNum == old(minNum) && maxNum == old(maxNum) && showRandomizer == old(showRandomizer)
    {
      if minNum >= maxNum {
        return;
      }
      isSpinning := true;
      randomResult := None;
      spinMin := minNum;
      spinMax := maxNum;
      count := 0;
    }

    /** One animation tick with draw `r`: a number of the range is shown;
        on the last tick a final draw `last` is shown and the animation
        stops. */
    method Tick(r: real, last: real)
      requires Valid() && isSpinning && IsDraw(r) && IsDraw(last)
      modifies this
      ensures Valid()
      ensures spinMin == old(spinMin) && spinMax == old(spinMax)
      ensures old(count) + 1 < SpinTicks ==>
        isSpinning && count == old(count) + 1 && randomResult == Some(RandomPick(spinMin, spinMax, r))
      ensures old(count) + 1 == SpinTicks ==>
        !isSpinning && count == 0 && randomResult == Some(RandomPick(spinMin, spinMax, last))
      ensures minNum == old(minNum) && maxNum == old(maxNum) && showRandomizer == old(showRandomizer)
    {
      randomResult := Some(RandomPick(spinMin, spinMax, r));
      count := count + 1;
      if count > SpinTicks - 1 {
        count := 0;
        randomResult := Some(RandomPick(spinMin, spinMax, last));
        isSpinning := false;
      }
    }

    /** A whole spin, tick after tick until the animation stops: it stops
        after exactly `SpinTicks` ticks and ends on the final draw, which
        lies in the range the spin started with. */
    method Spin(draws: seq<real>, last: real)
      requires Valid() && isSpinning && count == 0 && |draws| == SpinTicks && IsDraw(last)
      requires forall i :: 0 <= i < |draws| ==> IsDraw(draws[i])
      modifies this
      ensures Valid() && !isSpinning
      ensures randomResult == Some(RandomPick(old(spinMin), old(spinMax), last))
      ensures spinMin <= randomResult.value <= spinMax
      ensures spinMin == old(spinMin) && spinMax == old(spinMax) && count == 0
      ensures minNum == old(minNum) && maxNum == old(maxNum) && showRandomizer == old(showRandomizer)
    {
      var i := 0;
      while isSpinning
        invariant Valid() && 0 <= i <= SpinTicks
        invariant spinMin == old(spinMin) && spinMax == old(spinMax)
        invariant minNum == old(minNum) && maxNum == old(maxNum) && showRandomizer == old(showRandomizer)
        invariant isSpinning ==> count == i && i < SpinTicks
        invariant !isSpinning ==> count == 0 && randomResult == Some(RandomPick(spinMin, spinMax, last))
        decreases SpinTicks - i
      {
        Tick(draws[i], last);
        i := i + 1;
      }
    }
  }

  // ----- the banner carousel -----

  /** The number of banners. */
  const BannerCount: nat := 4

  /** The banner the carousel moves to next, wrapping after the last. */
  function NextIndex(activeIndex: nat): (n: nat)
    ensures n < BannerCount
    ensures activeIndex + 1 < BannerCount ==> n == activeIndex + 1
  {
    (activeIndex + 1) % BannerCount
  }

  /** Every four automatic moves the carousel is back where it started. */
  lemma CarouselCycles(i: nat)
    requires i < BannerCount
    ensures NextIndex(NextIndex(NextIndex(NextIndex(i)))) == i
    ensures NextIndex(i) != i
  {
  }

  /** The automatic scroll every four seconds: the next banner, unless the
      user is touching the carousel. */
  function AutoScrollTarget(activeIndex: nat, isInteracting: bool): (r: Option<nat>)
    ensures r.Some? <==> !isInteracting
    ensures r.Some? ==> r.value == NextIndex(activeIndex)
  {
    if isInteracting then None else Some(NextIndex(activeIndex))
  }

  // ----- pro tools -----

  /** A tool tile shows the lock badge when it is pro and the user is on
      the free plan. With no user there is no plan and nothing is locked. */
  predicate IsLocked(isPro: bool, user: Option<User>)
  {
    isPro && user.Some? && user.value.plan == Free
  }

  /** `handleToolClick`: where a tool tile leads. */
  function ToolDestination(tool: App.ViewState, isPro: bool, user: Option<User>): (v: App.ViewState)
    ensures v == App.PaywallScreen || v == tool
  {
    if isPro && user.Some? && user.value.plan == Free then App.PaywallScreen else tool
  }

  /** A tile sends to the paywall exactly when it shows the lock badge; an
      unlocked tile opens its tool. */
  lemma PaywallExactlyWhenLocked(tool: App.ViewState, isPro: bool, user: Option<User>)
    requires tool != App.PaywallScreen
    ensures ToolDestination(tool, isPro, user) == App.PaywallScreen <==> IsLocked(isPro, user)
    ensures !IsLocked(isPro, user) ==> ToolDestination(tool, isPro, user) == tool
  {
  }

  /** The featured tools and whether each is pro, in grid order. */
  const FeaturedTools: seq<(App.ViewState, bool)> :=
    [(App.Instagram, false), (App.Video, true), (App.Logo, true), (App.Branding, true)]
}
